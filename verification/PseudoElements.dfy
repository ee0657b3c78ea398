/** The start/finish protocol that replaces a pseudo-element by an icon, for one node and one position. */
module PseudoElements {
  import opened Options
  import opened Registry
  import opened Sequences

  /** A child of the node: some other element, or an icon put there for this position. */
  datatype Child = Other(id: int) | Tagged(prefix: string, iconName: string)

  /** The asynchronous end of a replacement: the icon it will insert. */
  datatype Completion = Completion(prefix: string, iconName: string)

  datatype NodeState = NodeState(children: seq<Child>, pending: Option<string>, outstanding: seq<Completion>)

  /** The computed style of the pseudo-element: its prefix when it has an icon font, and its character. */
  datatype Style = Style(hasIconFont: bool, prefix: Option<string>, content: string, hexValue: string)

  datatype Position = Before | After

  const UNTOUCHED := NodeState([], None, [])

  function FirstTagged(children: seq<Child>): Option<nat> {
    if children == [] then None
    else if children[0].Tagged? then Some(0)
    else match FirstTagged(children[1..])
      case None => None
      case Some(i) => Some(i + 1)
  }

  function TaggedCount(children: seq<Child>): nat {
    if children == [] then 0 else TaggedCount(children[..|children| - 1]) + if children[|children| - 1].Tagged? then 1 else 0
  }

  function Without(children: seq<Child>, at: Option<nat>): seq<Child> {
    if at.Some? && at.value < |children| then children[..at.value] + children[at.value + 1..] else children
  }

  /** replaceForPosition up to its asynchronous part. */
  function Start(ns: Namespace, n: NodeState, style: Style, showMissingIcons: bool): NodeState {
    var processed := FirstTagged(n.children);
    if n.pending.Some? then n
    else if processed.Some? && !style.hasIconFont then n.(children := Without(n.children, processed))
    else if style.hasIconFont && style.content != "none" && style.content != "" && style.prefix.Some? then
      var prefix := style.prefix.value;
      match ByUnicode(ns, prefix, style.hexValue)
      case None => n
      case Some(iconName) =>
        if iconName == "" || (processed.Some? && processed.value < |n.children| && n.children[processed.value] == Tagged(prefix, iconName)) then n
        else
          var marked := n.(pending := Some(iconName), children := Without(n.children, processed));
          // findIcon rejects only a missing icon, and only when missing icons are not shown.
          if FindIcon(ns, iconName, prefix).Some? || prefix == "" || showMissingIcons then
            marked.(outstanding := marked.outstanding + [Completion(prefix, iconName)])
          else marked
    else n
  }

  /** The callback of findIcon: inserts the icon and clears the attribute. */
  function Finish(n: NodeState, k: nat, position: Position): NodeState
    requires k < |n.outstanding|
  {
    var icon := Tagged(n.outstanding[k].prefix, n.outstanding[k].iconName);
    NodeState(if position == Before then [icon] + n.children else n.children + [icon], None, n.outstanding[..k] + n.outstanding[k + 1..])
  }

  datatype Event =
    | StartIt(style: Style, showMissingIcons: bool)
    | FinishIt(k: nat)
    | Define(prefix: string, icons: Table<Entry>, skipHooks: bool)
    | AddToLibrary(definitions: seq<Definition>)
    | LoadIt(script: Script)
    | PageAdds(id: int, at: nat)
    | PageRemoves(at: nat)

  datatype System = System(ns: Namespace, node: NodeState)

  function Step(s: System, position: Position, e: Event): System {
    match e
    case StartIt(style, show) => s.(node := Start(s.ns, s.node, style, show))
    case FinishIt(k) => if k < |s.node.outstanding| then s.(node := Finish(s.node, k, position)) else s
    case Define(prefix, icons, skipHooks) => s.(ns := Defined(s.ns, prefix, icons, skipHooks))
    case AddToLibrary(definitions) => s.(ns := AddedAll(s.ns, Pulled(definitions)))
    case LoadIt(script) => s.(ns := Load(s.ns, script))
    case PageAdds(id, at) =>
      if at <= |s.node.children| then s.(node := s.node.(children := s.node.children[..at] + [Other(id)] + s.node.children[at..])) else s
    case PageRemoves(at) => s.(node := s.node.(children := Without(s.node.children, Some(at))))
  }

  function Run(position: Position, es: seq<Event>): System {
    if es == [] then System(NOTHING, UNTOUCHED) else Step(Run(position, es[..|es| - 1]), position, es[|es| - 1])
  }

  // ----- the invariant -----

  /** At most one icon, counting the one on its way; the attribute is set exactly while one is. */
  predicate AtMostOne(n: NodeState) {
    && TaggedCount(n.children) + (if n.pending.Some? then 1 else 0) <= 1
    && |n.outstanding| == (if n.pending.Some? then 1 else 0)
  }

  lemma {:induction false} CountAppend(a: seq<Child>, b: seq<Child>)
    ensures TaggedCount(a + b) == TaggedCount(a) + TaggedCount(b)
  {
    if b == [] {
      assert a + b == a;
    } else {
      var n := |b| - 1;
      assert (a + b)[..|a + b| - 1] == a + b[..n];
      CountAppend(a, b[..n]);
    }
  }

  lemma CountOne(c: Child)
    ensures TaggedCount([c]) == if c.Tagged? then 1 else 0
  {
    assert [c][..0] == [] && TaggedCount([]) == 0;
  }

  lemma {:induction false} FirstIsTagged(children: seq<Child>)
    ensures FirstTagged(children).Some? ==> FirstTagged(children).value < |children| && children[FirstTagged(children).value].Tagged?
    ensures FirstTagged(children).None? <==> TaggedCount(children) == 0
  {
    if children != [] {
      FirstIsTagged(children[1..]);
      assert children == [children[0]] + children[1..];
      CountAppend([children[0]], children[1..]);
      CountOne(children[0]);
    }
  }

  /** Removing a child removes its icon, if it is one. */
  lemma WithoutCounts(children: seq<Child>, at: nat)
    ensures TaggedCount(Without(children, Some(at))) ==
      TaggedCount(children) - if at < |children| && children[at].Tagged? then 1 else 0
  {
    if at < |children| {
      var a, c, b := children[..at], [children[at]], children[at + 1..];
      CountAppend(a, b);
      CountAppend(a, c);
      CountOne(children[at]);
      CountAppend(a + c, b);
      hide TaggedCount;
      SplitAt(children, at);
    }
  }

  lemma SplitAt(children: seq<Child>, at: nat)
    requires at < |children|
    ensures children[..at] + [children[at]] + children[at + 1..] == children
  {}

  lemma StartKeeps(ns: Namespace, n: NodeState, style: Style, show: bool)
    requires NamesAreFound(ns) && AtMostOne(n)
    ensures AtMostOne(Start(ns, n, style, show))
  {
    hide TaggedCount, FirstTagged, Without, NamesAreFound, FindIcon;
    FirstIsTagged(n.children);
    var processed := FirstTagged(n.children);
    if processed.Some? {
      WithoutCounts(n.children, processed.value);
    } else {
      WithoutNone(n.children);
    }
    if style.prefix.Some? && ByUnicode(ns, style.prefix.value, style.hexValue).Some? {
      UnicodeIsFound(ns, style.prefix.value, style.hexValue);
    }
  }

  lemma WithoutNone(children: seq<Child>)
    ensures Without(children, None) == children
  {}

  lemma FinishKeeps(n: NodeState, k: nat, position: Position)
    requires AtMostOne(n) && k < |n.outstanding|
    ensures AtMostOne(Finish(n, k, position))
  {
    var icon := Tagged(n.outstanding[k].prefix, n.outstanding[k].iconName);
    CountAppend([icon], n.children);
    CountAppend(n.children, [icon]);
    CountOne(icon);
    hide TaggedCount;
  }

  lemma PageAddKeeps(children: seq<Child>, id: int, at: nat)
    requires at <= |children|
    ensures TaggedCount(children[..at] + [Other(id)] + children[at..]) == TaggedCount(children)
  {
    var a, b := children[..at], children[at..];
    CountAppend(a, b);
    assert a + b == children;
    CountAppend(a, [Other(id)]);
    CountAppend(a + [Other(id)], b);
    CountOne(Other(id));
  }

  lemma StepKeeps(s: System, position: Position, e: Event)
    requires NamesAreFound(s.ns) && AtMostOne(s.node)
    ensures NamesAreFound(Step(s, position, e).ns) && AtMostOne(Step(s, position, e).node)
  {
    hide NamesAreFound, TaggedCount, Start, Finish, Defined, AddedAll, Load, Without;
    match e
    case StartIt(style, show) => StartKeeps(s.ns, s.node, style, show);
    case FinishIt(k) =>
      if k < |s.node.outstanding| {
        FinishKeeps(s.node, k, position);
      }
    case Define(prefix, icons, skipHooks) => DefineNamesFound(s.ns, prefix, icons, skipHooks);
    case AddToLibrary(definitions) => AddedAllNamesFound(s.ns, Pulled(definitions));
    case LoadIt(script) => LoadNamesFound(s.ns, script);
    case PageAdds(id, at) =>
      if at <= |s.node.children| {
        PageAddKeeps(s.node.children, id, at);
      }
    case PageRemoves(at) => WithoutCounts(s.node.children, at);
  }

  /**
   * Over every interleaving of starts, completions, pack definitions and page changes: the node never
   * has two icons for the position, none is inserted while another is on its way, and the pending
   * attribute is set exactly while one completion is outstanding.
   */
  lemma {:induction false} NeverTwice(position: Position, es: seq<Event>)
    ensures AtMostOne(Run(position, es).node) && NamesAreFound(Run(position, es).ns)
  {
    if es == [] {
    } else {
      hide AtMostOne, NamesAreFound, Step;
      NeverTwice(position, es[..|es| - 1]);
      StepKeeps(Run(position, es[..|es| - 1]), position, es[|es| - 1]);
    }
  }

  // ----- what a replacement does -----

  predicate IsOther(c: Child) {
    c.Other?
  }

  /** The children that are no icon for this position. */
  function Others(children: seq<Child>): seq<Child> {
    Only(children, c => IsOther(c))
  }

  lemma OthersOfOne(c: Child)
    ensures Others([c]) == if c.Other? then [c] else []
  {
    OnlyOfOne(c, x => IsOther(x));
  }

  lemma WithoutKeepsOthers(children: seq<Child>, at: nat)
    requires at < |children| && children[at].Tagged?
    ensures Others(Without(children, Some(at))) == Others(children)
  {
    var a, c, b := children[..at], children[at], children[at + 1..];
    SplitAt(children, at);
    OnlyConcat(a, b, x => IsOther(x));
    OnlyConcat(a, [c], x => IsOther(x));
    OnlyConcat(a + [c], b, x => IsOther(x));
    OthersOfOne(c);
    hide Only;
    assert Others(a) + [] == Others(a);
  }

  lemma StartKeepsOthers(ns: Namespace, n: NodeState, style: Style, show: bool)
    ensures Others(Start(ns, n, style, show).children) == Others(n.children)
  {
    hide Only, TaggedCount, FirstTagged, Without, FindIcon, ByUnicode;
    FirstIsTagged(n.children);
    var processed := FirstTagged(n.children);
    if processed.Some? {
      WithoutKeepsOthers(n.children, processed.value);
    } else {
      WithoutNone(n.children);
    }
  }

  lemma FinishShows(n: NodeState, position: Position)
    requires AtMostOne(n) && |n.outstanding| == 1
    ensures var done, icon := Finish(n, 0, position), Tagged(n.outstanding[0].prefix, n.outstanding[0].iconName);
      && AtMostOne(done) && done.pending == None && TaggedCount(done.children) == 1 && Others(done.children) == Others(n.children)
      && done.children == if position == Before then [icon] + n.children else n.children + [icon]
  {
    FinishKeeps(n, 0, position);
    var icon := Tagged(n.outstanding[0].prefix, n.outstanding[0].iconName);
    CountAppend([icon], n.children);
    CountAppend(n.children, [icon]);
    CountOne(icon);
    OnlyConcat([icon], n.children, x => IsOther(x));
    OnlyConcat(n.children, [icon], x => IsOther(x));
    OthersOfOne(icon);
    hide TaggedCount, Only;
    assert Others(n.children) + [] == Others(n.children) == [] + Others(n.children);
  }

  /** The style asks for an icon that the index knows. */
  predicate Wants(ns: Namespace, style: Style, iconName: string) {
    && style.hasIconFont && style.content != "none" && style.content != ""
    && style.prefix.Some? && style.prefix.value != "" && iconName != ""
    && ByUnicode(ns, style.prefix.value, style.hexValue) == Some(iconName)
  }

  /**
   * A start that is not turned away ends with the icon the style asks for, in its place and alone for
   * the position; the other children stay as they are, in order.
   */
  lemma ReplacementShowsIcon(ns: Namespace, n: NodeState, style: Style, iconName: string, show: bool, position: Position)
    requires NamesAreFound(ns) && AtMostOne(n) && n.pending.None? && Wants(ns, style, iconName)
    ensures var m, icon := Start(ns, n, style, show), Tagged(style.prefix.value, iconName);
      if m.pending.None? then m == n && icon in n.children && TaggedCount(n.children) == 1
      else
        && |m.outstanding| == 1
        && var done := Finish(m, 0, position).children;
           TaggedCount(done) == 1 && Others(done) == Others(n.children) && done[if position == Before then 0 else |done| - 1] == icon
  {
    StartKeeps(ns, n, style, show);
    StartKeepsOthers(ns, n, style, show);
    FirstIsTagged(n.children);
    UnicodeIsFound(ns, style.prefix.value, style.hexValue);
    var m := Start(ns, n, style, show);
    hide NamesAreFound, TaggedCount, FirstTagged, Without, FindIcon, ByUnicode, Only, Others;
    if m.pending.Some? {
      FinishShows(m, position);
    }
  }

  /** Without an icon font, an icon that was put there goes away and nothing else does. */
  lemma LostFontRemovesIcon(ns: Namespace, n: NodeState, style: Style, show: bool)
    requires NamesAreFound(ns) && AtMostOne(n) && n.pending.None? && !style.hasIconFont
    ensures var m := Start(ns, n, style, show);
      TaggedCount(m.children) == 0 && Others(m.children) == Others(n.children) && m.pending == None && m.outstanding == []
  {
    StartKeepsOthers(ns, n, style, show);
    FirstIsTagged(n.children);
    var processed := FirstTagged(n.children);
    if processed.Some? {
      WithoutCounts(n.children, processed.value);
    }
    hide TaggedCount, FirstTagged, Without, Only;
  }

  lemma {:induction false} CountMember(children: seq<Child>, c: Child)
    requires c.Tagged? && c in children && TaggedCount(children) <= 1
    ensures FirstTagged(children).Some? && FirstTagged(children).value < |children| && children[FirstTagged(children).value] == c
  {
    if children[0] != c {
      assert children == [children[0]] + children[1..];
      CountAppend([children[0]], children[1..]);
      CountOne(children[0]);
      FirstIsTagged(children[1..]);
      CountMember(children[1..], c);
    }
  }

  /**
   * A start does nothing while a replacement is on its way, when the icon is there already, and when an
   * icon font is set but no icon can be told from the style.
   */
  lemma StartIsTurnedAway(ns: Namespace, n: NodeState, style: Style, show: bool)
    requires AtMostOne(n)
    ensures n.pending.Some? ==> Start(ns, n, style, show) == n
    ensures style.hasIconFont && (style.content == "none" || style.content == "" || style.prefix.None?) ==> Start(ns, n, style, show) == n
    ensures style.hasIconFont && style.prefix.Some? && ByUnicode(ns, style.prefix.value, style.hexValue).None? ==> Start(ns, n, style, show) == n
    ensures forall iconName :: Wants(ns, style, iconName) && Tagged(style.prefix.value, iconName) in n.children ==> Start(ns, n, style, show) == n
  {
    hide TaggedCount, FirstTagged, Without, FindIcon, ByUnicode;
    forall iconName | Wants(ns, style, iconName) && Tagged(style.prefix.value, iconName) in n.children
      ensures Start(ns, n, style, show) == n
    {
      CountMember(n.children, Tagged(style.prefix.value, iconName));
    }
  }

  /**
   * In every run: when the style then asks for an icon that the index knows, a start, and the completion
   * if one is then outstanding, leave that icon, alone for the position and in its place, and the other
   * children as they are.
   */
  lemma RunShowsIcon(position: Position, es: seq<Event>, style: Style, iconName: string, show: bool)
    requires var s := Run(position, es); s.node.pending.None? && Wants(s.ns, style, iconName)
    ensures var s := Run(position, es);
      var t, icon := Step(s, position, StartIt(style, show)), Tagged(style.prefix.value, iconName);
      if icon in s.node.children then t == s && TaggedCount(s.node.children) == 1
      else
        var done := Step(t, position, FinishIt(0)).node;
        && done.pending == None && done.outstanding == [] && TaggedCount(done.children) == 1
        && Others(done.children) == Others(s.node.children)
        && done.children[if position == Before then 0 else |done.children| - 1] == icon
  {
    NeverTwice(position, es);
    hide Run, NamesAreFound, TaggedCount, FirstTagged, Without, FindIcon, ByUnicode, Others;
    var s := Run(position, es);
    StartIsTurnedAway(s.ns, s.node, style, show);
    ReplacementShowsIcon(s.ns, s.node, style, iconName, show, position);
    StartKeeps(s.ns, s.node, style, show);
    if Tagged(style.prefix.value, iconName) !in s.node.children {
      FinishKeeps(Start(s.ns, s.node, style, show), 0, position);
    }
    hide Start;
  }

  /** The node as the script sees it, updated in place. */
  class Node {
    var children: seq<Child>
    var pending: Option<string>
    var outstanding: seq<Completion>

    ghost function Abstract(): NodeState
      reads this
    {
      NodeState(children, pending, outstanding)
    }

    constructor ()
      ensures Abstract() == UNTOUCHED
    {
      children, pending, outstanding := [], None, [];
    }

    method ReplaceForPosition(ns: Namespace, style: Style, showMissingIcons: bool)
      modifies this
      ensures Abstract() == Start(ns, old(Abstract()), style, showMissingIcons)
      ensures NamesAreFound(ns) && old(AtMostOne(Abstract())) ==> AtMostOne(Abstract())
    {
      if NamesAreFound(ns) && AtMostOne(Abstract()) {
        StartKeeps(ns, Abstract(), style, showMissingIcons);
      }
      if pending.Some? {
        return;
      }
      var processed := FirstTagged(children);
      if processed.Some? && !style.hasIconFont {
        children := Without(children, processed);
      } else if style.hasIconFont && style.content != "none" && style.content != "" && style.prefix.Some? {
        var prefix, found := style.prefix.value, ByUnicode(ns, style.prefix.value, style.hexValue);
        if found.Some? && found.value != "" {
          var iconName := found.value;
          if processed.None? || processed.value >= |children| || children[processed.value] != Tagged(prefix, iconName) {
            pending := Some(iconName);
            children := Without(children, processed);
            if FindIcon(ns, iconName, prefix).Some? || prefix == "" || showMissingIcons {
              outstanding := outstanding + [Completion(prefix, iconName)];
            }
          }
        }
      }
    }

    method FinishReplacement(k: nat, position: Position)
      requires k < |outstanding|
      modifies this
      ensures Abstract() == Finish(old(Abstract()), k, position)
      ensures old(AtMostOne(Abstract())) ==> AtMostOne(Abstract()) && pending == None && outstanding == []
    {
      if AtMostOne(Abstract()) {
        FinishKeeps(Abstract(), k, position);
      }
      var element := Tagged(outstanding[k].prefix, outstanding[k].iconName);
      children := if position == Before then [element] + children else children + [element];
      pending := None;
      outstanding := outstanding[..k] + outstanding[k + 1..];
    }
  }
}
