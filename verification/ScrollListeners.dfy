/** Popper's resize and scroll listeners: where they are attached, and that they are all taken off again. */
module ScrollListeners {
  import opened Options
  import opened Sequences

  // ----- the tree -----

  /** overflow is the computed overflow, overflowY and overflowX together. */
  datatype DomNode = DomNode(nodeName: string, isElement: bool, overflow: string, parentNode: Option<nat>, host: Option<nat>)

  /** The nodes of a page, numbered so that parents and hosts come first; the window is no node. */
  datatype Dom = Dom(nodes: seq<DomNode>, body: nat) {
    predicate Valid() {
      && body < |nodes| && nodes[body].nodeName == "BODY"
      && forall n | 0 <= n < |nodes| :: (
           && Before(nodes[n].parentNode, n) && Before(nodes[n].host, n) && (nodes[n].isElement ==> nodes[n].host.None?))
    }

    static predicate Before(p: Option<nat>, n: nat) {
      p.Some? ==> p.value < n
    }

    predicate Has(element: Option<nat>) {
      element.Some? ==> element.value < |nodes|
    }
  }

  predicate Contains(s: string, part: string) {
    part <= s || (s != "" && Contains(s[1..], part))
  }

  predicate IsRootName(nodeName: string) {
    nodeName in ["HTML", "BODY", "#document"]
  }

  predicate Scrolls(node: DomNode) {
    node.isElement && (Contains(node.overflow, "auto") || Contains(node.overflow, "scroll"))
  }

  function GetParentNode(d: Dom, n: nat): (p: Option<nat>)
    requires d.Valid() && n < |d.nodes|
    ensures p.GetOr(n) <= n
  {
    if d.nodes[n].nodeName == "HTML" then Some(n)
    else if d.nodes[n].parentNode.Some? then d.nodes[n].parentNode
    else d.nodes[n].host
  }

  /** The walk up from an element; it ends on every finite tree. */
  function GetScrollParent(d: Dom, element: Option<nat>): (p: nat)
    requires d.Valid() && d.Has(element)
    ensures p < |d.nodes|
    ensures p == d.body || (element.Some? && p <= element.value && !IsRootName(d.nodes[p].nodeName) && Scrolls(d.nodes[p]))
    decreases if element.Some? then element.value + 1 else 0
  {
    if element.None? || IsRootName(d.nodes[element.value].nodeName) then d.body
    else if Scrolls(d.nodes[element.value]) then element.value
    else GetScrollParent(d, GetParentNode(d, element.value))
  }

  // ----- listeners -----

  datatype Target = Window | Node(node: nat)

  datatype EventType = RESIZE | SCROLL

  type Callback = nat

  datatype Listener = Listener(target: Target, event: EventType, callback: Callback)

  /** addEventListener: a listener that is already there is not added again. */
  function Added(listeners: seq<Listener>, l: Listener): seq<Listener> {
    if l in listeners then listeners else listeners + [l]
  }

  /** removeEventListener */
  function Removed(listeners: seq<Listener>, l: Listener): seq<Listener> {
    Only(listeners, m => m != l)
  }

  // ----- set-up and tear-down -----

  /** The targets given a scroll listener, the window first and the scroll parent itself last. */
  function Targets(d: Dom, scrollParent: nat): seq<Target>
    requires d.Valid() && scrollParent < |d.nodes|
    decreases if scrollParent == d.body then 0 else scrollParent + 1
  {
    if d.nodes[scrollParent].nodeName == "BODY" then [Window]
    else Targets(d, GetScrollParent(d, d.nodes[scrollParent].parentNode)) + [Node(scrollParent)]
  }

  /** Listeners are added from the scroll parent outwards. */
  function Attached(listeners: seq<Listener>, targets: seq<Target>, callback: Callback): seq<Listener>
    decreases |targets|
  {
    if targets == [] then listeners
    else
      var last := |targets| - 1;
      Attached(Added(listeners, Listener(targets[last], SCROLL, callback)), targets[..last], callback)
  }

  function Detached(listeners: seq<Listener>, targets: seq<Target>, callback: Callback): seq<Listener>
    decreases |targets|
  {
    if targets == [] then listeners
    else Detached(Removed(listeners, Listener(targets[0], SCROLL, callback)), targets[1..], callback)
  }

  /** All listeners of the page, and Popper's state. */
  datatype World = World(
    listeners: seq<Listener>,
    updateBound: Option<Callback>,
    scrollParents: seq<Target>,
    scrollElement: Option<nat>,
    eventsEnabled: bool)

  function SetUp(w: World, d: Dom, reference: nat, callback: Callback): World
    requires d.Valid() && reference < |d.nodes|
  {
    var scrollElement := GetScrollParent(d, Some(reference));
    var targets := Targets(d, scrollElement);
    World(Attached(Added(w.listeners, Listener(Window, RESIZE, callback)), targets, callback), Some(callback),
          w.scrollParents + targets, Some(scrollElement), true)
  }

  /** Without a bound callback there is no listener to remove. */
  function TornDown(w: World): World {
    var listeners :=
      if w.updateBound.None? then w.listeners
      else Detached(Removed(w.listeners, Listener(Window, RESIZE, w.updateBound.value)), w.scrollParents, w.updateBound.value);
    World(listeners, None, [], None, false)
  }

  // ----- which targets -----

  /** The scrolling ancestors of an element below the document's root nodes, the outermost first. */
  function ScrollingAncestors(d: Dom, element: Option<nat>): seq<nat>
    requires d.Valid() && d.Has(element)
    decreases if element.Some? then element.value + 1 else 0
  {
    if element.None? || IsRootName(d.nodes[element.value].nodeName) then []
    else
      ScrollingAncestors(d, GetParentNode(d, element.value)) +
      if Scrolls(d.nodes[element.value]) then [element.value] else []
  }

  function Nodes(ns: seq<nat>): seq<Target> {
    seq(|ns|, i requires 0 <= i < |ns| => Node(ns[i]))
  }

  lemma NodesEnded(ns: seq<nat>, n: nat)
    ensures [Window] + Nodes(ns + [n]) == [Window] + Nodes(ns) + [Node(n)]
  {}

  /** The window and exactly the scrolling ancestors get a scroll listener. */
  lemma {:induction false} TargetsAreScrollingAncestors(d: Dom, element: Option<nat>)
    requires d.Valid() && d.Has(element)
    ensures Targets(d, GetScrollParent(d, element)) == [Window] + Nodes(ScrollingAncestors(d, element))
    decreases if element.Some? then element.value + 1 else 0
  {
    if element.None? || IsRootName(d.nodes[element.value].nodeName) {
      assert [Window] + Nodes([]) == [Window];
    } else {
      var up := GetParentNode(d, element.value);
      TargetsAreScrollingAncestors(d, up);
      if Scrolls(d.nodes[element.value]) {
        assert up == d.nodes[element.value].parentNode;
        NodesEnded(ScrollingAncestors(d, up), element.value);
      } else {
        assert ScrollingAncestors(d, up) + [] == ScrollingAncestors(d, up);
      }
    }
  }

  // ----- what scrolls, and the way up -----

  /** Contains finds the part wherever it stands. */
  lemma {:induction false} ContainsIs(s: string, part: string)
    ensures Contains(s, part) <==> exists i :: 0 <= i <= |s| && part <= s[i..]
  {
    assert s[0..] == s;
    if s != "" {
      ContainsIs(s[1..], part);
      forall i | 0 < i <= |s| ensures s[1..][i - 1..] == s[i..] {}
    }
  }

  /** s is some text, the word, and some more text. */
  ghost predicate Holds(s: string, word: string) {
    exists a: string, b: string :: s == a + word + b
  }

  lemma ContainsIsHolds(s: string, word: string)
    ensures Contains(s, word) <==> Holds(s, word)
  {
    ContainsIs(s, word);
    if Holds(s, word) {
      var a: string, b: string :| s == a + word + b;
      assert s[|a|..] == word + b;
    }
    if i :| 0 <= i <= |s| && word <= s[i..] {
      assert s == s[..i] + word + s[i + |word|..];
    }
  }

  /** An element scrolls if and only if its overflow text has the word auto or scroll in it, at any place. */
  lemma ScrollsIs(node: DomNode)
    ensures Scrolls(node) <==> node.isElement && (Holds(node.overflow, "auto") || Holds(node.overflow, "scroll"))
  {
    ContainsIsHolds(node.overflow, "auto");
    ContainsIsHolds(node.overflow, "scroll");
    hide Contains, Holds;
  }

  /** m is where the walk goes on from n: its parent, or the host of a shadow root. */
  predicate Up(d: Dom, n: nat, m: nat) {
    n < |d.nodes| && if d.nodes[n].parentNode.Some? then d.nodes[n].parentNode == Some(m) else d.nodes[n].host == Some(m)
  }

  /** A node below the root nodes whose overflow text does not scroll, and one whose does. */
  ghost predicate Passed(d: Dom, n: nat) {
    n < |d.nodes| && d.nodes[n].nodeName !in ["HTML", "BODY", "#document"] &&
    !(d.nodes[n].isElement && (Holds(d.nodes[n].overflow, "auto") || Holds(d.nodes[n].overflow, "scroll")))
  }

  ghost predicate Stops(d: Dom, n: nat) {
    n < |d.nodes| && d.nodes[n].nodeName !in ["HTML", "BODY", "#document"] &&
    d.nodes[n].isElement && (Holds(d.nodes[n].overflow, "auto") || Holds(d.nodes[n].overflow, "scroll"))
  }

  /** Nodes from the element upwards, each the parent or host of the one before. */
  ghost predicate Path(d: Dom, path: seq<nat>, element: nat) {
    path != [] && path[0] == element && forall i :: 0 <= i < |path| - 1 ==> Up(d, path[i], path[i + 1])
  }

  /** The walk ends above n: at a root node, or where there is neither a parent nor a host. */
  predicate Ends(d: Dom, n: nat) {
    n < |d.nodes| && (d.nodes[n].nodeName in ["HTML", "BODY", "#document"] || (d.nodes[n].parentNode.None? && d.nodes[n].host.None?))
  }

  /**
   * The scroll parent is the nearest scrolling node below the root nodes on the way up, and the body
   * if the way ends without one.
   */
  lemma {:induction false} ScrollParentIsNearest(d: Dom, element: nat) returns (path: seq<nat>)
    requires d.Valid() && element < |d.nodes|
    ensures Path(d, path, element) && forall i :: 0 <= i < |path| - 1 ==> Passed(d, path[i])
    ensures var p, last := GetScrollParent(d, Some(element)), path[|path| - 1];
      (p == last && Stops(d, last)) || (p == d.body && Ends(d, last) && !Stops(d, last))
    decreases element
  {
    ScrollsIs(d.nodes[element]);
    path := [element];
    var node := d.nodes[element];
    if !IsRootName(node.nodeName) && !Scrolls(node) && GetParentNode(d, element).Some? {
      var up := GetParentNode(d, element).value;
      var rest := ScrollParentIsNearest(d, up);
      path := [element] + rest;
      assert forall i :: 0 < i < |path| ==> path[i] == rest[i - 1];
    }
    hide Contains, Holds;
  }

  /** The nodes of the whole way up below the root nodes. */
  function WayUp(d: Dom, element: Option<nat>): seq<nat>
    requires d.Valid() && d.Has(element)
    decreases if element.Some? then element.value + 1 else 0
  {
    if element.None? || d.nodes[element.value].nodeName in ["HTML", "BODY", "#document"] then []
    else [element.value] + WayUp(d, if d.nodes[element.value].parentNode.Some? then d.nodes[element.value].parentNode else d.nodes[element.value].host)
  }

  /** The targets are the window and then, outermost first, exactly the scrolling nodes of the way up. */
  lemma TargetsOnTheWay(d: Dom, element: Option<nat>) returns (ns: seq<nat>)
    requires d.Valid() && d.Has(element)
    ensures Targets(d, GetScrollParent(d, element)) == [Window] + Nodes(ns)
    ensures (forall i, j :: 0 <= i < j < |ns| ==> ns[i] < ns[j]) && forall n :: n in ns <==> n in WayUp(d, element) && Stops(d, n)
  {
    TargetsAreScrollingAncestors(d, element);
    ns := ScrollingAncestors(d, element);
    AncestorsAscend(d, element);
    AncestorsOnTheWay(d, element);
  }

  ghost predicate Ascends(ns: seq<nat>, below: nat) {
    (forall i, j :: 0 <= i < j < |ns| ==> ns[i] < ns[j]) && (forall i :: 0 <= i < |ns| ==> ns[i] < below)
  }

  lemma {:induction false} AncestorsAscend(d: Dom, element: Option<nat>)
    requires d.Valid() && d.Has(element)
    ensures Ascends(ScrollingAncestors(d, element), if element.Some? then element.value + 1 else 0)
    decreases if element.Some? then element.value + 1 else 0
  {
    if element.Some? && !IsRootName(d.nodes[element.value].nodeName) {
      var up := GetParentNode(d, element.value);
      AncestorsAscend(d, up);
      assert up.Some? ==> up.value < element.value;
      assert ScrollingAncestors(d, element) ==
        ScrollingAncestors(d, up) + if Scrolls(d.nodes[element.value]) then [element.value] else [];
      hide ScrollingAncestors, Scrolls, GetParentNode, IsRootName;
    }
  }

  lemma {:induction false} AncestorsOnTheWay(d: Dom, element: Option<nat>)
    requires d.Valid() && d.Has(element)
    ensures forall n :: n in ScrollingAncestors(d, element) <==> n in WayUp(d, element) && Stops(d, n)
    decreases if element.Some? then element.value + 1 else 0
  {
    if element.Some? && !IsRootName(d.nodes[element.value].nodeName) {
      var up := GetParentNode(d, element.value);
      ScrollsIs(d.nodes[element.value]);
      AncestorsOnTheWay(d, up);
      hide Contains, Holds;
      assert WayUp(d, element) == [element.value] + WayUp(d, up);
    }
  }

  // ----- tear-down undoes set-up -----

  /** A listener that Popper with this callback and these scroll targets takes off. */
  predicate Mine(l: Listener, callback: Callback, targets: seq<Target>) {
    l.callback == callback && if l.event == RESIZE then l.target == Window else l.target in targets
  }

  lemma AddedOthers(listeners: seq<Listener>, l: Listener, keep: Listener -> bool)
    requires !keep(l)
    ensures Only(Added(listeners, l), keep) == Only(listeners, keep)
  {
    OnlyAppend(listeners, l, keep);
    assert Only(listeners, keep) + [] == Only(listeners, keep);
  }

  lemma {:induction false} AttachedOthers(listeners: seq<Listener>, targets: seq<Target>, callback: Callback, keep: Listener -> bool)
    requires forall t :: t in targets ==> !keep(Listener(t, SCROLL, callback))
    ensures Only(Attached(listeners, targets, callback), keep) == Only(listeners, keep)
    decreases |targets|
  {
    hide Only, Added;
    if targets != [] {
      var l := Listener(targets[|targets| - 1], SCROLL, callback);
      AttachedOthers(Added(listeners, l), targets[..|targets| - 1], callback, keep);
      assert targets[|targets| - 1] in targets;
      AddedOthers(listeners, l, keep);
    }
  }

  lemma {:induction false} AttachedIn(listeners: seq<Listener>, targets: seq<Target>, callback: Callback, l: Listener)
    ensures l in Attached(listeners, targets, callback) <==>
            l in listeners || (l.event == SCROLL && l.callback == callback && l.target in targets)
    decreases |targets|
  {
    if targets != [] {
      var last := |targets| - 1;
      AttachedIn(Added(listeners, Listener(targets[last], SCROLL, callback)), targets[..last], callback, l);
      Ended(targets);
    }
  }

  predicate IsScroll(l: Listener, callback: Callback, targets: seq<Target>) {
    l.event == SCROLL && l.callback == callback && l.target in targets
  }

  lemma {:induction false} DetachedIsOnly(listeners: seq<Listener>, targets: seq<Target>, callback: Callback)
    ensures Detached(listeners, targets, callback) == Only(listeners, l => !IsScroll(l, callback, targets))
    decreases |targets|
  {
    hide Only;
    if targets == [] {
      OnlyAll(listeners, l => !IsScroll(l, callback, targets));
    } else {
      var first := Listener(targets[0], SCROLL, callback);
      DetachedIsOnly(Removed(listeners, first), targets[1..], callback);
      FirstOrLater(targets);
      OnlyBoth(listeners, m => m != first, l => !IsScroll(l, callback, targets[1..]), l => !IsScroll(l, callback, targets));
    }
  }

  lemma FirstOrLater(targets: seq<Target>)
    requires targets != []
    ensures forall t :: t in targets <==> t == targets[0] || t in targets[1..]
  {}

  lemma TornDownIsOnly(w: World)
    requires w.updateBound.Some?
    ensures TornDown(w).listeners == Only(w.listeners, l => !Mine(l, w.updateBound.value, w.scrollParents))
  {
    var callback := w.updateBound.value;
    var resize := Listener(Window, RESIZE, callback);
    DetachedIsOnly(Removed(w.listeners, resize), w.scrollParents, callback);
    hide Only, Detached;
    OnlyBoth(w.listeners, m => m != resize, l => !IsScroll(l, callback, w.scrollParents),
             l => !Mine(l, callback, w.scrollParents));
  }

  lemma SetUpOthers(w: World, d: Dom, reference: nat, callback: Callback, keep: Listener -> bool)
    requires d.Valid() && reference < |d.nodes|
    requires forall l :: Mine(l, callback, SetUp(w, d, reference, callback).scrollParents) ==> !keep(l)
    ensures Only(SetUp(w, d, reference, callback).listeners, keep) == Only(w.listeners, keep)
  {
    var targets := Targets(d, GetScrollParent(d, Some(reference)));
    var resize := Listener(Window, RESIZE, callback);
    hide Targets, GetScrollParent, Attached, Added, Only;
    assert Mine(resize, callback, w.scrollParents + targets);
    forall t | t in targets ensures !keep(Listener(t, SCROLL, callback)) {
      assert Mine(Listener(t, SCROLL, callback), callback, w.scrollParents + targets);
    }
    AttachedOthers(Added(w.listeners, resize), targets, callback, keep);
    AddedOthers(w.listeners, resize, keep);
  }

  /**
   * Tearing down after setting up leaves every target with the listeners it had, in their order, if
   * and only if the callback listened on none of the targets before.
   */
  lemma TearDownUndoesSetUp(w: World, d: Dom, reference: nat, callback: Callback)
    requires d.Valid() && reference < |d.nodes|
    ensures
      var targets := w.scrollParents + [Window] + Nodes(ScrollingAncestors(d, Some(reference)));
      TornDown(SetUp(w, d, reference, callback)).listeners == w.listeners <==>
      forall l :: l in w.listeners ==> !Mine(l, callback, targets)
  {
    var set_ := SetUp(w, d, reference, callback);
    var targets := w.scrollParents + [Window] + Nodes(ScrollingAncestors(d, Some(reference)));
    TargetsAreScrollingAncestors(d, Some(reference));
    assert set_.scrollParents == targets && set_.updateBound == Some(callback);
    hide SetUp, TornDown, ScrollingAncestors, Nodes;
    var keep := l => !Mine(l, callback, targets);
    TornDownIsOnly(set_);
    SetUpOthers(w, d, reference, callback, keep);
    OnlyIn(w.listeners, keep);
    if forall l :: l in w.listeners ==> keep(l) {
      OnlyAll(w.listeners, keep);
    }
    hide Only, Mine;
  }

  // ----- every run of enabling and disabling -----

  /** Enabling and disabling Popper's events, on whatever the page then is, and changes by others. */
  datatype Event =
    | Enable(dom: Dom, reference: nat)
    | Disable
    | OtherAdds(listener: Listener)
    | OtherRemoves(listener: Listener)

  /** Others never use Popper's own callback. */
  predicate Allowed(e: Event, callback: Callback) {
    match e
    case Enable(d, reference) => d.Valid() && reference < |d.nodes|
    case Disable => true
    case OtherAdds(l) => l.callback != callback
    case OtherRemoves(l) => l.callback != callback
  }

  function Step(w: World, e: Event, callback: Callback): World
    requires Allowed(e, callback)
  {
    match e
    case Enable(d, reference) => if w.eventsEnabled then w else SetUp(w, d, reference, callback)
    case Disable => if w.eventsEnabled then TornDown(w) else w
    case OtherAdds(l) => w.(listeners := Added(w.listeners, l))
    case OtherRemoves(l) => w.(listeners := Removed(w.listeners, l))
  }

  function Run(before: seq<Listener>, es: seq<Event>, callback: Callback): World
    requires forall e :: e in es ==> Allowed(e, callback)
  {
    if es == [] then World(before, None, [], None, false)
    else Step(Run(before, es[..|es| - 1], callback), es[|es| - 1], callback)
  }

  /** The listeners as they would be without Popper. */
  function WithoutPopper(before: seq<Listener>, es: seq<Event>): seq<Listener> {
    if es == [] then before
    else
      var listeners := WithoutPopper(before, es[..|es| - 1]);
      match es[|es| - 1]
      case OtherAdds(l) => Added(listeners, l)
      case OtherRemoves(l) => Removed(listeners, l)
      case _ => listeners
  }

  /** Popper's callback listens exactly while enabled: to the window's resize and on the recorded scroll parents. */
  ghost predicate Inv(w: World, callback: Callback) {
    && (w.eventsEnabled <==> w.updateBound == Some(callback)) && (!w.eventsEnabled ==> w.updateBound == None && w.scrollParents == [])
    && forall l: Listener | l.callback == callback :: l in w.listeners <==> w.eventsEnabled && Mine(l, callback, w.scrollParents)
  }

  predicate IsOther(l: Listener, callback: Callback) {
    l.callback != callback
  }

  function OfOthers(listeners: seq<Listener>, callback: Callback): seq<Listener> {
    Only(listeners, l => IsOther(l, callback))
  }

  lemma AddedOfOthers(listeners: seq<Listener>, l: Listener, callback: Callback)
    requires l.callback != callback
    ensures OfOthers(Added(listeners, l), callback) == Added(OfOthers(listeners, callback), l)
  {
    OnlyIn(listeners, m => IsOther(m, callback));
    OnlyAppend(listeners, l, m => IsOther(m, callback));
    hide Only;
  }

  lemma RemovedOfOthers(listeners: seq<Listener>, l: Listener, callback: Callback)
    ensures OfOthers(Removed(listeners, l), callback) == Removed(OfOthers(listeners, callback), l)
  {
    OnlyBoth(listeners, m => m != l, m => IsOther(m, callback), m => m != l && IsOther(m, callback));
    OnlyBoth(listeners, m => IsOther(m, callback), m => m != l, m => m != l && IsOther(m, callback));
    hide Only;
  }

  lemma EnabledKeeps(w: World, d: Dom, reference: nat, callback: Callback)
    requires Inv(w, callback) && !w.eventsEnabled && d.Valid() && reference < |d.nodes|
    ensures Inv(SetUp(w, d, reference, callback), callback)
    ensures OfOthers(SetUp(w, d, reference, callback).listeners, callback) == OfOthers(w.listeners, callback)
  {
    var targets := Targets(d, GetScrollParent(d, Some(reference)));
    SetUpOthers(w, d, reference, callback, l => IsOther(l, callback));
    hide Targets, GetScrollParent, Attached;
    forall l: Listener ensures l in SetUp(w, d, reference, callback).listeners <==> l in w.listeners || Mine(l, callback, targets) {
      AttachedIn(Added(w.listeners, Listener(Window, RESIZE, callback)), targets, callback, l);
    }
    assert w.scrollParents + targets == targets;
  }

  lemma DisabledKeeps(w: World, callback: Callback)
    requires Inv(w, callback) && w.eventsEnabled
    ensures Inv(TornDown(w), callback)
    ensures OfOthers(TornDown(w).listeners, callback) == OfOthers(w.listeners, callback)
  {
    TornDownIsOnly(w);
    OnlyIn(w.listeners, l => !Mine(l, callback, w.scrollParents));
    OnlyBoth(w.listeners, l => !Mine(l, callback, w.scrollParents), l => IsOther(l, callback), l => IsOther(l, callback));
    hide Only, Detached, Removed;
  }

  lemma StepKeeps(w: World, e: Event, callback: Callback)
    requires Inv(w, callback) && Allowed(e, callback)
    ensures Inv(Step(w, e, callback), callback)
  {
    match e
    case Enable(d, reference) =>
      if !w.eventsEnabled {
        EnabledKeeps(w, d, reference, callback);
      }
    case Disable =>
      if w.eventsEnabled {
        DisabledKeeps(w, callback);
      }
    case OtherAdds(l) =>
    case OtherRemoves(l) => OnlyIn(w.listeners, m => m != l);
  }

  /**
   * Over every run, while the page changes at will: Popper's callback listens exactly while its
   * events are enabled, the listeners of others are those there would be without Popper, in the same
   * order, and once disabled nothing but them is left.
   */
  lemma {:induction false} RunKeeps(before: seq<Listener>, es: seq<Event>, callback: Callback)
    requires forall l :: l in before ==> l.callback != callback
    requires forall e :: e in es ==> Allowed(e, callback)
    ensures var w := Run(before, es, callback);
      && Inv(w, callback)
      && OfOthers(w.listeners, callback) == WithoutPopper(before, es)
      && (!w.eventsEnabled ==> w.listeners == WithoutPopper(before, es))
  {
    var w := Run(before, es, callback);
    if es == [] {
    } else {
      var last := es[|es| - 1];
      var v := Run(before, es[..|es| - 1], callback);
      RunKeeps(before, es[..|es| - 1], callback);
      assert last in es;
      StepKeeps(v, last, callback);
      StepOfOthers(v, last, callback);
    }
    hide Step, Run;
    if !w.eventsEnabled {
      OnlyAll(w.listeners, l => IsOther(l, callback));
    }
  }

  /**
   * Enabling, at any point of any run, listens for resize on the window and for scroll on the window and
   * on exactly the scrolling nodes of the way up, and records callback, targets and the scroll parent.
   */
  lemma EnableListens(before: seq<Listener>, es: seq<Event>, callback: Callback, d: Dom, reference: nat) returns (ns: seq<nat>)
    requires forall l :: l in before ==> l.callback != callback
    requires (forall e :: e in es ==> Allowed(e, callback)) && !Run(before, es, callback).eventsEnabled
    requires d.Valid() && reference < |d.nodes|
    ensures forall n :: n in ns <==> n in WayUp(d, Some(reference)) && Stops(d, n)
    ensures forall i, j :: 0 <= i < j < |ns| ==> ns[i] < ns[j]
    ensures var u := Step(Run(before, es, callback), Enable(d, reference), callback);
      && u.eventsEnabled && u.updateBound == Some(callback) && u.scrollParents == [Window] + Nodes(ns)
      && u.scrollElement == Some(GetScrollParent(d, Some(reference)))
      && forall l: Listener | l.callback == callback ::
           l in u.listeners <==> l == Listener(Window, RESIZE, callback) || l == Listener(Window, SCROLL, callback) ||
                                 exists n :: n in ns && l == Listener(Node(n), SCROLL, callback)
  {
    ns := TargetsOnTheWay(d, Some(reference));
    RunKeeps(before, es, callback);
    var w := Run(before, es, callback);
    EnabledKeeps(w, d, reference, callback);
    SetUpState(w, d, reference, callback);
    hide Run, WayUp, Stops, GetScrollParent, Targets, SetUp, Inv, Mine;
    var u := Step(w, Enable(d, reference), callback);
    assert w.scrollParents == [] by { assert Inv(w, callback); NothingRecorded(w, callback); }
    assert u.scrollParents == [] + ([Window] + Nodes(ns)) == [Window] + Nodes(ns);
    ListensOn(u, callback, ns);
  }

  lemma NothingRecorded(w: World, callback: Callback)
    requires Inv(w, callback) && !w.eventsEnabled
    ensures w.scrollParents == []
  {}

  lemma SetUpState(w: World, d: Dom, reference: nat, callback: Callback)
    requires d.Valid() && reference < |d.nodes|
    ensures var u, p := SetUp(w, d, reference, callback), GetScrollParent(d, Some(reference));
      u.eventsEnabled && u.updateBound == Some(callback) && u.scrollElement == Some(p) && u.scrollParents == w.scrollParents + Targets(d, p)
  {}

  lemma ListensOn(u: World, callback: Callback, ns: seq<nat>)
    requires Inv(u, callback) && u.eventsEnabled && u.scrollParents == [Window] + Nodes(ns)
    ensures forall l: Listener | l.callback == callback ::
      l in u.listeners <==> l == Listener(Window, RESIZE, callback) || l == Listener(Window, SCROLL, callback) ||
                            exists n :: n in ns && l == Listener(Node(n), SCROLL, callback)
  {
    forall t ensures t in u.scrollParents <==> t == Window || exists n :: n in ns && t == Node(n) {
      NodesIn(ns, t);
    }
    hide Nodes;
  }

  lemma NodesIn(ns: seq<nat>, t: Target)
    ensures t in [Window] + Nodes(ns) <==> t == Window || exists n :: n in ns && t == Node(n)
  {
    if n: nat :| n in ns && t == Node(n) {
      var i :| 0 <= i < |ns| && ns[i] == n;
      assert Nodes(ns)[i] == t;
    }
  }

  /** Enabling again changes nothing; disabling clears the state, and again changes nothing. */
  lemma EnableAndDisable(w: World, d: Dom, reference: nat, callback: Callback)
    requires d.Valid() && reference < |d.nodes|
    ensures w.eventsEnabled ==> Step(w, Enable(d, reference), callback) == w
    ensures w.eventsEnabled ==> var u := Step(w, Disable, callback); u == World(u.listeners, None, [], None, false)
    ensures !w.eventsEnabled ==> Step(w, Disable, callback) == w
  {}

  lemma AddedDistinct(listeners: seq<Listener>, l: Listener)
    requires AllDistinct(listeners)
    ensures AllDistinct(Added(listeners, l))
  {}

  lemma {:induction false} AttachedDistinct(listeners: seq<Listener>, targets: seq<Target>, callback: Callback)
    requires AllDistinct(listeners)
    ensures AllDistinct(Attached(listeners, targets, callback))
    decreases |targets|
  {
    hide AllDistinct, Added;
    if targets != [] {
      var l := Listener(targets[|targets| - 1], SCROLL, callback);
      AddedDistinct(listeners, l);
      AttachedDistinct(Added(listeners, l), targets[..|targets| - 1], callback);
    }
  }

  lemma StepDistinct(w: World, e: Event, callback: Callback)
    requires Inv(w, callback) && Allowed(e, callback) && AllDistinct(w.listeners)
    ensures AllDistinct(Step(w, e, callback).listeners)
  {
    hide AllDistinct, Added, Attached, Targets, Only, Detached;
    match e
    case Enable(d, reference) =>
      var l := Listener(Window, RESIZE, callback);
      AddedDistinct(w.listeners, l);
      AttachedDistinct(Added(w.listeners, l), Targets(d, GetScrollParent(d, Some(reference))), callback);
    case Disable =>
      if w.eventsEnabled {
        TornDownIsOnly(w);
        OnlyDistinct(w.listeners, l => !Mine(l, callback, w.scrollParents));
      }
    case OtherAdds(l) => AddedDistinct(w.listeners, l);
    case OtherRemoves(l) => OnlyDistinct(w.listeners, m => m != l);
  }

  /** No listener is ever called twice for one event. */
  lemma {:induction false} RunDistinct(before: seq<Listener>, es: seq<Event>, callback: Callback)
    requires AllDistinct(before) && forall l :: l in before ==> l.callback != callback
    requires forall e :: e in es ==> Allowed(e, callback)
    ensures AllDistinct(Run(before, es, callback).listeners)
  {
    hide AllDistinct, Inv, Step;
    if es != [] {
      var last := es[|es| - 1];
      RunDistinct(before, es[..|es| - 1], callback);
      RunKeeps(before, es[..|es| - 1], callback);
      assert last in es;
      StepDistinct(Run(before, es[..|es| - 1], callback), last, callback);
    }
  }

  lemma StepOfOthers(w: World, e: Event, callback: Callback)
    requires Inv(w, callback) && Allowed(e, callback)
    ensures OfOthers(Step(w, e, callback).listeners, callback) ==
      match e
      case OtherAdds(l) => Added(OfOthers(w.listeners, callback), l)
      case OtherRemoves(l) => Removed(OfOthers(w.listeners, callback), l)
      case _ => OfOthers(w.listeners, callback)
  {
    match e
    case Enable(d, reference) =>
      if !w.eventsEnabled {
        EnabledKeeps(w, d, reference, callback);
      }
    case Disable =>
      if w.eventsEnabled {
        DisabledKeeps(w, callback);
      }
    case OtherAdds(l) => AddedOfOthers(w.listeners, l, callback);
    case OtherRemoves(l) => RemovedOfOthers(w.listeners, l, callback);
  }

  // ----- Popper as it runs -----

  /** The page's listeners and Popper's state, updated in place. */
  class Popper {
    var listeners: seq<Listener>
    var updateBound: Option<Callback>
    var scrollParents: seq<Target>
    var scrollElement: Option<nat>
    var eventsEnabled: bool

    ghost function Abstract(): World
      reads this
    {
      World(listeners, updateBound, scrollParents, scrollElement, eventsEnabled)
    }

    constructor (listeners: seq<Listener>)
      ensures Abstract() == World(listeners, None, [], None, false)
    {
      this.listeners, updateBound, scrollParents, scrollElement, eventsEnabled := listeners, None, [], None, false;
    }

    method AttachToScrollParents(d: Dom, scrollParent: nat, callback: Callback)
      requires d.Valid() && scrollParent < |d.nodes|
      modifies this`listeners, this`scrollParents
      ensures listeners == Attached(old(listeners), Targets(d, scrollParent), callback)
      ensures scrollParents == old(scrollParents) + Targets(d, scrollParent)
      decreases if scrollParent == d.body then 0 else scrollParent + 1
    {
      var isBody := d.nodes[scrollParent].nodeName == "BODY";
      var target := if isBody then Window else Node(scrollParent);
      listeners := Added(listeners, Listener(target, SCROLL, callback));
      if !isBody {
        AttachToScrollParents(d, GetScrollParent(d, d.nodes[scrollParent].parentNode), callback);
      }
      scrollParents := scrollParents + [target];
      ghost var targets := Targets(d, scrollParent);
      assert targets[..|targets| - 1] + [target] == targets;
    }

    method SetupEventListeners(d: Dom, reference: nat, callback: Callback)
      requires d.Valid() && reference < |d.nodes|
      modifies this
      ensures Abstract() == SetUp(old(Abstract()), d, reference, callback)
    {
      updateBound := Some(callback);
      listeners := Added(listeners, Listener(Window, RESIZE, callback));
      var parent := GetScrollParent(d, Some(reference));
      AttachToScrollParents(d, parent, callback);
      scrollElement := Some(parent);
      eventsEnabled := true;
    }

    method RemoveEventListeners()
      modifies this
      ensures Abstract() == TornDown(old(Abstract()))
    {
      if updateBound.Some? {
        var callback := updateBound.value;
        listeners := Removed(listeners, Listener(Window, RESIZE, callback));
        ghost var all := Detached(listeners, scrollParents, callback);
        var i := 0;
        while i < |scrollParents|
          invariant 0 <= i <= |scrollParents| && Detached(listeners, scrollParents[i..], callback) == all
          invariant scrollParents == old(scrollParents)
        {
          listeners := Removed(listeners, Listener(scrollParents[i], SCROLL, callback));
          i := i + 1;
        }
      }
      updateBound, scrollParents, scrollElement, eventsEnabled := None, [], None, false;
    }

    method EnableEventListeners(d: Dom, reference: nat, callback: Callback)
      requires d.Valid() && reference < |d.nodes|
      modifies this
      ensures Abstract() == Step(old(Abstract()), Enable(d, reference), callback)
    {
      if !eventsEnabled {
        SetupEventListeners(d, reference, callback);
      }
    }

    method DisableEventListeners(callback: Callback)
      modifies this
      ensures Abstract() == Step(old(Abstract()), Disable, callback)
    {
      if eventsEnabled {
        RemoveEventListeners();
      }
    }
  }
}
