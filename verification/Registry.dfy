/** The icon registry: packs, shims, the derived indexes and the hooks that keep them up to date. */
module Registry {
  import opened Options

  /** A JavaScript object with string keys, in insertion order. */
  type Table<V> = seq<(string, V)>

  datatype Icon = Icon(width: int, height: int, ligatures: seq<string>, unicode: string, data: string)

  /** An entry of a pack: the icon itself, or an object that carries its own name. */
  datatype Entry = Short(icon: Icon) | Expanded(iconName: string, icon: Icon)

  datatype Shim = Shim(oldName: string, prefix: Option<string>, iconName: Option<string>)

  datatype OldIcon = OldIcon(prefix: Option<string>, iconName: Option<string>)

  datatype Index = Index(
    byUnicode: map<string, map<string, string>>,
    byLigature: map<string, map<string, string>>,
    byOldName: map<string, OldIcon>)

  /** The shared namespace and the indexes of the core script; hooked once the core script has run. */
  datatype Namespace = Namespace(styles: Table<Table<Icon>>, shims: seq<Shim>, hooked: bool, index: Index)

  const NOTHING := Namespace([], [], false, Index(map[], map[], map[]))

  // ----- objects -----

  function Get<V>(t: Table<V>, key: string): Option<V> {
    if t == [] then None else if t[0].0 == key then Some(t[0].1) else Get(t[1..], key)
  }

  /** `t[key] = value` */
  function Put<V>(t: Table<V>, key: string, value: V): Table<V> {
    if t == [] then [(key, value)]
    else if t[0].0 == key then [(key, value)] + t[1..]
    else [t[0]] + Put(t[1..], key, value)
  }

  /** `_objectSpread({}, t, more)` */
  function Spread<V>(t: Table<V>, more: Table<V>): Table<V> {
    if more == [] then t else Put(Spread(t, more[..|more| - 1]), more[|more| - 1].0, more[|more| - 1].1)
  }

  ghost predicate Distinct<V>(t: Table<V>) {
    forall i, j :: 0 <= i < j < |t| ==> t[i].0 != t[j].0
  }

  // ----- packs -----

  /** Every entry under its own name. */
  function Normalized(icons: Table<Entry>): Table<Icon> {
    if icons == [] then []
    else
      var (name, entry) := icons[|icons| - 1];
      Put(Normalized(icons[..|icons| - 1]), if entry.Expanded? then entry.iconName else name, entry.icon)
  }

  function WithPack(styles: Table<Table<Icon>>, prefix: string, icons: Table<Icon>): Table<Table<Icon>> {
    Put(styles, prefix, Spread(Get(styles, prefix).GetOr([]), icons))
  }

  // ----- indexes -----

  function UnicodeIndex(style: Table<Icon>): map<string, string> {
    if style == [] then map[]
    else
      var (name, icon), m := style[|style| - 1], UnicodeIndex(style[..|style| - 1]);
      if icon.unicode != "" then m[icon.unicode := name] else m
  }

  function WithLigatures(m: map<string, string>, ligatures: seq<string>, name: string): map<string, string> {
    if ligatures == [] then m else WithLigatures(m, ligatures[..|ligatures| - 1], name)[ligatures[|ligatures| - 1] := name]
  }

  function LigatureIndex(style: Table<Icon>): map<string, string> {
    if style == [] then map[]
    else
      var (name, icon), m := style[|style| - 1], LigatureIndex(style[..|style| - 1]);
      WithLigatures(m[name := name], icon.ligatures, name)
  }

  function UnicodeIndexes(styles: Table<Table<Icon>>): map<string, map<string, string>> {
    if styles == [] then map[]
    else UnicodeIndexes(styles[..|styles| - 1])[styles[|styles| - 1].0 := UnicodeIndex(styles[|styles| - 1].1)]
  }

  function LigatureIndexes(styles: Table<Table<Icon>>): map<string, map<string, string>> {
    if styles == [] then map[]
    else LigatureIndexes(styles[..|styles| - 1])[styles[|styles| - 1].0 := LigatureIndex(styles[|styles| - 1].1)]
  }

  /** A shim for the regular style falls back to the solid one when there is no regular pack. */
  function OldNameIndex(shims: seq<Shim>, hasRegular: bool): map<string, OldIcon> {
    if shims == [] then map[]
    else
      var shim := shims[|shims| - 1];
      var prefix := if shim.prefix == Some("far") && !hasRegular then Some("fas") else shim.prefix;
      OldNameIndex(shims[..|shims| - 1], hasRegular)[shim.oldName := OldIcon(prefix, shim.iconName)]
  }

  function FreshIndex(styles: Table<Table<Icon>>, shims: seq<Shim>): Index {
    Index(UnicodeIndexes(styles), LigatureIndexes(styles), OldNameIndex(shims, Get(styles, "far").Some?))
  }

  function Rebuilt(ns: Namespace): Namespace {
    ns.(index := FreshIndex(ns.styles, ns.shims))
  }

  // ----- what scripts do to the namespace -----

  /** defineIcons: the alias for the solid pack is defined without the skipHooks of the outer call. */
  function Defined(ns: Namespace, prefix: string, icons: Table<Entry>, skipHooks: bool): Namespace
    decreases if prefix == "fas" then 1 else 0
  {
    var stored := ns.(styles := WithPack(ns.styles, prefix, Normalized(icons)));
    var defined := if ns.hooked && !skipHooks then Rebuilt(stored) else stored;
    if prefix == "fas" then Defined(defined, "fa", icons, false) else defined
  }

  /** library.add for one prefix: define, then build once more. */
  function Added(ns: Namespace, prefix: string, icons: Table<Entry>): Namespace {
    Rebuilt(Defined(ns, prefix, icons, false))
  }

  /** An icon definition; a pack passed to library.add is the list of its definitions. */
  datatype Definition = Definition(prefix: string, iconName: string, icon: Icon)

  /** _pullDefinitions: the definitions sorted by prefix. */
  function Pulled(definitions: seq<Definition>): Table<Table<Entry>> {
    if definitions == [] then []
    else
      var additions, d := Pulled(definitions[..|definitions| - 1]), definitions[|definitions| - 1];
      Put(additions, d.prefix, Put(Get(additions, d.prefix).GetOr([]), d.iconName, Short(d.icon)))
  }

  /** library.add for all prefixes, in turn. */
  function AddedAll(ns: Namespace, additions: Table<Table<Entry>>): Namespace {
    if additions == [] then ns
    else Added(AddedAll(ns, additions[..|additions| - 1]), additions[|additions| - 1].0, additions[|additions| - 1].1)
  }

  /** The definitions that the library keeps. */
  function Recorded(definitions: Table<Table<Entry>>, additions: Table<Table<Entry>>): Table<Table<Entry>> {
    if additions == [] then definitions
    else
      var kept, (prefix, icons) := Recorded(definitions, additions[..|additions| - 1]), additions[|additions| - 1];
      Put(kept, prefix, Spread(Get(kept, prefix).GetOr([]), icons))
  }

  datatype Script = Core | Pack(prefix: string, icons: Table<Entry>) | Shims(shims: seq<Shim>)

  function Load(ns: Namespace, script: Script): Namespace {
    match script
    case Core => Rebuilt(ns).(hooked := true)
    case Pack(prefix, icons) => Defined(ns, prefix, icons, false)
    case Shims(shims) =>
      var pushed := ns.(shims := ns.shims + shims);
      if ns.hooked then Rebuilt(pushed) else pushed
  }

  function LoadAll(scripts: seq<Script>): Namespace {
    if scripts == [] then NOTHING else Load(LoadAll(scripts[..|scripts| - 1]), scripts[|scripts| - 1])
  }

  // ----- lookups -----

  function ByUnicode(ns: Namespace, prefix: string, unicode: string): Option<string> {
    if prefix in ns.index.byUnicode && unicode in ns.index.byUnicode[prefix] then Some(ns.index.byUnicode[prefix][unicode]) else None
  }

  function FindIcon(ns: Namespace, iconName: string, prefix: string): Option<Icon> {
    if iconName == "" || prefix == "" then None
    else match Get(ns.styles, prefix)
      case None => None
      case Some(style) => Get(style, iconName)
  }

  // ----- facts about objects -----

  lemma {:induction false} GetPut<V>(t: Table<V>, key: string, value: V, k: string)
    ensures Get(Put(t, key, value), k) == if k == key then Some(value) else Get(t, k)
  {
    if t == [] {
    } else if t[0].0 == key {
      assert ([(key, value)] + t[1..])[1..] == t[1..];
    } else {
      GetPut(t[1..], key, value, k);
      assert ([t[0]] + Put(t[1..], key, value))[1..] == Put(t[1..], key, value);
    }
  }

  lemma {:induction false} GetAppend<V>(t: Table<V>, more: Table<V>, k: string)
    ensures Get(t + more, k) == if Get(t, k).Some? then Get(t, k) else Get(more, k)
  {
    if t == [] {
      assert t + more == more;
    } else {
      assert (t + more)[0] == t[0] && (t + more)[1..] == t[1..] + more;
      GetAppend(t[1..], more, k);
    }
  }

  lemma {:induction false} GetMembers<V>(t: Table<V>, k: string)
    ensures Get(t, k).Some? <==> exists i :: 0 <= i < |t| && t[i].0 == k
  {
    if t != [] {
      GetMembers(t[1..], k);
      if Get(t[1..], k).Some? {
        var i :| 0 <= i < |t| - 1 && t[1..][i].0 == k;
        assert t[i + 1].0 == k;
      }
    }
  }

  lemma {:induction false} PutFresh<V>(t: Table<V>, key: string, value: V)
    requires Get(t, key).None?
    ensures Put(t, key, value) == t + [(key, value)]
  {
    if t != [] {
      PutFresh(t[1..], key, value);
    }
  }

  lemma {:induction false} PutDistinct<V>(t: Table<V>, key: string, value: V)
    requires Distinct(t)
    ensures Distinct(Put(t, key, value))
  {
    if t != [] && t[0].0 != key {
      PutDistinct(t[1..], key, value);
      var u := Put(t[1..], key, value);
      forall j | 0 <= j < |u|
        ensures u[j].0 != t[0].0
      {
        GetPut(t[1..], key, value, u[j].0);
        GetMembers(u, u[j].0);
        GetMembers(t[1..], u[j].0);
      }
    }
  }

  lemma {:induction false} SpreadEmpty<V>(t: Table<V>)
    requires Distinct(t)
    ensures Spread([], t) == t
  {
    if t != [] {
      var n := |t| - 1;
      SpreadEmpty(t[..n]);
      GetMembers(t[..n], t[n].0);
      PutFresh(t[..n], t[n].0, t[n].1);
      assert t == t[..n] + [t[n]];
    }
  }

  /** A spread never loses a key. */
  lemma {:induction false} SpreadGrows<V>(t: Table<V>, more: Table<V>, k: string)
    ensures Get(t, k).Some? ==> Get(Spread(t, more), k).Some?
  {
    if more != [] {
      var n := |more| - 1;
      SpreadGrows(t, more[..n], k);
      GetPut(Spread(t, more[..n]), more[n].0, more[n].1, k);
    }
  }

  lemma {:induction false} NormalizedDistinct(icons: Table<Entry>)
    ensures Distinct(Normalized(icons))
  {
    if icons != [] {
      var n := |icons| - 1;
      NormalizedDistinct(icons[..n]);
      PutDistinct(Normalized(icons[..n]), if icons[n].1.Expanded? then icons[n].1.iconName else icons[n].0, icons[n].1.icon);
    }
  }

  lemma LastOf<V>(t: Table<V>, k: string)
    requires t != [] && Distinct(t)
    ensures var n := |t| - 1;
      Distinct(t[..n]) && Get(t, k) == if k == t[n].0 then Some(t[n].1) else Get(t[..n], k)
  {
    var n := |t| - 1;
    assert t == t[..n] + [t[n]];
    GetAppend(t[..n], [t[n]], k);
    GetMembers(t[..n], t[n].0);
    assert [t[n]][1..] == [];
  }

  // ----- what the indexes mean -----

  /** Of the icons with one character the last is indexed. */
  lemma {:induction false} LastUnicodeCounts(style: Table<Icon>, i: nat)
    requires i < |style| && style[i].1.unicode != "" && forall j | i < j < |style| :: style[j].1.unicode != style[i].1.unicode
    ensures var m := UnicodeIndex(style); style[i].1.unicode in m && m[style[i].1.unicode] == style[i].0
  {
    var n := |style| - 1;
    if i < n {
      LastUnicodeCounts(style[..n], i);
    }
  }

  lemma {:induction false} LastWith(style: Table<Icon>, u: string) returns (i: nat)
    requires exists k :: 0 <= k < |style| && style[k].1.unicode == u
    ensures i < |style| && style[i].1.unicode == u && forall j | i < j < |style| :: style[j].1.unicode != u
  {
    i := |style| - 1;
    if style[i].1.unicode != u {
      i := LastWith(style[..i], u);
    }
  }

  lemma {:induction false} UnicodesOnly(style: Table<Icon>, u: string)
    ensures u in UnicodeIndex(style) ==> u != "" && exists i :: 0 <= i < |style| && style[i].1.unicode == u
  {
    if style != [] {
      UnicodesOnly(style[..|style| - 1], u);
    }
  }

  /** The unicode index has exactly the characters of the style's icons, and names the last icon with that one. */
  lemma UnicodeIndexMeans(style: Table<Icon>, u: string)
    ensures u in UnicodeIndex(style) <==> u != "" && exists i :: 0 <= i < |style| && style[i].1.unicode == u
    ensures var m := UnicodeIndex(style);
      u in m ==> exists i :: 0 <= i < |style| && style[i] == (m[u], style[i].1) && style[i].1.unicode == u &&
                             forall j | i < j < |style| :: style[j].1.unicode != u
  {
    UnicodesOnly(style, u);
    hide UnicodeIndex;
    if u != "" && exists i :: 0 <= i < |style| && style[i].1.unicode == u {
      var i := LastWith(style, u);
      LastUnicodeCounts(style, i);
    }
  }

  predicate Answers(entry: (string, Icon), word: string) {
    word == entry.0 || word in entry.1.ligatures
  }

  lemma {:induction false} WithLigaturesIs(m: map<string, string>, ligatures: seq<string>, name: string, word: string)
    ensures var r := WithLigatures(m, ligatures, name);
      && (word in r <==> word in m || word in ligatures)
      && (word in r ==> r[word] == if word in ligatures then name else m[word])
  {
    if ligatures != [] {
      WithLigaturesIs(m, ligatures[..|ligatures| - 1], name, word);
      assert word in ligatures <==> word in ligatures[..|ligatures| - 1] || word == ligatures[|ligatures| - 1];
    }
  }

  /** The ligature index has exactly the names and ligatures of the style's icons, and names the last icon that answers to the word. */
  lemma {:induction false} LigatureIndexMeans(style: Table<Icon>, word: string)
    requires Distinct(style)
    ensures word in LigatureIndex(style) <==> exists i :: 0 <= i < |style| && Answers(style[i], word)
    ensures var m := LigatureIndex(style);
      word in m ==> Get(style, m[word]).Some? && Answers((m[word], Get(style, m[word]).value), word)
    ensures var m := LigatureIndex(style);
      forall i | 0 <= i < |style| && Answers(style[i], word) && (forall j | i < j < |style| :: !Answers(style[j], word)) ::
        word in m && m[word] == style[i].0
  {
    if style != [] {
      var n := |style| - 1;
      var (name, icon) := style[n];
      LigatureIndexMeans(style[..n], word);
      WithLigaturesIs(LigatureIndex(style[..n])[name := name], icon.ligatures, name, word);
      assert forall i :: 0 <= i < n ==> style[..n][i] == style[i];
      if word in LigatureIndex(style) {
        LastOf(style, LigatureIndex(style)[word]);
        GetMembers(style[..n], name);
      }
      hide Get, WithLigatures;
    }
  }

  /** The last shim of an old name counts; without a regular pack `far` becomes `fas`. */
  lemma {:induction false} OldNameIndexMeans(shims: seq<Shim>, hasRegular: bool, i: nat)
    requires i < |shims| && forall j :: i < j < |shims| ==> shims[j].oldName != shims[i].oldName
    ensures var m := OldNameIndex(shims, hasRegular);
      && shims[i].oldName in m && m[shims[i].oldName].iconName == shims[i].iconName
      && m[shims[i].oldName].prefix == if shims[i].prefix == Some("far") && !hasRegular then Some("fas") else shims[i].prefix
  {
    if i < |shims| - 1 {
      OldNameIndexMeans(shims[..|shims| - 1], hasRegular, i);
    }
  }

  lemma {:induction false} OldNamesOnly(shims: seq<Shim>, hasRegular: bool, oldName: string)
    ensures oldName in OldNameIndex(shims, hasRegular) <==> exists i :: 0 <= i < |shims| && shims[i].oldName == oldName
  {
    if shims != [] {
      var n := |shims| - 1;
      OldNamesOnly(shims[..n], hasRegular, oldName);
      assert forall i :: 0 <= i < n ==> shims[..n][i] == shims[i];
    }
  }

  // ----- the indexes depend on what the lookups give, not on the order of the styles -----

  lemma {:induction false} IndexesOf(styles: Table<Table<Icon>>)
    requires Distinct(styles)
    ensures forall p :: p in UnicodeIndexes(styles) <==> Get(styles, p).Some?
    ensures forall p :: p in LigatureIndexes(styles) <==> Get(styles, p).Some?
    ensures forall p :: p in UnicodeIndexes(styles) ==> UnicodeIndexes(styles)[p] == UnicodeIndex(Get(styles, p).value)
    ensures forall p :: p in LigatureIndexes(styles) ==> LigatureIndexes(styles)[p] == LigatureIndex(Get(styles, p).value)
  {
    hide UnicodeIndex, LigatureIndex;
    if styles != [] {
      var n := |styles| - 1;
      IndexesOf(styles[..n]);
      assert styles == styles[..n] + [styles[n]];
      GetMembers(styles[..n], styles[n].0);
      forall p
        ensures Get(styles, p) == if p == styles[n].0 then Some(styles[n].1) else Get(styles[..n], p)
      {
        GetAppend(styles[..n], [styles[n]], p);
        assert [styles[n]][1..] == [];
      }
    }
  }

  lemma SameIndexes(x: Table<Table<Icon>>, y: Table<Table<Icon>>, shims: seq<Shim>)
    requires Distinct(x) && Distinct(y) && forall p :: Get(x, p) == Get(y, p)
    ensures FreshIndex(x, shims) == FreshIndex(y, shims)
  {
    IndexesOf(x);
    IndexesOf(y);
    hide UnicodeIndexes, LigatureIndexes, Distinct;
    assert UnicodeIndexes(x) == UnicodeIndexes(y);
    assert LigatureIndexes(x) == LigatureIndexes(y);
  }

  // ----- load order -----

  /** The index is up to date from the moment the core script has run. */
  ghost predicate UpToDate(ns: Namespace) {
    Distinct(ns.styles) && (ns.hooked ==> ns.index == FreshIndex(ns.styles, ns.shims))
  }

  lemma DefineUpToDate(ns: Namespace, prefix: string, icons: Table<Entry>)
    requires UpToDate(ns)
    ensures UpToDate(Defined(ns, prefix, icons, false)) && Defined(ns, prefix, icons, false).hooked == ns.hooked
    ensures Defined(ns, prefix, icons, false).shims == ns.shims
    decreases if prefix == "fas" then 1 else 0
  {
    hide FreshIndex;
    var styles := WithPack(ns.styles, prefix, Normalized(icons));
    PutDistinct(ns.styles, prefix, Spread(Get(ns.styles, prefix).GetOr([]), Normalized(icons)));
    var stored := ns.(styles := styles);
    var defined := if ns.hooked then Rebuilt(stored) else stored;
    assert UpToDate(defined);
    if prefix == "fas" {
      DefineUpToDate(defined, "fa", icons);
    }
  }

  /** Skipping the hooks leaves the indexes as they were, except for the solid pack: its alias rebuilds them. */
  lemma SkippedHooks(ns: Namespace, prefix: string, icons: Table<Entry>)
    requires ns.hooked
    ensures var d := Defined(ns, prefix, icons, true);
      if prefix == "fas" then d.index == FreshIndex(d.styles, d.shims) else d.index == ns.index
  {
    hide FreshIndex, WithPack, Normalized;
    var stored := ns.(styles := WithPack(ns.styles, prefix, Normalized(icons)));
    if prefix == "fas" {
      assert Defined(ns, prefix, icons, true) == Defined(stored, "fa", icons, false);
    }
  }

  lemma {:induction false} LoadedUpToDate(scripts: seq<Script>)
    ensures UpToDate(LoadAll(scripts)) && (LoadAll(scripts).hooked <==> Core in scripts)
    ensures LoadAll(scripts).shims == AllShims(scripts)
  {
    hide FreshIndex, Defined;
    if scripts != [] {
      var n := |scripts| - 1;
      LoadedUpToDate(scripts[..n]);
      assert scripts == scripts[..n] + [scripts[n]];
      if scripts[n].Pack? {
        DefineUpToDate(LoadAll(scripts[..n]), scripts[n].prefix, scripts[n].icons);
      }
    }
  }

  function AllShims(scripts: seq<Script>): seq<Shim> {
    if scripts == [] then []
    else AllShims(scripts[..|scripts| - 1]) + if scripts[|scripts| - 1].Shims? then scripts[|scripts| - 1].shims else []
  }

  predicate Contributes(script: Script, p: string) {
    script.Pack? && (script.prefix == p || (script.prefix == "fas" && p == "fa"))
  }

  /** No two packs define the same prefix, `fas` defining `fa` too, and there is at most one list of shims. */
  ghost predicate Compatible(scripts: multiset<Script>) {
    && (forall x, y, p :: x in scripts && y in scripts && Contributes(x, p) && Contributes(y, p) ==> x == y && scripts[x] == 1)
    && (forall x, y :: x in scripts && y in scripts && x.Shims? && y.Shims? ==> x == y && scripts[x] == 1)
  }

  function StyleOf(scripts: seq<Script>, p: string): Option<Table<Icon>> {
    if scripts == [] then None
    else
      var last := scripts[|scripts| - 1];
      if Contributes(last, p) then Some(Normalized(last.icons)) else StyleOf(scripts[..|scripts| - 1], p)
  }

  lemma {:induction false} StyleOfMembers(scripts: seq<Script>, p: string)
    ensures forall x :: x in scripts && Contributes(x, p) ==> StyleOf(scripts, p).Some?
    ensures StyleOf(scripts, p).Some? ==> exists x :: x in scripts && Contributes(x, p) && StyleOf(scripts, p).value == Normalized(x.icons)
  {
    if scripts != [] {
      var n := |scripts| - 1;
      assert scripts == scripts[..n] + [scripts[n]];
      StyleOfMembers(scripts[..n], p);
    }
  }

  /** The packs that contribute to p, each spread over the earlier ones in load order. */
  function Layered(scripts: seq<Script>, p: string): Option<Table<Icon>> {
    if scripts == [] then None
    else
      var below, last := Layered(scripts[..|scripts| - 1], p), scripts[|scripts| - 1];
      if Contributes(last, p) then Some(Spread(below.GetOr([]), Normalized(last.icons))) else below
  }

  /** What defining a pack does to every prefix. */
  lemma DefinedStyle(ns: Namespace, prefix: string, icons: Table<Entry>, p: string)
    ensures Get(Defined(ns, prefix, icons, false).styles, p) ==
      if Contributes(Pack(prefix, icons), p) then Some(Spread(Get(ns.styles, p).GetOr([]), Normalized(icons))) else Get(ns.styles, p)
    decreases if prefix == "fas" then 1 else 0
  {
    var style := Spread(Get(ns.styles, prefix).GetOr([]), Normalized(icons));
    GetPut(ns.styles, prefix, style, p);
    hide Rebuilt, Normalized, Spread;
    RebuiltStyles(ns.(styles := WithPack(ns.styles, prefix, Normalized(icons))));
    if prefix == "fas" {
      var stored := ns.(styles := WithPack(ns.styles, prefix, Normalized(icons)));
      var defined := if ns.hooked then Rebuilt(stored) else stored;
      GetPut(ns.styles, prefix, style, "fa");
      DefinedStyle(defined, "fa", icons, p);
    }
  }

  lemma RebuiltStyles(ns: Namespace)
    ensures Rebuilt(ns).styles == ns.styles && Rebuilt(ns).hooked == ns.hooked
  {}

  /** After any scripts in any order: style p is the packs of p, spread one over the other in load order. */
  lemma {:induction false} LoadedStyles(scripts: seq<Script>, p: string)
    ensures Get(LoadAll(scripts).styles, p) == Layered(scripts, p)
  {
    if scripts != [] {
      var n := |scripts| - 1;
      var ns, last := LoadAll(scripts[..n]), scripts[n];
      LoadedStyles(scripts[..n], p);
      RebuiltStyles(ns);
      if last.Pack? {
        DefinedStyle(ns, last.prefix, last.icons, p);
      } else if last.Shims? {
        RebuiltStyles(ns.(shims := ns.shims + last.shims));
      }
    }
    hide Rebuilt, Normalized, Spread, Defined;
  }

  /** Where at most one pack contributes to p, there is one layer. */
  lemma {:induction false} OneLayer(scripts: seq<Script>, p: string)
    requires Compatible(multiset(scripts))
    ensures Layered(scripts, p) == StyleOf(scripts, p)
  {
    if scripts != [] {
      var n := |scripts| - 1;
      var last := scripts[n];
      assert scripts == scripts[..n] + [last];
      PrefixCompatible(scripts);
      OneLayer(scripts[..n], p);
      if Contributes(last, p) {
        StyleOfMembers(scripts[..n], p);
        assert multiset(scripts) == multiset(scripts[..n]) + multiset{last};
        assert forall x :: x in scripts[..n] ==> x in multiset(scripts[..n]);
        NormalizedDistinct(last.icons);
        SpreadEmpty(Normalized(last.icons));
      }
    }
    hide Normalized, Spread;
  }

  lemma PrefixCompatible(scripts: seq<Script>)
    requires scripts != [] && Compatible(multiset(scripts))
    ensures Compatible(multiset(scripts[..|scripts| - 1]))
  {
    var n := |scripts| - 1;
    assert scripts == scripts[..n] + [scripts[n]];
    assert multiset(scripts) == multiset(scripts[..n]) + multiset{scripts[n]};
    hide Contributes;
  }

  lemma {:induction false} OneShimList(scripts: seq<Script>)
    requires Compatible(multiset(scripts))
    ensures forall x :: x in scripts && x.Shims? ==> AllShims(scripts) == x.shims
    ensures (forall x :: x in scripts ==> !x.Shims?) ==> AllShims(scripts) == []
  {
    if scripts != [] {
      var n := |scripts| - 1;
      assert scripts == scripts[..n] + [scripts[n]];
      assert multiset(scripts) == multiset(scripts[..n]) + multiset{scripts[n]};
      PrefixCompatible(scripts);
      OneShimList(scripts[..n]);
      if scripts[n].Shims? {
        forall x | x in scripts[..n]
          ensures !x.Shims?
        {
          assert x in multiset(scripts[..n]);
        }
      }
    }
  }

  /**
   * Whatever order the core script, packs with distinct prefixes, `fas` counting as `fa` too, and one list of
   * shims load in, the
   * styles, the shims and all three indexes come out the same, and the indexes are freshly built.
   */
  lemma LoadOrderIsIrrelevant(a: seq<Script>, b: seq<Script>)
    requires multiset(a) == multiset(b) && Compatible(multiset(a)) && Core in a
    ensures forall p :: Get(LoadAll(a).styles, p) == Get(LoadAll(b).styles, p)
    ensures LoadAll(a).shims == LoadAll(b).shims
    ensures LoadAll(a).index == LoadAll(b).index == FreshIndex(LoadAll(a).styles, LoadAll(a).shims)
  {
    assert forall x :: x in a <==> x in multiset(a);
    assert forall x :: x in b <==> x in multiset(b);
    LoadedUpToDate(a);
    LoadedUpToDate(b);
    OneShimList(a);
    OneShimList(b);
    forall p
      ensures Get(LoadAll(a).styles, p) == Get(LoadAll(b).styles, p)
    {
      LoadedStyles(a, p);
      LoadedStyles(b, p);
      OneLayer(a, p);
      OneLayer(b, p);
      StyleOfMembers(a, p);
      StyleOfMembers(b, p);
    }
    hide LoadAll, FreshIndex, StyleOf, Contributes, Compatible;
    SameShims(a, b);
    SameIndexes(LoadAll(a).styles, LoadAll(b).styles, LoadAll(a).shims);
  }

  lemma SameShims(a: seq<Script>, b: seq<Script>)
    requires forall x :: x in a <==> x in b
    requires forall x :: x in a && x.Shims? ==> AllShims(a) == x.shims == AllShims(b)
    requires (forall x :: x in a ==> !x.Shims?) ==> AllShims(a) == [] == AllShims(b)
    ensures AllShims(a) == AllShims(b)
  {}

  lemma OneIconDefined(ns: Namespace, prefix: string, name: string, icon: Icon)
    requires prefix == "fa" || prefix == "fas"
    ensures FindIcon(Defined(ns, prefix, [(name, Short(icon))], false), name, "fa") == if name == "" then None else Some(icon)
    decreases if prefix == "fas" then 1 else 0
  {
    var icons := [(name, Short(icon))];
    assert icons[..0] == [] && Normalized(icons) == [(name, icon)];
    var style := Get(ns.styles, prefix).GetOr([]);
    assert [(name, icon)][..0] == [] && Spread(style, [(name, icon)]) == Put(style, name, icon);
    var stored := ns.(styles := WithPack(ns.styles, prefix, Normalized(icons)));
    var defined := if ns.hooked then Rebuilt(stored) else stored;
    GetPut(ns.styles, prefix, Put(style, name, icon), "fa");
    GetPut(style, name, icon, name);
    RebuiltStyles(stored);
    if prefix == "fas" {
      OneIconDefined(defined, "fa", name, icon);
    }
  }

  /** A pack `fa` beside the pack `fas` is left out above for a reason: the one that loads last wins. */
  lemma AliasOrderMatters(x: Icon, y: Icon, name: string)
    requires name != ""
    ensures var solid, own := Pack("fas", [(name, Short(x))]), Pack("fa", [(name, Short(y))]);
      && FindIcon(LoadAll([Core, solid, own]), name, "fa") == Some(y)
      && FindIcon(LoadAll([Core, own, solid]), name, "fa") == Some(x)
  {
    var solid, own := Pack("fas", [(name, Short(x))]), Pack("fa", [(name, Short(y))]);
    assert [Core, solid, own][..2] == [Core, solid] && [Core, own, solid][..2] == [Core, own];
    OneIconDefined(LoadAll([Core, solid]), "fa", name, y);
    OneIconDefined(LoadAll([Core, own]), "fas", name, x);
    hide Defined, FindIcon;
  }

  // ----- a stale index still names icons that are there -----

  ghost predicate Found(styles: Table<Table<Icon>>, prefix: string, iconName: string) {
    Get(styles, prefix).Some? && Get(Get(styles, prefix).value, iconName).Some?
  }

  ghost predicate NamesAreFound(ns: Namespace) {
    && Distinct(ns.styles)
    && forall p, u :: p in ns.index.byUnicode && u in ns.index.byUnicode[p] ==> Found(ns.styles, p, ns.index.byUnicode[p][u])
  }

  lemma {:induction false} UnicodeNamesFound(style: Table<Icon>, u: string)
    requires u in UnicodeIndex(style)
    ensures Get(style, UnicodeIndex(style)[u]).Some?
  {
    var n := |style| - 1;
    var (name, icon) := style[n];
    var found := UnicodeIndex(style)[u];
    assert style == style[..n] + [style[n]];
    GetAppend(style[..n], [style[n]], found);
    if !(icon.unicode != "" && u == icon.unicode) {
      UnicodeNamesFound(style[..n], u);
    }
  }

  lemma RebuiltNamesFound(ns: Namespace)
    requires Distinct(ns.styles)
    ensures NamesAreFound(Rebuilt(ns))
  {
    IndexesOf(ns.styles);
    var index := UnicodeIndexes(ns.styles);
    forall p, u | p in index && u in index[p]
      ensures Found(ns.styles, p, index[p][u])
    {
      UnicodeNamesFound(Get(ns.styles, p).value, u);
    }
  }

  /** Packs only grow. */
  lemma PackKeepsFound(styles: Table<Table<Icon>>, prefix: string, icons: Table<Icon>, p: string, name: string)
    requires Found(styles, p, name)
    ensures Found(WithPack(styles, prefix, icons), p, name)
  {
    var style := Get(styles, prefix).GetOr([]);
    GetPut(styles, prefix, Spread(style, icons), p);
    SpreadGrows(style, icons, name);
  }

  lemma DefineNamesFound(ns: Namespace, prefix: string, icons: Table<Entry>, skipHooks: bool)
    requires NamesAreFound(ns)
    ensures NamesAreFound(Defined(ns, prefix, icons, skipHooks))
    decreases if prefix == "fas" then 1 else 0
  {
    hide FreshIndex, Distinct;
    var stored := ns.(styles := WithPack(ns.styles, prefix, Normalized(icons)));
    PutDistinct(ns.styles, prefix, Spread(Get(ns.styles, prefix).GetOr([]), Normalized(icons)));
    forall p, u | p in ns.index.byUnicode && u in ns.index.byUnicode[p]
      ensures Found(stored.styles, p, ns.index.byUnicode[p][u])
    {
      PackKeepsFound(ns.styles, prefix, Normalized(icons), p, ns.index.byUnicode[p][u]);
    }
    RebuiltNamesFound(stored);
    var defined := if ns.hooked && !skipHooks then Rebuilt(stored) else stored;
    assert NamesAreFound(defined);
    if prefix == "fas" {
      DefineNamesFound(defined, "fa", icons, false);
    }
  }

  lemma AddedNamesFound(ns: Namespace, prefix: string, icons: Table<Entry>)
    requires NamesAreFound(ns)
    ensures NamesAreFound(Added(ns, prefix, icons))
  {
    hide FreshIndex, Defined, Distinct, Found, Rebuilt;
    DefineNamesFound(ns, prefix, icons, false);
    RebuiltNamesFound(Defined(ns, prefix, icons, false));
  }

  lemma {:induction false} AddedAllNamesFound(ns: Namespace, additions: Table<Table<Entry>>)
    requires NamesAreFound(ns)
    ensures NamesAreFound(AddedAll(ns, additions))
  {
    hide Added, NamesAreFound;
    if additions != [] {
      var n := |additions| - 1;
      AddedAllNamesFound(ns, additions[..n]);
      AddedNamesFound(AddedAll(ns, additions[..n]), additions[n].0, additions[n].1);
    }
  }

  lemma LoadNamesFound(ns: Namespace, script: Script)
    requires NamesAreFound(ns)
    ensures NamesAreFound(Load(ns, script))
  {
    hide FreshIndex, Defined, Distinct, Found;
    match script
    case Core => RebuiltNamesFound(ns);
    case Pack(prefix, icons) => DefineNamesFound(ns, prefix, icons, false);
    case Shims(shims) => RebuiltNamesFound(ns.(shims := ns.shims + shims));
  }

  /** What byUnicode answers, findIcon can find. */
  lemma UnicodeIsFound(ns: Namespace, prefix: string, unicode: string)
    requires NamesAreFound(ns) && ByUnicode(ns, prefix, unicode).Some?
    ensures prefix != "" && ByUnicode(ns, prefix, unicode).value != "" ==>
      FindIcon(ns, ByUnicode(ns, prefix, unicode).value, prefix).Some?
  {}

  // ----- library.add makes its icons findable -----

  /** The last definition of an icon. */
  function LastDefinition(definitions: seq<Definition>, prefix: string, iconName: string): Option<Icon> {
    if definitions == [] then None
    else
      var d := definitions[|definitions| - 1];
      if d.prefix == prefix && d.iconName == iconName then Some(d.icon)
      else LastDefinition(definitions[..|definitions| - 1], prefix, iconName)
  }

  function IconAt(styles: Table<Table<Icon>>, prefix: string, iconName: string): Option<Icon> {
    Get(Get(styles, prefix).GetOr([]), iconName)
  }

  ghost predicate AllShort(icons: Table<Entry>) {
    Distinct(icons) && forall i :: 0 <= i < |icons| ==> icons[i].1.Short?
  }

  lemma {:induction false} PutShort(icons: Table<Entry>, name: string, icon: Icon)
    requires AllShort(icons)
    ensures AllShort(Put(icons, name, Short(icon)))
  {
    PutDistinct(icons, name, Short(icon));
    PutKeepsShort(icons, name, icon);
  }

  lemma {:induction false} PutKeepsShort(icons: Table<Entry>, name: string, icon: Icon)
    requires forall i :: 0 <= i < |icons| ==> icons[i].1.Short?
    ensures forall i :: 0 <= i < |Put(icons, name, Short(icon))| ==> Put(icons, name, Short(icon))[i].1.Short?
  {
    if icons != [] && icons[0].0 != name {
      PutKeepsShort(icons[1..], name, icon);
    }
  }

  lemma {:induction false} PulledFinds(definitions: seq<Definition>, p: string, n: string)
    ensures var icons := Get(Pulled(definitions), p).GetOr([]);
      && AllShort(icons)
      && Get(icons, n) == match LastDefinition(definitions, p, n) case None => None case Some(icon) => Some(Short(icon))
    ensures Distinct(Pulled(definitions))
    ensures Get(Pulled(definitions), p).Some? <==> exists i :: 0 <= i < |definitions| && definitions[i].prefix == p
  {
    if definitions != [] {
      var k := |definitions| - 1;
      var d, before := definitions[k], Pulled(definitions[..k]);
      PulledFinds(definitions[..k], p, n);
      var icons := Get(before, d.prefix).GetOr([]);
      GetPut(before, d.prefix, Put(icons, d.iconName, Short(d.icon)), p);
      PutDistinct(before, d.prefix, Put(icons, d.iconName, Short(d.icon)));
      GetPut(icons, d.iconName, Short(d.icon), n);
      if p == d.prefix {
        PutShort(icons, d.iconName, d.icon);
      }
      assert forall i :: 0 <= i < k ==> definitions[..k][i] == definitions[i];
      hide Put, Get, AllShort, Distinct;
    }
  }

  lemma {:induction false} NormalizedFinds(icons: Table<Entry>, n: string)
    requires AllShort(icons)
    ensures Get(Normalized(icons), n) == match Get(icons, n) case None => None case Some(entry) => Some(entry.icon)
  {
    if icons != [] {
      var k := |icons| - 1;
      NormalizedFinds(icons[..k], n);
      LastOf(icons, n);
      GetPut(Normalized(icons[..k]), icons[k].0, icons[k].1.icon, n);
    }
  }

  lemma {:induction false} SpreadFinds<V>(t: Table<V>, more: Table<V>, n: string)
    requires Distinct(more)
    ensures Get(Spread(t, more), n) == if Get(more, n).Some? then Get(more, n) else Get(t, n)
  {
    if more != [] {
      var k := |more| - 1;
      LastOf(more, n);
      SpreadFinds(t, more[..k], n);
      GetPut(Spread(t, more[..k]), more[k].0, more[k].1, n);
    }
  }

  lemma WithPackFinds(styles: Table<Table<Icon>>, prefix: string, icons: Table<Entry>, p: string, n: string)
    requires AllShort(icons)
    ensures IconAt(WithPack(styles, prefix, Normalized(icons)), p, n) ==
      if p == prefix && Get(icons, n).Some? then Some(Get(icons, n).value.icon) else IconAt(styles, p, n)
  {
    var style := Get(styles, prefix).GetOr([]);
    NormalizedDistinct(icons);
    NormalizedFinds(icons, n);
    SpreadFinds(style, Normalized(icons), n);
    GetPut(styles, prefix, Spread(style, Normalized(icons)), p);
    hide Get, Put, Spread, Normalized, AllShort;
  }

  lemma DefinedFinds(ns: Namespace, prefix: string, icons: Table<Entry>, p: string, n: string)
    requires AllShort(icons) && (p == "fa" ==> prefix != "fas")
    ensures IconAt(Defined(ns, prefix, icons, false).styles, p, n) ==
      if p == prefix && Get(icons, n).Some? then Some(Get(icons, n).value.icon) else IconAt(ns.styles, p, n)
    decreases if prefix == "fas" then 1 else 0
  {
    hide FreshIndex, WithPack, Normalized, AllShort, IconAt, Get;
    var stored := ns.(styles := WithPack(ns.styles, prefix, Normalized(icons)));
    WithPackFinds(ns.styles, prefix, icons, p, n);
    if prefix == "fas" {
      DefinedFinds(if ns.hooked then Rebuilt(stored) else stored, "fa", icons, p, n);
    }
  }

  lemma {:induction false} AddedAllFinds(ns: Namespace, additions: Table<Table<Entry>>, p: string, n: string)
    requires Distinct(additions) && forall i :: 0 <= i < |additions| ==> AllShort(additions[i].1)
    requires p == "fa" ==> Get(additions, "fas").None?
    ensures var icons := Get(additions, p).GetOr([]);
      IconAt(AddedAll(ns, additions).styles, p, n) ==
      if Get(icons, n).Some? then Some(Get(icons, n).value.icon) else IconAt(ns.styles, p, n)
  {
    hide Defined, FreshIndex, IconAt, AllShort;
    if additions != [] {
      var k := |additions| - 1;
      var (prefix, icons) := additions[k];
      LastOf(additions, p);
      LastOf(additions, "fas");
      LastOf(additions, prefix);
      GetMembers(additions[..k], prefix);
      AddedAllFinds(ns, additions[..k], p, n);
      DefinedFinds(AddedAll(ns, additions[..k]), prefix, icons, p, n);
    }
  }

  lemma PulledShort(definitions: seq<Definition>)
    ensures forall i :: 0 <= i < |Pulled(definitions)| ==> AllShort(Pulled(definitions)[i].1)
  {
    var t := Pulled(definitions);
    forall i | 0 <= i < |t| ensures AllShort(t[i].1) {
      PulledFinds(definitions, t[i].0, "");
      GetAt(t, i);
    }
  }

  lemma {:induction false} GetAt<V>(t: Table<V>, i: nat)
    requires Distinct(t) && i < |t|
    ensures Get(t, t[i].0) == Some(t[i].1)
  {
    LastOf(t, t[i].0);
    if i < |t| - 1 {
      GetAt(t[..|t| - 1], i);
    }
  }

  /**
   * library.add: every icon it defines is then found, with its last definition, and no other icon
   * changes; for `fa` only if the solid pack is not added with it, whose alias would come on top.
   */
  lemma AddedIconsFound(ns: Namespace, definitions: seq<Definition>, prefix: string, iconName: string)
    requires prefix != "" && iconName != "" && (prefix == "fa" ==> forall d :: d in definitions ==> d.prefix != "fas")
    ensures FindIcon(AddedAll(ns, Pulled(definitions)), iconName, prefix) ==
      if LastDefinition(definitions, prefix, iconName).Some? then LastDefinition(definitions, prefix, iconName)
      else FindIcon(ns, iconName, prefix)
  {
    PulledFinds(definitions, prefix, iconName);
    PulledFinds(definitions, "fas", iconName);
    PulledShort(definitions);
    hide Pulled, AddedAll, AllShort, LastDefinition, Distinct;
    AddedAllFinds(ns, Pulled(definitions), prefix, iconName);
  }

  // ----- the script as it runs -----

  /** The variables of the core script and the shared namespace, updated in place. */
  class Library {
    var styles: Table<Table<Icon>>
    var shims: seq<Shim>
    var hooked: bool
    var byUnicode: map<string, map<string, string>>
    var byLigature: map<string, map<string, string>>
    var byOldName: map<string, OldIcon>
    var definitions: Table<Table<Entry>>  // kept by add

    ghost function Abstract(): Namespace
      reads this
    {
      Namespace(styles, shims, hooked, Index(byUnicode, byLigature, byOldName))
    }

    constructor ()
      ensures Abstract() == NOTHING && definitions == []
    {
      styles, shims, hooked, definitions := [], [], false, [];
      byUnicode, byLigature, byOldName := map[], map[], map[];
    }

    /** build: three passes over the styles and the shims. */
    method Build()
      modifies this`byUnicode, this`byLigature, this`byOldName
      ensures Abstract() == Rebuilt(old(Abstract()))
    {
      byUnicode, byLigature, byOldName := map[], map[], map[];
      var i := 0;
      while i < |styles|
        invariant i <= |styles| && Abstract() == old(Abstract()).(index := Abstract().index) && byOldName == map[]
        invariant byUnicode == UnicodeIndexes(styles[..i]) && byLigature == LigatureIndexes(styles[..i])
      {
        var (prefix, style) := styles[i];
        var unicodes := UnicodesOf(style);
        var ligatures := LigaturesOf(style);
        byUnicode := byUnicode[prefix := unicodes];
        byLigature := byLigature[prefix := ligatures];
        assert styles[..i + 1][..i] == styles[..i];
        i := i + 1;
      }
      assert styles[..|styles|] == styles;
      var hasRegular := Get(styles, "far").Some?;
      i := 0;
      while i < |shims|
        invariant i <= |shims| && Abstract() == old(Abstract()).(index := Abstract().index)
        invariant byUnicode == UnicodeIndexes(styles) && byLigature == LigatureIndexes(styles)
        invariant byOldName == OldNameIndex(shims[..i], hasRegular)
      {
        var shim := shims[i];
        var prefix := shim.prefix;
        if prefix == Some("far") && !hasRegular {
          prefix := Some("fas");
        }
        byOldName := byOldName[shim.oldName := OldIcon(prefix, shim.iconName)];
        assert shims[..i + 1][..i] == shims[..i];
        i := i + 1;
      }
      assert shims[..|shims|] == shims;
    }

    static method UnicodesOf(style: Table<Icon>) returns (m: map<string, string>)
      ensures m == UnicodeIndex(style)
    {
      m := map[];
      for i := 0 to |style|
        invariant m == UnicodeIndex(style[..i])
      {
        if style[i].1.unicode != "" {
          m := m[style[i].1.unicode := style[i].0];
        }
        assert style[..i + 1][..i] == style[..i];
      }
      assert style[..|style|] == style;
    }

    static method LigaturesOf(style: Table<Icon>) returns (m: map<string, string>)
      ensures m == LigatureIndex(style)
    {
      m := map[];
      for i := 0 to |style|
        invariant m == LigatureIndex(style[..i])
      {
        var (name, icon) := style[i];
        m := m[name := name];
        ghost var before := m;
        for j := 0 to |icon.ligatures|
          invariant m == WithLigatures(before, icon.ligatures[..j], name)
        {
          m := m[icon.ligatures[j] := name];
          assert icon.ligatures[..j + 1][..j] == icon.ligatures[..j];
        }
        assert icon.ligatures[..|icon.ligatures|] == icon.ligatures;
        assert style[..i + 1][..i] == style[..i];
      }
      assert style[..|style|] == style;
    }

    method DefineIcons(prefix: string, icons: Table<Entry>, skipHooks: bool)
      modifies this
      ensures Abstract() == Defined(old(Abstract()), prefix, icons, skipHooks)
      ensures old(NamesAreFound(Abstract())) ==> NamesAreFound(Abstract())
      ensures definitions == old(definitions)
      decreases if prefix == "fas" then 1 else 0
    {
      if NamesAreFound(Abstract()) {
        DefineNamesFound(Abstract(), prefix, icons, skipHooks);
      }
      hide Rebuilt;
      var normalized := Normalize(icons);
      styles := WithPack(styles, prefix, normalized);
      if hooked && !skipHooks {
        Build();
      }
      if prefix == "fas" {
        DefineIcons("fa", icons, false);
      }
    }

    static method PullDefinitions(definitions: seq<Definition>) returns (additions: Table<Table<Entry>>)
      ensures additions == Pulled(definitions)
    {
      additions := [];
      for i := 0 to |definitions|
        invariant additions == Pulled(definitions[..i])
      {
        var d := definitions[i];
        additions := Put(additions, d.prefix, Put(Get(additions, d.prefix).GetOr([]), d.iconName, Short(d.icon)));
        assert definitions[..i + 1][..i] == definitions[..i];
      }
      assert definitions[..|definitions|] == definitions;
    }

    method Add(more: seq<Definition>)
      modifies this
      ensures Abstract() == AddedAll(old(Abstract()), Pulled(more))
      ensures definitions == Recorded(old(definitions), Pulled(more))
      ensures old(NamesAreFound(Abstract())) ==> NamesAreFound(Abstract())
    {
      if NamesAreFound(Abstract()) {
        AddedAllNamesFound(Abstract(), Pulled(more));
      }
      hide Defined, Rebuilt, Pulled, NamesAreFound, Spread, Put, Get;
      var additions := PullDefinitions(more);
      for i := 0 to |additions|
        invariant Abstract() == AddedAll(old(Abstract()), additions[..i])
        invariant definitions == Recorded(old(definitions), additions[..i])
      {
        var (key, icons) := additions[i];
        definitions := Put(definitions, key, Spread(Get(definitions, key).GetOr([]), icons));
        DefineIcons(key, icons, false);
        Build();
        assert additions[..i + 1][..i] == additions[..i];
      }
      assert additions[..|additions|] == additions;
    }

    static method Normalize(icons: Table<Entry>) returns (acc: Table<Icon>)
      ensures acc == Normalized(icons)
    {
      acc := [];
      for i := 0 to |icons|
        invariant acc == Normalized(icons[..i])
      {
        var (iconName, icon) := icons[i];
        if icon.Expanded? {
          acc := Put(acc, icon.iconName, icon.icon);
        } else {
          acc := Put(acc, iconName, icon.icon);
        }
        assert icons[..i + 1][..i] == icons[..i];
      }
      assert icons[..|icons|] == icons;
    }

    method LoadShims(more: seq<Shim>)
      modifies this
      ensures Abstract() == Load(old(Abstract()), Shims(more))
    {
      shims := shims + more;
      if hooked {
        Build();
      }
    }

    method LoadCore()
      modifies this
      ensures Abstract() == Load(old(Abstract()), Core)
    {
      Build();
      hooked := true;
    }
  }
}
