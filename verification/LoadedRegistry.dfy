/** What the lookups and the indexes hold after any scripts have loaded in any order, told from the scripts alone. */
module LoadedRegistry {
  import opened Options
  import opened Registry

  // ----- icons -----

  /** The name that an entry of a pack defines. */
  function NameOf(entry: (string, Entry)): string {
    if entry.1.Expanded? then entry.1.iconName else entry.0
  }

  /** The last icon that a pack defines under the name. */
  function LastEntry(icons: Table<Entry>, name: string): Option<Icon> {
    if icons == [] then None
    else if NameOf(icons[|icons| - 1]) == name then Some(icons[|icons| - 1].1.icon)
    else LastEntry(icons[..|icons| - 1], name)
  }

  /** The last icon that the packs of p define under the name; the packs of fas are packs of fa too. */
  function LastLoaded(scripts: seq<Script>, p: string, name: string): Option<Icon> {
    if scripts == [] then None
    else
      var last := scripts[|scripts| - 1];
      if Contributes(last, p) && LastEntry(last.icons, name).Some? then LastEntry(last.icons, name)
      else LastLoaded(scripts[..|scripts| - 1], p, name)
  }

  lemma {:induction false} NormalizedHolds(icons: Table<Entry>, name: string)
    ensures Get(Normalized(icons), name) == LastEntry(icons, name)
  {
    if icons != [] {
      var n := |icons| - 1;
      NormalizedHolds(icons[..n], name);
      GetPut(Normalized(icons[..n]), NameOf(icons[n]), icons[n].1.icon, name);
      hide Get, Put;
    }
  }

  lemma {:induction false} LayeredHolds(scripts: seq<Script>, p: string, name: string)
    ensures Get(Layered(scripts, p).GetOr([]), name) == LastLoaded(scripts, p, name)
  {
    if scripts != [] {
      var last := scripts[|scripts| - 1];
      LayeredHolds(scripts[..|scripts| - 1], p, name);
      if Contributes(last, p) {
        NormalizedHolds(last.icons, name);
        NormalizedDistinct(last.icons);
        SpreadFinds(Layered(scripts[..|scripts| - 1], p).GetOr([]), Normalized(last.icons), name);
      }
      hide Get, Spread, Normalized, Distinct, LastEntry;
    }
  }

  lemma {:induction false} LayeredMembers(scripts: seq<Script>, p: string)
    ensures Layered(scripts, p).Some? <==> exists k :: 0 <= k < |scripts| && Contributes(scripts[k], p)
  {
    if scripts != [] {
      var n := |scripts| - 1;
      LayeredMembers(scripts[..n], p);
      assert forall k :: 0 <= k < n ==> scripts[..n][k] == scripts[k];
      hide Spread, Normalized, Contributes;
    }
  }

  lemma {:induction false} SpreadDistinct<V>(t: Table<V>, more: Table<V>)
    requires Distinct(t)
    ensures Distinct(Spread(t, more))
  {
    if more != [] {
      var n := |more| - 1;
      SpreadDistinct(t, more[..n]);
      PutDistinct(Spread(t, more[..n]), more[n].0, more[n].1);
    }
  }

  lemma {:induction false} LayeredDistinct(scripts: seq<Script>, p: string)
    ensures Distinct(Layered(scripts, p).GetOr([]))
  {
    if scripts != [] {
      var last := scripts[|scripts| - 1];
      LayeredDistinct(scripts[..|scripts| - 1], p);
      if Contributes(last, p) {
        SpreadDistinct(Layered(scripts[..|scripts| - 1], p).GetOr([]), Normalized(last.icons));
      }
      hide Spread, Normalized;
    }
  }

  /** After any scripts findIcon gives the last icon defined under the name for the prefix, and nothing else. */
  lemma LoadedIcon(scripts: seq<Script>, p: string, name: string)
    ensures FindIcon(LoadAll(scripts), name, p) == if name == "" || p == "" then None else LastLoaded(scripts, p, name)
  {
    LoadedStyles(scripts, p);
    LayeredHolds(scripts, p, name);
    hide LoadAll, Layered, LastLoaded;
  }

  // ----- the indexes of characters and words -----

  predicate HasPack(scripts: seq<Script>, p: string) {
    exists k :: 0 <= k < |scripts| && Contributes(scripts[k], p)
  }

  predicate HasUnicode(scripts: seq<Script>, p: string, name: string, unicode: string) {
    LastLoaded(scripts, p, name).Some? && LastLoaded(scripts, p, name).value.unicode == unicode
  }

  predicate HasWord(scripts: seq<Script>, p: string, name: string, word: string) {
    LastLoaded(scripts, p, name).Some? && (word == name || word in LastLoaded(scripts, p, name).value.ligatures)
  }

  lemma LoadedTables(scripts: seq<Script>, p: string)
    requires Core in scripts
    ensures var ns, style := LoadAll(scripts), Layered(scripts, p).GetOr([]);
      && Distinct(style) && (forall name :: Get(style, name) == LastLoaded(scripts, p, name))
      && (p in ns.index.byUnicode <==> HasPack(scripts, p)) && (p in ns.index.byLigature <==> HasPack(scripts, p))
      && (HasPack(scripts, p) ==> ns.index.byUnicode[p] == UnicodeIndex(style) && ns.index.byLigature[p] == LigatureIndex(style))
  {
    LoadedUpToDate(scripts);
    LoadedStyles(scripts, p);
    IndexesOf(LoadAll(scripts).styles);
    LayeredMembers(scripts, p);
    LayeredDistinct(scripts, p);
    hide LoadAll, UnicodeIndexes, LigatureIndexes, UnicodeIndex, LigatureIndex, Distinct, Layered, LastLoaded, Contributes, OldNameIndex;
    forall name ensures Get(Layered(scripts, p).GetOr([]), name) == LastLoaded(scripts, p, name) {
      LayeredHolds(scripts, p, name);
    }
    hide Get;
  }

  lemma EntryAt<V>(t: Table<V>, key: string) returns (i: nat)
    requires Distinct(t) && Get(t, key).Some?
    ensures i < |t| && t[i] == (key, Get(t, key).value)
  {
    GetMembers(t, key);
    i :| 0 <= i < |t| && t[i].0 == key;
    GetAt(t, i);
  }

  /** After any scripts with the core script among them: byUnicode has the prefixes of the packs, and for each exactly the characters of its icons, and names one that has it. */
  lemma LoadedUnicodes(scripts: seq<Script>, p: string, unicode: string)
    requires Core in scripts
    ensures var m := LoadAll(scripts).index.byUnicode;
      && (p in m <==> HasPack(scripts, p))
      && (p in m ==> (unicode in m[p] <==> unicode != "" && exists name :: HasUnicode(scripts, p, name, unicode)))
      && (p in m && unicode in m[p] ==> HasUnicode(scripts, p, m[p][unicode], unicode))
  {
    LoadedTables(scripts, p);
    var style := Layered(scripts, p).GetOr([]);
    UnicodeIndexMeans(style, unicode);
    hide LoadAll, UnicodeIndex, Layered, LastLoaded, HasPack;
    hide Get, Distinct;
    forall i | 0 <= i < |style| && style[i].1.unicode == unicode ensures HasUnicode(scripts, p, style[i].0, unicode) {
      GetAt(style, i);
    }
    forall name | HasUnicode(scripts, p, name, unicode) ensures exists i :: 0 <= i < |style| && style[i].1.unicode == unicode {
      var i := EntryAt(style, name);
    }
  }

  lemma NoPackNoIcon(scripts: seq<Script>, p: string, name: string)
    ensures LastLoaded(scripts, p, name).Some? ==> HasPack(scripts, p)
  {
    LayeredHolds(scripts, p, name);
    LayeredMembers(scripts, p);
    hide Layered, LastLoaded, Contributes;
  }

  /** What byUnicode answers: the name of an icon with the character, and nothing exactly if there is none. */
  lemma LoadedByUnicode(scripts: seq<Script>, p: string, unicode: string)
    requires Core in scripts
    ensures match ByUnicode(LoadAll(scripts), p, unicode)
      case Some(name) => unicode != "" && HasUnicode(scripts, p, name, unicode)
      case None => unicode == "" || forall name :: !HasUnicode(scripts, p, name, unicode)
  {
    LoadedUnicodes(scripts, p, unicode);
    hide LoadAll, LastLoaded, HasPack;
    forall name | HasUnicode(scripts, p, name, unicode) ensures HasPack(scripts, p) {
      NoPackNoIcon(scripts, p, name);
    }
    hide HasUnicode;
  }

  lemma WordsHeld(scripts: seq<Script>, p: string, style: Table<Icon>, word: string)
    requires Distinct(style) && forall name :: Get(style, name) == LastLoaded(scripts, p, name)
    ensures (exists i :: 0 <= i < |style| && Answers(style[i], word)) <==> exists name :: HasWord(scripts, p, name, word)
    ensures forall name | Get(style, name).Some? :: HasWord(scripts, p, name, word) <==> Answers((name, Get(style, name).value), word)
  {
    hide Get, Distinct, LastLoaded;
    forall i | 0 <= i < |style| && Answers(style[i], word) ensures HasWord(scripts, p, style[i].0, word) {
      GetAt(style, i);
    }
    forall name | HasWord(scripts, p, name, word) ensures exists i :: 0 <= i < |style| && Answers(style[i], word) {
      var i := EntryAt(style, name);
    }
  }

  /** In the same way byLigature: exactly the names and the ligatures of the icons, and an icon that answers to the word. */
  lemma LoadedLigatures(scripts: seq<Script>, p: string, word: string)
    requires Core in scripts
    ensures var m := LoadAll(scripts).index.byLigature;
      && (p in m <==> HasPack(scripts, p))
      && (p in m ==> (word in m[p] <==> exists name :: HasWord(scripts, p, name, word)))
      && (p in m && word in m[p] ==> HasWord(scripts, p, m[p][word], word))
  {
    LoadedTables(scripts, p);
    hide LoadAll, LigatureIndex, Layered, LastLoaded, HasPack, HasWord, Answers, Get, Distinct;
    var style := Layered(scripts, p).GetOr([]);
    LigatureIndexMeans(style, word);
    WordsHeld(scripts, p, style, word);
  }

  // ----- old names -----

  /** Shim j of script k is the last one of its old name. */
  ghost predicate LastShim(scripts: seq<Script>, k: nat, j: nat) {
    && k < |scripts| && scripts[k].Shims? && j < |scripts[k].shims|
    && forall l, i :: k <= l < |scripts| && scripts[l].Shims? && 0 <= i < |scripts[l].shims| && (l > k || i > j) ==>
         scripts[l].shims[i].oldName != scripts[k].shims[j].oldName
  }

  lemma {:induction false} ShimPlace(scripts: seq<Script>, k: nat, j: nat) returns (i: nat)
    requires LastShim(scripts, k, j)
    ensures i < |AllShims(scripts)| && AllShims(scripts)[i] == scripts[k].shims[j]
    ensures forall m :: i < m < |AllShims(scripts)| ==> AllShims(scripts)[m].oldName != scripts[k].shims[j].oldName
  {
    var n := |scripts| - 1;
    var last := scripts[n];
    if k == n {
      i := |AllShims(scripts[..n])| + j;
    } else {
      assert LastShim(scripts[..n], k, j);
      i := ShimPlace(scripts[..n], k, j);
    }
  }

  lemma {:induction false} ShimMembers(scripts: seq<Script>, shim: Shim)
    ensures shim in AllShims(scripts) <==> exists k :: 0 <= k < |scripts| && scripts[k].Shims? && shim in scripts[k].shims
  {
    if scripts != [] {
      var n := |scripts| - 1;
      ShimMembers(scripts[..n], shim);
      assert forall k :: 0 <= k < n ==> scripts[..n][k] == scripts[k];
    }
  }

  lemma ShimNames(scripts: seq<Script>, oldName: string)
    ensures (exists i :: 0 <= i < |AllShims(scripts)| && AllShims(scripts)[i].oldName == oldName) <==>
      exists k, j :: 0 <= k < |scripts| && scripts[k].Shims? && 0 <= j < |scripts[k].shims| && scripts[k].shims[j].oldName == oldName
  {
    hide AllShims;
    var shims := AllShims(scripts);
    forall i | 0 <= i < |shims|
      ensures exists k, j :: 0 <= k < |scripts| && scripts[k].Shims? && 0 <= j < |scripts[k].shims| && scripts[k].shims[j] == shims[i]
    {
      ShimMembers(scripts, shims[i]);
      var k :| 0 <= k < |scripts| && scripts[k].Shims? && shims[i] in scripts[k].shims;
      var j :| 0 <= j < |scripts[k].shims| && scripts[k].shims[j] == shims[i];
    }
    forall k, j | 0 <= k < |scripts| && scripts[k].Shims? && 0 <= j < |scripts[k].shims|
      ensures exists i :: 0 <= i < |shims| && shims[i] == scripts[k].shims[j]
    {
      ShimMembers(scripts, scripts[k].shims[j]);
    }
  }

  lemma RegularPack(scripts: seq<Script>)
    ensures Get(LoadAll(scripts).styles, "far").Some? <==> exists k :: 0 <= k < |scripts| && scripts[k].Pack? && scripts[k].prefix == "far"
  {
    LoadedStyles(scripts, "far");
    LayeredMembers(scripts, "far");
    hide LoadAll, Layered, Get;
  }

  /**
   * After any scripts with the core script among them, the last shim of an old name counts: with its own
   * icon name, and with its own prefix, but `fas` for `far` when no pack of the regular style is among them.
   */
  lemma LoadedOldName(scripts: seq<Script>, k: nat, j: nat)
    requires Core in scripts && LastShim(scripts, k, j)
    ensures var names, shim := LoadAll(scripts).index.byOldName, scripts[k].shims[j];
      && shim.oldName in names && names[shim.oldName].iconName == shim.iconName
      && names[shim.oldName].prefix ==
           if shim.prefix == Some("far") && !(exists l :: 0 <= l < |scripts| && scripts[l].Pack? && scripts[l].prefix == "far") then Some("fas")
           else shim.prefix
  {
    LoadedUpToDate(scripts);
    RegularPack(scripts);
    var i := ShimPlace(scripts, k, j);
    hide LoadAll, AllShims, LastShim, UnicodeIndexes, LigatureIndexes, OldNameIndex, Get;
    OldNameIndexMeans(AllShims(scripts), Get(LoadAll(scripts).styles, "far").Some?, i);
  }

  /** And no other names are there. */
  lemma LoadedOldNamesOnly(scripts: seq<Script>, oldName: string)
    requires Core in scripts
    ensures oldName in LoadAll(scripts).index.byOldName <==>
      exists k, j :: 0 <= k < |scripts| && scripts[k].Shims? && 0 <= j < |scripts[k].shims| && scripts[k].shims[j].oldName == oldName
  {
    LoadedUpToDate(scripts);
    OldNamesOnly(AllShims(scripts), Get(LoadAll(scripts).styles, "far").Some?, oldName);
    ShimNames(scripts, oldName);
    hide LoadAll, UnicodeIndexes, LigatureIndexes, OldNameIndex, Get, AllShims;
  }

  // ----- library.add -----

  /** After library.add of anything the indexes are those of the styles and the shims, hooked or not. */
  lemma AddedIsFresh(ns: Namespace, additions: Table<Table<Entry>>)
    requires additions != []
    ensures var after := AddedAll(ns, additions); after.index == FreshIndex(after.styles, after.shims)
  {
    hide Defined, FreshIndex;
  }

  /** library.add keeps, for every prefix and name, the last definition ever added. */
  lemma {:induction false} RecordedHolds(kept: Table<Table<Entry>>, additions: Table<Table<Entry>>, p: string, name: string)
    requires Distinct(additions) && forall i :: 0 <= i < |additions| ==> Distinct(additions[i].1)
    ensures var added := Get(Get(additions, p).GetOr([]), name);
      Get(Get(Recorded(kept, additions), p).GetOr([]), name) == if added.Some? then added else Get(Get(kept, p).GetOr([]), name)
  {
    if additions != [] {
      var n := |additions| - 1;
      var (prefix, icons) := additions[n];
      var before := Recorded(kept, additions[..n]);
      RecordedHolds(kept, additions[..n], p, name);
      LastOf(additions, p);
      LastOf(additions, prefix);
      GetMembers(additions[..n], prefix);
      GetPut(before, prefix, Spread(Get(before, prefix).GetOr([]), icons), p);
      SpreadFinds(Get(before, prefix).GetOr([]), icons, name);
      hide Get, Put, Spread;
    }
  }

  lemma DefinitionsKept(kept: Table<Table<Entry>>, definitions: seq<Definition>, p: string, name: string)
    ensures Get(Get(Recorded(kept, Pulled(definitions)), p).GetOr([]), name) ==
      match LastDefinition(definitions, p, name)
      case Some(icon) => Some(Short(icon))
      case None => Get(Get(kept, p).GetOr([]), name)
  {
    PulledFinds(definitions, p, name);
    PulledShort(definitions);
    hide Get, Recorded, Pulled, LastDefinition;
    RecordedHolds(kept, Pulled(definitions), p, name);
  }
}
