/** Reading the icon out of a class list, and the class list of a rendered icon. */
module IconClasses {
  import opened Options
  import opened Sequences
  import opened Strings

  datatype Config = Config(familyPrefix: string, replacementClass: string, autoFetchSvg: bool)

  /** Prefix and name for an old icon name; either may be missing. */
  datatype Shim = Shim(prefix: Option<string>, iconName: Option<string>)

  /** The configuration, the prefixes that have a pack, and the index of old names. */
  datatype Environment = Environment(config: Config, styles: set<string>, shims: map<string, Shim>)

  datatype Icon = Icon(prefix: Option<string>, iconName: Option<string>, rest: seq<string>)

  const NAMED: seq<string> := [
    "xs", "sm", "lg", "fw", "ul", "li", "border", "pull-left", "pull-right", "spin", "pulse", "rotate-90", "rotate-180",
    "rotate-270", "flip-horizontal", "flip-vertical", "flip-both", "stack", "stack-1x", "stack-2x", "inverse", "layers",
    "layers-text", "layers-counter", "group", "swap-opacity", "primary", "secondary"]

  const AUTO_PREFIXES: seq<string> := ["fas", "far", "fal", "fad", "fab", "fa"]

  predicate IsReserved(name: string) {
    || name in NAMED
    || (exists n | 1 <= n <= 10 :: name == Decimal(n) + "x")
    || (exists n | 1 <= n <= 20 :: name == "w-" + Decimal(n))
  }

  function GetIconName(familyPrefix: string, cls: string): Option<string> {
    var parts := Split(cls, '-');
    var iconName := Join(parts[1..], '-');
    if parts[0] == familyPrefix && iconName != "" && !IsReserved(iconName) then Some(iconName) else None
  }

  predicate IsStyle(env: Environment, cls: string) {
    cls in env.styles || (env.config.autoFetchSvg && cls in AUTO_PREFIXES)
  }

  /** A missing or empty string gives way to the default. */
  function OrElse(s: Option<string>, default: Option<string>): Option<string> {
    if s.Some? && s.value != "" then s else default
  }

  function ByOldName(env: Environment, name: string): Shim {
    if name in env.shims then env.shims[name] else Shim(None, None)
  }

  function Canonicalize(env: Environment, acc: Icon, cls: string): Icon {
    var iconName := GetIconName(env.config.familyPrefix, cls);
    if IsStyle(env, cls) then acc.(prefix := Some(cls))
    else if iconName.Some? then
      var shim := if acc.prefix == Some("fa") then ByOldName(env, iconName.value) else Shim(None, None);
      acc.(iconName := OrElse(shim.iconName, iconName), prefix := OrElse(shim.prefix, acc.prefix))
    else if cls != env.config.replacementClass && !("fa-w-" <= cls) then acc.(rest := acc.rest + [cls])
    else acc
  }

  function CanonicalIcon(env: Environment, values: seq<string>): Icon {
    if values == [] then Icon(None, None, [])
    else Canonicalize(env, CanonicalIcon(env, values[..|values| - 1]), values[|values| - 1])
  }

  /** The first occurrence of each class, in order. */
  function Distinct(values: seq<string>): seq<string> {
    if values == [] then []
    else
      var before := Distinct(values[..|values| - 1]);
      if values[|values| - 1] in before then before else before + [values[|values| - 1]]
  }

  /** The classes of a node: its classList, or its class attribute split at spaces. */
  function ClassArray(text: string, classList: bool): seq<string> {
    var classes := Only(Split(text, ' '), c => c != "");
    if classList then Distinct(classes) else classes
  }

  function SvgClasses(config: Config, iconName: Option<string>, width: nat, extra: seq<string>): string {
    var iconClass := if iconName.Some? && iconName.value != "" then config.familyPrefix + "-" + iconName.value else "";
    Join(Only([config.replacementClass, iconClass, "fa-w-" + Decimal(width)], c => c !in extra) + extra, ' ')
  }

  // ----- the name in an icon class -----

  /** cls is the icon class of name: the prefix, a hyphen and the name. */
  predicate Names(familyPrefix: string, cls: string, name: string) {
    '-' !in familyPrefix && cls == familyPrefix + "-" + name && name != "" && !IsReserved(name)
  }

  /**
   * Reading a class gives a name exactly when it is that name's icon class: so the reading inverts
   * the writing for every non-reserved name, and no class is ever read with a prefix that has a hyphen.
   */
  lemma GetIconNameInverts(familyPrefix: string, cls: string, name: string)
    ensures GetIconName(familyPrefix, cls) == Some(name) <==> Names(familyPrefix, cls, name)
  {
    hide IsReserved;
    if Names(familyPrefix, cls, name) {
      assert cls == familyPrefix + ['-'] + name;
      SplitStep(familyPrefix, '-', name);
      JoinInvertsSplit(name, '-');
      assert Split(cls, '-')[1..] == Split(name, '-');
    } else {
      ReadIsWritten(familyPrefix, cls);
    }
  }

  lemma ReadIsWritten(familyPrefix: string, cls: string)
    ensures var name := GetIconName(familyPrefix, cls); name.Some? ==> Names(familyPrefix, cls, name.value)
  {
    hide IsReserved, Span, Split, Join;
    var n := Span(cls, c => c != '-');
    SplitFirst(cls, '-');
    if n < |cls| {
      JoinInvertsSplit(cls[n + 1..], '-');
    } else {
      JoinOfNone();
      assert [cls][1..] == [];
    }
  }

  lemma JoinOfNone()
    ensures Join([], '-') == ""
  {}

  // ----- every class has one role -----

  datatype Role = StyleClass | IconClass(name: string) | DroppedClass | RestClass

  function NamePart(familyPrefix: string, cls: string): string {
    if |cls| > |familyPrefix| then cls[|familyPrefix| + 1..] else ""
  }

  /** What a class is, whatever stands around it. */
  function RoleOf(env: Environment, cls: string): Role {
    var name := NamePart(env.config.familyPrefix, cls);
    if IsStyle(env, cls) then StyleClass
    else if Names(env.config.familyPrefix, cls, name) then IconClass(name)
    else if cls == env.config.replacementClass || "fa-w-" <= cls then DroppedClass
    else RestClass
  }

  lemma NamePartIsName(familyPrefix: string, name: string)
    ensures NamePart(familyPrefix, familyPrefix + "-" + name) == name
  {}

  lemma ReadsName(familyPrefix: string, cls: string)
    ensures var name := NamePart(familyPrefix, cls);
      GetIconName(familyPrefix, cls) == if Names(familyPrefix, cls, name) then Some(name) else None
  {
    ReadIsWritten(familyPrefix, cls);
    GetIconNameInverts(familyPrefix, cls, NamePart(familyPrefix, cls));
    var name := GetIconName(familyPrefix, cls);
    if name.Some? {
      NamePartIsName(familyPrefix, name.value);
    }
    hide GetIconName, NamePart, IsReserved;
  }

  /** What an icon class of this name says: after `fa` its shim, where it has a part that is not empty, and else itself. */
  predicate SaysName(env: Environment, found: Option<string>, name: string, iconName: Option<string>) {
    if found == Some("fa") && name in env.shims && env.shims[name].iconName.Some? && env.shims[name].iconName.value != ""
    then iconName == env.shims[name].iconName
    else iconName == Some(name)
  }

  predicate SaysPrefix(env: Environment, found: Option<string>, name: string, prefix: Option<string>) {
    if found == Some("fa") && name in env.shims && env.shims[name].prefix.Some? && env.shims[name].prefix.value != ""
    then prefix == env.shims[name].prefix
    else prefix == found
  }

  /** What one class does to the icon, by its role. */
  lemma CanonicalizeByRole(env: Environment, acc: Icon, cls: string)
    ensures match RoleOf(env, cls)
      case StyleClass => Canonicalize(env, acc, cls) == acc.(prefix := Some(cls))
      case IconClass(name) =>
        var icon := Canonicalize(env, acc, cls);
        SaysName(env, acc.prefix, name, icon.iconName) && SaysPrefix(env, acc.prefix, name, icon.prefix) && icon.rest == acc.rest
      case DroppedClass => Canonicalize(env, acc, cls) == acc
      case RestClass => Canonicalize(env, acc, cls) == acc.(rest := acc.rest + [cls])
  {
    ReadsName(env.config.familyPrefix, cls);
    hide GetIconName, NamePart, Names, IsStyle;
  }

  function StyleClasses(env: Environment, values: seq<string>): seq<string> {
    Only(values, c => RoleOf(env, c).StyleClass?)
  }

  function IconClasses(env: Environment, values: seq<string>): seq<string> {
    Only(values, c => RoleOf(env, c).IconClass?)
  }

  function DroppedClasses(env: Environment, values: seq<string>): seq<string> {
    Only(values, c => RoleOf(env, c).DroppedClass?)
  }

  function RestClasses(env: Environment, values: seq<string>): seq<string> {
    Only(values, c => RoleOf(env, c).RestClass?)
  }

  /** The rest is the in-order subsequence of the classes with no other role. */
  lemma {:induction false} RestInOrder(env: Environment, values: seq<string>)
    ensures CanonicalIcon(env, values).rest == RestClasses(env, values)
  {
    hide Canonicalize, RoleOf;
    if values != [] {
      RestInOrder(env, values[..|values| - 1]);
      CanonicalizeByRole(env, CanonicalIcon(env, values[..|values| - 1]), values[|values| - 1]);
    }
  }

  /** Nothing is lost or doubled: the classes are those of the four roles together. */
  lemma {:induction false} RolesConserve(env: Environment, values: seq<string>)
    ensures multiset(values) ==
      multiset(StyleClasses(env, values)) + multiset(IconClasses(env, values)) +
      multiset(DroppedClasses(env, values)) + multiset(CanonicalIcon(env, values).rest)
  {
    RestInOrder(env, values);
    hide CanonicalIcon, RoleOf;
    if values != [] {
      var before := values[..|values| - 1];
      RestInOrder(env, before);
      RolesConserve(env, before);
      Ended(values);
    }
  }

  /** The name of the last icon class. */
  function LastName(env: Environment, values: seq<string>): Option<string> {
    if values == [] then None
    else
      match RoleOf(env, values[|values| - 1])
      case IconClass(name) => Some(name)
      case _ => LastName(env, values[..|values| - 1])
  }

  /** Without a style class no prefix is found and the last icon class names the icon. */
  lemma {:induction false} WithoutStyle(env: Environment, values: seq<string>)
    requires forall c :: c in values ==> !IsStyle(env, c)
    ensures CanonicalIcon(env, values) == Icon(None, LastName(env, values), RestClasses(env, values))
  {
    RestInOrder(env, values);
    if values != [] {
      var before, last := values[..|values| - 1], values[|values| - 1];
      assert last in values;
      WithoutStyle(env, before);
      CanonicalizeByRole(env, CanonicalIcon(env, before), last);
      RolesOfNonStyle(env, last);
      hide Canonicalize, RoleOf, IsStyle;
    }
  }

  lemma RolesOfNonStyle(env: Environment, cls: string)
    requires !IsStyle(env, cls)
    ensures !RoleOf(env, cls).StyleClass?
    ensures RoleOf(env, cls).IconClass? ==> RoleOf(env, cls).name != ""
  {}

  /** The last icon class names the icon, through the old names if the prefix was then `fa`. */
  lemma {:induction false} LastIconClassNames(env: Environment, before: seq<string>, cls: string, after: seq<string>)
    requires RoleOf(env, cls).IconClass? && forall c :: c in after ==> !RoleOf(env, c).IconClass?
    ensures SaysName(env, CanonicalIcon(env, before).prefix, RoleOf(env, cls).name, CanonicalIcon(env, before + [cls] + after).iconName)
    decreases |after|
  {
    if after == [] {
      assert before + [cls] + after == before + [cls];
      Extended(before, [cls]);
      assert before + [cls][..0] == before;
      CanonicalizeByRole(env, CanonicalIcon(env, before), cls);
    } else {
      LastIconClassNames(env, before, cls, after[..|after| - 1]);
      Extended(before + [cls], after);
      assert after[|after| - 1] in after;
      CanonicalizeByRole(env, CanonicalIcon(env, before + [cls] + after[..|after| - 1]), after[|after| - 1]);
    }
    hide Canonicalize, RoleOf;
  }

  lemma KeepsPrefix(env: Environment, acc: Icon, cls: string)
    requires !RoleOf(env, cls).StyleClass? && acc.prefix.Some?
    requires acc.prefix == Some("fa") ==> !RoleOf(env, cls).IconClass?
    ensures Canonicalize(env, acc, cls).prefix == acc.prefix
  {
    CanonicalizeByRole(env, acc, cls);
    hide Canonicalize, RoleOf;
  }

  lemma StyleClassIsPrefix(env: Environment, before: seq<string>, cls: string)
    requires RoleOf(env, cls).StyleClass?
    ensures CanonicalIcon(env, before + [cls]).prefix == Some(cls)
  {
    Extended(before, [cls]);
    assert before + [cls][..0] == before;
    CanonicalizeByRole(env, CanonicalIcon(env, before), cls);
    hide Canonicalize, RoleOf;
  }

  /**
   * Which classes set the prefix: those of a pack, and with autoFetchSvg the six usual ones; any other
   * leaves a prefix that is not `fa` as it was.
   */
  lemma PrefixIsRead(env: Environment, before: seq<string>, cls: string)
    ensures var icon, found := CanonicalIcon(env, before + [cls]), CanonicalIcon(env, before);
      if cls in env.styles ||
         (env.config.autoFetchSvg && (cls == "fas" || cls == "far" || cls == "fal" || cls == "fad" || cls == "fab" || cls == "fa"))
      then icon.prefix == Some(cls) && icon.iconName == found.iconName && icon.rest == found.rest
      else found.prefix != Some("fa") ==> icon.prefix == found.prefix
  {
    Extended(before, [cls]);
    assert before + [cls][..0] == before;
    CanonicalizeByRole(env, CanonicalIcon(env, before), cls);
    hide Canonicalize, Names, NamePart;
  }

  /** The last style class is the prefix, unless it is `fa` and an old name is read after it. */
  lemma {:induction false} LastStyleClassIsPrefix(env: Environment, before: seq<string>, cls: string, after: seq<string>)
    requires RoleOf(env, cls).StyleClass? && forall c :: c in after ==> !RoleOf(env, c).StyleClass?
    requires cls == "fa" ==> forall c :: c in after ==> !RoleOf(env, c).IconClass?
    ensures CanonicalIcon(env, before + [cls] + after).prefix == Some(cls)
    decreases |after|
  {
    hide Canonicalize, RoleOf;
    if after == [] {
      assert before + [cls] + after == before + [cls];
      StyleClassIsPrefix(env, before, cls);
    } else {
      LastStyleClassIsPrefix(env, before, cls, after[..|after| - 1]);
      Extended(before + [cls], after);
      assert after[|after| - 1] in after;
      KeepsPrefix(env, CanonicalIcon(env, before + [cls] + after[..|after| - 1]), after[|after| - 1]);
    }
  }

  /** Classes that are no style and no icon class leave prefix and name as they are. */
  lemma {:induction false} OthersLeaveIcon(env: Environment, before: seq<string>, after: seq<string>)
    requires forall c :: c in after ==> !RoleOf(env, c).StyleClass? && !RoleOf(env, c).IconClass?
    ensures CanonicalIcon(env, before + after).prefix == CanonicalIcon(env, before).prefix
    ensures CanonicalIcon(env, before + after).iconName == CanonicalIcon(env, before).iconName
    decreases |after|
  {
    hide Canonicalize, RoleOf;
    if after == [] {
      assert before + after == before;
    } else {
      OthersLeaveIcon(env, before, after[..|after| - 1]);
      Extended(before, after);
      assert after[|after| - 1] in after;
      CanonicalizeByRole(env, CanonicalIcon(env, before + after[..|after| - 1]), after[|after| - 1]);
    }
  }

  lemma RoleOfIconClass(env: Environment, name: string)
    requires var family := env.config.familyPrefix;
      '-' !in family && name != "" && !IsReserved(name) && !IsStyle(env, family + "-" + name)
    ensures RoleOf(env, env.config.familyPrefix + "-" + name) == IconClass(name)
  {
    NamePartIsName(env.config.familyPrefix, name);
    hide IsReserved, IsStyle;
  }

  /**
   * After the prefix `fa` the last icon class is looked up among the old names: the name and the prefix
   * of its shim go before its own name and `fa`, each where the shim has one that is not empty. After
   * any other prefix, and after none, the class names the icon and the prefix stays.
   */
  lemma OldNameIsReplaced(env: Environment, before: seq<string>, name: string, after: seq<string>)
    requires var family := env.config.familyPrefix;
      '-' !in family && name != "" && !IsReserved(name) && !IsStyle(env, family + "-" + name)
    requires forall c :: c in after ==> !RoleOf(env, c).StyleClass? && !RoleOf(env, c).IconClass?
    ensures var icon, found := CanonicalIcon(env, before + [env.config.familyPrefix + "-" + name] + after), CanonicalIcon(env, before).prefix;
      SaysName(env, found, name, icon.iconName) && SaysPrefix(env, found, name, icon.prefix)
  {
    var cls := env.config.familyPrefix + "-" + name;
    RoleOfIconClass(env, name);
    hide RoleOf, IsReserved, IsStyle, Canonicalize;
    OthersLeaveIcon(env, before + [cls], after);
    Extended(before, [cls]);
    assert before + [cls][..0] == before;
    CanonicalizeByRole(env, CanonicalIcon(env, before), cls);
  }

  // ----- class lists that are written out and read again -----

  lemma {:induction false} DistinctSound(values: seq<string>)
    ensures AllDistinct(Distinct(values)) && forall c :: c in Distinct(values) <==> c in values
  {
    if values != [] {
      DistinctSound(values[..|values| - 1]);
      Ended(values);
    }
  }

  lemma {:induction false} DistinctAppends(a: seq<string>, b: seq<string>)
    requires AllDistinct(b) && forall c :: c in b ==> c !in a
    ensures Distinct(a + b) == Distinct(a) + b
    decreases |b|
  {
    if b == [] {
      assert a + b == a;
    } else {
      DistinctAppends(a, b[..|b| - 1]);
      Extended(a, b);
      LastIsNew(a, b);
      Ended(b);
    }
  }

  lemma LastIsNew(a: seq<string>, b: seq<string>)
    requires b != [] && AllDistinct(b) && forall c :: c in b ==> c !in a
    ensures b[|b| - 1] !in Distinct(a) + b[..|b| - 1]
  {
    DistinctSound(a);
    hide Distinct;
    assert b[|b| - 1] in b;
  }

  /** A classList keeps the first occurrence of every class: what follows adds to the end only. */
  lemma {:induction false} DistinctGrows(a: seq<string>, b: seq<string>)
    ensures Distinct(a) <= Distinct(a + b)
    decreases |b|
  {
    if b == [] {
      assert a + b == a;
    } else {
      DistinctGrows(a, b[..|b| - 1]);
      Extended(a, b);
    }
  }

  lemma {:induction false} LastNameConcat(env: Environment, a: seq<string>, b: seq<string>)
    ensures LastName(env, a + b) == if LastName(env, b).Some? then LastName(env, b) else LastName(env, a)
    decreases |b|
  {
    hide RoleOf;
    if b == [] {
      assert a + b == a;
    } else {
      LastNameConcat(env, a, b[..|b| - 1]);
      Extended(a, b);
    }
  }

  lemma {:induction false} NoLastName(env: Environment, values: seq<string>)
    requires forall c :: c in values ==> !RoleOf(env, c).IconClass?
    ensures LastName(env, values) == None
  {
    hide RoleOf;
    if values != [] {
      assert values[|values| - 1] in values;
      NoLastName(env, values[..|values| - 1]);
    }
  }

  lemma {:induction false} PartsAvoid(s: string, d: char)
    ensures forall p :: p in Split(s, d) ==> d !in p
    decreases |s|
  {
    var n := Span(s, c => c != d);
    if n < |s| {
      PartsAvoid(s[n + 1..], d);
    }
  }

  /** Classes without spaces that are joined by spaces are read back, empty ones left out. */
  lemma ReadBack(classes: seq<string>, classList: bool)
    requires classes != [] && forall c :: c in classes ==> ' ' !in c
    ensures var found := Only(classes, c => c != "");
      ClassArray(Join(classes, ' '), classList) == if classList then Distinct(found) else found
  {
    SplitInvertsJoin(classes, ' ');
    hide Split, Join, Only, Distinct;
  }

  // ----- the class list of a rendered icon reads as that icon -----

  function DefaultReplacement(): string {
    "svg-inline--fa"
  }

  function NameClass(name: string): string {
    "fa-" + name
  }

  /** The default family prefix and replacement class, and packs whose prefixes have no hyphen. */
  predicate IsDefault(env: Environment) {
    env.config.familyPrefix == "fa" && env.config.replacementClass == DefaultReplacement() && forall p :: p in env.styles ==> '-' !in p
  }

  lemma NoHyphenInAuto()
    ensures forall p :: p in AUTO_PREFIXES ==> '-' !in p
  {}

  lemma HyphenIsNoStyle(env: Environment, cls: string)
    requires IsDefault(env) && '-' in cls
    ensures !IsStyle(env, cls)
  {
    NoHyphenInAuto();
  }

  lemma NamedHead(name: string)
    requires name in NAMED
    ensures name != "" && name[0] != 'w'
  {}

  lemma DecimalIsDigits(n: nat)
    ensures Decimal(n) != "" && IsDigit(Decimal(n)[0]) && ' ' !in Decimal(n)
  {
    DecimalRoundTrip(n);
    assert Decimal(n)[0] in Decimal(n);
    hide Decimal;
  }

  /** The reserved widths are 1 to 20. */
  lemma WidthIsReserved(n: nat)
    ensures IsReserved("w-" + Decimal(n)) <==> 1 <= n <= 20
  {
    var name := "w-" + Decimal(n);
    assert name[0] == 'w' && name[2..] == Decimal(n);
    if name in NAMED {
      NamedHead(name);
      assert false;
    }
    forall m: nat ensures name != Decimal(m) + "x" && (name == "w-" + Decimal(m) ==> m == n) {
      DecimalIsDigits(m);
      DecimalRoundTrip(m);
      DecimalRoundTrip(n);
      assert ("w-" + Decimal(m))[2..] == Decimal(m);
      assert (Decimal(m) + "x")[0] == Decimal(m)[0];
    }
  }

  const COUNTS := ["1x", "2x", "3x", "4x", "5x", "6x", "7x", "8x", "9x", "10x"]
  const WIDTHS := [
    "w-1", "w-2", "w-3", "w-4", "w-5", "w-6", "w-7", "w-8", "w-9", "w-10",
    "w-11", "w-12", "w-13", "w-14", "w-15", "w-16", "w-17", "w-18", "w-19", "w-20"]

  /** The reserved names, spelled out. */
  lemma ReservedNames(name: string)
    ensures IsReserved(name) <==>
      || name in ["xs", "sm", "lg", "fw", "ul", "li", "border", "pull-left", "pull-right", "spin", "pulse"]
      || name in ["rotate-90", "rotate-180", "rotate-270", "flip-horizontal", "flip-vertical", "flip-both"]
      || name in ["stack", "stack-1x", "stack-2x", "inverse", "layers", "layers-text", "layers-counter"]
      || name in ["group", "swap-opacity", "primary", "secondary"]
      || name in COUNTS || name in WIDTHS
  {
    forall n: nat | 1 <= n <= 10 ensures Decimal(n) + "x" == COUNTS[n - 1] {
      CountName(n);
    }
    forall n: nat | 1 <= n <= 20 ensures "w-" + Decimal(n) == WIDTHS[n - 1] {
      WidthName(n);
    }
    hide Decimal;
    NamedNames(name);
    ReservedParts(name, COUNTS, WIDTHS);
  }

  lemma NamedNames(name: string)
    ensures name in NAMED <==>
      || name in ["xs", "sm", "lg", "fw", "ul", "li", "border", "pull-left", "pull-right", "spin", "pulse"]
      || name in ["rotate-90", "rotate-180", "rotate-270", "flip-horizontal", "flip-vertical", "flip-both"]
      || name in ["stack", "stack-1x", "stack-2x", "inverse", "layers", "layers-text", "layers-counter"]
      || name in ["group", "swap-opacity", "primary", "secondary"]
  {
    assert NAMED ==
      ["xs", "sm", "lg", "fw", "ul", "li", "border", "pull-left", "pull-right", "spin", "pulse"] +
      ["rotate-90", "rotate-180", "rotate-270", "flip-horizontal", "flip-vertical", "flip-both"] +
      ["stack", "stack-1x", "stack-2x", "inverse", "layers", "layers-text", "layers-counter"] +
      ["group", "swap-opacity", "primary", "secondary"];
  }

  lemma ReservedParts(name: string, counts: seq<string>, widths: seq<string>)
    requires |counts| == 10 && forall n: nat | 1 <= n <= 10 :: Decimal(n) + "x" == counts[n - 1]
    requires |widths| == 20 && forall n: nat | 1 <= n <= 20 :: "w-" + Decimal(n) == widths[n - 1]
    ensures IsReserved(name) <==> name in NAMED || name in counts || name in widths
  {
    hide Decimal;
    if name in counts {
      var i :| 0 <= i < 10 && counts[i] == name;
      assert Decimal(i + 1) + "x" == name;
    }
    if name in widths {
      var i :| 0 <= i < 20 && widths[i] == name;
      assert "w-" + Decimal(i + 1) == name;
    }
  }

  lemma CountName(n: nat)
    requires 1 <= n <= 10
    ensures Decimal(n) + "x" == COUNTS[n - 1]
  {}

  lemma WidthName(n: nat)
    requires 1 <= n <= 20
    ensures "w-" + Decimal(n) == WIDTHS[n - 1]
  {}

  lemma ReplacementIsDropped(env: Environment)
    requires IsDefault(env)
    ensures RoleOf(env, DefaultReplacement()) == DroppedClass
    ensures DefaultReplacement() != "" && '-' in DefaultReplacement() && ' ' !in DefaultReplacement()
  {
    assert DefaultReplacement()[3] == '-';
    HyphenIsNoStyle(env, DefaultReplacement());
    assert DefaultReplacement()[0] != "fa"[0];
    hide IsStyle, IsReserved;
  }

  lemma NameClassIsWritten(name: string)
    ensures "fa" + "-" + name == NameClass(name) && NameClass(name) != "" && '-' in NameClass(name)
    ensures NameClass(name) != DefaultReplacement()
    ensures ' ' !in name ==> ' ' !in NameClass(name)
    ensures NameClass(name)[3..] == name
  {
    assert NameClass(name)[2] == '-' && NameClass(name)[0] != DefaultReplacement()[0];
  }

  lemma RoleOfName(env: Environment, name: string)
    requires IsDefault(env) && name != ""
    ensures !IsReserved(name) ==> RoleOf(env, NameClass(name)) == IconClass(name)
    ensures IsReserved(name) ==> !RoleOf(env, NameClass(name)).IconClass?
    ensures IsReserved(name) && "w-" <= name ==> RoleOf(env, NameClass(name)) == DroppedClass
  {
    NameClassIsWritten(name);
    HyphenIsNoStyle(env, NameClass(name));
    NamePartIsName("fa", name);
    hide IsStyle, IsReserved;
    if "w-" <= name {
      assert NameClass(name) == "fa-w-" + name[2..];
    }
  }

  /** What can be left over by an earlier reading: classes with no role, each once if a classList was read. */
  ghost predicate IsExtra(env: Environment, extra: seq<string>, classList: bool) {
    (forall c :: c in extra ==> c != "" && ' ' !in c && RoleOf(env, c).RestClass?) && (classList ==> AllDistinct(extra))
  }

  lemma RestIsExtra(env: Environment, text: string, classList: bool)
    ensures IsExtra(env, CanonicalIcon(env, ClassArray(text, classList)).rest, classList)
  {
    var values := ClassArray(text, classList);
    PartsAvoid(text, ' ');
    OnlyIn(Split(text, ' '), c => c != "");
    DistinctSound(Only(Split(text, ' '), c => c != ""));
    RestInOrder(env, values);
    OnlyIn(values, c => RoleOf(env, c).RestClass?);
    if classList {
      OnlyDistinct(values, c => RoleOf(env, c).RestClass?);
    }
    hide Only, Split, Distinct, RoleOf, CanonicalIcon, AllDistinct;
  }

  function WidthClass(width: nat): string {
    "fa-w-" + Decimal(width)
  }

  /** The classes before the extra ones, as they are read back. */
  function Head(iconName: Option<string>, width: nat, extra: seq<string>): seq<string> {
    if iconName.None? || NameClass(iconName.value) in extra then [DefaultReplacement(), WidthClass(width)]
    else [DefaultReplacement(), NameClass(iconName.value), WidthClass(width)]
  }

  lemma OnlyOfTwo(a: string, b: string, keep: string -> bool)
    ensures Only([a, b], keep) == (if keep(a) then [a] else []) + if keep(b) then [b] else []
  {
    OnlyOfOne(a, keep);
    OnlyOfOne(b, keep);
    OnlyConcat([a], [b], keep);
    hide Only;
    assert [a] + [b] == [a, b];
  }

  lemma OnlyOfThree(a: string, b: string, c: string, keep: string -> bool)
    ensures Only([a, b, c], keep) ==
      (if keep(a) then [a] else []) + (if keep(b) then [b] else []) + if keep(c) then [c] else []
  {
    OnlyOfTwo(a, b, keep);
    OnlyOfOne(c, keep);
    OnlyConcat([a, b], [c], keep);
    hide Only;
    assert [a, b] + [c] == [a, b, c];
  }

  lemma HeadKept(a: string, icon: string, w: string, extra: seq<string>)
    requires a !in extra && w !in extra && "" !in extra && a != "" && w != ""
    ensures var first := Only([a, icon, w], c => c !in extra);
      && first == (if icon in extra then [a, w] else [a, icon, w])
      && Only(first, c => c != "") == if icon == "" || icon in extra then [a, w] else [a, icon, w]
  {
    OnlyOfThree(a, icon, w, c => c !in extra);
    OnlyOfThree(a, icon, w, c => c != "");
    OnlyOfTwo(a, w, c => c != "");
    hide Only;
  }

  lemma WidthIsName(width: nat)
    ensures WidthClass(width) == NameClass("w-" + Decimal(width)) && "w-" <= "w-" + Decimal(width)
  {}

  lemma WidthRole(env: Environment, width: nat)
    requires IsDefault(env)
    ensures RoleOf(env, WidthClass(width)) == if 1 <= width <= 20 then DroppedClass else IconClass("w-" + Decimal(width))
  {
    WidthIsReserved(width);
    WidthIsName(width);
    RoleOfName(env, "w-" + Decimal(width));
    hide RoleOf, IsDefault, Decimal, IsReserved, NameClass, WidthClass;
  }

  function Written(iconName: Option<string>, width: nat, extra: seq<string>): seq<string> {
    var iconClass := if iconName.Some? then NameClass(iconName.value) else "";
    Only([DefaultReplacement(), iconClass, WidthClass(width)], c => c !in extra)
  }

  lemma SvgIsJoined(config: Config, iconName: Option<string>, width: nat, extra: seq<string>)
    requires config.familyPrefix == "fa" && config.replacementClass == DefaultReplacement()
    requires iconName.Some? ==> iconName.value != ""
    ensures SvgClasses(config, iconName, width, extra) == Join(Written(iconName, width, extra) + extra, ' ')
  {
    if iconName.Some? {
      NameClassIsWritten(iconName.value);
    }
    hide Only, Join, Decimal, DefaultReplacement, NameClass;
  }

  lemma NoSpaceInWidth(width: nat)
    ensures ' ' !in "w-" + Decimal(width)
  {
    DecimalIsDigits(width);
    hide Decimal;
  }

  lemma WidthClassIsWritten(env: Environment, width: nat)
    requires IsDefault(env)
    ensures var w := WidthClass(width); w != "" && '-' in w && ' ' !in w && !RoleOf(env, w).RestClass?
  {
    hide WidthClass, RoleOf, IsDefault, NameClass, DefaultReplacement, Decimal;
    WidthRole(env, width);
    WidthIsName(width);
    NoSpaceInWidth(width);
    NameClassIsWritten("w-" + Decimal(width));
  }

  lemma WrittenIsHead(env: Environment, iconName: Option<string>, width: nat, extra: seq<string>)
    requires IsDefault(env) && forall c :: c in extra ==> c != "" && RoleOf(env, c).RestClass?
    requires iconName.Some? ==> ' ' !in iconName.value
    ensures var first := Written(iconName, width, extra);
      first != [] && Only(first, c => c != "") == Head(iconName, width, extra) && forall c :: c in first ==> ' ' !in c
    ensures forall c :: c in Head(iconName, width, extra) ==> c !in extra && '-' in c
  {
    hide Only, WidthClass, RoleOf, IsDefault, NameClass, DefaultReplacement, Decimal;
    var icon, w := if iconName.Some? then NameClass(iconName.value) else "", WidthClass(width);
    WidthClassIsWritten(env, width);
    ReplacementIsDropped(env);
    if iconName.Some? {
      NameClassIsWritten(iconName.value);
    }
    assert w !in extra && DefaultReplacement() !in extra;
    HeadKept(DefaultReplacement(), icon, w, extra);
  }

  lemma HeadWritten(env: Environment, iconName: Option<string>, width: nat, extra: seq<string>, classList: bool)
    requires IsDefault(env) && IsExtra(env, extra, classList)
    requires iconName.Some? ==> iconName.value != "" && ' ' !in iconName.value
    ensures var head := Head(iconName, width, extra);
      ClassArray(SvgClasses(env.config, iconName, width, extra), classList) ==
      (if classList then Distinct(head) else head) + extra
  {
    SvgIsJoined(env.config, iconName, width, extra);
    WrittenIsHead(env, iconName, width, extra);
    hide RoleOf, Head, SvgClasses, Written;
    var first := Written(iconName, width, extra);
    ReadBack(first + extra, classList);
    OnlyConcat(first, extra, c => c != "");
    OnlyAll(extra, c => c != "");
    if classList {
      DistinctAppends(Head(iconName, width, extra), extra);
    }
    hide Only, Distinct, AllDistinct, ClassArray, Join;
  }

  /** An empty icon name writes what a missing one does. */
  lemma EmptyNameWritten(config: Config, width: nat, extra: seq<string>)
    ensures SvgClasses(config, Some(""), width, extra) == SvgClasses(config, None, width, extra)
  {
    hide Only, Join, Decimal;
  }

  /** The first three classes as a list of them is read, by their roles. */
  lemma ThreeRead(env: Environment, a: string, b: string, c: string)
    requires !RoleOf(env, a).IconClass?
    ensures LastName(env, [a, b, c]) == LastName(env, [a, b]) || RoleOf(env, c).IconClass?
    ensures RoleOf(env, c).IconClass? ==> LastName(env, [a, b, c]) == Some(RoleOf(env, c).name)
    ensures LastName(env, [a, b]) == if RoleOf(env, b).IconClass? then Some(RoleOf(env, b).name) else None
  {
    assert [a, b, c][..2] == [a, b] && [a, b][..1] == [a] && [a][..0] == [];
    assert LastName(env, [a]) == None;
    hide RoleOf;
  }

  lemma DistinctStep(values: seq<string>, last: string)
    ensures Distinct(values + [last]) == if last in Distinct(values) then Distinct(values) else Distinct(values) + [last]
  {
    assert (values + [last])[..|values|] == values;
  }

  lemma ThreeDistinct(a: string, b: string, c: string)
    requires a != b && a != c
    ensures Distinct([a, b]) == [a, b]
    ensures Distinct([a, b, c]) == if b == c then [a, b] else [a, b, c]
  {
    DistinctStep([], a);
    DistinctStep([a], b);
    DistinctStep([a, b], c);
    assert Distinct([]) == [] && [] + [a] == [a];
    hide Distinct;
    assert [a] + [b] == [a, b] && [a, b] + [c] == [a, b, c];
  }

  lemma {:induction false} NoRest(env: Environment, values: seq<string>)
    requires forall c :: c in values ==> !RoleOf(env, c).RestClass?
    ensures RestClasses(env, values) == []
  {
    hide RoleOf;
    if values != [] {
      NoRest(env, values[..|values| - 1]);
      assert values[|values| - 1] in values;
    }
  }

  function HeadName(iconName: Option<string>, width: nat): Option<string> {
    if !(1 <= width <= 20) then Some("w-" + Decimal(width))
    else if iconName.Some? && !IsReserved(iconName.value) then iconName
    else None
  }

  function HeadRead(iconName: Option<string>, width: nat, extra: seq<string>, classList: bool): seq<string> {
    if classList then Distinct(Head(iconName, width, extra)) else Head(iconName, width, extra)
  }

  lemma HeadNames(env: Environment, iconName: Option<string>, width: nat, extra: seq<string>, classList: bool)
    requires IsDefault(env) && forall c :: c in extra ==> RoleOf(env, c).RestClass?
    requires iconName.Some? ==> iconName.value != ""
    ensures LastName(env, HeadRead(iconName, width, extra, classList)) == HeadName(iconName, width)
    ensures (iconName.Some? ==> !IsReserved(iconName.value)) ==>
      RestClasses(env, HeadRead(iconName, width, extra, classList)) == []
  {
    hide RoleOf, NameClass, WidthClass, DefaultReplacement, Decimal, IsReserved, LastName, Distinct, Only, IsDefault;
    var a, w := DefaultReplacement(), WidthClass(width);
    WidthRole(env, width);
    WidthIsName(width);
    NameClassIsWritten("w-" + Decimal(width));
    ReplacementIsDropped(env);
    DistinctSound(Head(iconName, width, extra));
    if iconName.Some? {
      var icon := NameClass(iconName.value);
      RoleOfName(env, iconName.value);
      NameClassIsWritten(iconName.value);
      ThreeRead(env, a, icon, w);
      ThreeDistinct(a, icon, w);
    }
    ThreeRead(env, a, w, w);
    ThreeDistinct(a, w, w);
    if iconName.Some? ==> !IsReserved(iconName.value) {
      NoRest(env, HeadRead(iconName, width, extra, classList));
    }
  }

  lemma HeadAndRest(env: Environment, iconName: Option<string>, width: nat, extra: seq<string>, classList: bool)
    requires IsDefault(env) && IsExtra(env, extra, classList)
    requires iconName.Some? ==> ' ' !in iconName.value
    ensures var head := HeadRead(iconName, width, extra, classList);
      CanonicalIcon(env, head + extra) == Icon(None, LastName(env, head), RestClasses(env, head) + extra)
  {
    var head := HeadRead(iconName, width, extra, classList);
    WrittenIsHead(env, iconName, width, extra);
    DistinctSound(Head(iconName, width, extra));
    forall c | c in head + extra ensures !IsStyle(env, c) {
      if c in head {
        HyphenIsNoStyle(env, c);
      }
    }
    WithoutStyle(env, head + extra);
    LastNameConcat(env, head, extra);
    NoLastName(env, extra);
    OnlyConcat(head, extra, c => RoleOf(env, c).RestClass?);
    OnlyAll(extra, c => RoleOf(env, c).RestClass?);
    hide CanonicalIcon, HeadRead, LastName, IsDefault, RoleOf, Only;
  }

  predicate ReadsSame(iconName: Option<string>, width: nat) {
    (iconName.Some? ==> !IsReserved(iconName.value)) && (1 <= width <= 20 || iconName == Some("w-" + Decimal(width)))
  }

  lemma NameIsKept(iconName: Option<string>, width: nat)
    ensures HeadName(iconName, width) == iconName <==> ReadsSame(iconName, width)
  {
    WidthIsReserved(width);
    hide IsReserved, Decimal;
  }

  lemma ExtraReads(env: Environment, extra: seq<string>, classList: bool, iconName: Option<string>, width: nat)
    requires IsDefault(env) && IsExtra(env, extra, classList)
    requires iconName.Some? ==> iconName.value != "" && ' ' !in iconName.value
    ensures var again := CanonicalIcon(env, ClassArray(SvgClasses(env.config, iconName, width, extra), classList));
      && again.prefix == None && again.iconName == HeadName(iconName, width)
      && (again == Icon(None, iconName, extra) <==> ReadsSame(iconName, width))
  {
    var head := HeadRead(iconName, width, extra, classList);
    HeadWritten(env, iconName, width, extra, classList);
    HeadNames(env, iconName, width, extra, classList);
    HeadAndRest(env, iconName, width, extra, classList);
    NameIsKept(iconName, width);
    hide ClassArray, CanonicalIcon, Head, Distinct, SvgClasses, IsReserved, Decimal, IsDefault, RoleOf, AllDistinct, HeadName;
    if iconName.Some? ==> !IsReserved(iconName.value) {
      assert RestClasses(env, head) + extra == extra;
    }
    hide RestClasses, LastName;
  }

  /**
   * Reading the class list of a rendered icon, whose extra classes come from an earlier reading. It
   * gives back the icon's name, no prefix and the same rest in order exactly when the name is not
   * reserved and the width class is one of fa-w-1 to fa-w-20; another width class is taken for an
   * icon class, and its text becomes the name.
   */
  lemma RenderedReads(env: Environment, text: string, classList: bool, iconName: Option<string>, width: nat)
    requires IsDefault(env)
    requires iconName.Some? ==> iconName.value != "" && ' ' !in iconName.value
    ensures
      var rest := CanonicalIcon(env, ClassArray(text, classList)).rest;
      var again := CanonicalIcon(env, ClassArray(SvgClasses(env.config, iconName, width, rest), classList));
      && again.prefix == None && again.iconName == HeadName(iconName, width)
      && (again == Icon(None, iconName, rest) <==> ReadsSame(iconName, width))
  {
    RestIsExtra(env, text, classList);
    ExtraReads(env, CanonicalIcon(env, ClassArray(text, classList)).rest, classList, iconName, width);
    hide ClassArray, CanonicalIcon, SvgClasses, IsDefault, ReadsSame, HeadName, IsExtra;
  }

  /** An icon 24 units wide is read back as one named after its width class. */
  lemma WideIconIsMisread(env: Environment, text: string, classList: bool)
    requires IsDefault(env)
    ensures
      var rest := CanonicalIcon(env, ClassArray(text, classList)).rest;
      var again := CanonicalIcon(env, ClassArray(SvgClasses(env.config, Some("wide"), 24, rest), classList));
      again.iconName == Some("w-" + Decimal(24)) && again != Icon(None, Some("wide"), rest)
  {
    assert "wide"[0] == 'w' && "wide"[1] != ("w-" + Decimal(24))[1];
    RenderedReads(env, text, classList, Some("wide"), 24);
    hide CanonicalIcon, ClassArray, SvgClasses, IsReserved, Decimal;
  }
}
