/** The struct language of form views: rows separated by `;`, elements by `,`. */
module FormStruct {
  import opened Options
  import opened Strings

  datatype ElementType = ATTRIBUTE | ACTION

  /**
   * What createForm throws: the null type of an unregistered token, an attribute that the view class
   * does not declare, a size that is no int, the null list of a form or a row without elements.
   */
  datatype Error = NullType | NoField | NumberFormat | NullElements

  datatype Result<+T> = Ok(value: T) | Err(error: Error)

  datatype Element = Element(kind: ElementType, name: string, sizeColumn: nat)

  const DEFAULT_SIZE_COLUMN: nat := 12
  const MAX_INT: nat := 0x7fff_ffff

  // ----- tokens -----

  const VALUES: seq<ElementType> := [ATTRIBUTE, ACTION]

  function Token(kind: ElementType): char {
    match kind
    case ATTRIBUTE => '$'
    case ACTION => '@'
  }

  function TypeOf(token: char): (kind: Option<ElementType>)
    ensures forall k :: kind == Some(k) <==> Token(k) == token
  {
    if token == '$' then Some(ATTRIBUTE) else if token == '@' then Some(ACTION) else None
  }

  // ----- scanning -----

  function SkipDelimiter(s: string, d: char): string {
    if s != "" && s[0] == d then s[1..] else s
  }

  /** The tokens of a scanner with a one-character delimiter. */
  function Tokens(s: string, d: char): seq<string>
    decreases |s|
  {
    var t := SkipDelimiter(s, d);
    if t == "" then []
    else
      var n := Span(t, c => c != d);
      [t[..n]] + Tokens(t[n..], d)
  }

  predicate IsToken(c: char) {
    c == '$' || c == '@' || c == '#'
  }

  predicate IsWord(c: char) {
    'a' <= c <= 'z' || 'A' <= c <= 'Z' || IsDigit(c) || c == '_'
  }

  datatype Match = Match(token: char, name: string, size: string)

  predicate StartsElement(s: string) {
    |s| >= 2 && IsToken(s[0]) && IsWord(s[1])
  }

  /** The match of the element pattern at the start of s: token, word, and digits in brackets. */
  function MatchAt(s: string): (m: Match)
    requires StartsElement(s)
    ensures m.name != "" && (forall c :: c in m.name ==> IsWord(c)) && (forall c :: c in m.size ==> IsDigit(c))
  {
    var n := Span(s[1..], IsWord);
    var rest := s[1 + n..];
    var inner := if rest != "" && rest[0] == '(' then rest[1..] else rest;
    Match(s[0], s[1..1 + n], inner[..Span(inner, IsDigit)])
  }

  /** The leftmost match. */
  function Find(s: string): (m: Option<Match>)
    ensures m.Some? ==> forall c :: c in m.value.size ==> IsDigit(c)
  {
    if StartsElement(s) then Some(MatchAt(s)) else if s == "" then None else Find(s[1..])
  }

  lemma Shifted(s: string, i: nat)
    requires 0 < i <= |s|
    ensures s[1..][i - 1..] == s[i..]
  {}

  lemma {:induction false} FindIsLeftmost(s: string)
    ensures Find(s).None? <==> (forall i | 0 <= i < |s| :: !StartsElement(s[i..]))
    ensures forall i | 0 <= i < |s| && StartsElement(s[i..]) && (forall j | 0 <= j < i :: !StartsElement(s[j..])) ::
              Find(s) == Some(MatchAt(s[i..]))
  {
    assert s[0..] == s;
    if !StartsElement(s) && s != "" {
      FindIsLeftmost(s[1..]);
      forall i | 0 < i < |s| ensures s[1..][i - 1..] == s[i..] {
        Shifted(s, i);
      }
    }
    hide StartsElement, MatchAt;
  }

  // ----- parsing -----

  /** The column size of a match: the default when there are no digits. */
  function SizeOf(digits: string): Result<nat>
    requires forall c :: c in digits ==> IsDigit(c)
  {
    if digits == "" then Ok(DEFAULT_SIZE_COLUMN)
    else if Value(digits) > MAX_INT then Err(NumberFormat)
    else Ok(Value(digits))
  }

  /** fields are the fields of the view class. Text without a match is passed over. */
  function ParseElement(fields: set<string>, s: string): (parsed: Result<Option<Element>>)
    ensures parsed != Err(NullElements)
    ensures parsed == Ok(None) <==> Find(s) == None
  {
    match Find(s)
    case None => Ok(None)
    case Some(m) =>
      match TypeOf(m.token)
      case None => Err(NullType)
      case Some(kind) =>
        if kind == ATTRIBUTE && m.name !in fields then Err(NoField)
        else
          match SizeOf(m.size)
          case Err(e) => Err(e)
          case Ok(size) => Ok(Some(Element(kind, m.name, size)))
  }

  function AddTo(row: seq<Element>, parsed: Result<Option<Element>>): Result<seq<Element>> {
    match parsed
    case Err(e) => Err(e)
    case Ok(None) => Ok(row)
    case Ok(Some(element)) => Ok(row + [element])
  }

  /** Adds the elements of a line to a row; the first error ends it. */
  function ParseRow(fields: set<string>, row: seq<Element>, elements: seq<string>): (parsed: Result<seq<Element>>)
    ensures parsed != Err(NullElements)
    decreases |elements|
  {
    if elements == [] then Ok(row)
    else
      match AddTo(row, ParseElement(fields, elements[0]))
      case Err(e) => Err(e)
      case Ok(next) => ParseRow(fields, next, elements[1..])
  }

  function ParseRows(fields: set<string>, rows: seq<seq<Element>>, lines: seq<string>): (parsed: Result<seq<seq<Element>>>)
    ensures parsed != Err(NullElements)
    decreases |lines|
  {
    if lines == [] then Ok(rows)
    else
      match ParseRow(fields, [], Tokens(lines[0], ','))
      case Err(e) => Err(e)
      case Ok(row) => ParseRows(fields, rows + [row], lines[1..])
  }

  /** getView: the list of a form or a row is null until its first element, and is looped over then. */
  function Viewed(rows: seq<seq<Element>>): Result<seq<seq<Element>>> {
    if rows == [] || [] in rows then Err(NullElements) else Ok(rows)
  }

  function Parse(fields: set<string>, struct: string): Result<seq<seq<Element>>> {
    match ParseRows(fields, [], Tokens(struct, ';'))
    case Err(e) => Err(e)
    case Ok(rows) => Viewed(rows)
  }

  // ----- printing -----

  /** One element of a layout; without a size it takes the default. */
  datatype Entry = Entry(kind: ElementType, name: string, size: Option<nat>)

  function Built(e: Entry): Element {
    Element(e.kind, e.name, e.size.GetOr(DEFAULT_SIZE_COLUMN))
  }

  function BuiltRow(row: seq<Entry>): seq<Element> {
    seq(|row|, i requires 0 <= i < |row| => Built(row[i]))
  }

  function BuiltRows(rows: seq<seq<Entry>>): seq<seq<Element>> {
    seq(|rows|, i requires 0 <= i < |rows| => BuiltRow(rows[i]))
  }

  predicate WellFormed(e: Entry) {
    e.name != "" && (forall c :: c in e.name ==> IsWord(c)) && (e.size.Some? ==> e.size.value <= MAX_INT)
  }

  /** An attribute has to be a field of the view class. */
  predicate Declared(fields: set<string>, e: Entry) {
    e.kind == ATTRIBUTE ==> e.name in fields
  }

  predicate DeclaredRow(fields: set<string>, row: seq<Entry>) {
    forall e :: e in row ==> Declared(fields, e)
  }

  predicate WellFormedRow(row: seq<Entry>) {
    forall e :: e in row ==> WellFormed(e)
  }

  function PrintSize(size: Option<nat>): string {
    if size.None? then "" else "(" + Decimal(size.value) + ")"
  }

  function PrintEntry(e: Entry): string {
    [Token(e.kind)] + e.name + PrintSize(e.size)
  }

  function PrintEntries(row: seq<Entry>): seq<string> {
    seq(|row|, i requires 0 <= i < |row| => PrintEntry(row[i]))
  }

  function PrintRow(row: seq<Entry>): string {
    Join(PrintEntries(row), ',')
  }

  function PrintRows(rows: seq<seq<Entry>>): seq<string> {
    seq(|rows|, i requires 0 <= i < |rows| => PrintRow(rows[i]))
  }

  function Print(rows: seq<seq<Entry>>): string {
    Join(PrintRows(rows), ';')
  }

  // ----- tokens of joined strings -----

  function DropFirstEmpty<T(==)>(parts: seq<seq<T>>): seq<seq<T>> {
    if parts != [] && parts[0] == [] then parts[1..] else parts
  }

  function DropLastEmpty<T(==)>(parts: seq<seq<T>>): seq<seq<T>> {
    if parts != [] && parts[|parts| - 1] == [] then parts[..|parts| - 1] else parts
  }

  /** The tokens of a scanner that has just passed a delimiter. */
  function TokensAfter(t: string, d: char): seq<string>
  {
    if t == "" then []
    else
      var n := Span(t, c => c != d);
      [t[..n]] + Tokens(t[n..], d)
  }

  lemma DropLastOfMore(part: string, parts: seq<string>)
    requires parts != []
    ensures DropLastEmpty([part] + parts) == [part] + DropLastEmpty(parts)
  {}

  lemma TokensStep(s: string, d: char)
    ensures Tokens(s, d) == TokensAfter(SkipDelimiter(s, d), d)
  {}

  lemma {:induction false} TokensAfterIsSplit(t: string, d: char)
    ensures TokensAfter(t, d) == DropLastEmpty(Split(t, d))
    decreases |t|
  {
    var n := Span(t, c => c != d);
    if t == "" {
    } else if n == |t| {
      assert t[..n] == t && t[n..] == "";
    } else {
      TokensStep(t[n..], d);
      assert t[n..][1..] == t[n + 1..];
      TokensAfterIsSplit(t[n + 1..], d);
      DropLastOfMore(t[..n], Split(t[n + 1..], d));
      hide DropLastEmpty;
    }
  }

  /** The scanner returns every part between delimiters but an empty first and an empty last one. */
  lemma TokensIsTrimmedSplit(s: string, d: char)
    ensures Tokens(s, d) == DropLastEmpty(DropFirstEmpty(Split(s, d)))
  {
    TokensStep(s, d);
    TokensAfterIsSplit(SkipDelimiter(s, d), d);
    if s != "" && s[0] == d {
      assert Span(s, c => c != d) == 0 && s[..0] == "";
    }
    hide Tokens, TokensAfter;
  }

  lemma TokensOfJoin(parts: seq<string>, d: char)
    requires forall p :: p in parts ==> d !in p
    ensures Tokens(Join(parts, d), d) == DropLastEmpty(DropFirstEmpty(parts))
  {
    if parts != [] {
      SplitInvertsJoin(parts, d);
      TokensIsTrimmedSplit(Join(parts, d), d);
    }
  }

  // ----- round trip -----

  lemma WordIsNotDelimiter(s: string)
    requires forall c :: c in s ==> IsWord(c)
    ensures ',' !in s && ';' !in s
  {}

  lemma EntryIsOneToken(e: Entry)
    requires WellFormed(e)
    ensures PrintEntry(e) != "" && ',' !in PrintEntry(e) && ';' !in PrintEntry(e)
  {
    WordIsNotDelimiter(e.name);
    if e.size.Some? {
      DecimalRoundTrip(e.size.value);
      WordIsNotDelimiter(Decimal(e.size.value));
    }
  }

  lemma Halves(a: string, b: string)
    ensures (a + b)[..|a|] == a && (a + b)[|a|..] == b
  {}

  lemma Headed(head: char, body: string, last: char)
    ensures ([head] + body + [last])[0] == head && ([head] + body + [last])[1..] == body + [last]
  {}

  lemma BracketedDigits(digits: string)
    requires forall c :: c in digits ==> IsDigit(c)
    ensures Span(digits + ")", IsDigit) == |digits| && (digits + ")")[..|digits|] == digits
    ensures ("(" + digits + ")")[0] == '(' && ("(" + digits + ")")[1..] == digits + ")"
  {
    hide Span;
    SpanOfPrefix(digits, ")", IsDigit);
    Halves(digits, ")");
    Headed('(', digits, ')');
  }

  lemma Cut(token: char, name: string, rest: string)
    ensures var s := [token] + name + rest;
      s[0] == token && s[1..] == name + rest && s[1..1 + |name|] == name && s[1 + |name|..] == rest
  {}

  lemma NameSpan(name: string, size: Option<nat>)
    requires forall c :: c in name ==> IsWord(c)
    ensures Span(name + PrintSize(size), IsWord) == |name|
  {
    hide Span, Decimal;
    if size.Some? {
      BracketHead(Decimal(size.value));
    }
    SpanOfPrefix(name, PrintSize(size), IsWord);
  }

  lemma BracketHead(digits: string)
    ensures ("(" + digits + ")")[0] == '('
  {}

  lemma MatchOfPrinted(token: char, name: string, size: Option<nat>)
    requires IsToken(token) && name != "" && forall c :: c in name ==> IsWord(c)
    ensures StartsElement([token] + name + PrintSize(size))
    ensures MatchAt([token] + name + PrintSize(size)) == Match(token, name, if size.None? then "" else Decimal(size.value))
  {
    var s := [token] + name + PrintSize(size);
    Cut(token, name, PrintSize(size));
    assert s[1] == name[0] && IsWord(name[0]);
    NameSpan(name, size);
    hide IsWord, IsToken, Decimal, Span;
    if size.Some? {
      DecimalRoundTrip(size.value);
      BracketedDigits(Decimal(size.value));
    }
  }

  lemma FindOfPrinted(token: char, name: string, size: Option<nat>)
    requires IsToken(token) && name != "" && forall c :: c in name ==> IsWord(c)
    ensures Find([token] + name + PrintSize(size)) == Some(Match(token, name, if size.None? then "" else Decimal(size.value)))
  {
    MatchOfPrinted(token, name, size);
    hide StartsElement, MatchAt, PrintSize, Decimal;
  }

  lemma EntryRoundTrip(fields: set<string>, e: Entry)
    requires WellFormed(e)
    ensures ParseElement(fields, PrintEntry(e)) == if Declared(fields, e) then Ok(Some(Built(e))) else Err(NoField)
  {
    FindOfPrinted(Token(e.kind), e.name, e.size);
    if e.size.Some? {
      DecimalRoundTrip(e.size.value);
    }
    hide Find, Decimal, PrintSize;
  }

  // ----- elements, character by character -----

  const DIGITS := "0123456789"
  const LOWER := "abcdefghijklmnopqrstuvwxyz"
  const UPPER := "ABCDEFGHIJKLMNOPQRSTUVWXYZ"

  /** A letter, a digit or the underscore. */
  predicate Spelled(c: char) {
    c in LOWER || c in UPPER || c in DIGITS || c == '_'
  }

  /** The characters of s are consecutive from the first on. */
  ghost predicate Consecutive(s: string, first: char) {
    forall i :: 0 <= i < |s| ==> s[i] as int == first as int + i
  }

  lemma InConsecutive(s: string, first: char, c: char)
    requires Consecutive(s, first)
    ensures c in s <==> first as int <= c as int < first as int + |s|
  {
    if first as int <= c as int < first as int + |s| {
      assert s[c as int - first as int] == c;
    }
  }

  lemma DigitsRun()
    ensures Consecutive(DIGITS, '0') && |DIGITS| == 10
  {}

  lemma LowerRun()
    ensures Consecutive(LOWER, 'a') && |LOWER| == 26
  {}

  lemma UpperRun()
    ensures Consecutive(UPPER, 'A') && |UPPER| == 26
  {}

  lemma WordCharacters(c: char)
    ensures Spelled(c) <==> IsWord(c)
    ensures c in DIGITS <==> IsDigit(c)
  {
    DigitsRun();
    LowerRun();
    UpperRun();
    hide Consecutive;
    InRuns(DIGITS, LOWER, UPPER, c);
  }

  lemma InRuns(digits: string, lower: string, upper: string, c: char)
    requires Consecutive(digits, '0') && Consecutive(lower, 'a') && Consecutive(upper, 'A')
    requires |digits| == 10 && |lower| == 26 && |upper| == 26
    ensures (c in lower || c in upper || c in digits || c == '_') <==> IsWord(c)
    ensures c in digits <==> IsDigit(c)
  {
    hide Consecutive;
    InConsecutive(digits, '0', c);
    InConsecutive(lower, 'a', c);
    InConsecutive(upper, 'A', c);
  }

  lemma MatchOfText(token: char, name: string, digits: string, tail: string)
    requires IsToken(token) && name != "" && (forall c :: c in name ==> IsWord(c))
    requires (forall c :: c in digits ==> IsDigit(c)) && (tail != "" ==> !IsDigit(tail[0]))
    ensures Find([token] + name + ("(" + digits + tail)) == Some(Match(token, name, digits))
  {
    hide Span, IsWord, IsToken, IsDigit;
    Opened(digits, tail);
    MatchOf(token, name, "(" + digits + tail, digits);
  }

  lemma Opened(digits: string, tail: string)
    requires (forall c :: c in digits ==> IsDigit(c)) && (tail != "" ==> !IsDigit(tail[0]))
    ensures var rest := "(" + digits + tail;
      rest[0] == '(' && !IsWord(rest[0]) && Span(rest[1..], IsDigit) == |digits| && rest[1..][..|digits|] == digits
  {
    hide Span;
    assert ("(" + digits + tail)[1..] == digits + tail;
    SpanOfPrefix(digits, tail, IsDigit);
    Halves(digits, tail);
  }

  lemma MatchOfName(token: char, name: string)
    requires IsToken(token) && name != "" && (forall c :: c in name ==> IsWord(c))
    ensures Find([token] + name + "") == Some(Match(token, name, ""))
  {
    hide Span, IsWord, IsToken, IsDigit;
    SpanOfPrefix("", "", IsDigit);
    assert ""[..0] == "";
    MatchOf(token, name, "", "");
  }

  lemma MatchOf(token: char, name: string, rest: string, digits: string)
    requires IsToken(token) && name != "" && (forall c :: c in name ==> IsWord(c)) && (rest != "" ==> !IsWord(rest[0]))
    requires var inner := if rest != "" && rest[0] == '(' then rest[1..] else rest; inner[..Span(inner, IsDigit)] == digits
    ensures Find([token] + name + rest) == Some(Match(token, name, digits))
  {
    hide Span, IsWord, IsToken, IsDigit;
    var s := [token] + name + rest;
    Cut(token, name, rest);
    SpanOfPrefix(name, rest, IsWord);
    assert s[1] == name[0] && IsWord(name[0]);
  }

  /**
   * The text `$name(digits` or `@name(digits`, whatever follows, is the attribute or the action of that
   * name and size; without digits, and without brackets, the size is 12.
   */
  lemma ElementIsRead(fields: set<string>, token: char, name: string, digits: string, tail: string)
    requires token in "$@" && name != "" && (forall c :: c in name ==> Spelled(c)) && (token == '$' ==> name in fields)
    requires (forall c :: c in digits ==> c in DIGITS) && (tail != "" ==> tail[0] !in DIGITS)
    ensures forall c :: c in digits ==> IsDigit(c)
    ensures var kind := if token == '$' then ATTRIBUTE else ACTION;
      ParseElement(fields, [token] + name + ("(" + digits + tail)) ==
      if digits == "" then Ok(Some(Element(kind, name, 12)))
      else if Value(digits) > 2147483647 then Err(NumberFormat)
      else Ok(Some(Element(kind, name, Value(digits))))
    ensures ParseElement(fields, [token] + name + "") == Ok(Some(Element(if token == '$' then ATTRIBUTE else ACTION, name, 12)))
  {
    forall c: char ensures (Spelled(c) <==> IsWord(c)) && (c in DIGITS <==> IsDigit(c)) {
      WordCharacters(c);
    }
    hide IsWord, IsDigit, Find, Value;
    MatchOfText(token, name, digits, tail);
    MatchOfName(token, name);
  }

  lemma JoinIsEmpty(parts: seq<string>, d: char)
    requires forall p :: p in parts ==> p != ""
    ensures Join(parts, d) == "" <==> parts == []
  {
    if parts != [] {
      assert parts[0] in parts;
    }
  }

  lemma PrintedEntry(row: seq<Entry>, i: nat)
    requires WellFormedRow(row) && i < |row|
    ensures var p := PrintEntries(row)[i]; p != "" && ',' !in p && ';' !in p
  {
    assert row[i] in row;
    EntryIsOneToken(row[i]);
  }

  /** A printed row scans back to its printed elements, has no row delimiter, and is empty only without elements. */
  lemma RowIsOneToken(row: seq<Entry>)
    requires WellFormedRow(row)
    ensures Tokens(PrintRow(row), ',') == PrintEntries(row)
    ensures ';' !in PrintRow(row) && (PrintRow(row) == "" <==> row == [])
  {
    var parts := PrintEntries(row);
    forall p | p in parts ensures p != "" && ',' !in p && ';' !in p {
      var i :| 0 <= i < |parts| && parts[i] == p;
      PrintedEntry(row, i);
    }
    hide PrintEntries;
    assert DropLastEmpty(DropFirstEmpty(parts)) == parts by {
      assert parts != [] ==> parts[0] in parts && parts[|parts| - 1] in parts;
    }
    TokensOfJoin(parts, ',');
    JoinAvoids(parts, ',', ';');
    JoinIsEmpty(parts, ',');
    assert parts == [] <==> row == [] by { assert |PrintEntries(row)| == |row|; }
  }

  lemma BuiltElementStep(done: seq<Element>, row: seq<Entry>)
    requires row != []
    ensures done + BuiltRow(row) == done + [Built(row[0])] + BuiltRow(row[1..])
    ensures PrintEntries(row) == [PrintEntry(row[0])] + PrintEntries(row[1..])
  {}

  lemma {:induction false} EntriesParse(fields: set<string>, done: seq<Element>, row: seq<Entry>)
    requires WellFormedRow(row)
    ensures ParseRow(fields, done, PrintEntries(row)) == if DeclaredRow(fields, row) then Ok(done + BuiltRow(row)) else Err(NoField)
    decreases |row|
  {
    if row == [] {
      assert done + BuiltRow(row) == done;
    } else {
      assert row[0] in row;
      EntryRoundTrip(fields, row[0]);
      hide ParseElement, PrintEntry, WellFormed, Built, Declared;
      EntriesParse(fields, done + [Built(row[0])], row[1..]);
      BuiltElementStep(done, row);
      DeclaredStep(fields, row);
      hide BuiltRow, PrintEntries, DeclaredRow;
      assert PrintEntries(row)[1..] == PrintEntries(row[1..]);
    }
  }

  lemma DeclaredStep(fields: set<string>, row: seq<Entry>)
    requires row != []
    ensures DeclaredRow(fields, row) <==> Declared(fields, row[0]) && DeclaredRow(fields, row[1..])
  {
    assert row == [row[0]] + row[1..];
  }

  lemma RowParses(fields: set<string>, row: seq<Entry>)
    requires WellFormedRow(row)
    ensures ParseRow(fields, [], Tokens(PrintRow(row), ',')) == if DeclaredRow(fields, row) then Ok(BuiltRow(row)) else Err(NoField)
  {
    RowIsOneToken(row);
    EntriesParse(fields, [], row);
    hide Tokens, PrintRow, ParseRow, DeclaredRow;
    assert [] + BuiltRow(row) == BuiltRow(row);
  }

  lemma BuiltStep(done: seq<seq<Element>>, rows: seq<seq<Entry>>)
    requires rows != []
    ensures done + BuiltRows(rows) == done + [BuiltRow(rows[0])] + BuiltRows(rows[1..])
    ensures PrintRows(rows) == [PrintRow(rows[0])] + PrintRows(rows[1..])
  {}

  lemma {:induction false} RowsParse(fields: set<string>, done: seq<seq<Element>>, rows: seq<seq<Entry>>)
    requires forall row :: row in rows ==> WellFormedRow(row)
    ensures ParseRows(fields, done, PrintRows(rows)) == if AllDeclared(fields, rows) then Ok(done + BuiltRows(rows)) else Err(NoField)
    decreases |rows|
  {
    if rows == [] {
      assert done + BuiltRows(rows) == done;
    } else {
      assert rows[0] in rows;
      RowParses(fields, rows[0]);
      hide ParseRow, PrintRow, BuiltRow, Tokens, WellFormedRow, DeclaredRow;
      RowsParse(fields, done + [BuiltRow(rows[0])], rows[1..]);
      BuiltStep(done, rows);
      AllDeclaredStep(fields, rows);
      hide BuiltRows, PrintRows, AllDeclared;
      assert PrintRows(rows)[1..] == PrintRows(rows[1..]);
    }
  }

  predicate AllDeclared(fields: set<string>, rows: seq<seq<Entry>>) {
    forall row :: row in rows ==> DeclaredRow(fields, row)
  }

  lemma AllDeclaredStep(fields: set<string>, rows: seq<seq<Entry>>)
    requires rows != []
    ensures AllDeclared(fields, rows) <==> DeclaredRow(fields, rows[0]) && AllDeclared(fields, rows[1..])
  {
    assert rows == [rows[0]] + rows[1..];
  }

  /** The rows that the scanner returns: all but an empty first and an empty last one. */
  function Kept(rows: seq<seq<Entry>>): seq<seq<Entry>> {
    DropLastEmpty(DropFirstEmpty(rows))
  }

  lemma PrintsKept(rows: seq<seq<Entry>>)
    requires forall row :: row in rows ==> WellFormedRow(row)
    ensures DropLastEmpty(DropFirstEmpty(PrintRows(rows))) == PrintRows(Kept(rows))
    ensures forall row :: row in Kept(rows) ==> WellFormedRow(row)
    ensures forall p :: p in PrintRows(rows) ==> ';' !in p
  {
    forall row | row in rows ensures ';' !in PrintRow(row) && (PrintRow(row) == "" <==> row == []) {
      RowIsOneToken(row);
    }
    hide PrintRow;
    var first := DropFirstEmpty(rows);
    assert DropFirstEmpty(PrintRows(rows)) == PrintRows(first);
    assert first != [] ==> first[|first| - 1] in rows;
  }

  lemma KeptDeclared(fields: set<string>, rows: seq<seq<Entry>>)
    ensures AllDeclared(fields, Kept(rows)) <==> AllDeclared(fields, rows)
  {
    forall row | row in rows ensures row == [] || row in Kept(rows) {
      KeptIn(rows, row);
    }
    hide Kept;
  }

  lemma KeptIn(rows: seq<seq<Entry>>, row: seq<Entry>)
    requires row in rows
    ensures row == [] || row in Kept(rows)
    ensures forall r :: r in Kept(rows) ==> r in rows
  {
    var first := DropFirstEmpty(rows);
    assert row == [] || row in first;
    assert first != [] ==> first == first[..|first| - 1] + [first[|first| - 1]];
  }

  /** What parsing a printed layout gives, for every layout and every view class. */
  lemma RoundTrip(fields: set<string>, rows: seq<seq<Entry>>)
    requires forall row :: row in rows ==> WellFormedRow(row)
    ensures Parse(fields, Print(rows)) == if AllDeclared(fields, rows) then Viewed(BuiltRows(Kept(rows))) else Err(NoField)
  {
    PrintsKept(rows);
    TokensOfJoin(PrintRows(rows), ';');
    RowsParse(fields, [], Kept(rows));
    KeptDeclared(fields, rows);
    hide AllDeclared, Kept, Viewed;
    assert [] + BuiltRows(Kept(rows)) == BuiltRows(Kept(rows));
  }

  lemma BuiltEmpties(rows: seq<seq<Entry>>)
    ensures [] in BuiltRows(rows) <==> [] in rows
  {
    if [] in rows {
      var i :| 0 <= i < |rows| && rows[i] == [];
      assert BuiltRows(rows)[i] == [];
    }
  }

  /** A layout comes back whole if and only if it has a row, every row has an element, and its attributes are declared. */
  lemma RoundTripIsExact(fields: set<string>, rows: seq<seq<Entry>>)
    requires forall row :: row in rows ==> WellFormedRow(row)
    ensures Parse(fields, Print(rows)) == Ok(BuiltRows(rows)) <==> rows != [] && [] !in rows && AllDeclared(fields, rows)
  {
    RoundTrip(fields, rows);
    BuiltEmpties(Kept(rows));
    BuiltEmpties(rows);
    hide Parse, Print, AllDeclared;
    if [] !in rows {
      assert Kept(rows) == rows by { assert rows != [] ==> rows[0] in rows && rows[|rows| - 1] in rows; }
    } else {
      assert Viewed(BuiltRows(Kept(rows))).Ok? ==> [] !in BuiltRows(Kept(rows));
    }
  }

  /** All rows but an empty one at either end have an element, and there is one that has. */
  predicate EmptyAtEndsOnly(rows: seq<seq<Entry>>) {
    (exists i :: 0 <= i < |rows| && rows[i] != []) && (forall i :: 0 < i < |rows| - 1 ==> rows[i] != [])
  }

  lemma KeptIsSlice(rows: seq<seq<Entry>>) returns (lo: nat, hi: nat)
    ensures lo <= hi <= |rows| && lo <= 1 && |rows| - hi <= 1 && Kept(rows) == rows[lo..hi]
    ensures lo == 1 ==> rows[0] == []
    ensures hi < |rows| ==> rows[hi] == []
    ensures rows != [] && lo == 0 ==> rows[0] != []
    ensures lo < |rows| == hi ==> rows[|rows| - 1] != []
  {
    lo := if rows != [] && rows[0] == [] then 1 else 0;
    assert DropFirstEmpty(rows) == rows[lo..];
    hi := if lo < |rows| && rows[|rows| - 1] == [] then |rows| - 1 else |rows|;
    assert rows[lo..][..hi - lo] == rows[lo..hi];
  }

  lemma EndsOfKept(rows: seq<seq<Entry>>)
    ensures EmptyAtEndsOnly(rows) <==> Kept(rows) != [] && [] !in Kept(rows)
  {
    var lo, hi := KeptIsSlice(rows);
    hide Kept;
    if lo < hi && [] !in rows[lo..hi] {
      assert forall i :: lo <= i < hi ==> rows[i] in rows[lo..hi];
      assert rows[lo] != [];
    }
  }

  /**
   * Empty rows: the scanner drops one at the beginning and one at the end, and the layout comes back
   * without them. Any other empty row, or a layout of empty rows only, makes createForm throw.
   */
  lemma EmptyRows(fields: set<string>, rows: seq<seq<Entry>>)
    requires (forall row :: row in rows ==> WellFormedRow(row)) && AllDeclared(fields, rows)
    ensures Parse(fields, Print(rows)) == if EmptyAtEndsOnly(rows) then Ok(BuiltRows(Kept(rows))) else Err(NullElements)
  {
    RoundTrip(fields, rows);
    EndsOfKept(rows);
    BuiltEmpties(Kept(rows));
    hide Parse, Print, Kept, EmptyAtEndsOnly, AllDeclared;
    assert |BuiltRows(Kept(rows))| == |Kept(rows)|;
  }

  /** A printed element fails exactly on the token `#`, an undeclared attribute, or a size that is no int. */
  lemma WhatFails(fields: set<string>, token: char, name: string, size: Option<nat>)
    requires token in "$@#" && name != "" && forall c :: c in name ==> IsWord(c)
    ensures var parsed := ParseElement(fields, [token] + name + PrintSize(size));
      && (parsed == Err(NullType) <==> token == '#')
      && (parsed == Err(NoField) <==> token == '$' && name !in fields)
      && (parsed == Err(NumberFormat) <==> (token == '@' || (token == '$' && name in fields)) && size.Some? && size.value > 2147483647)
  {
    FindOfPrinted(token, name, size);
    if size.Some? {
      DecimalRoundTrip(size.value);
    }
    hide Find, Decimal, PrintSize, IsWord;
  }

  // ----- which structs make getView throw -----

  /** A line with no element at all. */
  predicate Blank(line: string) {
    forall t :: t in Tokens(line, ',') ==> Find(t) == None
  }

  lemma {:induction false} RowGrows(fields: set<string>, row: seq<Element>, elements: seq<string>)
    ensures (forall t :: t in elements ==> Find(t) == None) ==> ParseRow(fields, row, elements) == Ok(row)
    ensures ParseRow(fields, row, elements).Ok? && (exists t :: t in elements && Find(t) != None) ==>
      |ParseRow(fields, row, elements).value| > |row|
    ensures ParseRow(fields, row, elements).Ok? ==> |ParseRow(fields, row, elements).value| >= |row|
    decreases |elements|
  {
    hide ParseElement, Find;
    if elements != [] {
      assert elements == [elements[0]] + elements[1..];
      var next := AddTo(row, ParseElement(fields, elements[0]));
      if next.Ok? {
        RowGrows(fields, next.value, elements[1..]);
      }
    }
  }

  lemma BlankRow(fields: set<string>, line: string)
    ensures ParseRow(fields, [], Tokens(line, ',')) == Ok([]) <==> Blank(line)
  {
    RowGrows(fields, [], Tokens(line, ','));
    hide ParseRow, Tokens, Find;
  }

  predicate LineParses(fields: set<string>, line: string) {
    ParseRow(fields, [], Tokens(line, ',')).Ok?
  }

  ghost predicate AnyBlank(lines: seq<string>) {
    exists l :: l in lines && Blank(l)
  }

  ghost predicate AllParse(fields: set<string>, lines: seq<string>) {
    forall l :: l in lines ==> LineParses(fields, l)
  }

  lemma FirstLine(fields: set<string>, lines: seq<string>)
    requires lines != []
    ensures AnyBlank(lines) <==> Blank(lines[0]) || AnyBlank(lines[1..])
    ensures AllParse(fields, lines) <==> LineParses(fields, lines[0]) && AllParse(fields, lines[1..])
  {
    hide Blank, LineParses;
    assert lines == [lines[0]] + lines[1..];
  }

  lemma {:induction false} RowsOfLines(fields: set<string>, rows: seq<seq<Element>>, lines: seq<string>)
    ensures ParseRows(fields, rows, lines).Ok? <==> AllParse(fields, lines)
    ensures var parsed := ParseRows(fields, rows, lines);
      parsed.Ok? ==> |parsed.value| == |rows| + |lines| && ([] in parsed.value <==> [] in rows || AnyBlank(lines))
    decreases |lines|
  {
    if lines != [] {
      FirstLine(fields, lines);
      BlankRow(fields, lines[0]);
      hide ParseRow, Tokens, Blank, AnyBlank, AllParse;
      var row := ParseRow(fields, [], Tokens(lines[0], ','));
      if row.Ok? {
        RowsOfLines(fields, rows + [row.value], lines[1..]);
        assert [] in rows + [row.value] <==> [] in rows || row.value == [];
      }
    }
  }

  /** For every struct: the null list is what stops it exactly when its lines all parse and there is none, or one without an element. */
  lemma WhenListIsNull(fields: set<string>, struct: string)
    ensures var lines := Tokens(struct, ';');
      Parse(fields, struct) == Err(NullElements) <==>
      AllParse(fields, lines) && (lines == [] || AnyBlank(lines))
  {
    RowsOfLines(fields, [], Tokens(struct, ';'));
    hide ParseRows, Tokens, AnyBlank, AllParse;
  }

  // ----- the parser as it runs -----

  /** The map from tokens to types, filled when it is first asked for. */
  class TypeElementViews {
    var mapToken: Option<map<char, ElementType>>

    static ghost predicate IsComplete(m: map<char, ElementType>) {
      forall c: char :: (if c in m then Some(m[c]) else None) == TypeOf(c)
    }

    ghost predicate Valid()
      reads this
    {
      mapToken.Some? ==> IsComplete(mapToken.value)
    }

    constructor ()
      ensures Valid()
    {
      mapToken := None;
    }

    method GetMapToken() returns (m: map<char, ElementType>)
      requires Valid()
      modifies this
      ensures Valid() && mapToken == Some(m)
      ensures old(mapToken.Some?) ==> mapToken == old(mapToken)
    {
      if mapToken.None? {
        mapToken := Some(map[]);
        var i := 0;
        while i < |VALUES|
          invariant 0 <= i <= |VALUES| && mapToken.Some?
          invariant forall c :: c in mapToken.value <==> exists j :: 0 <= j < i && Token(VALUES[j]) == c
          invariant forall c :: c in mapToken.value ==> Token(mapToken.value[c]) == c
        {
          mapToken := Some(mapToken.value[Token(VALUES[i]) := VALUES[i]]);
          i := i + 1;
        }
        assert Token(VALUES[0]) == '$' && Token(VALUES[1]) == '@';
      }
      m := mapToken.value;
    }

    method GetType(token: char) returns (kind: Option<ElementType>)
      requires Valid()
      modifies this
      ensures Valid() && kind == TypeOf(token)
    {
      var m := GetMapToken();
      kind := if token in m then Some(m[token]) else None;
    }
  }

  lemma FirstToken(text: string, start: nat, end: nat, d: char)
    requires start <= end <= |text| && (forall i :: start <= i < end ==> text[i] != d) && (end < |text| ==> text[end] == d)
    ensures Span(text[start..], c => c != d) == end - start
    ensures text[start..][end - start..] == text[end..] && text[start..][..end - start] == text[start..end]
  {
    hide Span;
    SpanIs(text[start..], c => c != d, end - start);
  }

  lemma TokensUnfold(s: string, d: char, n: nat)
    requires var t := SkipDelimiter(s, d); t != "" && n == Span(t, c => c != d)
    ensures var t := SkipDelimiter(s, d); Tokens(s, d) == [t[..n]] + Tokens(t[n..], d)
  {
    hide Span, SkipDelimiter;
  }

  lemma NextToken(text: string, position: nat, start: nat, end: nat, d: char)
    requires position <= start < |text| && start <= end <= |text|
    requires text[start..] == SkipDelimiter(text[position..], d)
    requires (forall i :: start <= i < end ==> text[i] != d) && (end < |text| ==> text[end] == d)
    ensures Tokens(text[position..], d) == [text[start..end]] + Tokens(text[end..], d)
  {
    hide Span, SkipDelimiter, Tokens;
    FirstToken(text, start, end, d);
    TokensUnfold(text[position..], d, end - start);
  }

  /** A java.util.Scanner over a text, with a one-character delimiter. */
  class Scanner {
    const text: string
    const delimiter: char
    var position: nat

    predicate Valid()
      reads this
    {
      position <= |text|
    }

    ghost function Remaining(): seq<string>
      requires Valid()
      reads this
    {
      Tokens(text[position..], delimiter)
    }

    constructor (text: string, delimiter: char)
      ensures Valid() && this.delimiter == delimiter && Remaining() == Tokens(text, delimiter)
    {
      this.text, this.delimiter, position := text, delimiter, 0;
      new;
      assert this.text[0..] == text;
    }

    function Start(): nat
      requires Valid()
      reads this
    {
      if position < |text| && text[position] == delimiter then position + 1 else position
    }

    lemma StartSkips()
      requires Valid()
      ensures Start() <= |text| && text[Start()..] == SkipDelimiter(text[position..], delimiter)
    {}

    method HasNext() returns (more: bool)
      requires Valid()
      ensures more <==> Remaining() != []
    {
      StartSkips();
      more := Start() < |text|;
    }

    method Next() returns (token: string)
      requires Valid() && Remaining() != []
      modifies this
      ensures Valid() && [token] + Remaining() == old(Remaining())
    {
      StartSkips();
      assert Start() < |text|;
      hide Tokens, SkipDelimiter;
      var start := Start();
      var end := start;
      while end < |text| && text[end] != delimiter
        invariant start <= end <= |text|
        invariant forall i :: start <= i < end ==> text[i] != delimiter
      {
        end := end + 1;
      }
      NextToken(text, position, start, end, delimiter);
      position := end;
      token := text[start..end];
    }
  }

  /** The list of a group: null until something is added. */
  function ListOf<T(==)>(elements: seq<T>): Option<seq<T>> {
    if elements == [] then None else Some(elements)
  }

  /** The builder of a row or of a form. */
  class GroupBuilder<T(==)> {
    var elements: Option<seq<T>>

    constructor ()
      ensures elements == None
    {
      elements := None;
    }

    method Add(element: T)
      modifies this
      ensures elements == Some(old(elements).GetOr([]) + [element])
    {
      if elements.None? {
        elements := Some([]);
      }
      elements := Some(elements.value + [element]);
    }
  }

  method AddElement(fields: set<string>, nextElement: string, group: GroupBuilder<Element>, types: TypeElementViews)
    returns (error: Option<Error>)
    requires types.Valid()
    modifies group, types
    ensures types.Valid()
    ensures var row := old(group.elements).GetOr([]);
      AddTo(row, ParseElement(fields, nextElement)) == (if error.Some? then Err(error.value) else Ok(group.elements.GetOr([])))
    ensures group.elements == old(group.elements) || group.elements.GetOr([]) != []
  {
    hide Find;
    var found := Find(nextElement);
    if found.None? {
      return None;
    }
    var kind := types.GetType(found.value.token);
    if kind.None? {
      return Some(NullType);
    }
    if kind.value == ATTRIBUTE && found.value.name !in fields {
      return Some(NoField);
    }
    var element := Element(kind.value, found.value.name, DEFAULT_SIZE_COLUMN);
    if found.value.size != "" {
      if Value(found.value.size) > MAX_INT {
        return Some(NumberFormat);
      }
      element := element.(sizeColumn := Value(found.value.size));
    }
    group.Add(element);
    error := None;
  }

  /** One row: every element of a line goes to the row's builder. */
  method AddLine(fields: set<string>, line: string, types: TypeElementViews) returns (row: Result<Option<seq<Element>>>)
    requires types.Valid()
    modifies types
    ensures types.Valid()
    ensures match ParseRow(fields, [], Tokens(line, ','))
            case Err(e) => row == Err(e)
            case Ok(elements) => row == Ok(ListOf(elements))
  {
    hide ParseElement, Tokens;
    var rowBuilder := new GroupBuilder<Element>();
    var scline := new Scanner(line, ',');
    var more := scline.HasNext();
    while more
      invariant types.Valid() && scline.Valid() && more == (scline.Remaining() != [])
      invariant fresh(rowBuilder) && fresh(scline) && rowBuilder.elements != Some([])
      invariant ParseRow(fields, rowBuilder.elements.GetOr([]), scline.Remaining()) == ParseRow(fields, [], Tokens(line, ','))
      decreases |scline.Remaining()|
    {
      ghost var tokens := scline.Remaining();
      var next := scline.Next();
      assert tokens[0] == next && tokens[1..] == scline.Remaining();
      var error := AddElement(fields, next, rowBuilder, types);
      if error.Some? {
        return Err(error.value);
      }
      more := scline.HasNext();
    }
    row := Ok(rowBuilder.elements);
  }

  /** The lists of the rows, each null when it has no element. */
  function RowLists(rows: seq<seq<Element>>): seq<Option<seq<Element>>> {
    seq(|rows|, i requires 0 <= i < |rows| => ListOf(rows[i]))
  }

  /** The loops of getView over the form's list and over the list of every row; a null list throws. */
  method GetView(form: Option<seq<Option<seq<Element>>>>, ghost rows: seq<seq<Element>>) returns (view: Result<seq<seq<Element>>>)
    requires form == ListOf(RowLists(rows))
    ensures view == Viewed(rows)
  {
    if form.None? {
      return Err(NullElements);
    }
    assert |form.value| == |rows|;
    var shown, i := [], 0;
    while i < |form.value|
      invariant i <= |rows| == |form.value| && shown == rows[..i] && [] !in shown
    {
      if form.value[i].None? {
        assert rows[i] == [];
        return Err(NullElements);
      }
      shown := shown + [form.value[i].value];
      i := i + 1;
    }
    assert rows[..i] == rows;
    view := Ok(shown);
  }

  lemma OneMoreRow(rows: seq<seq<Element>>, row: seq<Element>)
    ensures RowLists(rows + [row]) == RowLists(rows) + [ListOf(row)]
  {}

  method CreateForm(fields: set<string>, struct: string, types: TypeElementViews) returns (form: Result<seq<seq<Element>>>)
    requires types.Valid()
    modifies types
    ensures types.Valid() && form == Parse(fields, struct)
  {
    hide ParseRow, Tokens, RowLists, Viewed;
    var formBuilder := new GroupBuilder<Option<seq<Element>>>();
    var scblock := new Scanner(struct, ';');
    ghost var rows: seq<seq<Element>> := [];
    NoRowLists();
    var more := scblock.HasNext();
    while more
      invariant types.Valid() && scblock.Valid() && more == (scblock.Remaining() != [])
      invariant fresh(formBuilder) && fresh(scblock) && formBuilder.elements == ListOf(RowLists(rows))
      invariant ParseRows(fields, rows, scblock.Remaining()) == ParseRows(fields, [], Tokens(struct, ';'))
      decreases |scblock.Remaining()|
    {
      ghost var tokens := scblock.Remaining();
      var line := scblock.Next();
      assert tokens[0] == line && tokens[1..] == scblock.Remaining();
      var row := AddLine(fields, line, types);
      if row.Err? {
        return Err(row.error);
      }
      formBuilder.Add(row.value);
      OneMoreRow(rows, ParseRow(fields, [], Tokens(line, ',')).value);
      rows := rows + [ParseRow(fields, [], Tokens(line, ',')).value];
      more := scblock.HasNext();
    }
    form := GetView(formBuilder.elements, rows);
  }

  lemma NoRowLists()
    ensures RowLists([]) == []
  {}
}
