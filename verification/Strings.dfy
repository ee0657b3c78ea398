/** Splitting and joining at a character, and decimal numbers. */
module Strings {
  /** The length of the run of characters of a class at the start of s. */
  function Span(s: string, class_: char -> bool): (n: nat)
    ensures n <= |s| && (forall i :: 0 <= i < n ==> class_(s[i])) && (n < |s| ==> !class_(s[n]))
  {
    if s != "" && class_(s[0]) then 1 + Span(s[1..], class_) else 0
  }

  lemma SpanIs(s: string, class_: char -> bool, n: nat)
    requires n <= |s| && (forall i :: 0 <= i < n ==> class_(s[i])) && (n < |s| ==> !class_(s[n]))
    ensures Span(s, class_) == n
  {}

  /** All the parts between delimiters, empty ones included. */
  function Split(s: string, d: char): (parts: seq<string>)
    ensures parts != []
    decreases |s|
  {
    var n := Span(s, c => c != d);
    if n == |s| then [s] else [s[..n]] + Split(s[n + 1..], d)
  }

  function Join(parts: seq<string>, d: char): string {
    if parts == [] then "" else if |parts| == 1 then parts[0] else parts[0] + [d] + Join(parts[1..], d)
  }

  lemma SpanTo(part: string, d: char, rest: string)
    requires d !in part
    ensures Span(part + [d] + rest, c => c != d) == |part|
    ensures Span(part, c => c != d) == |part|
    ensures (part + [d] + rest)[..|part|] == part && (part + [d] + rest)[|part| + 1..] == rest
  {
    SpanIs(part + [d] + rest, c => c != d, |part|);
    SpanIs(part, c => c != d, |part|);
  }

  lemma SplitStep(part: string, d: char, rest: string)
    requires d !in part
    ensures Split(part, d) == [part]
    ensures Split(part + [d] + rest, d) == [part] + Split(rest, d)
  {
    SpanTo(part, d, rest);
    hide Span;
  }

  lemma {:induction false} SplitInvertsJoin(parts: seq<string>, d: char)
    requires parts != [] && forall p :: p in parts ==> d !in p
    ensures Split(Join(parts, d), d) == parts
  {
    hide Split;
    if |parts| == 1 {
      SplitStep(parts[0], d, "");
    } else {
      SplitInvertsJoin(parts[1..], d);
      SplitStep(parts[0], d, Join(parts[1..], d));
    }
  }

  lemma Rejoined(s: string, n: nat)
    requires n < |s|
    ensures s[..n] + [s[n]] + s[n + 1..] == s
  {}

  lemma SplitFirst(s: string, d: char)
    ensures var n := Span(s, c => c != d);
      && d !in s[..n]
      && if n == |s| then Split(s, d) == [s]
         else Split(s, d)[0] == s[..n] && Split(s, d)[1..] == Split(s[n + 1..], d) && s[..n] + [d] + s[n + 1..] == s
  {
    var n := Span(s, c => c != d);
    if n < |s| {
      Rejoined(s, n);
    }
  }

  lemma {:induction false} JoinInvertsSplit(s: string, d: char)
    ensures Join(Split(s, d), d) == s
    decreases |s|
  {
    var n := Span(s, c => c != d);
    if n < |s| {
      JoinInvertsSplit(s[n + 1..], d);
      assert Split(s, d)[1..] == Split(s[n + 1..], d);
      Rejoined(s, n);
    }
  }

  lemma {:induction false} JoinAvoids(parts: seq<string>, d: char, c: char)
    requires c != d && forall p :: p in parts ==> c !in p
    ensures c !in Join(parts, d)
  {
    if |parts| > 1 {
      JoinAvoids(parts[1..], d, c);
    }
  }

  lemma SpanOfPrefix(prefix: string, rest: string, class_: char -> bool)
    requires (forall c :: c in prefix ==> class_(c)) && (rest != "" ==> !class_(rest[0]))
    ensures Span(prefix + rest, class_) == |prefix|
  {
    hide Span;
    SpanIs(prefix + rest, class_, |prefix|);
  }

  predicate IsDigit(c: char) {
    '0' <= c <= '9'
  }

  function Value(digits: string): (n: int)
    requires forall c :: c in digits ==> IsDigit(c)
    ensures n >= 0
  {
    if digits == "" then 0
    else
      assert IsDigit(digits[|digits| - 1]);
      10 * Value(digits[..|digits| - 1]) + (digits[|digits| - 1] as int - '0' as int)
  }

  function Decimal(n: nat): string {
    if n < 10 then [('0' as int + n) as char] else Decimal(n / 10) + [('0' as int + n % 10) as char]
  }

  /** Digits are read by place: one more digit at the end multiplies by ten and adds it. */
  lemma ValueByPlace(digits: string, k: nat)
    requires (forall c :: c in digits ==> IsDigit(c)) && k < 10
    ensures IsDigit("0123456789"[k]) && Value("") == 0
    ensures Value(digits + ["0123456789"[k]]) == 10 * Value(digits) + k
  {
    assert (digits + ["0123456789"[k]])[..|digits|] == digits;
  }

  lemma {:induction false} DecimalRoundTrip(n: nat)
    ensures Decimal(n) != "" && (forall c :: c in Decimal(n) ==> IsDigit(c)) && Value(Decimal(n)) == n
  {
    var ds := Decimal(n);
    if n < 10 {
      assert ds[..|ds| - 1] == "";
    } else {
      DecimalRoundTrip(n / 10);
      assert ds[..|ds| - 1] == Decimal(n / 10);
    }
  }
}
