/** Choosing elements of a sequence. */
module Sequences {
  function Only<T>(values: seq<T>, keep: T -> bool): seq<T> {
    if values == [] then []
    else Only(values[..|values| - 1], keep) + if keep(values[|values| - 1]) then [values[|values| - 1]] else []
  }

  lemma Ended<T>(values: seq<T>)
    requires values != []
    ensures values == values[..|values| - 1] + [values[|values| - 1]]
  {}

  lemma Extended<T>(before: seq<T>, after: seq<T>)
    requires after != []
    ensures (before + after)[..|before + after| - 1] == before + after[..|after| - 1]
    ensures (before + after)[|before + after| - 1] == after[|after| - 1]
  {}

  lemma OnlyOfOne<T>(a: T, keep: T -> bool)
    ensures Only([a], keep) == if keep(a) then [a] else []
  {
    assert [a][..0] == [];
  }

  lemma {:induction false} OnlyAll<T>(values: seq<T>, keep: T -> bool)
    requires forall c :: c in values ==> keep(c)
    ensures Only(values, keep) == values
  {
    if values != [] {
      OnlyAll(values[..|values| - 1], keep);
      assert values[|values| - 1] in values;
      Ended(values);
    }
  }

  lemma {:induction false} OnlyIn<T>(values: seq<T>, keep: T -> bool)
    ensures forall c :: c in Only(values, keep) <==> c in values && keep(c)
  {
    if values != [] {
      OnlyIn(values[..|values| - 1], keep);
      Ended(values);
    }
  }

  lemma {:induction false} OnlyConcat<T>(a: seq<T>, b: seq<T>, keep: T -> bool)
    ensures Only(a + b, keep) == Only(a, keep) + Only(b, keep)
    decreases |b|
  {
    if b == [] {
      assert a + b == a;
    } else {
      OnlyConcat(a, b[..|b| - 1], keep);
      Extended(a, b);
    }
  }

  lemma OnlyAppend<T>(values: seq<T>, last: T, keep: T -> bool)
    ensures Only(values + [last], keep) == Only(values, keep) + if keep(last) then [last] else []
  {
    assert (values + [last])[..|values|] == values;
  }

  lemma {:induction false} OnlyBoth<T>(values: seq<T>, p: T -> bool, q: T -> bool, both: T -> bool)
    requires forall c :: both(c) == (p(c) && q(c))
    ensures Only(Only(values, p), q) == Only(values, both)
  {
    if values != [] {
      var before, last := values[..|values| - 1], values[|values| - 1];
      OnlyBoth(before, p, q, both);
      OnlyAppend(Only(before, p), last, q);
      assert Only(before, p) + [] == Only(before, p);
    }
  }

  ghost predicate AllDistinct<T>(values: seq<T>) {
    forall i, j :: 0 <= i < j < |values| ==> values[i] != values[j]
  }

  lemma {:induction false} OnlyDistinct<T>(values: seq<T>, keep: T -> bool)
    requires AllDistinct(values)
    ensures AllDistinct(Only(values, keep))
  {
    if values != [] {
      OnlyDistinct(values[..|values| - 1], keep);
      OnlyIn(values[..|values| - 1], keep);
      hide Only;
      assert values[|values| - 1] !in values[..|values| - 1];
    }
  }
}
