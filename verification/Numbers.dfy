/** JavaScript's 32-bit integer operators on numbers, and the unsigned words of RFC 1321. */
module Numbers {

  const TWO16 := 0x1_0000
  const TWO31 := 0x8000_0000
  const TWO32 := 0x1_0000_0000

  type Word = n: int | 0 <= n < TWO32
  type Byte = n: int | 0 <= n < 0x100

  function Pow2(k: nat): (p: nat)
    ensures p >= 1
  {
    if k == 0 then 1 else 2 * Pow2(k - 1)
  }

  // Bitwise operators on natural numbers, defined bit by bit.

  function And(x: nat, y: nat): (r: nat)
    ensures r <= x && r <= y
  {
    if x == 0 || y == 0 then 0 else 2 * And(x / 2, y / 2) + (x % 2) * (y % 2)
  }

  function Or(x: nat, y: nat): (r: nat)
    ensures x <= r <= x + y && y <= r
    decreases x + y
  {
    if x == 0 then y else if y == 0 then x
    else 2 * Or(x / 2, y / 2) + (if x % 2 == 1 then 1 else y % 2)
  }

  function Xor(x: nat, y: nat): (r: nat)
    ensures r <= x + y
    decreases x + y
  {
    if x == 0 then y else if y == 0 then x
    else 2 * Xor(x / 2, y / 2) + (x % 2 + y % 2) % 2
  }

  function Not(x: Word): Word {
    TWO32 - 1 - x
  }

  /** Circular left shift of a 32-bit word, one place at a time. */
  function RotateLeft(x: Word, s: nat): Word {
    if s == 0 then x
    else
      var y := RotateLeft(x, s - 1);
      2 * y % TWO32 + y / TWO31
  }

  // JavaScript: every operator first wraps its operands to 32 bits (missing elements read as 0).

  function ToUint32(n: int): Word {
    n % TWO32
  }

  function ToInt32(n: int): (r: int)
    ensures -TWO31 <= r < TWO31
  {
    if n % TWO32 < TWO31 then n % TWO32 else n % TWO32 - TWO32
  }

  function BitAnd(x: int, y: int): int { ToInt32(And(ToUint32(x), ToUint32(y))) }

  function BitOr(x: int, y: int): int { ToInt32(Or(ToUint32(x), ToUint32(y))) }

  function BitXor(x: int, y: int): int { ToInt32(Xor(ToUint32(x), ToUint32(y))) }

  function BitNot(x: int): int { -ToInt32(x) - 1 }

  function Shl(x: int, s: nat): int {
    if s == 0 then ToInt32(x) else ToInt32(2 * Shl(x, s - 1))
  }

  /** The sign-propagating shift `>>`. */
  function Sar(x: int, s: nat): int {
    if s == 0 then ToInt32(x) else Sar(x, s - 1) / 2
  }

  /** The zero-filling shift `>>>`. */
  function Shr(x: int, s: nat): Word {
    if s == 0 then ToUint32(x) else Shr(x, s - 1) / 2
  }

  // ----- facts -----

  lemma {:induction false} DoubleMod(x: nat, m: nat)
    requires m > 0
    ensures x % (2 * m) == 2 * (x / 2 % m) + x % 2
  {
    var q, r := x / 2, x % 2;
    var c, d := q / m, q % m;
    var rest := 2 * d + r;
    assert x == c * (2 * m) + rest by {
      assert q == m * c + d;
      assert 2 * (m * c) == c * (2 * m);
    }
    QuotientIsUnique(x, 2 * m, c, rest);
  }

  lemma {:induction false} QuotientIsUnique(x: int, m: int, c: int, r: int)
    requires m > 0 && x == c * m + r && 0 <= r < m
    ensures x / m == c && x % m == r
  {
    var k := x / m - c;
    assert x == m * (x / m) + x % m;
    assert k * m == r - x % m by { assert m * (x / m) == (x / m) * m; assert k * m == (x / m) * m - c * m; }
    if k >= 1 {
      MulMono(1, k, m);
    } else if k <= -1 {
      MulMono(k, -1, m);
    }
  }

  lemma MulMono(a: int, b: int, m: int)
    requires a <= b && m >= 0
    ensures a * m <= b * m
  {}

  /** Masking with 2^k - 1 keeps the remainder modulo 2^k. */
  lemma {:induction false} AndMask(x: nat, k: nat)
    ensures And(x, Pow2(k) - 1) == x % Pow2(k)
  {
    if k == 0 {
      assert x % 1 == 0;
    } else if x == 0 {
    } else {
      AndMask(x / 2, k - 1);
      DoubleMod(x, Pow2(k - 1));
      var m := Pow2(k) - 1;
      assert m / 2 == Pow2(k - 1) - 1 && m % 2 == 1;
      assert And(x, m) == 2 * And(x / 2, m / 2) + (x % 2) * (m % 2);
    }
  }

  /** Bits that do not overlap are joined by addition. */
  lemma {:induction false} OrDisjoint(a: nat, b: nat, k: nat)
    requires b < Pow2(k)
    ensures Or(a * Pow2(k), b) == Or(b, a * Pow2(k)) == a * Pow2(k) + b
  {
    var x := a * Pow2(k);
    if k == 0 || x == 0 || b == 0 {
    } else {
      var h := a * Pow2(k - 1);
      assert x == 2 * h by { assert a * (2 * Pow2(k - 1)) == 2 * (a * Pow2(k - 1)); }
      OrDisjoint(a, b / 2, k - 1);
      assert Or(x, b) == 2 * Or(h, b / 2) + b % 2;
      assert Or(b, x) == 2 * Or(b / 2, h) + b % 2;
    }
  }

  lemma {:induction false} OrXorBound(x: nat, y: nat, k: nat)
    requires x < Pow2(k) && y < Pow2(k)
    ensures Or(x, y) < Pow2(k) && Xor(x, y) < Pow2(k)
  {
    if k == 0 || x == 0 || y == 0 {
    } else {
      OrXorBound(x / 2, y / 2, k - 1);
    }
  }

  lemma Powers()
    ensures Pow2(4) == 0x10 && Pow2(8) == 0x100 && Pow2(16) == TWO16 && Pow2(24) == 0x100_0000 && Pow2(32) == TWO32
  {
    assert Pow2(4) == 0x10;
    assert Pow2(8) == 0x100;
    assert Pow2(12) == 0x1000;
    assert Pow2(16) == TWO16;
    assert Pow2(20) == 0x10_0000;
    assert Pow2(24) == 0x100_0000;
    assert Pow2(28) == 0x1000_0000;
    assert Pow2(32) == TWO32;
  }

  /** Adding Pow2 exponents multiplies. */
  lemma {:induction false} PowSum(j: nat, k: nat)
    ensures Pow2(j + k) == Pow2(j) * Pow2(k)
  {
    if j > 0 {
      PowSum(j - 1, k);
      assert 2 * (Pow2(j - 1) * Pow2(k)) == (2 * Pow2(j - 1)) * Pow2(k);
    }
  }

  lemma {:induction false} ModCongruent(x: int, y: int, m: int, q: int)
    requires m > 0 && x == y + q * m
    ensures x % m == y % m
  {
    var c, r := y / m, y % m;
    assert y == m * c + r;
    assert x == (c + q) * m + r by { assert m * c == c * m; assert (c + q) * m == c * m + q * m; }
    QuotientIsUnique(x, m, c + q, r);
  }

  lemma Wrap(n: int)
    ensures ToUint32(ToInt32(n)) == ToUint32(n)
    ensures 0 <= n < TWO32 ==> ToUint32(n) == n
  {}

  /** The signed operators agree with the unsigned ones on the unsigned readings. */
  lemma Unsigned(x: int, y: int)
    ensures ToUint32(BitAnd(x, y)) == And(ToUint32(x), ToUint32(y))
    ensures Or(ToUint32(x), ToUint32(y)) < TWO32 && ToUint32(BitOr(x, y)) == Or(ToUint32(x), ToUint32(y))
    ensures Xor(ToUint32(x), ToUint32(y)) < TWO32 && ToUint32(BitXor(x, y)) == Xor(ToUint32(x), ToUint32(y))
  {
    var u, v := ToUint32(x), ToUint32(y);
    assert Or(u, v) < TWO32 && Xor(u, v) < TWO32 by {
      Powers();
      OrXorBound(u, v, 32);
    }
    Wrap(And(u, v));
    Wrap(Or(u, v));
    Wrap(Xor(u, v));
  }

  lemma UnsignedNot(x: int)
    ensures ToUint32(BitNot(x)) == Not(ToUint32(x))
  {}

  /** Shifting left multiplies by 2^s modulo 2^32. */
  lemma {:induction false} ShlIs(x: int, s: nat)
    ensures ToUint32(Shl(x, s)) == ToUint32(x) * Pow2(s) % TWO32
  {
    if s == 0 {
    } else {
      ShlIs(x, s - 1);
      var y, z := Shl(x, s - 1), ToUint32(x) * Pow2(s - 1);
      Wrap(2 * y);
      assert ToUint32(x) * Pow2(s) == 2 * z by { assert ToUint32(x) * (2 * Pow2(s - 1)) == 2 * (ToUint32(x) * Pow2(s - 1)); }
      DoubleCongruent(y, z);
    }
  }

  lemma DoubleCongruent(y: int, z: int)
    requires y % TWO32 == z % TWO32
    ensures 2 * y % TWO32 == 2 * z % TWO32
  {
    ModCongruent(2 * y, 2 * z, TWO32, 2 * (y / TWO32 - z / TWO32));
  }

  /** Halving k times divides by 2^k. */
  lemma {:induction false} ShiftRightIs(x: int, s: nat)
    ensures Sar(x, s) == ToInt32(x) / Pow2(s)
    ensures Shr(x, s) == ToUint32(x) / Pow2(s)
  {
    if s == 0 {
    } else {
      ShiftRightIs(x, s - 1);
      HalfQuotient(ToInt32(x), Pow2(s - 1));
      HalfQuotient(ToUint32(x), Pow2(s - 1));
    }
  }

  lemma {:induction false} HalfQuotient(x: int, m: int)
    requires m > 0
    ensures x / m / 2 == x / (2 * m)
  {
    var q, r := x / m, x % m;
    assert x == m * q + r;
    assert q == 2 * (q / 2) + q % 2;
    var rest := m * (q % 2) + r;
    assert x == (q / 2) * (2 * m) + rest by {
      assert m * q == m * (2 * (q / 2)) + m * (q % 2);
      assert m * (2 * (q / 2)) == (q / 2) * (2 * m);
    }
    QuotientIsUnique(x, 2 * m, q / 2, rest);
  }

  /** The rotated word is the low part moved up plus the high part moved down. */
  lemma {:induction false} RotateLeftIs(x: Word, s: nat)
    requires s <= 32
    ensures RotateLeft(x, s) == x % Pow2(32 - s) * Pow2(s) + x / Pow2(32 - s)
  {
    if s == 0 {
      Powers();
      assert x % TWO32 == x && x / TWO32 == 0;
    } else {
      RotateLeftIs(x, s - 1);
      var p, q := Pow2(32 - s), Pow2(s - 1);
      assert Pow2(33 - s) == 2 * p && Pow2(s) == 2 * q;
      assert p * q == TWO31 by {
        PowSum(32 - s, s - 1);
        Powers();
        assert Pow2(32) == 2 * Pow2(31);
      }
      RotateOnce(x, p, q, RotateLeft(x, s - 1));
    }
  }

  lemma OneBit(low: nat, p: nat) returns (b: nat, l: nat)
    requires 0 < p && low < 2 * p
    ensures low == p * b + l && b <= 1 && l < p
  {
    b := if low < p then 0 else 1;
    l := low - p * b;
  }

  /** x has a top part h, one bit b below it, and the part l of p values below that. */
  lemma {:induction false} SplitWord(x: Word, p: nat, q: nat) returns (h: nat, b: nat, l: nat)
    requires p > 0 && q > 0 && p * q == TWO31
    ensures h == x / (2 * p) && x % (2 * p) == p * b + l && h < q && b <= 1 && l < p
    ensures x / p == 2 * h + b && x % p == l
  {
    var m := 2 * p;
    h := x / m;
    assert x == m * h + x % m;
    b, l := OneBit(x % m, p);
    assert m * h == (2 * p) * h == p * (2 * h);
    assert (2 * h + b) * p == p * (2 * h) + p * b;
    QuotientIsUnique(x, p, 2 * h + b, l);
    TopIsSmall(x, p, q, h);
  }

  lemma TopIsSmall(x: Word, p: nat, q: nat, h: nat)
    requires p * q == TWO31 && (2 * p) * h <= x
    ensures h < q
  {
    var d := h - q;
    assert (2 * p) * h == 2 * (p * q) + 2 * (p * d);
    if h >= q {
      MulMono(0, d, p);
    }
  }

  lemma {:induction false} RotateOnce(x: Word, p: nat, q: nat, y: Word)
    requires p > 0 && q > 0 && p * q == TWO31
    requires y == x % (2 * p) * q + x / (2 * p)
    ensures 2 * y % TWO32 + y / TWO31 == x % p * (2 * q) + x / p
  {
    var h, b, l := SplitWord(x, p, q);
    var rest := l * q + h;
    assert y == b * TWO31 + rest by {
      assert (p * b + l) * q == (p * b) * q + l * q;
      assert (p * b) * q == b * (p * q);
    }
    assert 0 <= rest < TWO31 by {
      MulMono(l + 1, p, q);
      assert (l + 1) * q == l * q + q;
    }
    TopBit(y, b, rest);
    assert 2 * rest == l * (2 * q) + 2 * h;
  }

  lemma TopBit(y: Word, b: nat, rest: nat)
    requires y == b * TWO31 + rest && rest < TWO31 && b <= 1
    ensures y / TWO31 == b && 2 * y % TWO32 == 2 * rest
  {}
}
