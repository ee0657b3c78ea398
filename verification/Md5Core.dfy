/** The arithmetic and the sixty-four steps of the bundled MD5, on signed 32-bit numbers. */
module Md5Core {
  import opened Numbers
  import opened Rfc1321

  function SafeAdd(x: int, y: int): int {
    var lsw := BitAnd(x, 0xffff) + BitAnd(y, 0xffff);
    var msw := Sar(x, 16) + Sar(y, 16) + Sar(lsw, 16);
    BitOr(Shl(msw, 16), BitAnd(lsw, 0xffff))
  }

  lemma MaskLow(u: Word)
    ensures And(u, 0xffff) == u % TWO16
  {
    assert Pow2(16) == TWO16 by { Powers(); }
    AndMask(u, 16);
  }

  lemma LowHalf(x: int)
    ensures BitAnd(x, 0xffff) == x % TWO16 == ToUint32(x) % TWO16
  {
    hide And;
    MaskLow(ToUint32(x));
    LowWord(x);
  }

  lemma LowWord(x: int)
    ensures x % TWO32 % TWO16 == x % TWO16
  {}

  lemma SignedHigh(x: int)
    ensures ToInt32(x) / TWO16 % TWO16 == ToUint32(x) / TWO16
    ensures 0 <= x < TWO31 ==> ToInt32(x) == x
  {}

  lemma HighHalf(x: int)
    ensures Sar(x, 16) % TWO16 == ToUint32(x) / TWO16
    ensures 0 <= x < TWO31 ==> Sar(x, 16) == x / TWO16
  {
    assert Pow2(16) == TWO16 by { Powers(); }
    ShiftRightIs(x, 16);
    SignedHigh(x);
  }

  /** Adding the halves with a carry adds modulo 2^32. */
  lemma CarryAdd(u: Word, v: Word, msw: int)
    requires msw % TWO16 == (u / TWO16 + v / TWO16 + (u % TWO16 + v % TWO16) / TWO16) % TWO16
    ensures (msw % TWO16) * TWO16 + (u % TWO16 + v % TWO16) % TWO16 == (u + v) % TWO32
  {}

  lemma TopHalf(u: int)
    ensures u * TWO16 % TWO32 == (u % TWO16) * TWO16
  {
    QuotientIsUnique(u * TWO16, TWO32, u / TWO16, (u % TWO16) * TWO16);
  }

  lemma HighPart(msw: int)
    ensures ToUint32(Shl(msw, 16)) == (msw % TWO16) * TWO16
  {
    var u := ToUint32(msw);
    assert u % TWO16 == msw % TWO16;
    ShlIs(msw, 16);
    Powers();
    TopHalf(u);
  }

  lemma JoinHalves(hi: int, q: nat, lo: nat)
    requires q < TWO16 && lo < TWO16 && ToUint32(hi) == q * TWO16
    ensures ToUint32(BitOr(hi, lo)) == q * TWO16 + lo
  {
    Unsigned(hi, lo);
    Wrap(lo);
    OrHalves(q, lo);
  }

  lemma OrHalves(q: nat, lo: nat)
    requires lo < TWO16
    ensures Or(q * TWO16, lo) == q * TWO16 + lo
  {
    assert Pow2(16) == TWO16 by { Powers(); }
    OrDisjoint(q, lo, 16);
  }

  lemma SafeAddJoins(u: Word, v: Word, msw: int, hi: int, lo: int)
    requires msw % TWO16 == (u / TWO16 + v / TWO16 + (u % TWO16 + v % TWO16) / TWO16) % TWO16
    requires ToUint32(hi) == (msw % TWO16) * TWO16 && lo == (u % TWO16 + v % TWO16) % TWO16
    ensures ToUint32(BitOr(hi, lo)) == (u + v) % TWO32
  {
    CarryAdd(u, v, msw);
    JoinHalves(hi, msw % TWO16, lo);
  }

  lemma SafeAddLow(x: int, y: int, lsw: int)
    requires lsw == BitAnd(x, 0xffff) + BitAnd(y, 0xffff)
    ensures lsw == ToUint32(x) % TWO16 + ToUint32(y) % TWO16
    ensures BitAnd(lsw, 0xffff) == lsw % TWO16
  {
    LowHalf(x);
    LowHalf(y);
    LowHalf(lsw);
  }

  lemma SafeAddIsSum(x: int, y: int)
    ensures ToUint32(SafeAdd(x, y)) == (ToUint32(x) + ToUint32(y)) % TWO32
  {
    var lsw := BitAnd(x, 0xffff) + BitAnd(y, 0xffff);
    SafeAddLow(x, y, lsw);
    SafeAddMsw(x, y, lsw);
    var msw := Sar(x, 16) + Sar(y, 16) + Sar(lsw, 16);
    HighPart(msw);
    SafeAddJoins(ToUint32(x), ToUint32(y), msw, Shl(msw, 16), BitAnd(lsw, 0xffff));
  }

  lemma SafeAddMsw(x: int, y: int, lsw: nat)
    requires lsw < 2 * TWO16
    ensures (Sar(x, 16) + Sar(y, 16) + Sar(lsw, 16)) % TWO16 == (ToUint32(x) / TWO16 + ToUint32(y) / TWO16 + lsw / TWO16) % TWO16
  {
    HighHalf(x);
    HighHalf(y);
    HighHalf(lsw);
    AddMods(Sar(x, 16), Sar(y, 16), Sar(lsw, 16));
  }

  lemma AddMods(x: int, y: int, z: int)
    ensures (x + y + z) % TWO16 == (x % TWO16 + y % TWO16 + z) % TWO16
  {}

  function BitRotateLeft(num: int, cnt: nat): int
    requires 0 < cnt < 32
  {
    BitOr(Shl(num, cnt), Shr(num, 32 - cnt))
  }

  lemma BitRotateLeftIsRotation(num: int, cnt: nat)
    requires 0 < cnt < 32
    ensures ToUint32(BitRotateLeft(num, cnt)) == RotateLeft(ToUint32(num), cnt)
  {
    var u, p, q := ToUint32(num), Pow2(32 - cnt), Pow2(cnt);
    var lo := Shr(num, 32 - cnt);
    RotateLeftIs(u, cnt);
    ShiftRightIs(num, 32 - cnt);
    ShlIs(num, cnt);
    assert p * q == TWO32 by {
      PowSum(32 - cnt, cnt);
      Powers();
    }
    MovedUp(u, p, q);
    OrDisjoint(u % p, lo, cnt);
    Unsigned(Shl(num, cnt), lo);
    Wrap(lo);
  }

  /** The high part moved down fits below the low part moved up. */
  lemma MovedUp(u: Word, p: nat, q: nat)
    requires p > 0 && q > 0 && p * q == TWO32
    ensures u * q % TWO32 == u % p * q && u / p < q
  {
    var c, r := u / p, u % p;
    assert u == p * c + r;
    assert u * q == c * TWO32 + r * q by {
      assert (p * c + r) * q == (p * c) * q + r * q;
      assert (p * c) * q == c * (p * q);
    }
    MulMono(r + 1, p, q);
    assert (r + 1) * q == r * q + q;
    QuotientIsUnique(u * q, TWO32, c, r * q);
    var d := c - q;
    assert p * c == p * q + p * d;
    if c >= q {
      MulMono(0, d, p);
    }
  }

  function Md5Cmn(q: int, a: int, b: int, x: int, s: nat, t: int): int
    requires 0 < s < 32
  {
    SafeAdd(BitRotateLeft(SafeAdd(SafeAdd(a, q), SafeAdd(x, t)), s), b)
  }

  lemma Md5CmnIsOp(q: int, a: int, b: int, x: int, s: nat, t: int)
    requires 0 < s < 32
    ensures ToUint32(Md5Cmn(q, a, b, x, s, t)) == Op(ToUint32(q), ToUint32(a), ToUint32(b), ToUint32(x), s, ToUint32(t))
  {
    hide SafeAdd, BitRotateLeft, RotateLeft, ToUint32;
    var aq, xt := SafeAdd(a, q), SafeAdd(x, t);
    SafeAddIsSum(a, q);
    SafeAddIsSum(x, t);
    SafeAddIsSum(aq, xt);
    SumOfSums(ToUint32(a), ToUint32(q), ToUint32(x), ToUint32(t));
    var sum := SafeAdd(aq, xt);
    BitRotateLeftIsRotation(sum, s);
    SafeAddIsSum(BitRotateLeft(sum, s), b);
  }

  lemma SumOfSums(a: Word, q: Word, x: Word, t: Word)
    ensures ((a + q) % TWO32 + (x + t) % TWO32) % TWO32 == (a + q + x + t) % TWO32
  {}

  function Md5Ff(a: int, b: int, c: int, d: int, x: int, s: nat, t: int): int
    requires 0 < s < 32
  {
    Md5Cmn(BitOr(BitAnd(b, c), BitAnd(BitNot(b), d)), a, b, x, s, t)
  }

  function Md5Gg(a: int, b: int, c: int, d: int, x: int, s: nat, t: int): int
    requires 0 < s < 32
  {
    Md5Cmn(BitOr(BitAnd(b, d), BitAnd(c, BitNot(d))), a, b, x, s, t)
  }

  function Md5Hh(a: int, b: int, c: int, d: int, x: int, s: nat, t: int): int
    requires 0 < s < 32
  {
    Md5Cmn(BitXor(BitXor(b, c), d), a, b, x, s, t)
  }

  function Md5Ii(a: int, b: int, c: int, d: int, x: int, s: nat, t: int): int
    requires 0 < s < 32
  {
    Md5Cmn(BitXor(c, BitOr(b, BitNot(d))), a, b, x, s, t)
  }

  function Reading(a: int, b: int, c: int, d: int): Chain {
    Chain(ToUint32(a), ToUint32(b), ToUint32(c), ToUint32(d))
  }

  function At(x: seq<int>, k: nat): int {
    if k < |x| then x[k] else 0
  }

  function BlockAt(x: seq<int>, i: nat): (b: seq<Word>)
    ensures |b| == 16
  {
    seq<Word>(16, k requires 0 <= k => ToUint32(At(x, i + k)))
  }

  /** md5ff is the RFC's operation with F, on the unsigned readings. */
  lemma Md5FfIsOp()
    ensures forall a, b, c, d, x, t, s: nat {:trigger Md5Ff(a, b, c, d, x, s, t)} | 0 < s < 32 ::
      ToUint32(Md5Ff(a, b, c, d, x, s, t)) == Op(F(ToUint32(b), ToUint32(c), ToUint32(d)), ToUint32(a), ToUint32(b), ToUint32(x), s, ToUint32(t))
  {
    hide Md5Cmn, Op, BitAnd, BitOr, BitXor, BitNot, And, Or, Xor, Not, ToUint32;
    forall a, b, c, d, x, t, s: nat | 0 < s < 32
      ensures ToUint32(Md5Ff(a, b, c, d, x, s, t)) == Op(F(ToUint32(b), ToUint32(c), ToUint32(d)), ToUint32(a), ToUint32(b), ToUint32(x), s, ToUint32(t))
    {
      Unsigned(b, c);
      UnsignedNot(b);
      Unsigned(BitNot(b), d);
      Unsigned(BitAnd(b, c), BitAnd(BitNot(b), d));
      Md5CmnIsOp(BitOr(BitAnd(b, c), BitAnd(BitNot(b), d)), a, b, x, s, t);
    }
  }

  method Round1(a: int, b: int, c: int, d: int, x: seq<int>, i: nat, ghost ch: Chain)
    returns (a': int, b': int, c': int, d': int)
    requires Reading(a, b, c, d) == Steps(0, ch, BlockAt(x, i))
    ensures Reading(a', b', c', d') == Steps(16, ch, BlockAt(x, i))
  {
    hide Md5Ff, Op, F, G, H, I;
    Md5FfIsOp();
    ghost var block := BlockAt(x, i);
    a', b', c', d' := a, b, c, d;
    a' := Md5Ff(a', b', c', d', At(x, i), 7, -680876936);
    assert Reading(d', a', b', c') == Steps(1, ch, block);
    d' := Md5Ff(d', a', b', c', At(x, i + 1), 12, -389564586);
    assert Reading(c', d', a', b') == Steps(2, ch, block);
    c' := Md5Ff(c', d', a', b', At(x, i + 2), 17, 606105819);
    assert Reading(b', c', d', a') == Steps(3, ch, block);
    b' := Md5Ff(b', c', d', a', At(x, i + 3), 22, -1044525330);
    assert Reading(a', b', c', d') == Steps(4, ch, block);
    a' := Md5Ff(a', b', c', d', At(x, i + 4), 7, -176418897);
    assert Reading(d', a', b', c') == Steps(5, ch, block);
    d' := Md5Ff(d', a', b', c', At(x, i + 5), 12, 1200080426);
    assert Reading(c', d', a', b') == Steps(6, ch, block);
    c' := Md5Ff(c', d', a', b', At(x, i + 6), 17, -1473231341);
    assert Reading(b', c', d', a') == Steps(7, ch, block);
    b' := Md5Ff(b', c', d', a', At(x, i + 7), 22, -45705983);
    assert Reading(a', b', c', d') == Steps(8, ch, block);
    a' := Md5Ff(a', b', c', d', At(x, i + 8), 7, 1770035416);
    assert Reading(d', a', b', c') == Steps(9, ch, block);
    d' := Md5Ff(d', a', b', c', At(x, i + 9), 12, -1958414417);
    assert Reading(c', d', a', b') == Steps(10, ch, block);
    c' := Md5Ff(c', d', a', b', At(x, i + 10), 17, -42063);
    assert Reading(b', c', d', a') == Steps(11, ch, block);
    b' := Md5Ff(b', c', d', a', At(x, i + 11), 22, -1990404162);
    assert Reading(a', b', c', d') == Steps(12, ch, block);
    a' := Md5Ff(a', b', c', d', At(x, i + 12), 7, 1804603682);
    assert Reading(d', a', b', c') == Steps(13, ch, block);
    d' := Md5Ff(d', a', b', c', At(x, i + 13), 12, -40341101);
    assert Reading(c', d', a', b') == Steps(14, ch, block);
    c' := Md5Ff(c', d', a', b', At(x, i + 14), 17, -1502002290);
    assert Reading(b', c', d', a') == Steps(15, ch, block);
    b' := Md5Ff(b', c', d', a', At(x, i + 15), 22, 1236535329);
    assert Reading(a', b', c', d') == Steps(16, ch, block);
  }

  /** md5gg is the RFC's operation with G, on the unsigned readings. */
  lemma Md5GgIsOp()
    ensures forall a, b, c, d, x, t, s: nat {:trigger Md5Gg(a, b, c, d, x, s, t)} | 0 < s < 32 ::
      ToUint32(Md5Gg(a, b, c, d, x, s, t)) == Op(G(ToUint32(b), ToUint32(c), ToUint32(d)), ToUint32(a), ToUint32(b), ToUint32(x), s, ToUint32(t))
  {
    hide Md5Cmn, Op, BitAnd, BitOr, BitXor, BitNot, And, Or, Xor, Not, ToUint32;
    forall a, b, c, d, x, t, s: nat | 0 < s < 32
      ensures ToUint32(Md5Gg(a, b, c, d, x, s, t)) == Op(G(ToUint32(b), ToUint32(c), ToUint32(d)), ToUint32(a), ToUint32(b), ToUint32(x), s, ToUint32(t))
    {
      Unsigned(b, d);
      UnsignedNot(d);
      Unsigned(c, BitNot(d));
      Unsigned(BitAnd(b, d), BitAnd(c, BitNot(d)));
      Md5CmnIsOp(BitOr(BitAnd(b, d), BitAnd(c, BitNot(d))), a, b, x, s, t);
    }
  }

  method Round2(a: int, b: int, c: int, d: int, x: seq<int>, i: nat, ghost ch: Chain)
    returns (a': int, b': int, c': int, d': int)
    requires Reading(a, b, c, d) == Steps(16, ch, BlockAt(x, i))
    ensures Reading(a', b', c', d') == Steps(32, ch, BlockAt(x, i))
  {
    hide Md5Gg, Op, F, G, H, I;
    Md5GgIsOp();
    ghost var block := BlockAt(x, i);
    a', b', c', d' := a, b, c, d;
    a' := Md5Gg(a', b', c', d', At(x, i + 1), 5, -165796510);
    assert Reading(d', a', b', c') == Steps(17, ch, block);
    d' := Md5Gg(d', a', b', c', At(x, i + 6), 9, -1069501632);
    assert Reading(c', d', a', b') == Steps(18, ch, block);
    c' := Md5Gg(c', d', a', b', At(x, i + 11), 14, 643717713);
    assert Reading(b', c', d', a') == Steps(19, ch, block);
    b' := Md5Gg(b', c', d', a', At(x, i), 20, -373897302);
    assert Reading(a', b', c', d') == Steps(20, ch, block);
    a' := Md5Gg(a', b', c', d', At(x, i + 5), 5, -701558691);
    assert Reading(d', a', b', c') == Steps(21, ch, block);
    d' := Md5Gg(d', a', b', c', At(x, i + 10), 9, 38016083);
    assert Reading(c', d', a', b') == Steps(22, ch, block);
    c' := Md5Gg(c', d', a', b', At(x, i + 15), 14, -660478335);
    assert Reading(b', c', d', a') == Steps(23, ch, block);
    b' := Md5Gg(b', c', d', a', At(x, i + 4), 20, -405537848);
    assert Reading(a', b', c', d') == Steps(24, ch, block);
    a' := Md5Gg(a', b', c', d', At(x, i + 9), 5, 568446438);
    assert Reading(d', a', b', c') == Steps(25, ch, block);
    d' := Md5Gg(d', a', b', c', At(x, i + 14), 9, -1019803690);
    assert Reading(c', d', a', b') == Steps(26, ch, block);
    c' := Md5Gg(c', d', a', b', At(x, i + 3), 14, -187363961);
    assert Reading(b', c', d', a') == Steps(27, ch, block);
    b' := Md5Gg(b', c', d', a', At(x, i + 8), 20, 1163531501);
    assert Reading(a', b', c', d') == Steps(28, ch, block);
    a' := Md5Gg(a', b', c', d', At(x, i + 13), 5, -1444681467);
    assert Reading(d', a', b', c') == Steps(29, ch, block);
    d' := Md5Gg(d', a', b', c', At(x, i + 2), 9, -51403784);
    assert Reading(c', d', a', b') == Steps(30, ch, block);
    c' := Md5Gg(c', d', a', b', At(x, i + 7), 14, 1735328473);
    assert Reading(b', c', d', a') == Steps(31, ch, block);
    b' := Md5Gg(b', c', d', a', At(x, i + 12), 20, -1926607734);
    assert Reading(a', b', c', d') == Steps(32, ch, block);
  }

  /** md5hh is the RFC's operation with H, on the unsigned readings. */
  lemma Md5HhIsOp()
    ensures forall a, b, c, d, x, t, s: nat {:trigger Md5Hh(a, b, c, d, x, s, t)} | 0 < s < 32 ::
      ToUint32(Md5Hh(a, b, c, d, x, s, t)) == Op(H(ToUint32(b), ToUint32(c), ToUint32(d)), ToUint32(a), ToUint32(b), ToUint32(x), s, ToUint32(t))
  {
    hide Md5Cmn, Op, BitAnd, BitOr, BitXor, BitNot, And, Or, Xor, Not, ToUint32;
    forall a, b, c, d, x, t, s: nat | 0 < s < 32
      ensures ToUint32(Md5Hh(a, b, c, d, x, s, t)) == Op(H(ToUint32(b), ToUint32(c), ToUint32(d)), ToUint32(a), ToUint32(b), ToUint32(x), s, ToUint32(t))
    {
      Unsigned(b, c);
      Unsigned(BitXor(b, c), d);
      Md5CmnIsOp(BitXor(BitXor(b, c), d), a, b, x, s, t);
    }
  }

  method Round3(a: int, b: int, c: int, d: int, x: seq<int>, i: nat, ghost ch: Chain)
    returns (a': int, b': int, c': int, d': int)
    requires Reading(a, b, c, d) == Steps(32, ch, BlockAt(x, i))
    ensures Reading(a', b', c', d') == Steps(48, ch, BlockAt(x, i))
  {
    hide Md5Hh, Op, F, G, H, I;
    Md5HhIsOp();
    ghost var block := BlockAt(x, i);
    a', b', c', d' := a, b, c, d;
    a' := Md5Hh(a', b', c', d', At(x, i + 5), 4, -378558);
    assert Reading(d', a', b', c') == Steps(33, ch, block);
    d' := Md5Hh(d', a', b', c', At(x, i + 8), 11, -2022574463);
    assert Reading(c', d', a', b') == Steps(34, ch, block);
    c' := Md5Hh(c', d', a', b', At(x, i + 11), 16, 1839030562);
    assert Reading(b', c', d', a') == Steps(35, ch, block);
    b' := Md5Hh(b', c', d', a', At(x, i + 14), 23, -35309556);
    assert Reading(a', b', c', d') == Steps(36, ch, block);
    a' := Md5Hh(a', b', c', d', At(x, i + 1), 4, -1530992060);
    assert Reading(d', a', b', c') == Steps(37, ch, block);
    d' := Md5Hh(d', a', b', c', At(x, i + 4), 11, 1272893353);
    assert Reading(c', d', a', b') == Steps(38, ch, block);
    c' := Md5Hh(c', d', a', b', At(x, i + 7), 16, -155497632);
    assert Reading(b', c', d', a') == Steps(39, ch, block);
    b' := Md5Hh(b', c', d', a', At(x, i + 10), 23, -1094730640);
    assert Reading(a', b', c', d') == Steps(40, ch, block);
    a' := Md5Hh(a', b', c', d', At(x, i + 13), 4, 681279174);
    assert Reading(d', a', b', c') == Steps(41, ch, block);
    d' := Md5Hh(d', a', b', c', At(x, i), 11, -358537222);
    assert Reading(c', d', a', b') == Steps(42, ch, block);
    c' := Md5Hh(c', d', a', b', At(x, i + 3), 16, -722521979);
    assert Reading(b', c', d', a') == Steps(43, ch, block);
    b' := Md5Hh(b', c', d', a', At(x, i + 6), 23, 76029189);
    assert Reading(a', b', c', d') == Steps(44, ch, block);
    a' := Md5Hh(a', b', c', d', At(x, i + 9), 4, -640364487);
    assert Reading(d', a', b', c') == Steps(45, ch, block);
    d' := Md5Hh(d', a', b', c', At(x, i + 12), 11, -421815835);
    assert Reading(c', d', a', b') == Steps(46, ch, block);
    c' := Md5Hh(c', d', a', b', At(x, i + 15), 16, 530742520);
    assert Reading(b', c', d', a') == Steps(47, ch, block);
    b' := Md5Hh(b', c', d', a', At(x, i + 2), 23, -995338651);
    assert Reading(a', b', c', d') == Steps(48, ch, block);
  }

  /** md5ii is the RFC's operation with I, on the unsigned readings. */
  lemma Md5IiIsOp()
    ensures forall a, b, c, d, x, t, s: nat {:trigger Md5Ii(a, b, c, d, x, s, t)} | 0 < s < 32 ::
      ToUint32(Md5Ii(a, b, c, d, x, s, t)) == Op(I(ToUint32(b), ToUint32(c), ToUint32(d)), ToUint32(a), ToUint32(b), ToUint32(x), s, ToUint32(t))
  {
    hide Md5Cmn, Op, BitAnd, BitOr, BitXor, BitNot, And, Or, Xor, Not, ToUint32;
    forall a, b, c, d, x, t, s: nat | 0 < s < 32
      ensures ToUint32(Md5Ii(a, b, c, d, x, s, t)) == Op(I(ToUint32(b), ToUint32(c), ToUint32(d)), ToUint32(a), ToUint32(b), ToUint32(x), s, ToUint32(t))
    {
      UnsignedNot(d);
      Unsigned(b, BitNot(d));
      Unsigned(c, BitOr(b, BitNot(d)));
      Md5CmnIsOp(BitXor(c, BitOr(b, BitNot(d))), a, b, x, s, t);
    }
  }

  method Round4(a: int, b: int, c: int, d: int, x: seq<int>, i: nat, ghost ch: Chain)
    returns (a': int, b': int, c': int, d': int)
    requires Reading(a, b, c, d) == Steps(48, ch, BlockAt(x, i))
    ensures Reading(a', b', c', d') == Steps(64, ch, BlockAt(x, i))
  {
    hide Md5Ii, Op, F, G, H, I;
    Md5IiIsOp();
    ghost var block := BlockAt(x, i);
    a', b', c', d' := a, b, c, d;
    a' := Md5Ii(a', b', c', d', At(x, i), 6, -198630844);
    assert Reading(d', a', b', c') == Steps(49, ch, block);
    d' := Md5Ii(d', a', b', c', At(x, i + 7), 10, 1126891415);
    assert Reading(c', d', a', b') == Steps(50, ch, block);
    c' := Md5Ii(c', d', a', b', At(x, i + 14), 15, -1416354905);
    assert Reading(b', c', d', a') == Steps(51, ch, block);
    b' := Md5Ii(b', c', d', a', At(x, i + 5), 21, -57434055);
    assert Reading(a', b', c', d') == Steps(52, ch, block);
    a' := Md5Ii(a', b', c', d', At(x, i + 12), 6, 1700485571);
    assert Reading(d', a', b', c') == Steps(53, ch, block);
    d' := Md5Ii(d', a', b', c', At(x, i + 3), 10, -1894986606);
    assert Reading(c', d', a', b') == Steps(54, ch, block);
    c' := Md5Ii(c', d', a', b', At(x, i + 10), 15, -1051523);
    assert Reading(b', c', d', a') == Steps(55, ch, block);
    b' := Md5Ii(b', c', d', a', At(x, i + 1), 21, -2054922799);
    assert Reading(a', b', c', d') == Steps(56, ch, block);
    a' := Md5Ii(a', b', c', d', At(x, i + 8), 6, 1873313359);
    assert Reading(d', a', b', c') == Steps(57, ch, block);
    d' := Md5Ii(d', a', b', c', At(x, i + 15), 10, -30611744);
    assert Reading(c', d', a', b') == Steps(58, ch, block);
    c' := Md5Ii(c', d', a', b', At(x, i + 6), 15, -1560198380);
    assert Reading(b', c', d', a') == Steps(59, ch, block);
    b' := Md5Ii(b', c', d', a', At(x, i + 13), 21, 1309151649);
    assert Reading(a', b', c', d') == Steps(60, ch, block);
    a' := Md5Ii(a', b', c', d', At(x, i + 4), 6, -145523070);
    assert Reading(d', a', b', c') == Steps(61, ch, block);
    d' := Md5Ii(d', a', b', c', At(x, i + 11), 10, -1120210379);
    assert Reading(c', d', a', b') == Steps(62, ch, block);
    c' := Md5Ii(c', d', a', b', At(x, i + 2), 15, 718787259);
    assert Reading(b', c', d', a') == Steps(63, ch, block);
    b' := Md5Ii(b', c', d', a', At(x, i + 9), 21, -343485551);
    assert Reading(a', b', c', d') == Steps(64, ch, block);
  }
}
