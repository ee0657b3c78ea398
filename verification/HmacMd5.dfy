/** HMAC-MD5 over raw strings. */
module HmacMd5 {
  import opened Numbers
  import opened Rfc1321
  import opened Rfc2104
  import opened Md5Core
  import opened Md5

  lemma KeyWords(bkey: seq<int>, k0: seq<Byte>, short: seq<Byte>, i: nat)
    requires Holds(bkey, short) && |short| <= 64 && k0 == short + Zeros(64 - |short|) && i < 16
    ensures At(bkey, i) == ToInt32(WordAt(k0, i))
  {
    ZeroBytes(short, k0, i);
    if i >= |bkey| {
      PastTheEnd(short, i);
    }
  }

  function Doubled(a: nat, k: nat): nat {
    if k == 0 then a else 2 * Doubled(a, k - 1)
  }

  lemma {:induction false} XorSplit(a: nat, b: nat, c: nat, d: nat, k: nat)
    requires b < Pow2(k) && d < Pow2(k)
    ensures Xor(Doubled(a, k) + b, Doubled(c, k) + d) == Doubled(Xor(a, c), k) + Xor(b, d)
  {
    if k == 0 {
    } else {
      XorSplit(a, b / 2, c, d / 2, k - 1);
      XorDouble(Doubled(a, k - 1), Doubled(c, k - 1), Doubled(Xor(a, c), k - 1), b, d);
    }
  }

  lemma DoubledEight(n: nat)
    ensures Doubled(n, 8) == n * 0x100
  {
    assert Doubled(n, 1) == n * 2;
    assert Doubled(n, 2) == n * 4;
    assert Doubled(n, 3) == n * 8;
    assert Doubled(n, 4) == n * 16;
    assert Doubled(n, 5) == n * 32;
    assert Doubled(n, 6) == n * 64;
    assert Doubled(n, 7) == n * 128;
  }

  lemma ByteSplit(a: nat, b: Byte, c: nat, d: Byte)
    ensures Xor(a * 0x100 + b, c * 0x100 + d) == Xor(a, c) * 0x100 + Xor(b, d)
  {
    assert Pow2(8) == 0x100 by { Powers(); }
    DoubledEight(a);
    DoubledEight(c);
    DoubledEight(Xor(a, c));
    hide Xor, Doubled;
    XorSplit(a, b, c, d, 8);
  }

  lemma XorDouble(s: nat, t: nat, u: nat, b: nat, d: nat)
    requires Xor(s + b / 2, t + d / 2) == u + Xor(b / 2, d / 2)
    ensures Xor(2 * s + b, 2 * t + d) == 2 * u + Xor(b, d)
  {
    hide Xor;
    XorHalves(2 * s + b, 2 * t + d);
    XorHalves(b, d);
    HalfOf(s, b);
    HalfOf(t, d);
  }

  lemma HalfOf(t: nat, b: nat)
    ensures (2 * t + b) / 2 == t + b / 2 && (2 * t + b) % 2 == b % 2
  {}

  lemma XorHalves(x: nat, y: nat)
    ensures Xor(x, y) == 2 * Xor(x / 2, y / 2) + (x % 2 + y % 2) % 2
  {}

  lemma XorBytes(b0: Byte, b1: Byte, b2: Byte, b3: Byte, pad: Byte)
    ensures Xor(b0 + b1 * 0x100 + b2 * 0x1_0000 + b3 * 0x100_0000, pad * 0x101_0101)
         == Xor(b0, pad) + Xor(b1, pad) * 0x100 + Xor(b2, pad) * 0x1_0000 + Xor(b3, pad) * 0x100_0000
  {
    hide Xor, Pow2;
    var c2: int, p2: int := b3 * 0x100 + b2, pad * 0x101;
    var c1, p1 := c2 * 0x100 + b1, p2 * 0x100 + pad;
    ByteSplit(b3, b2, pad, pad);
    ByteSplit(c2, b1, p2, pad);
    ByteSplit(c1, b0, p1, pad);
  }

  lemma XorWord(m: seq<Byte>, i: nat, pad: Byte)
    requires 4 * i + 4 <= |m|
    ensures Xor(WordAt(m, i), pad * 0x101_0101) == WordAt(XorAll(m, pad), i)
  {
    hide Xor;
    XorBytes(m[4 * i], m[4 * i + 1], m[4 * i + 2], m[4 * i + 3], pad);
  }

  lemma PadWord(m: seq<Byte>, i: nat, pad: Byte)
    requires 4 * i + 4 <= |m|
    ensures BitXor(ToInt32(WordAt(m, i)), pad * 0x101_0101) == ToInt32(WordAt(XorAll(m, pad), i))
  {
    hide WordAt, Xor, XorAll, ToInt32;
    XorWord(m, i, pad);
    Wrap(WordAt(m, i));
    Wrap(pad * 0x101_0101);
  }

  lemma WordOfConcat(m: seq<Byte>, n: seq<Byte>, k: nat)
    ensures 4 * k + 4 <= |m| ==> WordAt(m + n, k) == WordAt(m, k)
    ensures |m| % 4 == 0 && 4 * k >= |m| ==> WordAt(m + n, k) == WordAt(n, k - |m| / 4)
  {
    if 4 * k + 4 <= |m| {
      forall i | 4 * k <= i < 4 * k + 4
        ensures ByteAt(m + n, i) == ByteAt(m, i)
      {}
    } else if |m| % 4 == 0 && 4 * k >= |m| {
      forall i | 4 * k <= i
        ensures ByteAt(m + n, i) == ByteAt(n, i - |m|)
      {}
    }
  }

  /** Whole words first: the two halves may be packed separately. */
  lemma HoldsConcat(x: seq<int>, m: seq<Byte>, y: seq<int>, n: seq<Byte>)
    requires Holds(x, m) && Holds(y, n) && |m| % 4 == 0
    ensures Holds(x + y, m + n)
  {
    hide ToInt32, WordAt;
    forall k | 0 <= k < |x| + |y|
      ensures (x + y)[k] == ToInt32(WordAt(m + n, k))
    {
      WordOfConcat(m, n, k);
    }
  }

  /** The first n words of the array are those of the padded key XORed with the pad byte. */
  ghost predicate PadSoFar(e: seq<int>, k0: seq<Byte>, pad: Byte, n: nat) {
    |e| == 16 && |k0| == 64 && n <= 16 && forall k :: 0 <= k < n ==> e[k] == ToInt32(WordAt(XorAll(k0, pad), k))
  }

  lemma PadStart(e: seq<int>, k0: seq<Byte>, pad: Byte)
    requires |e| == 16 && |k0| == 64
    ensures PadSoFar(e, k0, pad, 0)
  {}

  lemma PadNext(e: seq<int>, k0: seq<Byte>, pad: Byte, n: nat)
    requires PadSoFar(e, k0, pad, n) && n < 16
    ensures PadSoFar(Stored(e, n, BitXor(ToInt32(WordAt(k0, n)), pad * 0x101_0101)), k0, pad, n + 1)
  {
    PadWord(k0, n, pad);
  }

  lemma PadDone(e: seq<int>, k0: seq<Byte>, pad: Byte)
    requires PadSoFar(e, k0, pad, 16)
    ensures Holds(e, XorAll(k0, pad))
  {}

  lemma HoldsLength(x: seq<int>, m: seq<Byte>)
    requires Holds(x, m)
    ensures |x| > 16 <==> |m| > 64
  {}

  method RstrHmacMd5(key: seq<CodeUnit>, data: seq<CodeUnit>) returns (r: seq<CodeUnit>)
    requires 8 * |key| < TWO31 && 512 + 8 * |data| < TWO31
    ensures r == Hmac(Low(key), Low(data))
  {
    hide BitXor, ToInt32, WordAt, XorAll, Digest, Unpacked, ChainOf, Reading, InPlacePadded, At, ToUint32, Zeros, Holds, PadSoFar, IsInt32;
    var bkey := Rstr2Binl(key);
    HoldsLength(bkey.elems, Low(key));
    if |bkey.elems| > 16 {
      bkey := BinlMd5(bkey, 8 * |key|);
    }
    ghost var short := if |key| > 64 then Digest(Low(key)) else Low(key);
    ghost var k0 := BlockKey(Low(key));
    assert Holds(bkey.elems, short);
    var ipad := new JsArray([]);
    var opad := new JsArray([]);
    opad.Put(15, 0);
    ipad.Put(15, 0);
    PadStart(ipad.elems, k0, 0x36);
    PadStart(opad.elems, k0, 0x5c);
    var i := 0;
    while i < 16
      invariant i <= 16 && Holds(bkey.elems, short)
      invariant PadSoFar(ipad.elems, k0, 0x36, i) && PadSoFar(opad.elems, k0, 0x5c, i)
    {
      KeyWords(bkey.elems, k0, short, i);
      PadNext(ipad.elems, k0, 0x36, i);
      PadNext(opad.elems, k0, 0x5c, i);
      ipad.Put(i, BitXor(At(bkey.elems, i), 0x3636_3636));
      opad.Put(i, BitXor(At(bkey.elems, i), 0x5c5c_5c5c));
      i := i + 1;
    }
    PadDone(ipad.elems, k0, 0x36);
    PadDone(opad.elems, k0, 0x5c);
    var text := Rstr2Binl(data);
    HoldsConcat(ipad.elems, XorAll(k0, 0x36), text.elems, Low(data));
    var inner := new JsArray(ipad.elems + text.elems);
    var hash := BinlMd5(inner, 512 + 8 * |data|);
    HoldsConcat(opad.elems, XorAll(k0, 0x5c), hash.elems, Digest(XorAll(k0, 0x36) + Low(data)));
    var outer := new JsArray(opad.elems + hash.elems);
    var final := BinlMd5(outer, 512 + 128);
    r := Binl2Rstr(final);
  }
}
