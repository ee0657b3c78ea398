/** Words, raw strings and padding around the MD5 core: the functions the bundle calls. */
module Md5 {
  import opened Numbers
  import opened Rfc1321
  import opened Md5Core

  /** A UTF-16 code unit; a raw string uses its low byte only. */
  type CodeUnit = n: int | 0 <= n < TWO16

  function Low(s: seq<CodeUnit>): (m: seq<Byte>)
    ensures |m| == |s|
  {
    seq<Byte>(|s|, i requires 0 <= i < |s| => s[i] % 0x100)
  }

  /** x is the word array of the byte string m: whole words, the last one filled with zero bytes. */
  ghost predicate Holds(x: seq<int>, m: seq<Byte>) {
    |x| == (|m| + 3) / 4 && forall k :: 0 <= k < |x| ==> x[k] == ToInt32(WordAt(m, k))
  }

  /** The array after an assignment to x[k]; skipped places are holes, which read as 0. */
  function Stored(x: seq<int>, k: nat, v: int): (y: seq<int>) {
    if k < |x| then x[k := v] else x + seq(k - |x|, _ => 0) + [v]
  }

  lemma StoredAt(x: seq<int>, k: nat, v: int, j: nat)
    ensures At(Stored(x, k, v), j) == if j == k then v else At(x, j)
    ensures |Stored(x, k, v)| == if k < |x| then |x| else k + 1
  {}

  class JsArray {
    var elems: seq<int>

    constructor (s: seq<int>)
      ensures elems == s
    {
      elems := s;
    }

    method Put(k: nat, v: int)
      modifies this
      ensures elems == Stored(old(elems), k, v)
    {
      if k < |elems| {
        elems := elems[k := v];
      } else {
        elems := elems + seq(k - |elems|, _ => 0) + [v];
      }
    }
  }

  // ----- appending one byte to a word array -----

  function Weight(j: nat): (w: nat)
    requires j < 4
    ensures w == Pow2(8 * j)
  {
    Powers();
    if j == 0 then 1 else if j == 1 then 0x100 else if j == 2 then 0x1_0000 else 0x100_0000
  }

  lemma ShiftByte(b: Byte, j: nat)
    requires j < 4
    ensures ToUint32(Shl(b, 8 * j)) == b * Weight(j)
  {
    ShlIs(b, 8 * j);
    Wrap(b);
    Wrap(b * Weight(j));
  }

  lemma OrByte(w: Word, b: Byte, j: nat)
    requires j < 4 && w < Weight(j)
    ensures w + b * Weight(j) < TWO32
    ensures BitOr(ToInt32(w), Shl(b, 8 * j)) == ToInt32(w + b * Weight(j))
  {
    hide Or, Weight, Shl;
    assert w + b * Weight(j) < TWO32 by { WeightBound(w, b, j); }
    ShiftByte(b, j);
    Wrap(w);
    OrDisjoint(b, w, 8 * j);
  }

  lemma WeightBound(w: nat, b: Byte, j: nat)
    requires j < 4 && w < Weight(j)
    ensures w + b * Weight(j) < TWO32
  {}

  lemma LastWord(m: seq<Byte>, b: Byte)
    ensures WordAt(m, |m| / 4) < Weight(|m| % 4)
    ensures WordAt(m + [b], |m| / 4) == WordAt(m, |m| / 4) + b * Weight(|m| % 4)
    ensures forall k: nat :: k != |m| / 4 ==> WordAt(m + [b], k) == WordAt(m, k)
  {}

  /** Reading x, with words past its end as 0, gives the words of m. */
  ghost predicate Reads(x: seq<int>, m: seq<Byte>) {
    forall k: nat :: At(x, k) == ToInt32(WordAt(m, k))
  }

  /** `x[n >> 2] |= b << 8 * (n % 4)` appends the byte b to the n bytes that x holds. */
  lemma AppendByte(x: seq<int>, m: seq<Byte>, b: Byte)
    requires Reads(x, m)
    ensures Reads(Stored(x, |m| / 4, BitOr(At(x, |m| / 4), Shl(b, 8 * (|m| % 4)))), m + [b])
  {
    hide BitOr, Shl, WordAt, ToInt32;
    var n := |m| / 4;
    LastWord(m, b);
    OrByte(WordAt(m, n), b, |m| % 4);
    var v := BitOr(At(x, n), Shl(b, 8 * (|m| % 4)));
    forall k: nat
      ensures At(Stored(x, n, v), k) == ToInt32(WordAt(m + [b], k))
    {
      StoredAt(x, n, v, k);
    }
  }

  lemma LowByte(u: Word)
    ensures BitAnd(u, 0xff) == u % 0x100
  {
    hide And;
    assert Pow2(8) == 0x100 by { Powers(); }
    Wrap(u);
    AndMask(u, 8);
  }

  lemma NoBytes(x: seq<int>)
    requires forall k :: 0 <= k < |x| ==> x[k] == 0
    ensures Reads(x, [])
  {}

  lemma ReadsAll(x: seq<int>, m: seq<Byte>)
    requires |x| == (|m| + 3) / 4
    ensures Reads(x, m) <==> Holds(x, m)
  {
    forall k: nat | k >= |x|
      ensures ToInt32(WordAt(m, k)) == 0
    {
      PastTheEnd(m, k);
    }
  }

  lemma PastTheEnd(m: seq<Byte>, k: nat)
    requires k >= (|m| + 3) / 4
    ensures ToInt32(WordAt(m, k)) == 0
  {}

  lemma BitIndex(i: nat)
    requires i < TWO31
    ensures Sar(i, 5) == i / 32
  {
    hide Sar, ToInt32, ToUint32;
    assert Pow2(5) == 32;
    SmallNumber(i);
    ShiftRightIs(i, 5);
  }

  lemma QuarterOf(n: nat)
    requires n < TWO31
    ensures Sar(n, 2) == n / 4
  {
    hide Sar, ToInt32, ToUint32;
    assert Pow2(2) == 4;
    SmallNumber(n);
    ShiftRightIs(n, 2);
  }

  /** Where the n-th byte goes. */
  lemma BytePlace(n: nat)
    ensures 8 * n / 32 == n / 4 && 8 * n % 32 == 8 * (n % 4)
  {}

  /** From 2^28 characters on the signed shift of a bit index turns negative. */
  method Rstr2Binl(input: seq<CodeUnit>) returns (output: JsArray)
    requires 8 * |input| < TWO31
    ensures fresh(output) && Holds(output.elems, Low(input))
  {
    hide BitAnd, BitOr, Shl, Sar, Reads, Holds;
    output := new JsArray([]);
    QuarterOf(|input|);
    if Sar(|input|, 2) >= 1 {
      output.Put(Sar(|input|, 2) - 1, 0);
    }
    var i := 0;
    while i < |output.elems|
      invariant i <= |output.elems| == |input| / 4
      invariant forall k :: 0 <= k < i ==> output.elems[k] == 0
    {
      output.Put(i, 0);
      i := i + 1;
    }
    ghost var m, n := Low(input), 0;
    var length8 := 8 * |input|;
    NoBytes(output.elems);
    assert m[..0] == [];
    i := 0;
    while i < length8
      invariant i == 8 * n && n <= |input|
      invariant |output.elems| == if (n + 3) / 4 > |input| / 4 then (n + 3) / 4 else |input| / 4
      invariant Reads(output.elems, m[..n])
    {
      BytePlace(n);
      LowByte(input[n]);
      AppendByte(output.elems, m[..n], m[n]);
      assert m[..n] + [m[n]] == m[..n + 1];
      BitIndex(i);
      output.Put(Sar(i, 5), BitOr(At(output.elems, Sar(i, 5)), Shl(BitAnd(input[i / 8], 0xff), i % 32)));
      i, n := i + 8, n + 1;
    }
    assert m[..|m|] == m;
    ReadsAll(output.elems, m);
  }

  // ----- padding in place -----

  function InPlacePadded(x: seq<int>, len: nat): seq<int> {
    var y := Stored(x, len / 32, BitOr(At(x, len / 32), Shl(0x80, len % 32)));
    Stored(y, (len + 64) / 512 * 16 + 14, len)
  }

  /** The words that a loop over whole blocks reads, words past the end being 0. */
  function WholeBlocks(x: seq<int>): (w: seq<Word>)
    ensures |w| == (|x| + 15) / 16 * 16
  {
    seq<Word>((|x| + 15) / 16 * 16, k requires 0 <= k => ToUint32(At(x, k)))
  }

  /** The byte 0x80 and the zero bytes, read as words. */
  lemma PaddedBytes(x: seq<int>, m: seq<Byte>)
    requires Holds(x, m)
    ensures Reads(Stored(x, 8 * |m| / 32, BitOr(At(x, 8 * |m| / 32), Shl(0x80, 8 * |m| % 32))), PadBits(m))
  {
    hide BitOr, Shl, ToInt32;
    BytePlace(|m|);
    ReadsAll(x, m);
    forall k: nat
      ensures WordAt(PadBits(m), k) == WordAt(m + [0x80], k)
    {
      ZeroBytes(m + [0x80], PadBits(m), k);
    }
    AppendByte(x, m, 0x80);
  }

  lemma ZeroBytes(m: seq<Byte>, p: seq<Byte>, k: nat)
    requires m <= p && forall i :: |m| <= i < |p| ==> p[i] == 0
    ensures WordAt(p, k) == WordAt(m, k)
  {
    assert forall i: nat :: ByteAt(p, i) == ByteAt(m, i);
  }

  /** The padded bytes fill all but the last two words of (n + 8) / 64 + 1 blocks. */
  lemma PadBitsSize(m: seq<Byte>)
    ensures |PadBits(m)| == 64 * ((8 * |m| + 64) / 512) + 56
    ensures (8 * |m| + 64) / 512 == (|m| + 8) / 64
  {
    var q, t := |m| / 64, |m| % 64;
    assert |m| == 64 * q + t;
    if t < 56 {
      assert (|m| + 8) / 64 == q;
    } else {
      assert (|m| + 8) / 64 == q + 1;
    }
  }

  /**
   * The length word lands two words before the end of the last block, which makes the array one word
   * short of whole blocks, and the loop by sixteen words visits (len + 64) / 512 + 1 of them: as many
   * as the padded message of the RFC has.
   */
  lemma PaddedSize(x: seq<int>, m: seq<Byte>)
    requires Holds(x, m)
    ensures var len := 8 * |m|;
      var size := |InPlacePadded(x, len)|;
      && size == 16 * ((len + 64) / 512 + 1) - 1
      && (size + 15) / 16 == (len + 64) / 512 + 1 == |PaddedWords(m)| / 16
  {
    hide BitOr, Shl, ToInt32, PadBits, WordAt, WordsOf;
    var len, last := 8 * |m|, (8 * |m| + 64) / 512 * 16 + 14;
    var first := BitOr(At(x, len / 32), Shl(0x80, len % 32));
    PadBitsSize(m);
    StoredAt(x, len / 32, first, 0);
    StoredAt(Stored(x, len / 32, first), last, len, 0);
  }

  /** Sections 3.1 and 3.2: the two assignments of binlMD5 pad the message. */
  lemma PaddingIsRfc(x: seq<int>, m: seq<Byte>)
    requires Holds(x, m) && 8 * |m| < TWO31
    ensures WholeBlocks(InPlacePadded(x, 8 * |m|)) == PaddedWords(m)
  {
    hide BitOr, Shl, ToInt32, PadBits, WordAt;
    var len, last := 8 * |m|, (8 * |m| + 64) / 512 * 16 + 14;
    var first := BitOr(At(x, len / 32), Shl(0x80, len % 32));
    var y := Stored(x, len / 32, first);
    PaddedBytes(x, m);
    PadBitsSize(m);
    StoredAt(x, len / 32, first, 0);
    assert |y| <= last;
    StoredAt(y, last, len, 0);
    var z := InPlacePadded(x, len);
    assert |z| == last + 1 && |PaddedWords(m)| == last + 2 == |WholeBlocks(z)|;
    forall k | 0 <= k < last + 2
      ensures WholeBlocks(z)[k] == PaddedWords(m)[k]
    {
      StoredAt(y, last, len, k);
      if k < last {
        Wrap(WordAt(PadBits(m), k));
      }
    }
  }

  /** The digest words of a word array after its padding. */
  ghost function ChainOf(x: seq<int>): Chain {
    Blocks((|x| + 15) / 16, WholeBlocks(x))
  }

  predicate IsInt32(v: int) {
    -TWO31 <= v < TWO31
  }

  lemma WordIndices(len: nat)
    requires len < TWO31
    ensures Sar(len, 5) == len / 32 && Shl(Shr(len + 64, 9), 4) == (len + 64) / 512 * 16
  {
    hide Shl, Sar, Shr, ToInt32, ToUint32;
    assert Pow2(9) == 512 && Pow2(4) == 16;
    BitIndex(len);
    SmallNumber(len);
    ShiftRightIs(len + 64, 9);
    ShlSmall((len + 64) / 512, 4, 16);
  }

  lemma SmallNumber(n: nat)
    requires n < TWO31
    ensures ToInt32(n) == n && ToUint32(n + 64) == n + 64
  {}

  lemma ShlSmall(b: nat, s: nat, p: nat)
    requires p == Pow2(s) && b * p < TWO31
    ensures Shl(b, s) == b * p
  {
    hide Shl, Pow2;
    MulMono(1, p, b);
    Wrap(b);
    ShlIs(b, s);
    ShlRange(b, s);
    SignedReading(Shl(b, s), b * p);
  }

  lemma SignedReading(v: int, n: nat)
    requires IsInt32(v) && n < TWO31 && ToUint32(v) == n % TWO32
    ensures v == n
  {}

  lemma ShlRange(x: int, s: nat)
    ensures IsInt32(Shl(x, s))
  {}

  lemma SafeAddRange(x: int, y: int)
    ensures IsInt32(SafeAdd(x, y))
  {}

  // ----- words back to bytes -----

  function Unpacked(x: seq<int>): (s: seq<Byte>)
    ensures |s| == 4 * |x|
  {
    seq<Byte>(4 * |x|, i requires 0 <= i < 4 * |x| => BytesOf(ToUint32(x[i / 4]))[i % 4])
  }

  lemma QuotientByte(u: Word, j: nat)
    requires j < 4
    ensures u / Weight(j) % 0x100 == BytesOf(u)[j]
  {}

  lemma ExtractByte(v: int, j: nat)
    requires j < 4
    ensures BitAnd(Shr(v, 8 * j), 0xff) == BytesOf(ToUint32(v))[j]
  {
    hide BitAnd, Shr, BytesOf, And;
    ShiftRightIs(v, 8 * j);
    QuotientByte(ToUint32(v), j);
    LowByte(Shr(v, 8 * j));
  }

  method Binl2Rstr(input: JsArray) returns (output: seq<CodeUnit>)
    requires 32 * |input.elems| < TWO31
    ensures output == Unpacked(input.elems)
  {
    hide BitAnd, Shr, Sar, BytesOf;
    output := [];
    var length32 := 32 * |input.elems|;
    var i := 0;
    ghost var n := 0;
    while i < length32
      invariant i == 8 * n && n <= 4 * |input.elems|
      invariant output == Unpacked(input.elems)[..n]
    {
      BytePlace(n);
      ExtractByte(input.elems[n / 4], n % 4);
      assert Unpacked(input.elems)[n] == BytesOf(ToUint32(input.elems[n / 4]))[n % 4];
      BitIndex(i);
      output := output + [BitAnd(Shr(input.elems[Sar(i, 5)], i % 32), 0xff)];
      i, n := i + 8, n + 1;
    }
  }

  lemma BytesOfWordAt(m: seq<Byte>, k: nat, j: nat)
    requires j < 4
    ensures BytesOf(WordAt(m, k))[j] == ByteAt(m, 4 * k + j)
  {
    SplitBytes(ByteAt(m, 4 * k), ByteAt(m, 4 * k + 1), ByteAt(m, 4 * k + 2), ByteAt(m, 4 * k + 3));
  }

  lemma SplitBytes(b0: Byte, b1: Byte, b2: Byte, b3: Byte)
    ensures BytesOf(b0 + b1 * 0x100 + b2 * 0x1_0000 + b3 * 0x100_0000) == [b0, b1, b2, b3]
  {
    var w := b0 + b1 * 0x100 + b2 * 0x1_0000 + b3 * 0x100_0000;
    assert w / 0x100 == b1 + b2 * 0x100 + b3 * 0x1_0000;
    assert w / 0x1_0000 == b2 + b3 * 0x100;
    assert w / 0x100_0000 == b3;
  }

  lemma JoinBytes(w: Word)
    ensures var b: seq<int> := BytesOf(w); b[0] + b[1] * 0x100 + b[2] * 0x1_0000 + b[3] * 0x100_0000 == w
  {
    Halve(w, 0x100);
    Halve(w, 0x1_0000);
  }

  lemma Halve(w: Word, p: nat)
    requires p == 0x100 || p == 0x1_0000
    ensures w / p == w / (p * 0x100) * 0x100 + w / p % 0x100
  {}

  lemma WordAtBytesOf(m: seq<Byte>, k: nat, w: Word)
    requires 4 * k + 4 <= |m| && m[4 * k..4 * k + 4] == BytesOf(w)
    ensures WordAt(m, k) == w
  {
    var b := m[4 * k..4 * k + 4];
    hide BytesOf;
    assert forall j :: 0 <= j < 4 ==> ByteAt(m, 4 * k + j) == b[j];
    JoinBytes(w);
  }

  /** Unpacking the packed bytes gives them back, filled with zeros to whole words. */
  lemma UnpackInvertsPack(x: seq<int>, m: seq<Byte>)
    requires Holds(x, m)
    ensures Unpacked(x) == m + Zeros((|m| + 3) / 4 * 4 - |m|)
  {
    hide BytesOf, WordAt;
    forall i | 0 <= i < 4 * |x|
      ensures Unpacked(x)[i] == ByteAt(m, i)
    {
      Wrap(WordAt(m, i / 4));
      BytesOfWordAt(m, i / 4, i % 4);
    }
  }

  /** Packing the unpacked bytes of 32-bit words gives the words back. */
  lemma PackInvertsUnpack(x: seq<int>, y: seq<int>)
    requires forall k :: 0 <= k < |x| ==> IsInt32(x[k])
    requires Holds(y, Unpacked(x))
    ensures y == x
  {
    hide BytesOf, WordAt;
    var s := Unpacked(x);
    forall k | 0 <= k < |x|
      ensures y[k] == x[k]
    {
      var w := ToUint32(x[k]);
      assert forall j :: 0 <= j < 4 ==> s[4 * k + j] == BytesOf(w)[j];
      assert s[4 * k..4 * k + 4] == BytesOf(w);
      WordAtBytesOf(s, k, w);
      SignedOfUnsigned(x[k]);
    }
  }

  lemma SignedOfUnsigned(v: int)
    requires IsInt32(v)
    ensures ToInt32(ToUint32(v)) == v
  {}

  /** The four words that binlMD5 returns hold the sixteen bytes of the digest. */
  lemma DigestWords(x: seq<int>, m: seq<Byte>)
    requires |x| == 4 && IsInt32(x[0]) && IsInt32(x[1]) && IsInt32(x[2]) && IsInt32(x[3])
    requires Reading(x[0], x[1], x[2], x[3]) == Final(m)
    ensures Unpacked(x) == Digest(m) && Holds(x, Digest(m))
  {
    hide BytesOf, WordAt, ToInt32;
    var d := Digest(m);
    forall k | 0 <= k < 4
      ensures d[4 * k..4 * k + 4] == BytesOf(ToUint32(x[k]))
    {}
    forall i | 0 <= i < 16
      ensures Unpacked(x)[i] == d[i]
    {
      assert d[4 * (i / 4)..4 * (i / 4) + 4][i % 4] == d[i];
    }
    forall k | 0 <= k < 4
      ensures x[k] == ToInt32(WordAt(d, k))
    {
      WordAtBytesOf(d, k, ToUint32(x[k]));
      SignedOfUnsigned(x[k]);
    }
  }

  // ----- the hash -----

  lemma AddIsSum(a: int, b: int, c: int, d: int, olda: int, oldb: int, oldc: int, oldd: int)
    ensures Reading(SafeAdd(a, olda), SafeAdd(b, oldb), SafeAdd(c, oldc), SafeAdd(d, oldd))
         == Add(Reading(a, b, c, d), Reading(olda, oldb, oldc, oldd))
    ensures IsInt32(SafeAdd(a, olda)) && IsInt32(SafeAdd(b, oldb)) && IsInt32(SafeAdd(c, oldc)) && IsInt32(SafeAdd(d, oldd))
  {
    hide SafeAdd, ToUint32, IsInt32;
    SafeAddIsSum(a, olda);
    SafeAddIsSum(b, oldb);
    SafeAddIsSum(c, oldc);
    SafeAddIsSum(d, oldd);
    SafeAddRange(a, olda);
    SafeAddRange(b, oldb);
    SafeAddRange(c, oldc);
    SafeAddRange(d, oldd);
  }

  lemma InitialBuffer()
    ensures Reading(1732584193, -271733879, -1732584194, 271733878) == INITIAL
    ensures IsInt32(1732584193) && IsInt32(-271733879) && IsInt32(-1732584194) && IsInt32(271733878)
  {}

  /** Whatever bytes the array held, their digest is what the four words hold. */
  lemma HashOfBytes(x: seq<int>, len: nat, hash: seq<int>)
    requires len < TWO31 && |hash| == 4 && forall k :: 0 <= k < 4 ==> IsInt32(hash[k])
    requires Reading(hash[0], hash[1], hash[2], hash[3]) == ChainOf(InPlacePadded(x, len))
    ensures forall m | Holds(x, m) && len == 8 * |m| :: Unpacked(hash) == Digest(m) && Holds(hash, Digest(m))
  {
    hide Reading, ToUint32, Holds, Unpacked, InPlacePadded, ChainOf, Blocks, Digest, Final;
    forall m | Holds(x, m) && len == 8 * |m|
      ensures Unpacked(hash) == Digest(m) && Holds(hash, Digest(m))
    {
      PaddingIsRfc(x, m);
      FinalOfPadded(InPlacePadded(x, len), m);
      DigestWords(hash, m);
    }
  }

  lemma FinalOfPadded(y: seq<int>, m: seq<Byte>)
    requires WholeBlocks(y) == PaddedWords(m)
    ensures ChainOf(y) == Final(m)
  {
    hide Blocks;
  }

  method BinlMd5(x: JsArray, len: nat) returns (digest: JsArray)
    requires len < TWO31
    modifies x
    ensures x.elems == InPlacePadded(old(x.elems), len)
    ensures fresh(digest) && |digest.elems| == 4
    ensures forall k :: 0 <= k < 4 ==> IsInt32(digest.elems[k])
    ensures Reading(digest.elems[0], digest.elems[1], digest.elems[2], digest.elems[3]) == ChainOf(x.elems)
    ensures forall m | Holds(old(x.elems), m) && len == 8 * |m| ::
      Unpacked(digest.elems) == Digest(m) && Holds(digest.elems, Digest(m))
  {
    hide BitOr, Shl, SafeAdd, Sar, Shr, ToInt32, ToUint32, Step, Add, Reading, INITIAL, Holds, Unpacked;
    WordIndices(len);
    x.Put(Sar(len, 5), BitOr(At(x.elems, Sar(len, 5)), Shl(0x80, len % 32)));
    x.Put(Shl(Shr(len + 64, 9), 4) + 14, len);
    ghost var padded := x.elems;
    assert padded == InPlacePadded(old(x.elems), len);
    ghost var words := WholeBlocks(x.elems);
    var a, b, c, d := 1732584193, -271733879, -1732584194, 271733878;
    InitialBuffer();
    var i := 0;
    while i < |x.elems|
      invariant i % 16 == 0 && i <= |words| && x.elems == padded
      invariant Reading(a, b, c, d) == Blocks(i / 16, words)
      invariant IsInt32(a) && IsInt32(b) && IsInt32(c) && IsInt32(d)
    {
      var olda, oldb, oldc, oldd := a, b, c, d;
      ghost var ch := Blocks(i / 16, words);
      assert BlockAt(x.elems, i) == words[i..i + 16];
      a, b, c, d := Round1(a, b, c, d, x.elems, i, ch);
      a, b, c, d := Round2(a, b, c, d, x.elems, i, ch);
      a, b, c, d := Round3(a, b, c, d, x.elems, i, ch);
      a, b, c, d := Round4(a, b, c, d, x.elems, i, ch);
      AddIsSum(a, b, c, d, olda, oldb, oldc, oldd);
      a := SafeAdd(a, olda);
      b := SafeAdd(b, oldb);
      c := SafeAdd(c, oldc);
      d := SafeAdd(d, oldd);
      i := i + 16;
    }
    digest := new JsArray([a, b, c, d]);
    HashOfBytes(old(x.elems), len, digest.elems);
  }

  method RstrMd5(s: seq<CodeUnit>) returns (r: seq<CodeUnit>)
    requires 8 * |s| < TWO31
    ensures r == Digest(Low(s))
  {
    var x := Rstr2Binl(s);
    var hash := BinlMd5(x, 8 * |s|);
    r := Binl2Rstr(hash);
  }
}
