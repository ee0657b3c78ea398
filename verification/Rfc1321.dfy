/** The MD5 message digest as RFC 1321 sections 3.1 to 3.5 state it, over bytes and unsigned words. */
module Rfc1321 {
  import opened Numbers

  /** The four-word buffer A, B, C, D. */
  datatype Chain = Chain(a: Word, b: Word, c: Word, d: Word)

  const INITIAL := Chain(0x67452301, 0xefcdab89, 0x98badcfe, 0x10325476)

  // Section 3.4: the auxiliary functions.

  function F(x: Word, y: Word, z: Word): nat { Or(And(x, y), And(Not(x), z)) }

  function G(x: Word, y: Word, z: Word): nat { Or(And(x, z), And(y, Not(z))) }

  function H(x: Word, y: Word, z: Word): nat { Xor(Xor(x, y), z) }

  function I(x: Word, y: Word, z: Word): nat { Xor(y, Or(x, Not(z))) }

  /** b + ((a + f + x + t) <<< s), where + adds words modulo 2^32. */
  function Op(f: nat, a: Word, b: Word, x: Word, s: nat, t: Word): Word
    requires s < 32
  {
    (b + RotateLeft((a + f + x + t) % TWO32, s)) % TWO32
  }

  /** Which of the sixteen block words step i reads. */
  function Index(i: nat): (k: nat)
    requires i < 64
    ensures k < 16
  {
    if i < 16 then i else if i < 32 then (5 * i + 1) % 16 else if i < 48 then (3 * i + 5) % 16 else 7 * i % 16
  }

  function Shift(i: nat): (s: nat)
    requires i < 64
    ensures s < 32
  {
    if i < 16 then (if i % 4 == 0 then 7 else if i % 4 == 1 then 12 else if i % 4 == 2 then 17 else 22)
    else if i < 32 then (if i % 4 == 0 then 5 else if i % 4 == 1 then 9 else if i % 4 == 2 then 14 else 20)
    else if i < 48 then (if i % 4 == 0 then 4 else if i % 4 == 1 then 11 else if i % 4 == 2 then 16 else 23)
    else (if i % 4 == 0 then 6 else if i % 4 == 1 then 10 else if i % 4 == 2 then 15 else 21)
  }

  /** The table T: the integer part of 4294967296 * abs(sin(i + 1)), sixteen entries a function. */
  function Sine(i: nat): Word
    requires i < 64
  {
    if i < 16 then Sine1(i) else if i < 32 then Sine2(i - 16) else if i < 48 then Sine3(i - 32) else Sine4(i - 48)
  }

  function Sine1(i: nat): Word
    requires i < 16
  {
    match i
    case 0 => 0xd76aa478 case 1 => 0xe8c7b756 case 2 => 0x242070db case 3 => 0xc1bdceee
    case 4 => 0xf57c0faf case 5 => 0x4787c62a case 6 => 0xa8304613 case 7 => 0xfd469501
    case 8 => 0x698098d8 case 9 => 0x8b44f7af case 10 => 0xffff5bb1 case 11 => 0x895cd7be
    case 12 => 0x6b901122 case 13 => 0xfd987193 case 14 => 0xa679438e case 15 => 0x49b40821
  }

  function Sine2(i: nat): Word
    requires i < 16
  {
    match i
    case 0 => 0xf61e2562 case 1 => 0xc040b340 case 2 => 0x265e5a51 case 3 => 0xe9b6c7aa
    case 4 => 0xd62f105d case 5 => 0x02441453 case 6 => 0xd8a1e681 case 7 => 0xe7d3fbc8
    case 8 => 0x21e1cde6 case 9 => 0xc33707d6 case 10 => 0xf4d50d87 case 11 => 0x455a14ed
    case 12 => 0xa9e3e905 case 13 => 0xfcefa3f8 case 14 => 0x676f02d9 case 15 => 0x8d2a4c8a
  }

  function Sine3(i: nat): Word
    requires i < 16
  {
    match i
    case 0 => 0xfffa3942 case 1 => 0x8771f681 case 2 => 0x6d9d6122 case 3 => 0xfde5380c
    case 4 => 0xa4beea44 case 5 => 0x4bdecfa9 case 6 => 0xf6bb4b60 case 7 => 0xbebfbc70
    case 8 => 0x289b7ec6 case 9 => 0xeaa127fa case 10 => 0xd4ef3085 case 11 => 0x04881d05
    case 12 => 0xd9d4d039 case 13 => 0xe6db99e5 case 14 => 0x1fa27cf8 case 15 => 0xc4ac5665
  }

  function Sine4(i: nat): Word
    requires i < 16
  {
    match i
    case 0 => 0xf4292244 case 1 => 0x432aff97 case 2 => 0xab9423a7 case 3 => 0xfc93a039
    case 4 => 0x655b59c3 case 5 => 0x8f0ccc92 case 6 => 0xffeff47d case 7 => 0x85845dd1
    case 8 => 0x6fa87e4f case 9 => 0xfe2ce6e0 case 10 => 0xa3014314 case 11 => 0x4e0811a1
    case 12 => 0xf7537e82 case 13 => 0xbd3af235 case 14 => 0x2ad7d2bb case 15 => 0xeb86d391
  }

  function Mix(i: nat, x: Word, y: Word, z: Word): nat {
    if i < 16 then F(x, y, z) else if i < 32 then G(x, y, z) else if i < 48 then H(x, y, z) else I(x, y, z)
  }

  /** One operation, after which the buffer is read one place to the right. */
  function Step(i: nat, ch: Chain, block: seq<Word>): Chain
    requires i < 64 && |block| == 16
  {
    Chain(ch.d, Op(Mix(i, ch.b, ch.c, ch.d), ch.a, ch.b, block[Index(i)], Shift(i), Sine(i)), ch.b, ch.c)
  }

  /** The buffer after the first n operations. */
  function Steps(n: nat, ch: Chain, block: seq<Word>): Chain
    requires n <= 64 && |block| == 16
  {
    if n == 0 then ch else Step(n - 1, Steps(n - 1, ch, block), block)
  }

  function Add(x: Chain, y: Chain): Chain {
    Chain((x.a + y.a) % TWO32, (x.b + y.b) % TWO32, (x.c + y.c) % TWO32, (x.d + y.d) % TWO32)
  }

  /** The buffer after the first n blocks of sixteen words. */
  function Blocks(n: nat, words: seq<Word>): Chain
    requires 16 * n <= |words|
  {
    if n == 0 then INITIAL
    else
      var ch := Blocks(n - 1, words);
      Add(Steps(64, ch, words[16 * (n - 1)..16 * n]), ch)
  }

  // Sections 3.1 and 3.2: padding.

  function Zeros(n: nat): (z: seq<Byte>)
    ensures |z| == n && forall i :: 0 <= i < n ==> z[i] == 0
  {
    seq(n, _ => 0)
  }

  lemma ZeroCount(q: nat, t: nat)
    requires t < 64
    ensures (64 * q + t + 1 + (119 - t) % 64) % 64 == 56
  {
    assert (119 - t) % 64 == if t < 56 then 55 - t else 119 - t;
  }

  /** A single 1 bit, then 0 bits up to 448 modulo 512. */
  function PadBits(m: seq<Byte>): (p: seq<Byte>)
    ensures |p| % 64 == 56
  {
    var zeros := (119 - |m| % 64) % 64;
    ZeroCount(|m| / 64, |m| % 64);
    m + [0x80] + Zeros(zeros)
  }

  function ByteAt(m: seq<Byte>, i: nat): Byte {
    if i < |m| then m[i] else 0
  }

  /** Four bytes, low-order byte first; bytes past the end count as 0. */
  function WordAt(m: seq<Byte>, k: nat): Word {
    ByteAt(m, 4 * k) + ByteAt(m, 4 * k + 1) * 0x100 + ByteAt(m, 4 * k + 2) * 0x1_0000 + ByteAt(m, 4 * k + 3) * 0x100_0000
  }

  function WordsOf(m: seq<Byte>): (w: seq<Word>)
    ensures |w| == (|m| + 3) / 4
  {
    seq((|m| + 3) / 4, k requires 0 <= k => WordAt(m, k))
  }

  lemma WholeWords(q: nat)
    ensures (64 * q + 56 + 3) / 4 == 16 * q + 14 && (16 * q + 16) % 16 == 0
  {}

  /** The padded bits as words, then the 64-bit length in bits, low-order word first. */
  function PaddedWords(m: seq<Byte>): (w: seq<Word>)
    ensures |w| % 16 == 0
  {
    WholeWords(|PadBits(m)| / 64);
    WordsOf(PadBits(m)) + [8 * |m| % TWO32, 8 * |m| / TWO32 % TWO32]
  }

  function BytesOf(w: Word): (b: seq<Byte>)
    ensures |b| == 4
  {
    [w % 0x100, w / 0x100 % 0x100, w / 0x1_0000 % 0x100, w / 0x100_0000]
  }

  function Final(m: seq<Byte>): Chain {
    Blocks(|PaddedWords(m)| / 16, PaddedWords(m))
  }

  /** Section 3.5: the low-order byte of A first, the high-order byte of D last. */
  function Digest(m: seq<Byte>): (d: seq<Byte>)
    ensures |d| == 16
  {
    var f := Final(m);
    BytesOf(f.a) + BytesOf(f.b) + BytesOf(f.c) + BytesOf(f.d)
  }
}
