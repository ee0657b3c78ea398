/** Raw strings as hexadecimal digits. */
module Hex {
  import opened Numbers
  import opened Md5

  const HEX_TAB: seq<CodeUnit> := [48, 49, 50, 51, 52, 53, 54, 55, 56, 57, 97, 98, 99, 100, 101, 102]

  function HexDigit(v: int): CodeUnit
    requires 0 <= v < 16
  {
    HEX_TAB[v]
  }

  function HexDigits(m: seq<Byte>): (h: seq<CodeUnit>)
    ensures |h| == 2 * |m|
  {
    if m == [] then [] else HexDigits(m[..|m| - 1]) + [HexDigit(m[|m| - 1] / 16), HexDigit(m[|m| - 1] % 16)]
  }

  method Rstr2Hex(input: seq<CodeUnit>) returns (output: seq<CodeUnit>)
    ensures output == HexDigits(Low(input))
  {
    output := [];
    var i := 0;
    while i < |input|
      invariant i <= |input|
      invariant output == HexDigits(Low(input[..i]))
    {
      var x := input[i];
      Nibbles(x);
      assert Low(input[..i + 1]) == Low(input[..i]) + [x % 0x100];
      output := output + [HexDigit(BitAnd(Shr(x, 4), 0x0f)), HexDigit(BitAnd(x, 0x0f))];
      i := i + 1;
    }
    assert input[..|input|] == input;
  }

  lemma Nibbles(x: CodeUnit)
    ensures BitAnd(Shr(x, 4), 0x0f) == x % 0x100 / 16 && BitAnd(x, 0x0f) == x % 0x100 % 16
  {
    hide BitAnd, Shr;
    assert Pow2(4) == 16 by { Powers(); }
    ShiftRightIs(x, 4);
    Wrap(x);
    MaskNibble(x / 16);
    MaskNibble(x);
  }

  lemma MaskNibble(u: Word)
    ensures BitAnd(u, 0x0f) == u % 16
  {
    hide And;
    assert Pow2(4) == 16 by { Powers(); }
    Wrap(u);
    AndMask(u, 4);
  }

  function DigitValue(c: CodeUnit): int {
    if 48 <= c <= 57 then c - 48 else if 97 <= c <= 102 then c - 87 else 0
  }

  function HexDecode(h: seq<CodeUnit>): seq<int> {
    if |h| < 2 then [] else HexDecode(h[..|h| - 2]) + [16 * DigitValue(h[|h| - 2]) + DigitValue(h[|h| - 1])]
  }

  /** Reading the digits in pairs gives the bytes back. */
  lemma {:induction false} HexRoundTrip(m: seq<Byte>)
    ensures HexDecode(HexDigits(m)) == m
  {
    if m == [] {
    } else {
      var n := |m| - 1;
      assert m == m[..n] + [m[n]];
      HexRoundTrip(m[..n]);
      LastByte(HexDigits(m[..n]), m[n]);
    }
  }

  lemma LastByte(h: seq<CodeUnit>, b: Byte)
    ensures HexDecode(h + [HexDigit(b / 16), HexDigit(b % 16)]) == HexDecode(h) + [b]
  {
    assert (h + [HexDigit(b / 16), HexDigit(b % 16)])[..|h|] == h;
    DigitRoundTrip(b / 16);
    DigitRoundTrip(b % 16);
  }

  lemma DigitRoundTrip(v: nat)
    requires v < 16
    ensures DigitValue(HexDigit(v)) == v
  {}
}
