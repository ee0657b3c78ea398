/** HMAC as RFC 2104 section 2 states it, with MD5 and its block size of 64 bytes. */
module Rfc2104 {
  import opened Numbers
  import opened Rfc1321

  function XorByte(x: Byte, y: Byte): Byte {
    XorByteBound(x, y);
    Xor(x, y)
  }

  lemma XorByteBound(x: Byte, y: Byte)
    ensures Xor(x, y) < 0x100
  {
    Powers();
    OrXorBound(x, y, 8);
  }

  function XorAll(m: seq<Byte>, pad: Byte): (r: seq<Byte>)
    ensures |r| == |m|
  {
    seq<Byte>(|m|, i requires 0 <= i < |m| => XorByte(m[i], pad))
  }

  /** The key filled with zeros to 64 bytes, after hashing it when it is longer than that. */
  function BlockKey(key: seq<Byte>): (k: seq<Byte>)
    ensures |k| == 64
  {
    var short := if |key| > 64 then Digest(key) else key;
    short + Zeros(64 - |short|)
  }

  function Hmac(key: seq<Byte>, text: seq<Byte>): (d: seq<Byte>)
    ensures |d| == 16
  {
    Digest(XorAll(BlockKey(key), 0x5c) + Digest(XorAll(BlockKey(key), 0x36) + text))
  }
}
