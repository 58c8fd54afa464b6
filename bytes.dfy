/**
 * Bytes and the fixed-width unsigned integers of the target (u16, u32), with
 * the little-endian encoding the Switch's ARM CPU uses when a packed struct is
 * written to a file byte for byte.
 */
module Bytes {

  type byte = b: int | 0 <= b < 0x100

  const U16_LIMIT: int := 0x1_0000
  const U32_LIMIT: int := 0x1_0000_0000

  type u16 = x: int | 0 <= x < U16_LIMIT
  type u32 = x: int | 0 <= x < U32_LIMIT

  /** Truncation of a non-negative C value to u16 (an assignment to a u16 variable or field). */
  function ToU16(x: nat): (r: u16)
    ensures x < U16_LIMIT ==> r == x
    ensures (r - x) % U16_LIMIT == 0
  {
    x % U16_LIMIT
  }

  /** Truncation of a non-negative C value to u32: unsigned arithmetic wraps modulo 2^32. */
  function ToU32(x: nat): (r: u32)
    ensures x < U32_LIMIT ==> r == x
    ensures (r - x) % U32_LIMIT == 0
  {
    x % U32_LIMIT
  }

  /** The two bytes of a u16, least significant first. */
  function EncodeU16(x: u16): (r: seq<byte>)
    ensures |r| == 2
  {
    [x % 0x100, x / 0x100]
  }

  /** The four bytes of a u32, least significant first: its low half, then its high half. */
  function EncodeU32(x: u32): (r: seq<byte>)
    ensures |r| == 4
  {
    EncodeU16(x % U16_LIMIT) + EncodeU16(x / U16_LIMIT)
  }

  function DecodeU16(b: seq<byte>): (r: u16)
    requires |b| == 2
  {
    b[0] as int + 0x100 * (b[1] as int)
  }

  function DecodeU32(b: seq<byte>): (r: u32)
    requires |b| == 4
  {
    DecodeU16(b[..2]) + U16_LIMIT * DecodeU16(b[2..])
  }

  lemma DecodeEncodeU16(x: u16)
    ensures DecodeU16(EncodeU16(x)) == x
  {
  }

  lemma DecodeEncodeU32(x: u32)
    ensures DecodeU32(EncodeU32(x)) == x
  {
    var lo, hi := x % U16_LIMIT, x / U16_LIMIT;
    var b := EncodeU32(x);
    assert b[..2] == EncodeU16(lo) && b[2..] == EncodeU16(hi);
    DecodeEncodeU16(lo);
    DecodeEncodeU16(hi);
  }

  lemma EncodeDecodeU16(b: seq<byte>)
    requires |b| == 2
    ensures EncodeU16(DecodeU16(b)) == b
  {
  }

  lemma EncodeDecodeU32(b: seq<byte>)
    requires |b| == 4
    ensures EncodeU32(DecodeU32(b)) == b
  {
    var lo, hi := DecodeU16(b[..2]), DecodeU16(b[2..]);
    var x := DecodeU32(b);
    assert x % U16_LIMIT == lo && x / U16_LIMIT == hi;
    EncodeDecodeU16(b[..2]);
    EncodeDecodeU16(b[2..]);
    assert b == b[..2] + b[2..];
  }
}
