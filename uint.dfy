/**
 * Fixed-width unsigned integers of the C++ code and the little-endian
 * multi-byte fields that USB descriptors are made of.
 */
module Uint {

  const U16_LIMIT := 0x1_0000
  /** size_t is 32 bits wide on the SAMD (Cortex-M0+) targets the library is built for. */
  const SIZE_LIMIT := 0x1_0000_0000

  type u8 = x: int | 0 <= x < 0x100
  type u16 = x: int | 0 <= x < U16_LIMIT
  type u32 = x: int | 0 <= x < 0x1_0000_0000
  type size_t = x: int | 0 <= x < SIZE_LIMIT

  /** Value of a two-byte little-endian field. */
  function FromLe16(lo: u8, hi: u8): u16 {
    lo + 0x100 * hi
  }

  /** Value of a four-byte little-endian field. */
  function FromLe32(b0: u8, b1: u8, b2: u8, b3: u8): u32 {
    b0 + 0x100 * b1 + 0x1_0000 * b2 + 0x100_0000 * b3
  }

  /** A 16-bit value as two bytes, low byte first. */
  function Le16(x: u16): (r: seq<u8>)
    ensures |r| == 2 && FromLe16(r[0], r[1]) == x
  {
    [x % 0x100, x / 0x100]
  }

  /** A 32-bit value as four bytes, lowest byte first. */
  function Le32(x: u32): (r: seq<u8>)
    ensures |r| == 4 && FromLe32(r[0], r[1], r[2], r[3]) == x
  {
    var q1 := x / 0x100;
    var q2 := q1 / 0x100;
    var q3 := q2 / 0x100;
    assert x == x % 0x100 + 0x100 * q1;
    assert q1 == q1 % 0x100 + 0x100 * q2;
    assert q2 == q2 % 0x100 + 0x100 * q3;
    [x % 0x100, q1 % 0x100, q2 % 0x100, q3]
  }

  /** Reading two bytes as a field and writing the field back gives the same bytes. */
  lemma Le16OfFromLe16(lo: u8, hi: u8)
    ensures Le16(FromLe16(lo, hi)) == [lo, hi]
  {
  }

  /** Reading four bytes as a field and writing the field back gives the same bytes. */
  lemma Le32OfFromLe32(b0: u8, b1: u8, b2: u8, b3: u8)
    ensures Le32(FromLe32(b0, b1, b2, b3)) == [b0, b1, b2, b3]
  {
    var x := FromLe32(b0, b1, b2, b3);
    assert x / 0x100 == b1 + 0x100 * b2 + 0x1_0000 * b3;
    assert x / 0x100 / 0x100 == b2 + 0x100 * b3;
    assert x / 0x100 / 0x100 / 0x100 == b3;
  }
}
