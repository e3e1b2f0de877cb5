/** Java's fixed-width integers as they appear in the hasher and the filter. */
module JavaInts {

  /** The bit pattern of a Java `int` used as an unsigned 32-bit counter. */
  newtype u32 = x: int | 0 <= x < 0x1_0000_0000

  /** Java `int` addition: the sum wraps around modulo 2^32. */
  function Add32(a: u32, n: int): (r: u32)
    ensures (r as int - a as int - n) % 0x1_0000_0000 == 0
  {
    ((a as int + n) % 0x1_0000_0000) as u32
  }

  /** The value of an `int` as a Java program sees it (two's complement: bit 31 is the sign). */
  function Int32Value(x: bv32): int
  {
    if x >> 31 == 0 then x as int else x as int - 0x1_0000_0000
  }

  /**
   * The widening `int` -> `long` conversion: the low 32 bits are kept and
   * the upper 32 bits are copies of the sign bit (bit 31).
   */
  function SignExtend(x: bv32): (r: bv64)
    ensures r & 0xFFFF_FFFF == x as bv64
    ensures r >> 32 == if x >> 31 == 1 then 0xFFFF_FFFF else 0
  {
    if x >> 31 == 0 then x as bv64 else (x as bv64) | 0xFFFF_FFFF_0000_0000
  }

  /** On non-negative `int` values sign extension and zero extension agree. */
  lemma SignExtendNonNegative(x: bv32)
    requires Int32Value(x) >= 0
    ensures SignExtend(x) == x as bv64
  {
    assert x >> 31 == 0;
  }

  /** On negative `int` values the upper half is all ones, so the two extensions differ. */
  lemma SignExtendNegative(x: bv32)
    requires Int32Value(x) < 0
    ensures SignExtend(x) != x as bv64
    ensures SignExtend(x) == (x as bv64) | 0xFFFF_FFFF_0000_0000
  {
    assert x >> 31 == 1;
  }
}
