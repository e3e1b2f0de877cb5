/**
 * The word-level mixing functions of MurmurHash3 x64-128 (Austin Appleby's
 * SMHasher): the key scramblers applied to each input word and the final
 * avalanche step. All arithmetic wraps around modulo 2^64, as on Java `long`.
 */
module Murmur3Mix {

  /** Scrambles the first word of a block: multiply by C1, rotate left 31, multiply by C2. */
  function MixK1(k1: bv64): (r: bv64)
    ensures k1 == 0 ==> r == 0
  {
    (k1 * 0x87c37b91114253d5).RotateLeft(31) * 0x4cf5ad432745937f
  }

  /** Scrambles the second word of a block: multiply by C2, rotate left 33, multiply by C1. */
  function MixK2(k2: bv64): (r: bv64)
    ensures k2 == 0 ==> r == 0
  {
    (k2 * 0x4cf5ad432745937f).RotateLeft(33) * 0x87c37b91114253d5
  }

  /**
   * The avalanche finaliser: xor-shift by 33, multiply by 0xff51afd7ed558ccd,
   * xor-shift by 33, multiply by 0xc4ceb9fe1a85ec53, xor-shift by 33
   * (the shift is the unsigned `>>>`).
   */
  function Fmix64(k: bv64): (r: bv64)
    ensures k == 0 ==> r == 0
  {
    var a := k ^ (k >> 33);
    var b := a * 0xff51afd7ed558ccd;
    var c := b ^ (b >> 33);
    var d := c * 0xc4ceb9fe1a85ec53;
    d ^ (d >> 33)
  }
}
