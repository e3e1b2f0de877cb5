/**
 * The block-loop guard of `include`. As written, the loop runs while
 * `i <= input.length - 15`, so it admits a block when only 15 of its 16 bytes
 * remain, one byte fewer than a block needs: an input whose length is 15
 * modulo 16 starts a block it cannot finish.
 * IncludeCorrected (in Murmur3Spec) uses the guard `i + 16 <= input.length`
 * of the MurmurHash3 reference; this module proves what it promises and where
 * it agrees with the code as written.
 */
module Murmur3Findings {
  import opened JavaInts
  import opened Murmur3Spec
  import opened Murmur3Properties

  /** Fifteen zero bytes: the shortest input that the written guard lets into an unfinished block. */
  const Zeros15: seq<bv8> := [0, 0, 0, 0, 0, 0, 0, 0, 0, 0, 0, 0, 0, 0, 0]

  /** As written, hashing fifteen bytes throws, having hashed nothing; the corrected loop counts all fifteen. */
  lemma OffByOneWitness()
    ensures Include(Seeded(0), Zeros15) == OutOfBounds(Seeded(0))
    ensures IncludeCorrected(Seeded(0), Zeros15).length == 15
  {
    assert Zeros15[..0] == [];
    assert Zeros15[0..] == Zeros15;
  }

  /** The corrected loop accepts every input and counts every byte, modulo 2^32. */
  lemma IncludeCorrectedLength(s: State, data: seq<bv8>)
    ensures IncludeCorrected(s, data).length == Add32(s.length, |data|)
  {
    var n := BlockBytes(data);
    BlocksLength(s, data[..n]);
    assert BlockBytes(data[..n]) == n;
    Add32Twice(s.length, n, |data| - n);
  }

  /**
   * The two loops differ only on lengths 15 modulo 16: there the written one
   * throws with the full blocks mixed and no tail, and the corrected one goes
   * on to mix the 15-byte tail.
   */
  lemma IncludeCorrectedAgrees(s: State, data: seq<bv8>)
    ensures |data| % 16 != 15 ==> Include(s, data) == Completed(IncludeCorrected(s, data))
    ensures |data| % 16 == 15 ==> Include(s, data) == OutOfBounds(Blocks(s, data))
  {
    BlocksOfPrefix(s, data);
  }
}
