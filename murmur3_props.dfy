/**
 * Properties of one or several `include` calls and of finalisation:
 * when `include` fails, how the byte counter advances, what an empty tail
 * does, and in which sense consecutive calls hash concatenated data.
 */
module Murmur3Properties {
  import opened JavaInts
  import opened Murmur3Spec

  /** Adding to the counter in two steps is adding the sum. */
  lemma Add32Twice(a: u32, m: int, n: int)
    ensures Add32(Add32(a, m), n) == Add32(a, m + n)
  {
  }

  /** Peeling one block off the front removes 16 bytes from those the blocks cover. */
  lemma BlockBytesStep(data: seq<bv8>)
    requires |data| >= 16
    ensures BlockBytes(data) == 16 + BlockBytes(data[16..])
  {
    var n := |data|;
    assert n / 16 == 1 + (n - 16) / 16;
  }

  /** The block loop counts 16 bytes per block: the counter advances by the bytes the blocks cover. */
  lemma {:induction false} BlocksLength(s: State, data: seq<bv8>)
    ensures Blocks(s, data).length == Add32(s.length, BlockBytes(data))
    decreases |data|
  {
    if |data| < 16 {
      assert BlockBytes(data) == 0;
      assert Add32(s.length, 0) == s.length;
    } else {
      var t := ConsumeBlock(s, data[..16]);
      BlocksLength(t, data[16..]);
      BlockBytesStep(data);
      Add32Twice(s.length, 16, BlockBytes(data[16..]));
    }
  }

  /** Mixing the blocks of `a` and then those of `b` is mixing the blocks of `a + b`, when `a` is block-aligned. */
  lemma {:induction false} BlocksAppend(s: State, a: seq<bv8>, b: seq<bv8>)
    requires |a| % 16 == 0
    ensures Blocks(s, a + b) == Blocks(Blocks(s, a), b)
    decreases |a|
  {
    if a == [] {
      assert a + b == b;
    } else {
      assert |a| >= 16;
      assert (a + b)[..16] == a[..16];
      assert (a + b)[16..] == a[16..] + b;
      BlocksAppend(ConsumeBlock(s, a[..16]), a[16..], b);
    }
  }

  /** The blocks of `data` are those of its block-aligned prefix. */
  lemma {:induction false} BlocksOfPrefix(s: State, data: seq<bv8>)
    ensures Blocks(s, data) == Blocks(s, data[..BlockBytes(data)])
    decreases |data|
  {
    var n := BlockBytes(data);
    if |data| < 16 {
      assert n == 0;
    } else {
      var p := data[..n];
      BlockBytesStep(data);
      assert p[..16] == data[..16];
      assert p[16..] == data[16..][..BlockBytes(data[16..])];
      BlocksOfPrefix(ConsumeBlock(s, data[..16]), data[16..]);
    }
  }

  /** An `include` call throws exactly when the input length is 15 modulo 16. */
  lemma IncludeFailsIff(s: State, data: seq<bv8>)
    ensures Include(s, data).OutOfBounds? <==> |data| % 16 == 15
  {
  }

  /**
   * A call that returns passes a tail of 0 to 14 bytes to the switch, so its
   * `case 15` and its `default` are never reached from `include`.
   */
  lemma IncludeTailSize(s: State, data: seq<bv8>)
    requires Include(s, data).Completed?
    ensures |data| - BlockBytes(data) <= 14
  {
  }

  /**
   * Every call that returns adds exactly |data| to the counter, modulo 2^32.
   * A call that throws has counted only the blocks it finished.
   */
  lemma IncludeLength(s: State, data: seq<bv8>)
    ensures Include(s, data).Completed? ==> Include(s, data).state.length == Add32(s.length, |data|)
    ensures Include(s, data).OutOfBounds? ==> Include(s, data).state.length == Add32(s.length, |data| - 15)
  {
    var n := BlockBytes(data);
    BlocksLength(s, data[..n]);
    assert BlockBytes(data[..n]) == n;
    Add32Twice(s.length, n, |data| - n);
  }

  /** An empty tail changes neither state word: both scramblers map 0 to 0. */
  lemma MixTailEmpty(s: State)
    ensures MixTail(s, []) == s
  {
    assert TailK1([]) == 0 && TailK2([]) == 0;
    assert Add32(s.length, 0) == s.length;
  }

  lemma AlignedBlockBytes(a: seq<bv8>, b: seq<bv8>)
    requires |a| % 16 == 0
    ensures BlockBytes(a + b) == |a| + BlockBytes(b)
  {
    var k := |a| / 16;
    assert |a| == 16 * k;
    assert (16 * k + |b|) / 16 == k + |b| / 16;
  }

  /**
   * `include(a); include(b)` reaches the same outcome as `include(a + b)`
   * whenever |a| is a multiple of 16: the first call then mixes an empty tail.
   */
  lemma IncludeAligned(s: State, a: seq<bv8>, b: seq<bv8>)
    requires |a| % 16 == 0
    ensures Include(s, a) == Completed(Blocks(s, a))
    ensures Include(s, a + b) == Include(Blocks(s, a), b)
  {
    assert BlockBytes(a) == |a|;
    assert a[..|a|] == a;
    assert a[|a|..] == [];
    MixTailEmpty(Blocks(s, a));
    var nb := BlockBytes(b);
    var ab := a + b;
    AlignedBlockBytes(a, b);
    assert ab[..|a| + nb] == a + b[..nb];
    assert ab[|a| + nb..] == b[nb..];
    BlocksAppend(s, a, b[..nb]);
    var t := Blocks(s, a);
    assert Blocks(s, ab[..BlockBytes(ab)]) == Blocks(t, b[..nb]);
    assert ab[BlockBytes(ab)..] == b[nb..];
    assert |ab| - BlockBytes(ab) == |b| - nb;
  }
}
