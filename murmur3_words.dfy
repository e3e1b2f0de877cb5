/**
 * What the words that the hasher builds from its input mean: a block word is
 * the little-endian reading of eight bytes, and the two tail words together
 * are the little-endian reading of the whole tail.
 */
module Murmur3Words {
  import opened LittleEndian
  import opened JavaInts
  import opened Murmur3Spec

  /** Unfolds LeWord once on a suffix of s. */
  lemma LeWordUnfold(s: seq<bv8>, i: nat)
    requires i < |s| && |s| - i <= 8
    ensures LeWord(s[i..]) == (s[i] as bv64) | (LeWord(s[i + 1..]) << 8)
  {
    assert s[i..][1..] == s[i + 1..];
  }

  /** The eight-term OR of getLittleEndianLong packs the same word as LeWord. */
  lemma GetLittleEndianLongIsLeWord(data: seq<bv8>, offset: nat)
    requires offset + 8 <= |data|
    ensures GetLittleEndianLong(data, offset) == LeWord(data[offset..offset + 8])
  {
    var s := data[offset..offset + 8];
    assert s[8..] == [];
    LeWordUnfold(s, 7);
    LeWordUnfold(s, 6);
    LeWordUnfold(s, 5);
    LeWordUnfold(s, 4);
    LeWordUnfold(s, 3);
    LeWordUnfold(s, 2);
    LeWordUnfold(s, 1);
    LeWordUnfold(s, 0);
    assert s[0..] == s;
  }

  /** getLittleEndianLong returns the sum of data[offset + j] * 256^j for j = 0..7. */
  lemma GetLittleEndianLongValue(data: seq<bv8>, offset: nat)
    requires offset + 8 <= |data|
    ensures GetLittleEndianLong(data, offset) as int == LeValue(data[offset..offset + 8])
  {
    GetLittleEndianLongIsLeWord(data, offset);
    LeWordValue(data[offset..offset + 8]);
  }

  /** With eight or more tail bytes, the switch's `case 8` reads k1 with getLittleEndianLong. */
  lemma TailK1IsGetLittleEndianLong(tail: seq<bv8>)
    requires 8 <= |tail| <= 16
    ensures TailK1(tail) == GetLittleEndianLong(tail, 0)
  {
    GetLittleEndianLongIsLeWord(tail, 0);
    assert tail[..8] == tail[0..8];
  }

  /** Fewer than nine tail bytes leave k2 zero. */
  lemma ShortTailHasNoK2(tail: seq<bv8>)
    requires |tail| <= 8
    ensures TailK2(tail) == 0
  {
    assert tail[Min(8, |tail|)..] == [];
  }

  lemma TailK1Value(tail: seq<bv8>)
    requires |tail| <= 16
    ensures TailK1(tail) as int == LeValue(tail[..Min(8, |tail|)])
  {
    LeWordValue(tail[..Min(8, |tail|)]);
  }

  lemma TailK2Value(tail: seq<bv8>)
    requires |tail| <= 16
    ensures TailK2(tail) as int == LeValue(tail[Min(8, |tail|)..])
  {
    LeWordValue(tail[Min(8, |tail|)..]);
  }

  lemma TailSplitValue(tail: seq<bv8>)
    requires |tail| <= 16
    ensures LeValue(tail) == LeValue(tail[..Min(8, |tail|)]) + 0x1_0000_0000_0000_0000 * LeValue(tail[Min(8, |tail|)..])
  {
    var m := Min(8, |tail|);
    var lo, hi := tail[..m], tail[m..];
    assert tail == lo + hi;
    LeValueAppend(lo, hi);
    if |tail| < 8 {
      assert hi == [];
    } else {
      assert Pow256(8) == 0x1_0000_0000_0000_0000;
    }
  }

  /**
   * The two tail words read the tail little-endian as one number: bytes 0-7
   * are the low word k1 and bytes 8-15 the high word k2.
   */
  lemma TailWordsValue(tail: seq<bv8>)
    requires |tail| <= 16
    ensures TailK1(tail) as int + 0x1_0000_0000_0000_0000 * TailK2(tail) as int == LeValue(tail)
  {
    TailK1Value(tail);
    TailK2Value(tail);
    TailSplitValue(tail);
  }

  /** ConsumeBlock in terms of the two words it reads. */
  lemma ConsumeBlockWords(s: State, block: seq<bv8>, k1: bv64, k2: bv64)
    requires |block| == 16
    requires GetLittleEndianLong(block, 0) == k1 && GetLittleEndianLong(block, 8) == k2
    ensures ConsumeBlock(s, block) == MixBlock(s, k1, k2).(length := Add32(s.length, 16))
  {
  }

  /** Finalize in terms of the widened counter. */
  lemma FinalizeIsDigest(s: State, len: bv64)
    requires SignExtend(s.length as bv32) == len
    ensures Finalize(s) == Digest(s.h1, s.h2, len)
  {
  }
}
