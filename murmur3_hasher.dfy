/**
 * The hasher object `Murmur3f`: two 64-bit state words and a 32-bit byte
 * counter that `include` updates in place, block by block, and that `hash()`
 * only reads. Every method is proved against the value-level functions of
 * Murmur3Spec, so the properties proved there carry over to the object.
 */
module Murmur3Hasher {
  import opened JavaInts
  import opened Murmur3Spec
  import opened Murmur3Properties
  import opened Murmur3Switch

  class Murmur3f {
    var h1: bv64
    var h2: bv64
    var length: u32

    /** The object's fields as a value. */
    function Model(): State
      reads this
    {
      State(h1, h2, length)
    }

    /** `new Murmur3f()`: seed 0. */
    constructor Default()
      ensures Model() == Seeded(0)
    {
      h1, h2, length := SignExtend(0), SignExtend(0), 0;
    }

    /** `new Murmur3f(seed)`. */
    constructor (seed: bv32)
      ensures Model() == Seeded(seed)
    {
      h1, h2, length := SignExtend(seed), SignExtend(seed), 0;
    }

    /** `reset(seed)`: both words take the seed, widened from `int` to `long` with its sign; the counter restarts. */
    method Reset(seed: bv32)
      modifies this
      ensures Model() == Seeded(seed)
    {
      h1 := SignExtend(seed);
      h2 := SignExtend(seed);
      length := 0;
    }

    /** `bmix64(k1, k2)`: h1 first, then h2 from the new h1; the counter is untouched. */
    method Bmix64(k1: bv64, k2: bv64)
      modifies this
      ensures Model() == MixBlock(old(Model()), k1, k2)
    {
      h1 := MixH1(h1, h2, k1);
      h2 := MixH2(h2, h1, k2);
    }

    /**
     * `processRemaining(data, offset)`: counts `data.length - offset` bytes
     * first; a count from 0 to 15 is a tail the switch assembles into two
     * words (SwitchK1, SwitchK2) and xors in, scrambled, while any other
     * count reaches the `default` branch and throws with only the counter
     * changed (false).
     */
    method ProcessRemaining(data: seq<bv8>, offset: nat) returns (ok: bool)
      modifies this
      ensures ok <==> offset <= |data| && |data| - offset <= 15
      ensures ok ==> Model() == MixTail(old(Model()), data[offset..])
      ensures !ok ==> Model() == old(Model()).(length := Add32(old(length), |data| - offset))
    {
      var remaining := |data| - offset;
      length := Add32(length, remaining);
      if remaining < 0 || remaining > 15 {
        return false;
      }
      var tail := data[offset..];
      var k1 := SwitchK1(tail);
      var k2 := SwitchK2(tail);
      SwitchIsTailWords(tail);
      h1 := TailH1(h1, k1);
      h2 := TailH2(h2, k2);
      return true;
    }

    /**
     * `include(input)`. The block loop runs while `i <= input.length - 15`;
     * a block whose second word would read past the end throws (false),
     * leaving the blocks before it mixed and counted.
     */
    method Include(input: seq<bv8>) returns (ok: bool)
      modifies this
      ensures ok <==> Murmur3Spec.Include(old(Model()), input).Completed?
      ensures Model() == Murmur3Spec.Include(old(Model()), input).state
    {
      var i := 0;
      var limit := |input| - 15;
      while i <= limit
        invariant 0 <= i <= |input| && i % 16 == 0
        invariant Model() == Blocks(old(Model()), input[..i])
      {
        var k1 := GetLittleEndianLong(input, i);
        if i + 16 > |input| {
          BlockBytesAt(input, i);
          return false;
        }
        var k2 := GetLittleEndianLong(input, i + 8);
        BlocksExtend(old(Model()), input, i, k1, k2);
        Bmix64(k1, k2);
        i := i + 16;
        length := Add32(length, 16);
      }
      BlockBytesAt(input, i);
      ok := ProcessRemaining(input, i);
    }

    /** `hash()`: finalises a copy of the state; the object is not modified. */
    method Hash() returns (code: HashCode)
      ensures code == Finalize(Model())
    {
      code := Finalize(Model());
    }
  }

  /** A loop index that is a multiple of 16 within 15 bytes of the end is where the full blocks stop. */
  lemma BlockBytesAt(data: seq<bv8>, i: nat)
    requires i % 16 == 0 && i <= |data| < i + 16
    ensures BlockBytes(data) == i
  {
  }

  /** One more turn of the block loop is one more ConsumeBlock on the prefix read so far. */
  lemma BlocksExtend(s: State, data: seq<bv8>, i: nat, k1: bv64, k2: bv64)
    requires i % 16 == 0 && i + 16 <= |data|
    requires k1 == GetLittleEndianLong(data, i) && k2 == GetLittleEndianLong(data, i + 8)
    ensures Blocks(s, data[..i + 16]) == MixBlock(Blocks(s, data[..i]), k1, k2).(length := Add32(Blocks(s, data[..i]).length, 16))
  {
    var block := data[i..i + 16];
    assert data[..i + 16] == data[..i] + block;
    BlocksAppend(s, data[..i], block);
    BlockWords(data, i);
    assert block[..16] == block;
    assert block[16..] == [];
  }

  /** The words of a block sliced out of the input are the words read in place. */
  lemma BlockWords(data: seq<bv8>, i: nat)
    requires i + 16 <= |data|
    ensures GetLittleEndianLong(data[i..i + 16], 0) == GetLittleEndianLong(data, i)
    ensures GetLittleEndianLong(data[i..i + 16], 8) == GetLittleEndianLong(data, i + 8)
  {
  }
}
