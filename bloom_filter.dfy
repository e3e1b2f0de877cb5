/**
 * The object `BasicBloomFilter<T>`: a 65,536-bit array that `put` sets bits in,
 * in place, and that `mightContain` only reads. Each method is proved against
 * the sequence functions of BloomSpec. The ghost set `added` records every
 * element put so far, so that the absence of false negatives is an invariant
 * of the object.
 */
module BloomFilterObject {
  import opened BloomSpec

  class BasicBloomFilter<T> {
    /** The elements' `hashCode()`, fixed for the filter's lifetime. */
    const hashCode: T -> bv32
    /** The `BitSet` of `1 << 16` bits. */
    const bits: array<bool>
    /** Every element put so far. */
    ghost var added: set<T>

    /** The array has its fixed size and every element put is reported present. */
    ghost predicate Valid()
      reads this, bits
    {
      bits.Length == BitCount
      && forall x :: x in added ==> Probe(bits[..], hashCode(x))
    }

    /** `new BasicBloomFilter<T>()`: all bits clear, nothing put. */
    constructor (hashCode: T -> bv32)
      ensures Valid() && fresh(bits)
      ensures this.hashCode == hashCode && added == {}
      ensures bits[..] == Cleared()
    {
      this.hashCode := hashCode;
      bits := new bool[BitCount](_ => false);
      added := {};
    }

    /**
     * `mightContain(object)`: both bits of the element's hash code are set.
     * It changes nothing, and it never answers false for an element put.
     */
    method MightContain(x: T) returns (r: bool)
      requires Valid()
      ensures r == Probe(bits[..], hashCode(x))
      ensures x in added ==> r
    {
      var hash := hashCode(x);
      var hash1 := Index1(hash);
      var hash2 := Index2(hash);
      r := bits[hash1] && bits[hash2];
    }

    /** `put(object)`: sets the two bits of the element's hash code and nothing else. */
    method Put(x: T)
      requires Valid()
      modifies this, bits
      ensures Valid()
      ensures added == old(added) + {x}
      ensures bits[..] == Insert(old(bits[..]), hashCode(x))
    {
      var hash := hashCode(x);
      var hash1 := Index1(hash);
      var hash2 := Index2(hash);
      ghost var before := bits[..];
      bits[hash1] := true;
      bits[hash2] := true;
      assert bits[..] == Insert(before, hash);
      forall y | y in added
        ensures Probe(bits[..], hashCode(y))
      {
        InsertMonotone(before, hash, hashCode(y));
      }
      InsertThenProbe(before, hash);
      added := added + {x};
    }
  }
}
