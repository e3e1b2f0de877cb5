/**
 * The bit positions and bit-array operations of `BasicBloomFilter`: a
 * 65,536-bit array and two positions per element, taken from the low and the
 * high 16 bits of the element's 32-bit `hashCode()`.
 */
module BloomSpec {

  /** The filter's size, `1 << 16` bits. */
  const BitCount: nat := 0x1_0000

  /** `hash & 0xFFFF`: the low half of the hash code. */
  function Low(hash: bv32): bv16
  {
    (hash & 0xFFFF) as bv16
  }

  /**
   * `(hash >> 16) & 0xFFFF`: the high half of the hash code. Java's `>>`
   * copies the sign bit in from the left and Dafny's `>>` shifts in zeros;
   * the mask clears those 16 bits either way.
   */
  function High(hash: bv32): bv16
  {
    ((hash >> 16) & 0xFFFF) as bv16
  }

  /** The first bit position, `hash1`. */
  function Index1(hash: bv32): (i: nat)
    ensures i < 0x1_0000
  {
    Low(hash) as int
  }

  /** The second bit position, `hash2`. */
  function Index2(hash: bv32): (i: nat)
    ensures i < 0x1_0000
  {
    High(hash) as int
  }

  /** A bit array as the constructor leaves it: every bit clear. */
  function Cleared(): (bits: seq<bool>)
    ensures |bits| == BitCount
  {
    seq(BitCount, _ => false)
  }

  /** `mightContain` on a hash code: both of its bits are set. */
  function Probe(bits: seq<bool>, hash: bv32): bool
    requires |bits| == BitCount
  {
    bits[Index1(hash)] && bits[Index2(hash)]
  }

  /** `put` on a hash code: set both of its bits. */
  function Insert(bits: seq<bool>, hash: bv32): (r: seq<bool>)
    requires |bits| == BitCount
    ensures |r| == BitCount
  {
    var hash1 := Index1(hash);
    var hash2 := Index2(hash);
    bits[hash1 := true][hash2 := true]
  }

  /** A sequence of `put` calls, in order. */
  function InsertAll(bits: seq<bool>, hashes: seq<bv32>): (r: seq<bool>)
    requires |bits| == BitCount
    ensures |r| == BitCount
    decreases |hashes|
  {
    if |hashes| == 0 then bits else InsertAll(Insert(bits, hashes[0]), hashes[1..])
  }

  /** The two positions are the two halves of the hash code, which they determine. */
  lemma Halves(hash: bv32)
    ensures ((High(hash) as bv32) << 16) | (Low(hash) as bv32) == hash
  {
  }

  /** A 16-bit half survives the trip to an integer index and back. */
  lemma ToIntAndBack(a: bv16)
    ensures (a as int) as bv16 == a
  {
  }

  /** Two hash codes share both bit positions exactly when they are equal. */
  lemma IndicesDetermineHash(hash: bv32, other: bv32)
    ensures Index1(hash) == Index1(other) && Index2(hash) == Index2(other) <==> hash == other
  {
    if Index1(hash) == Index1(other) && Index2(hash) == Index2(other) {
      ToIntAndBack(Low(hash));
      ToIntAndBack(Low(other));
      ToIntAndBack(High(hash));
      ToIntAndBack(High(other));
      Halves(hash);
      Halves(other);
    }
  }

  /** A fresh filter reports every element absent. */
  lemma ClearedRejects(hash: bv32)
    ensures !Probe(Cleared(), hash)
  {
  }

  /** After a put, the element is reported present. */
  lemma InsertThenProbe(bits: seq<bool>, hash: bv32)
    requires |bits| == BitCount
    ensures Probe(Insert(bits, hash), hash)
  {
  }

  /** A put sets exactly the element's two bits and leaves every other bit as it was. */
  lemma InsertBits(bits: seq<bool>, hash: bv32, i: nat)
    requires |bits| == BitCount && i < BitCount
    ensures Insert(bits, hash)[i] == (bits[i] || i == Index1(hash) || i == Index2(hash))
  {
  }

  /** A put never clears a bit, so an element reported present stays present. */
  lemma InsertMonotone(bits: seq<bool>, hash: bv32, other: bv32)
    requires |bits| == BitCount
    ensures Probe(bits, other) ==> Probe(Insert(bits, hash), other)
  {
    InsertBits(bits, hash, Index1(other));
    InsertBits(bits, hash, Index2(other));
  }

  /** Putting the same element twice is putting it once. */
  lemma InsertIdempotent(bits: seq<bool>, hash: bv32)
    requires |bits| == BitCount
    ensures Insert(Insert(bits, hash), hash) == Insert(bits, hash)
  {
    var once := Insert(bits, hash);
    forall i | 0 <= i < BitCount
      ensures Insert(once, hash)[i] == once[i]
    {
      InsertBits(bits, hash, i);
      InsertBits(once, hash, i);
    }
  }

  /** The order of two puts does not matter. */
  lemma InsertCommutes(bits: seq<bool>, hash: bv32, other: bv32)
    requires |bits| == BitCount
    ensures Insert(Insert(bits, hash), other) == Insert(Insert(bits, other), hash)
  {
    var a := Insert(Insert(bits, hash), other);
    var b := Insert(Insert(bits, other), hash);
    forall i | 0 <= i < BitCount
      ensures a[i] == b[i]
    {
      InsertBits(bits, hash, i);
      InsertBits(Insert(bits, hash), other, i);
      InsertBits(bits, other, i);
      InsertBits(Insert(bits, other), hash, i);
    }
  }

  /** A sequence of puts never clears a bit. */
  lemma {:induction false} InsertAllMonotone(bits: seq<bool>, hashes: seq<bv32>, other: bv32)
    requires |bits| == BitCount
    ensures Probe(bits, other) ==> Probe(InsertAll(bits, hashes), other)
    decreases |hashes|
  {
    if |hashes| > 0 {
      InsertMonotone(bits, hashes[0], other);
      InsertAllMonotone(Insert(bits, hashes[0]), hashes[1..], other);
    }
  }

  /** No false negatives: after a sequence of puts, every element put is reported present. */
  lemma {:induction false} InsertAllNoFalseNegatives(bits: seq<bool>, hashes: seq<bv32>, j: nat)
    requires |bits| == BitCount && j < |hashes|
    ensures Probe(InsertAll(bits, hashes), hashes[j])
    decreases |hashes|
  {
    if j == 0 {
      InsertThenProbe(bits, hashes[0]);
      InsertAllMonotone(Insert(bits, hashes[0]), hashes[1..], hashes[0]);
    } else {
      InsertAllNoFalseNegatives(Insert(bits, hashes[0]), hashes[1..], j - 1);
    }
  }
}
