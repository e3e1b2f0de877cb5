# MurmurHash3 hasher and basic Bloom filter of `gbessonov/Bloom`, in Dafny

This project models two classes of the Java library `gbessonov/Bloom`:

- **`Murmur3f`**, a streaming MurmurHash3 x64-128 hasher. Two 64-bit state words `h1`, `h2` and a 32-bit byte counter `length` are updated in place by `include(byte[])`. `hash()` reads them and finalises a 128-bit digest.
- **`BasicBloomFilter<T>`**, a Bloom filter over a fixed 65,536-bit array. It uses two bit positions per element: the low and the high 16 bits of the element's 32-bit `hashCode()`.

Java `long` and `byte` become `bv64` and `bv8`, and the `int` seed and hash code become `bv32`. Arithmetic on them wraps around as in Java. The `int` counter is `JavaInts.u32`, updated by `Add32` modulo 2^32. It is widened to `long` with its sign (`SignExtend`), as the code does.

Each class is modelled twice:

- **As values.** For the hasher these are `Murmur3Spec.State`, the block step, the tail step and one `include` call as an `Outcome`. A call either completes or throws `ArrayIndexOutOfBoundsException` after mixing and counting any full blocks before the last 15 bytes. For the filter they are `BloomSpec.Probe` and `BloomSpec.Insert` on a `seq<bool>`.
- **As Dafny classes** (`Murmur3Hasher.Murmur3f`, `BloomFilterObject.BasicBloomFilter`). Their fields are updated in place, and every method is proved against the value-level functions.

A Java exception is a method returning `false`, with the fields left exactly as the Java code leaves them.

Modules:

| file | module | contents |
|---|---|---|
| java_ints.dfy | JavaInts | 32-bit wrapping counter, `int` -> `long` sign extension |
| little_endian.dfy | LittleEndian | little-endian value of a byte sequence, as an integer and as a 64-bit word |
| murmur3_mix.dfy | Murmur3Mix | `mixK1`, `mixK2`, `fmix64` |
| murmur3_spec.dfy | Murmur3Spec | the hasher as a state machine on values |
| murmur3_words.dfy | Murmur3Words | what `getLittleEndianLong` and the tail words compute |
| murmur3_switch.dfy | Murmur3Switch | the fall-through tail `switch`, case by case, against the little-endian tail words |
| murmur3_props.dfy | Murmur3Properties | failure condition, length accounting, chaining of `include` calls |
| murmur3_hasher.dfy | Murmur3Hasher | the class `Murmur3f` |
| murmur3_vectors.dfy | Murmur3Vectors | the eight known answers of the repository's hashing test |
| murmur3_findings.dfy | Murmur3Findings | the off-by-one block guard and its corrected form |
| bloom_spec.dfy | BloomSpec | bit positions, probe and insert on a bit sequence |
| bloom_filter.dfy | BloomFilterObject | the class `BasicBloomFilter<T>` |

## Model

| member | source | states |
|---|---|---|
| JavaInts.Add32 | src/main/java/io/github/gbessonov/bloom/hashing/Murmur3f.java:47 | `length += n` on a Java `int`: the new counter equals old + n modulo 2^32 |
| JavaInts.SignExtend | src/main/java/io/github/gbessonov/bloom/hashing/Murmur3f.java:123-124 | widening `int` to `long` keeps the low 32 bits and fills the high 32 bits with the sign bit |
| JavaInts.SignExtendNonNegative | src/main/java/io/github/gbessonov/bloom/hashing/Murmur3f.java:181-182 | for a non-negative `int` the widened value is the zero-extended one |
| JavaInts.SignExtendNegative | src/main/java/io/github/gbessonov/bloom/hashing/Murmur3f.java:181-182 | for a negative `int` (a counter past 2^31 bytes or a negative seed) the widened value has its upper half all ones and differs from zero extension |
| Murmur3Mix.MixK1 | src/main/java/io/github/gbessonov/bloom/hashing/Murmur3f.java:147-152 | multiply by C1, rotate left 31, multiply by C2; a zero word scrambles to zero |
| Murmur3Mix.MixK2 | src/main/java/io/github/gbessonov/bloom/hashing/Murmur3f.java:157-162 | multiply by C2, rotate left 33, multiply by C1; a zero word scrambles to zero |
| Murmur3Mix.Fmix64 | src/main/java/io/github/gbessonov/bloom/hashing/Murmur3f.java:168-175 | the avalanche step with unsigned shifts by 33; zero is a fixed point |
| Murmur3Spec.Seeded | src/main/java/io/github/gbessonov/bloom/hashing/Murmur3f.java:122-126 | after `reset(seed)`, h1 == h2, their low 32 bits are the seed, and the counter is 0 |
| Murmur3Spec.MixBlock | src/main/java/io/github/gbessonov/bloom/hashing/Murmur3f.java:132-142 | `bmix64` updates h1 first (MixH1), then h2 from the new h1 (MixH2), and leaves the counter alone |
| Murmur3Spec.ConsumeBlock | src/main/java/io/github/gbessonov/bloom/hashing/Murmur3f.java:43-47 | one turn of the block loop mixes the block's two words and advances the counter by 16 (mod 2^32) |
| Murmur3Spec.MixTail | src/main/java/io/github/gbessonov/bloom/hashing/Murmur3f.java:74-106 | `processRemaining` on 0-15 bytes mixes k1 into h1 (TailH1) and k2 into h2 (TailH2) and advances the counter by the tail length (mod 2^32) |
| Murmur3Spec.BlockBytes | src/main/java/io/github/gbessonov/bloom/hashing/Murmur3f.java:38-48 | the bytes covered by full blocks: a multiple of 16, at most the input length, fewer than 16 bytes short of it |
| Murmur3Spec.GetLittleEndianLong | src/main/java/io/github/gbessonov/bloom/hashing/Murmur3f.java:59-68 | the OR of the eight bytes from `offset` on, byte j shifted to bit 8*j; its value is pinned by Murmur3Words.GetLittleEndianLongValue |
| Murmur3Spec.Blocks | src/main/java/io/github/gbessonov/bloom/hashing/Murmur3f.java:42-48 | the block loop: ConsumeBlock on each full 16-byte block, front to back, leaving a shorter rest; its counter is pinned by Murmur3Properties.BlocksLength |
| Murmur3Spec.SwitchK1 | src/main/java/io/github/gbessonov/bloom/hashing/Murmur3f.java:82-97 | k1 as the fall-through switch leaves it: `case 8` and above read `getLittleEndianLong(data, offset)`, `case n` below 8 xors bytes n-1 down to 0 at bit 8*j; pinned by Murmur3Switch.SwitchIsTailWords |
| Murmur3Spec.SwitchK2 | src/main/java/io/github/gbessonov/bloom/hashing/Murmur3f.java:82-89 | k2 as the fall-through switch leaves it: `case n` above 8 xors bytes n-1 down to 8 at bit 8*(j-8), smaller cases leave 0; pinned by Murmur3Switch.SwitchIsTailWords |
| Murmur3Spec.Include | src/main/java/io/github/gbessonov/bloom/hashing/Murmur3f.java:37-53 | one `include` call: the full blocks, then OutOfBounds with that state when 15 bytes remain, else Completed with the tail mixed in; pinned by IncludeFailsIff, IncludeLength and IncludeAligned |
| Murmur3Spec.IncludeCorrected | src/main/java/io/github/gbessonov/bloom/hashing/Murmur3f.java:38-51 | the loop with the guard `i + 16 <= input.length`: all full blocks, then the 0-15-byte tail; pinned by Murmur3Findings.IncludeCorrectedLength and IncludeCorrectedAgrees |
| Murmur3Spec.Finalize | src/main/java/io/github/gbessonov/bloom/hashing/Murmur3f.java:112-114 | `prepareHashCode(h1, h2, length)` with the counter widened to `long` with its sign; pinned by KnownAnswers |
| Murmur3Spec.Digest | src/main/java/io/github/gbessonov/bloom/hashing/Murmur3f.java:180-194 | xor the widened counter into both words, cross-add, fmix64 each, cross-add again; pinned by KnownAnswers |
| Murmur3Words.GetLittleEndianLongValue | src/main/java/io/github/gbessonov/bloom/hashing/Murmur3f.java:59-68 | the OR of eight masked, shifted bytes is the little-endian value sum of b_j * 256^j |
| Murmur3Words.GetLittleEndianLongIsLeWord | src/main/java/io/github/gbessonov/bloom/hashing/Murmur3f.java:59-68 | the eight-byte read equals the byte-by-byte little-endian word used for tails |
| Murmur3Words.TailK1IsGetLittleEndianLong | src/main/java/io/github/gbessonov/bloom/hashing/Murmur3f.java:90 | for a tail of 8 or more bytes, k1 is `getLittleEndianLong(data, offset)`, as `case 8` reads it |
| Murmur3Words.ShortTailHasNoK2 | src/main/java/io/github/gbessonov/bloom/hashing/Murmur3f.java:90-98 | a tail of at most 8 bytes never reaches the k2 cases, so k2 stays 0 |
| Murmur3Words.TailK1Value | src/main/java/io/github/gbessonov/bloom/hashing/Murmur3f.java:90-97 | k1 is the little-endian value of the tail's first min(8, n) bytes |
| Murmur3Words.TailK2Value | src/main/java/io/github/gbessonov/bloom/hashing/Murmur3f.java:83-89 | k2 is the little-endian value of the tail's bytes from 8 on |
| Murmur3Words.TailWordsValue | src/main/java/io/github/gbessonov/bloom/hashing/Murmur3f.java:82-101 | k1 + 2^64 * k2 is the little-endian value of the whole tail: no byte is lost or placed twice |
| Murmur3Switch.SwitchIsTailWords | src/main/java/io/github/gbessonov/bloom/hashing/Murmur3f.java:82-101 | for every tail of 0 to 15 bytes, the words the fall-through switch builds are the little-endian tail words: byte j goes to k1 at bit 8*j for j < 8 and to k2 at bit 8*(j-8) for j >= 8 |
| Murmur3Properties.BlocksLength | src/main/java/io/github/gbessonov/bloom/hashing/Murmur3f.java:47 | the block loop advances the counter by exactly the bytes its blocks cover (mod 2^32) |
| Murmur3Properties.BlocksAppend | src/main/java/io/github/gbessonov/bloom/hashing/Murmur3f.java:42-48 | mixing the blocks of a + b is mixing those of a, then those of b, when a is block-aligned |
| Murmur3Properties.BlocksOfPrefix | src/main/java/io/github/gbessonov/bloom/hashing/Murmur3f.java:42-48 | the blocks of an input are those of its block-aligned prefix; trailing bytes are not mixed by the loop |
| Murmur3Properties.IncludeFailsIff | src/main/java/io/github/gbessonov/bloom/hashing/Murmur3f.java:39-44 | `include` throws exactly when the input length is 15 modulo 16 |
| Murmur3Properties.IncludeTailSize | src/main/java/io/github/gbessonov/bloom/hashing/Murmur3f.java:82-100 | a call that returns hands a tail of 0 to 14 bytes to the switch, so `case 15` and `default` are never reached from `include` |
| Murmur3Properties.IncludeLength | src/main/java/io/github/gbessonov/bloom/hashing/Murmur3f.java:38-53 | a call that returns counts every input byte (mod 2^32); a call that throws counts only the finished blocks, that is all bytes but 15 |
| Murmur3Properties.MixTailEmpty | src/main/java/io/github/gbessonov/bloom/hashing/Murmur3f.java:98-105 | an empty tail leaves h1, h2 and the counter unchanged |
| Murmur3Properties.IncludeAligned | src/main/java/io/github/gbessonov/bloom/hashing/Murmur3f.java:33-37 | `include(a); include(b)` reaches the same outcome as `include(a + b)` when |a| is a multiple of 16 |
| Murmur3Hasher.Murmur3f.Default | src/main/java/io/github/gbessonov/bloom/hashing/Murmur3f.java:24-26 | `new Murmur3f()` is the state of seed 0 |
| Murmur3Hasher.Murmur3f.constructor | src/main/java/io/github/gbessonov/bloom/hashing/Murmur3f.java:28-30 | `new Murmur3f(seed)` is the state of `reset(seed)` |
| Murmur3Hasher.Murmur3f.Reset | src/main/java/io/github/gbessonov/bloom/hashing/Murmur3f.java:122-126 | the fields become Seeded(seed) |
| Murmur3Hasher.Murmur3f.Bmix64 | src/main/java/io/github/gbessonov/bloom/hashing/Murmur3f.java:132-142 | the fields become MixBlock of their old values; the counter is unchanged |
| Murmur3Hasher.Murmur3f.ProcessRemaining | src/main/java/io/github/gbessonov/bloom/hashing/Murmur3f.java:74-106 | succeeds iff 0 <= remaining <= 15, and then the fields become MixTail of the tail, with k1 and k2 built by the switch as written (SwitchK1, SwitchK2); otherwise it fails with only the counter advanced by `remaining` |
| Murmur3Hasher.Murmur3f.Include | src/main/java/io/github/gbessonov/bloom/hashing/Murmur3f.java:37-53 | the block loop with its invariant "fields == Blocks(old fields, input[..i])"; the method returns normally iff the value-level call completes, and its fields are that call's state |
| Murmur3Hasher.Murmur3f.Hash | src/main/java/io/github/gbessonov/bloom/hashing/Murmur3f.java:112-114 | the digest is Finalize of the fields; with no `modifies` clause, `hash()` changes nothing, so calling it twice gives the same digest |
| Murmur3Hasher.BlocksExtend | src/main/java/io/github/gbessonov/bloom/hashing/Murmur3f.java:43-47 | one more turn of the loop is one more block of the consumed prefix |
| Murmur3Vectors.HashOnce | src/test/java/io/github/gbessonov/bloom/hashing/Murmur3fTest.java:29-37 | one `include` on a fresh hasher followed by `hash()` gives a digest iff the input length is not 15 mod 16 |
| Murmur3Vectors.KnownAnswers | src/test/java/io/github/gbessonov/bloom/hashing/Murmur3fTest.java:16-23 | the eight (seed, string, digest) answers of the hashing test, on the ASCII bytes of each string |
| Murmur3Vectors.SplitTailDiffers | src/main/java/io/github/gbessonov/bloom/hashing/Murmur3f.java:74-106 | each call mixes its own tail: `include("a"); include("b")` leaves another state than `include("ab")` |
| Murmur3Findings.OffByOneWitness | src/main/java/io/github/gbessonov/bloom/hashing/Murmur3f.java:39-44 | as written, `include` of 15 zero bytes throws having hashed nothing; the corrected loop counts all 15 |
| Murmur3Findings.IncludeCorrectedLength | src/main/java/io/github/gbessonov/bloom/hashing/Murmur3f.java:38-51 | with the guard `i + 16 <= length`, every input is accepted and every byte counted (mod 2^32) |
| Murmur3Findings.IncludeCorrectedAgrees | src/main/java/io/github/gbessonov/bloom/hashing/Murmur3f.java:38-51 | the written and the corrected loop agree on every length except 15 mod 16, where the written one throws with the full blocks mixed |
| BloomSpec.Index1 | core/src/main/java/io/github/gbessonov/bloom/implementation/BasicBloomFilter.java:27 | `hash & 0xFFFF` is a bit position below 65,536 |
| BloomSpec.Index2 | core/src/main/java/io/github/gbessonov/bloom/implementation/BasicBloomFilter.java:28 | `(hash >> 16) & 0xFFFF` is a bit position below 65,536 |
| BloomSpec.Halves | core/src/main/java/io/github/gbessonov/bloom/implementation/BasicBloomFilter.java:26-28 | the two positions are the low and the high half of the hash code and together rebuild it |
| BloomSpec.IndicesDetermineHash | core/src/main/java/io/github/gbessonov/bloom/implementation/BasicBloomFilter.java:25-30 | two hash codes have the same two positions iff they are equal: the two bit positions together determine the hash code |
| BloomSpec.Cleared | core/src/main/java/io/github/gbessonov/bloom/implementation/BasicBloomFilter.java:20-22 | the new `BitSet` has 1 << 16 bits, all clear |
| BloomSpec.Probe | core/src/main/java/io/github/gbessonov/bloom/implementation/BasicBloomFilter.java:25-30 | `mightContain` on a hash code: both bits hash1 and hash2 are set; pinned by ClearedRejects, InsertThenProbe and InsertAllNoFalseNegatives |
| BloomSpec.Insert | core/src/main/java/io/github/gbessonov/bloom/implementation/BasicBloomFilter.java:33-39 | `put` keeps the array's size |
| BloomSpec.ClearedRejects | core/src/test/java/io/github/gbessonov/bloom/implementations/BasicBloomFilterTest.java:18-19 | a fresh filter reports every element absent |
| BloomSpec.InsertThenProbe | core/src/test/java/io/github/gbessonov/bloom/implementations/BasicBloomFilterTest.java:21-22 | after `put(x)`, `mightContain(x)` is true |
| BloomSpec.InsertBits | core/src/main/java/io/github/gbessonov/bloom/implementation/BasicBloomFilter.java:37-38 | `put` sets exactly bits hash1 and hash2; every other bit keeps its value |
| BloomSpec.InsertMonotone | core/src/main/java/io/github/gbessonov/bloom/BloomFilter.java:10 | a `put` never clears a bit, so an element reported present stays present |
| BloomSpec.InsertIdempotent | core/src/main/java/io/github/gbessonov/bloom/implementation/BasicBloomFilter.java:33-39 | putting the same element twice leaves the bits of one put |
| BloomSpec.InsertCommutes | core/src/main/java/io/github/gbessonov/bloom/implementation/BasicBloomFilter.java:33-39 | two puts in either order leave the same bits |
| BloomSpec.InsertAll | core/src/main/java/io/github/gbessonov/bloom/BloomFilter.java:26-31 | a sequence of puts keeps the array's size |
| BloomSpec.InsertAllMonotone | core/src/main/java/io/github/gbessonov/bloom/BloomFilter.java:10 | any sequence of puts keeps every element reported present present |
| BloomSpec.InsertAllNoFalseNegatives | core/src/main/java/io/github/gbessonov/bloom/BloomFilter.java:10 | no false negatives: after any sequence of puts, every element put is reported present |
| BloomFilterObject.BasicBloomFilter.constructor | core/src/main/java/io/github/gbessonov/bloom/implementation/BasicBloomFilter.java:20-22 | a fresh filter has 65,536 clear bits and nothing put |
| BloomFilterObject.BasicBloomFilter.MightContain | core/src/main/java/io/github/gbessonov/bloom/implementation/BasicBloomFilter.java:25-30 | the answer is whether both bits of the hash code are set; it modifies nothing; it is true for every element put |
| BloomFilterObject.BasicBloomFilter.Put | core/src/main/java/io/github/gbessonov/bloom/implementation/BasicBloomFilter.java:33-39 | the array becomes Insert of its old contents, and the invariant "every element put is reported present" is kept |

## Left out

- `include` returns the hasher for chaining; the model's `Include` returns a success flag instead, `false` standing for the exception.
- `include(null)`, `put(null)` and `mightContain(null)` throw `NullPointerException`; a Dafny sequence or element is never null, so that path is not modelled.
- Murmur3Hasher.Murmur3f.ProcessRemaining: the offset is a `nat`. A negative offset (`remaining` larger than the array) is not modelled; a too-large offset, making `remaining` negative, is and fails like the Java `default` branch.
- Murmur3Hasher.Murmur3f.Bmix64: the four statements per word (xor, rotate, add, multiply-add) are done by one call to `MixH1`/`MixH2` each, which compose exactly those statements.
- Java arrays are at most 2^31 - 1 bytes long; the model allows any length, and the counter still wraps modulo 2^32.
- The constructors of the hasher's digest (`Murmur3fHashCode`), the `HashCode` and `HashFunction` interfaces and their conversions are not modelled; a digest is the pair `HashCode(h1, h2)`.
- The mixing functions are not proved to be bijections; only their zero behaviour and exact values on the test vectors are stated.
- `expectedFpp`, `utilization` and `approximateElementCount` of `BasicBloomFilter` compute with floating point and are left out.
- `toBytes` and `fromBytes` use Java object serialisation and are left out.
- `BloomFilters.create` (the factory), the benchmarks, and thread safety (the filter is documented as not thread-safe) are left out.
- `Object.hashCode()` is not part of this model: the filter takes it as a fixed function `T -> bv32` when it is constructed. The Java constructor takes no argument.
- `BitSet` grows on demand; the filter only ever touches bits below 65,536, so it is a fixed array of that size here.

## Findings

| source | as written | input that shows it | evidently intended | confidence | as-written member | corrected member |
|---|---|---|---|---|---|---|
| src/main/java/io/github/gbessonov/bloom/hashing/Murmur3f.java:39-44 | the block loop runs while `i <= input.length - 15`, so when exactly 15 bytes remain it starts a 16-byte block and the read of its second word at `i + 8` runs past the end: `include` throws `ArrayIndexOutOfBoundsException` for every input whose length is 15 modulo 16, after having mixed and counted the blocks before it | `include` of 15 zero bytes on `new Murmur3f()` | the guard `i + 16 <= input.length` (limit `input.length - 16`) of the MurmurHash3 reference, so the 15-byte tail goes to `processRemaining` (whose `case 15` otherwise is unreachable) | high; not executed | Murmur3Findings.OffByOneWitness | Murmur3Findings.IncludeCorrectedLength |

The corrected loop is `Murmur3Spec.IncludeCorrected`. Murmur3Findings.IncludeCorrectedLength proves that it accepts every input and counts every byte, and Murmur3Findings.IncludeCorrectedAgrees proves that it differs from the written loop only on lengths 15 modulo 16. The class `Murmur3Hasher.Murmur3f` keeps the guard as written, because it models the code as it stands.
