/**
 * The streaming MurmurHash3 x64-128 hasher `Murmur3f` as a state machine on
 * values: its state, the block step, the tail step, what one `include` call
 * does (including the out-of-bounds failure of the block loop), and the
 * finalisation that `hash()` performs. The class in Murmur3Hasher is proved
 * against these functions.
 */
module Murmur3Spec {
  import opened JavaInts
  import opened LittleEndian
  import opened Murmur3Mix

  /** The hasher's three fields: two 64-bit state words and the 32-bit byte counter. */
  datatype State = State(h1: bv64, h2: bv64, length: u32)

  /** A 128-bit digest; equality is equality of both words. */
  datatype HashCode = HashCode(h1: bv64, h2: bv64)

  /** What one `include` call leaves behind: it returns normally, or it throws
      ArrayIndexOutOfBoundsException after mixing and counting any full blocks
      before the last 15 bytes. */
  datatype Outcome = Completed(state: State) | OutOfBounds(state: State)

  /** The state after `reset(seed)`: both words hold the sign-extended seed, nothing was hashed. */
  function Seeded(seed: bv32): (s: State)
    ensures s.h1 == s.h2 && s.length == 0
    ensures s.h1 & 0xFFFF_FFFF == seed as bv64
  {
    State(SignExtend(seed), SignExtend(seed), 0)
  }

  /** Reads eight bytes from `offset` on as a little-endian word (the OR of the bytes shifted into place). */
  function GetLittleEndianLong(data: seq<bv8>, offset: nat): bv64
    requires offset + 8 <= |data|
  {
    (data[offset] as bv64)
    | ((data[offset + 1] as bv64) << 8)
    | ((data[offset + 2] as bv64) << 16)
    | ((data[offset + 3] as bv64) << 24)
    | ((data[offset + 4] as bv64) << 32)
    | ((data[offset + 5] as bv64) << 40)
    | ((data[offset + 6] as bv64) << 48)
    | ((data[offset + 7] as bv64) << 56)
  }

  /** The first half of `bmix64`: h1 absorbs the scrambled k1, rotates, adds h2, then h1 * 5 + 0x52dce729. */
  function MixH1(h1: bv64, h2: bv64, k1: bv64): bv64
  {
    ((h1 ^ MixK1(k1)).RotateLeft(27) + h2) * 5 + 0x52dce729
  }

  /** The second half of `bmix64`: h2 absorbs the scrambled k2, rotates, adds the new h1, then h2 * 5 + 0x38495ab5. */
  function MixH2(h2: bv64, h1: bv64, k2: bv64): bv64
  {
    ((h2 ^ MixK2(k2)).RotateLeft(31) + h1) * 5 + 0x38495ab5
  }

  /** The block step `bmix64`: h1 is updated first, and h2's update reads the new h1. */
  function MixBlock(s: State, k1: bv64, k2: bv64): (r: State)
    ensures r.length == s.length
  {
    var h1 := MixH1(s.h1, s.h2, k1);
    State(h1, MixH2(s.h2, h1, k2), s.length)
  }

  /** One iteration of the block loop of `include`: mix a 16-byte block and count it. */
  function ConsumeBlock(s: State, block: seq<bv8>): (r: State)
    requires |block| == 16
    ensures r.length == Add32(s.length, 16)
  {
    var mixed := MixBlock(s, GetLittleEndianLong(block, 0), GetLittleEndianLong(block, 8));
    mixed.(length := Add32(s.length, 16))
  }

  /** Consumes the full 16-byte blocks of `data`, front to back; a shorter rest is ignored. */
  function Blocks(s: State, data: seq<bv8>): State
    decreases |data|
  {
    if |data| < 16 then s else Blocks(ConsumeBlock(s, data[..16]), data[16..])
  }

  function Min(a: int, b: int): int { if a <= b then a else b }

  /** The tail's first word: its bytes 0-7 at bit 8*j. */
  function TailK1(tail: seq<bv8>): bv64
    requires |tail| <= 16
  {
    LeWord(tail[..Min(8, |tail|)])
  }

  /** The tail's second word: its bytes 8-15 at bit 8*(j-8). */
  function TailK2(tail: seq<bv8>): bv64
    requires |tail| <= 16
  {
    LeWord(tail[Min(8, |tail|)..])
  }

  /**
   * k1 as the fall-through `switch` of `processRemaining` leaves it. A tail of
   * 8 to 15 bytes reaches `case 8`, which reads bytes 0-7 with
   * getLittleEndianLong; a tail of n < 8 bytes enters at `case n` and xors in
   * bytes n-1 down to 0, byte j shifted to bit 8*j, starting from 0.
   */
  function SwitchK1(tail: seq<bv8>): bv64
    requires |tail| <= 15
  {
    match |tail|
    case 15 => GetLittleEndianLong(tail, 0)
    case 14 => GetLittleEndianLong(tail, 0)
    case 13 => GetLittleEndianLong(tail, 0)
    case 12 => GetLittleEndianLong(tail, 0)
    case 11 => GetLittleEndianLong(tail, 0)
    case 10 => GetLittleEndianLong(tail, 0)
    case 9 => GetLittleEndianLong(tail, 0)
    case 8 => GetLittleEndianLong(tail, 0)
    case 7 => ((((((((tail[6] as bv64) << 48) ^ ((tail[5] as bv64) << 40)) ^ ((tail[4] as bv64) << 32)) ^ ((tail[3] as bv64) << 24)) ^ ((tail[2] as bv64) << 16)) ^ ((tail[1] as bv64) << 8)) ^ (tail[0] as bv64))
    case 6 => (((((((tail[5] as bv64) << 40) ^ ((tail[4] as bv64) << 32)) ^ ((tail[3] as bv64) << 24)) ^ ((tail[2] as bv64) << 16)) ^ ((tail[1] as bv64) << 8)) ^ (tail[0] as bv64))
    case 5 => ((((((tail[4] as bv64) << 32) ^ ((tail[3] as bv64) << 24)) ^ ((tail[2] as bv64) << 16)) ^ ((tail[1] as bv64) << 8)) ^ (tail[0] as bv64))
    case 4 => (((((tail[3] as bv64) << 24) ^ ((tail[2] as bv64) << 16)) ^ ((tail[1] as bv64) << 8)) ^ (tail[0] as bv64))
    case 3 => ((((tail[2] as bv64) << 16) ^ ((tail[1] as bv64) << 8)) ^ (tail[0] as bv64))
    case 2 => (((tail[1] as bv64) << 8) ^ (tail[0] as bv64))
    case 1 => (tail[0] as bv64)
    case _ => 0
  }

  /**
   * k2 as the fall-through `switch` leaves it: a tail of n > 8 bytes enters at
   * `case n` and xors in bytes n-1 down to 8, byte j shifted to bit 8*(j-8),
   * starting from 0; a shorter tail never touches k2.
   */
  function SwitchK2(tail: seq<bv8>): bv64
    requires |tail| <= 15
  {
    match |tail|
    case 15 => ((((((((tail[14] as bv64) << 48) ^ ((tail[13] as bv64) << 40)) ^ ((tail[12] as bv64) << 32)) ^ ((tail[11] as bv64) << 24)) ^ ((tail[10] as bv64) << 16)) ^ ((tail[9] as bv64) << 8)) ^ (tail[8] as bv64))
    case 14 => (((((((tail[13] as bv64) << 40) ^ ((tail[12] as bv64) << 32)) ^ ((tail[11] as bv64) << 24)) ^ ((tail[10] as bv64) << 16)) ^ ((tail[9] as bv64) << 8)) ^ (tail[8] as bv64))
    case 13 => ((((((tail[12] as bv64) << 32) ^ ((tail[11] as bv64) << 24)) ^ ((tail[10] as bv64) << 16)) ^ ((tail[9] as bv64) << 8)) ^ (tail[8] as bv64))
    case 12 => (((((tail[11] as bv64) << 24) ^ ((tail[10] as bv64) << 16)) ^ ((tail[9] as bv64) << 8)) ^ (tail[8] as bv64))
    case 11 => ((((tail[10] as bv64) << 16) ^ ((tail[9] as bv64) << 8)) ^ (tail[8] as bv64))
    case 10 => (((tail[9] as bv64) << 8) ^ (tail[8] as bv64))
    case 9 => (tail[8] as bv64)
    case _ => 0
  }

  /**
   * `processRemaining` on a tail the switch accepts (0 to 15 bytes): count the
   * bytes and xor the scrambled tail words into h1 and h2, with no rotation or
   * multiplication step.
   */
  function MixTail(s: State, tail: seq<bv8>): (r: State)
    requires |tail| <= 15
    ensures r.length == Add32(s.length, |tail|)
  {
    State(TailH1(s.h1, TailK1(tail)), TailH2(s.h2, TailK2(tail)), Add32(s.length, |tail|))
  }

  /** The tail step on h1: xor in the scrambled first tail word. */
  function TailH1(h1: bv64, k1: bv64): bv64
  {
    h1 ^ MixK1(k1)
  }

  /** The tail step on h2: xor in the scrambled second tail word. */
  function TailH2(h2: bv64, k2: bv64): bv64
  {
    h2 ^ MixK2(k2)
  }

  /** Number of bytes of `data` that the full blocks cover. */
  function BlockBytes(data: seq<bv8>): (n: nat)
    ensures n % 16 == 0 && n <= |data| < n + 16
  {
    |data| / 16 * 16
  }

  /**
   * One `include(data)` call as the source writes it. The block loop runs
   * while `i <= data.length - 15`, so when 15 bytes remain it starts one more
   * block whose second word lies partly past the end: the read throws, after
   * the full blocks before it were mixed and counted. Otherwise the loop stops
   * with at most 14 bytes left, which the tail step mixes in at once.
   */
  function Include(s: State, data: seq<bv8>): Outcome
  {
    var n := BlockBytes(data);
    var afterBlocks := Blocks(s, data[..n]);
    if |data| - n == 15 then OutOfBounds(afterBlocks)
    else Completed(MixTail(afterBlocks, data[n..]))
  }

  /**
   * The block loop with the guard `i + 16 <= data.length` that the
   * MurmurHash3 reference uses: every input length is accepted, and a
   * 15-byte tail goes to the tail step.
   */
  function IncludeCorrected(s: State, data: seq<bv8>): State
  {
    var n := BlockBytes(data);
    MixTail(Blocks(s, data[..n]), data[n..])
  }

  /**
   * `prepareHashCode`: xor the counter (sign-extended from `int` to `long`)
   * into both words, cross-add, finalise each with Fmix64, cross-add again.
   */
  function Finalize(s: State): HashCode
  {
    Digest(s.h1, s.h2, SignExtend(s.length as bv32))
  }

  /** The finalisation of the two words with the widened counter `len`. */
  function Digest(h1: bv64, h2: bv64, len: bv64): HashCode
  {
    var a1 := h1 ^ len;
    var a2 := h2 ^ len;
    var b1 := a1 + a2;
    var b2 := a2 + b1;
    var c1 := Fmix64(b1);
    var c2 := Fmix64(b2);
    var d1 := c1 + c2;
    HashCode(d1, c2 + d1)
  }
}
