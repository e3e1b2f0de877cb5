/**
 * Known answers of the hasher: the seeds, inputs and digests that the
 * repository's hashing test expects from one `include` call on the ASCII
 * bytes of a string followed by `hash()`. Each answer is reached in small
 * steps (the words read, the scrambled words, the state, the digest), so that
 * the solver only ever evaluates one stage of the hash on constants.
 */
module Murmur3Vectors {
  import opened LittleEndian
  import opened Murmur3Mix
  import opened Murmur3Spec
  import opened Murmur3Words
  import opened Murmur3Properties

  datatype Option = None | Some(code: HashCode)

  /** The digest of one `include(data)` call on a fresh hasher, or None if the call throws. */
  function HashOnce(seed: bv32, data: seq<bv8>): (r: Option)
    ensures r.None? <==> |data| % 16 == 15
  {
    IncludeFailsIff(Seeded(seed), data);
    match Include(Seeded(seed), data)
    case Completed(s) => Some(Finalize(s))
    case OutOfBounds(_) => None
  }

  /** HashOnce finalises the state that `include` completes with. */
  lemma HashOnceCompleted(seed: bv32, data: seq<bv8>, s: State)
    requires Include(Seeded(seed), data) == Completed(s)
    ensures HashOnce(seed, data) == Some(Finalize(s))
  {
  }

  /** An input shorter than 15 bytes is all tail. */
  lemma IncludeShort(s: State, data: seq<bv8>)
    requires |data| < 15
    ensures Include(s, data) == Completed(MixTail(s, data))
  {
    assert data[..0] == [];
    assert data[0..] == data;
  }

  /** A single block is mixed by ConsumeBlock. */
  lemma BlocksOne(s: State, block: seq<bv8>)
    requires |block| == 16
    ensures Blocks(s, block) == ConsumeBlock(s, block)
  {
    assert block[..16] == block;
    assert block[16..] == [];
  }

  /** The ASCII bytes of "hell". */
  const Hell: seq<bv8> := [0x68, 0x65, 0x6c, 0x6c]

  lemma HellWords()
    ensures TailK1(Hell) == 0x6c6c6568 && TailK2(Hell) == 0x0
  {
    assert Hell[..4] == Hell;
    LeWordUnfold(Hell, 3);
    LeWordUnfold(Hell, 2);
    LeWordUnfold(Hell, 1);
    LeWordUnfold(Hell, 0);
    assert Hell[0..] == Hell;
    ShortTailHasNoK2(Hell);
  }

  lemma HellMixed()
    ensures MixK1(0x6c6c6568) == 0xcebd64d8db31fd75 && MixK2(0x0) == 0x0
  {
  }

  lemma HellState()
    ensures Include(Seeded(0), Hell) == Completed(State(0xcebd64d8db31fd75, 0x0, 4))
  {
    IncludeShort(Seeded(0), Hell);
    HellWords();
    HellMixed();
  }

  lemma HellDigest()
    ensures Digest(0xcebd64d8db31fd75, 0x0, 4) == HashCode(0x629942693e10f867, 0x92db0b82baeb5347)
  {
  }

  lemma HellVector()
    ensures HashOnce(0, Hell) == Some(HashCode(0x629942693e10f867, 0x92db0b82baeb5347))
  {
    HellState();
    FinalizeIsDigest(State(0xcebd64d8db31fd75, 0x0, 4), 4);
    HellDigest();
  }

  /** The ASCII bytes of "hello". */
  const Hello: seq<bv8> := [0x68, 0x65, 0x6c, 0x6c, 0x6f]

  lemma HelloWords()
    ensures TailK1(Hello) == 0x6f6c6c6568 && TailK2(Hello) == 0x0
  {
    assert Hello[..5] == Hello;
    LeWordUnfold(Hello, 4);
    LeWordUnfold(Hello, 3);
    LeWordUnfold(Hello, 2);
    LeWordUnfold(Hello, 1);
    LeWordUnfold(Hello, 0);
    assert Hello[0..] == Hello;
    ShortTailHasNoK2(Hello);
  }

  lemma HelloMixed()
    ensures MixK1(0x6f6c6c6568) == 0x8c3f01c9e77511c7 && MixK2(0x0) == 0x0
  {
  }

  lemma HelloState()
    ensures Include(Seeded(1), Hello) == Completed(State(0x8c3f01c9e77511c6, 0x1, 5))
  {
    IncludeShort(Seeded(1), Hello);
    HelloWords();
    HelloMixed();
  }

  lemma HelloDigest()
    ensures Digest(0x8c3f01c9e77511c6, 0x1, 5) == HashCode(0xa78ddff5adae8d10, 0x128900ef20900135)
  {
  }

  lemma HelloVector()
    ensures HashOnce(1, Hello) == Some(HashCode(0xa78ddff5adae8d10, 0x128900ef20900135))
  {
    HelloState();
    FinalizeIsDigest(State(0x8c3f01c9e77511c6, 0x1, 5), 5);
    HelloDigest();
  }

  /** The ASCII bytes of "hello ". */
  const HelloSpace: seq<bv8> := [0x68, 0x65, 0x6c, 0x6c, 0x6f, 0x20]

  lemma HelloSpaceWords()
    ensures TailK1(HelloSpace) == 0x206f6c6c6568 && TailK2(HelloSpace) == 0x0
  {
    assert HelloSpace[..6] == HelloSpace;
    LeWordUnfold(HelloSpace, 5);
    LeWordUnfold(HelloSpace, 4);
    LeWordUnfold(HelloSpace, 3);
    LeWordUnfold(HelloSpace, 2);
    LeWordUnfold(HelloSpace, 1);
    LeWordUnfold(HelloSpace, 0);
    assert HelloSpace[0..] == HelloSpace;
    ShortTailHasNoK2(HelloSpace);
  }

  lemma HelloSpaceMixed()
    ensures MixK1(0x206f6c6c6568) == 0x501167f525cfc1c7 && MixK2(0x0) == 0x0
  {
  }

  lemma HelloSpaceState()
    ensures Include(Seeded(2), HelloSpace) == Completed(State(0x501167f525cfc1c5, 0x2, 6))
  {
    IncludeShort(Seeded(2), HelloSpace);
    HelloSpaceWords();
    HelloSpaceMixed();
  }

  lemma HelloSpaceDigest()
    ensures Digest(0x501167f525cfc1c5, 0x2, 6) == HashCode(0x8a486b23f422e826, 0xf962a2c58947765f)
  {
  }

  lemma HelloSpaceVector()
    ensures HashOnce(2, HelloSpace) == Some(HashCode(0x8a486b23f422e826, 0xf962a2c58947765f))
  {
    HelloSpaceState();
    FinalizeIsDigest(State(0x501167f525cfc1c5, 0x2, 6), 6);
    HelloSpaceDigest();
  }

  /** The ASCII bytes of "hello w". */
  const HelloW: seq<bv8> := [0x68, 0x65, 0x6c, 0x6c, 0x6f, 0x20, 0x77]

  lemma HelloWWords()
    ensures TailK1(HelloW) == 0x77206f6c6c6568 && TailK2(HelloW) == 0x0
  {
    assert HelloW[..7] == HelloW;
    LeWordUnfold(HelloW, 6);
    LeWordUnfold(HelloW, 5);
    LeWordUnfold(HelloW, 4);
    LeWordUnfold(HelloW, 3);
    LeWordUnfold(HelloW, 2);
    LeWordUnfold(HelloW, 1);
    LeWordUnfold(HelloW, 0);
    assert HelloW[0..] == HelloW;
    ShortTailHasNoK2(HelloW);
  }

  lemma HelloWMixed()
    ensures MixK1(0x77206f6c6c6568) == 0xc7590c8f870e41c7 && MixK2(0x0) == 0x0
  {
  }

  lemma HelloWState()
    ensures Include(Seeded(3), HelloW) == Completed(State(0xc7590c8f870e41c4, 0x3, 7))
  {
    IncludeShort(Seeded(3), HelloW);
    HelloWWords();
    HelloWMixed();
  }

  lemma HelloWDigest()
    ensures Digest(0xc7590c8f870e41c4, 0x3, 7) == HashCode(0x2ea59f466f6bed8c, 0xc610990acc428a17)
  {
  }

  lemma HelloWVector()
    ensures HashOnce(3, HelloW) == Some(HashCode(0x2ea59f466f6bed8c, 0xc610990acc428a17))
  {
    HelloWState();
    FinalizeIsDigest(State(0xc7590c8f870e41c4, 0x3, 7), 7);
    HelloWDigest();
  }

  /** The ASCII bytes of "hello wo". */
  const HelloWo: seq<bv8> := [0x68, 0x65, 0x6c, 0x6c, 0x6f, 0x20, 0x77, 0x6f]

  lemma HelloWoWords()
    ensures TailK1(HelloWo) == 0x6f77206f6c6c6568 && TailK2(HelloWo) == 0x0
  {
    assert HelloWo[..8] == HelloWo;
    LeWordUnfold(HelloWo, 7);
    LeWordUnfold(HelloWo, 6);
    LeWordUnfold(HelloWo, 5);
    LeWordUnfold(HelloWo, 4);
    LeWordUnfold(HelloWo, 3);
    LeWordUnfold(HelloWo, 2);
    LeWordUnfold(HelloWo, 1);
    LeWordUnfold(HelloWo, 0);
    assert HelloWo[0..] == HelloWo;
    ShortTailHasNoK2(HelloWo);
  }

  lemma HelloWoMixed()
    ensures MixK1(0x6f77206f6c6c6568) == 0x36d3ea46998e41c7 && MixK2(0x0) == 0x0
  {
  }

  lemma HelloWoState()
    ensures Include(Seeded(4), HelloWo) == Completed(State(0x36d3ea46998e41c3, 0x4, 8))
  {
    IncludeShort(Seeded(4), HelloWo);
    HelloWoWords();
    HelloWoMixed();
  }

  lemma HelloWoDigest()
    ensures Digest(0x36d3ea46998e41c3, 0x4, 8) == HashCode(0x79f6305a386c572c, 0x46305aed3483b94e)
  {
  }

  lemma HelloWoVector()
    ensures HashOnce(4, HelloWo) == Some(HashCode(0x79f6305a386c572c, 0x46305aed3483b94e))
  {
    HelloWoState();
    FinalizeIsDigest(State(0x36d3ea46998e41c3, 0x4, 8), 8);
    HelloWoDigest();
  }

  /** The ASCII bytes of "hello wor". */
  const HelloWor: seq<bv8> := [0x68, 0x65, 0x6c, 0x6c, 0x6f, 0x20, 0x77, 0x6f, 0x72]

  lemma HelloWorWords()
    ensures TailK1(HelloWor) == 0x6f77206f6c6c6568 && TailK2(HelloWor) == 0x72
  {
    TailK1IsGetLittleEndianLong(HelloWor);
    var hi := HelloWor[8..];
    assert TailK2(HelloWor) == LeWord(hi);
    LeWordUnfold(hi, 0);
    assert hi[0..] == hi;
  }

  lemma HelloWorMixed()
    ensures MixK1(0x6f77206f6c6c6568) == 0x36d3ea46998e41c7 && MixK2(0x72) == 0x3fb163eba2a43066
  {
  }

  lemma HelloWorState()
    ensures Include(Seeded(5), HelloWor) == Completed(State(0x36d3ea46998e41c2, 0x3fb163eba2a43063, 9))
  {
    IncludeShort(Seeded(5), HelloWor);
    HelloWorWords();
    HelloWorMixed();
  }

  lemma HelloWorDigest()
    ensures Digest(0x36d3ea46998e41c2, 0x3fb163eba2a43063, 9) == HashCode(0xc2219d213ec1f1b5, 0xa1d8e2e0a52785bd)
  {
  }

  lemma HelloWorVector()
    ensures HashOnce(5, HelloWor) == Some(HashCode(0xc2219d213ec1f1b5, 0xa1d8e2e0a52785bd))
  {
    HelloWorState();
    FinalizeIsDigest(State(0x36d3ea46998e41c2, 0x3fb163eba2a43063, 9), 9);
    HelloWorDigest();
  }

  /** The first two 16-byte blocks of "The quick brown fox jumps over the lazy dog". */
  const FoxBlock0: seq<bv8> := [0x54, 0x68, 0x65, 0x20, 0x71, 0x75, 0x69, 0x63, 0x6b, 0x20, 0x62, 0x72, 0x6f, 0x77, 0x6e, 0x20]
  const FoxBlock1: seq<bv8> := [0x66, 0x6f, 0x78, 0x20, 0x6a, 0x75, 0x6d, 0x70, 0x73, 0x20, 0x6f, 0x76, 0x65, 0x72, 0x20, 0x74]
  /** The 11-byte tails "he lazy dog" and "he lazy cog". */
  const DogTail: seq<bv8> := [0x68, 0x65, 0x20, 0x6c, 0x61, 0x7a, 0x79, 0x20, 0x64, 0x6f, 0x67]
  const CogTail: seq<bv8> := [0x68, 0x65, 0x20, 0x6c, 0x61, 0x7a, 0x79, 0x20, 0x63, 0x6f, 0x67]
  /** The ASCII bytes of the two 43-byte sentences: two blocks and a tail. */
  const FoxDog: seq<bv8> := FoxBlock0 + FoxBlock1 + DogTail
  const FoxCog: seq<bv8> := FoxBlock0 + FoxBlock1 + CogTail

  lemma FoxBlock0Words()
    ensures GetLittleEndianLong(FoxBlock0, 0) == 0x6369757120656854
    ensures GetLittleEndianLong(FoxBlock0, 8) == 0x206e776f7262206b
  {
  }

  lemma FoxBlock1Words()
    ensures GetLittleEndianLong(FoxBlock1, 0) == 0x706d756a20786f66
    ensures GetLittleEndianLong(FoxBlock1, 8) == 0x74207265766f2073
  {
  }

  lemma FoxBlock0Mixed()
    ensures MixBlock(State(0, 0, 0), 0x6369757120656854, 0x206e776f7262206b) == State(0x065f54070009580c, 0x1185bfe0bc383732, 0)
  {
  }

  lemma FoxBlock1Mixed()
    ensures MixBlock(State(0x065f54070009580c, 0x1185bfe0bc383732, 16), 0x706d756a20786f66, 0x74207265766f2073)
         == State(0xef7ef36e84b36d66, 0x20112c4dac59411d, 16)
  {
  }

  lemma FoxBlock0State()
    ensures Blocks(State(0, 0, 0), FoxBlock0) == State(0x065f54070009580c, 0x1185bfe0bc383732, 16)
  {
    BlocksOne(State(0, 0, 0), FoxBlock0);
    FoxBlock0Words();
    ConsumeBlockWords(State(0, 0, 0), FoxBlock0, 0x6369757120656854, 0x206e776f7262206b);
    FoxBlock0Mixed();
  }

  lemma FoxBlock1State()
    ensures Blocks(State(0x065f54070009580c, 0x1185bfe0bc383732, 16), FoxBlock1) == State(0xef7ef36e84b36d66, 0x20112c4dac59411d, 32)
  {
    BlocksOne(State(0x065f54070009580c, 0x1185bfe0bc383732, 16), FoxBlock1);
    FoxBlock1Words();
    ConsumeBlockWords(State(0x065f54070009580c, 0x1185bfe0bc383732, 16), FoxBlock1, 0x706d756a20786f66, 0x74207265766f2073);
    FoxBlock1Mixed();
  }

  /** Both sentences reach the same state after their two full blocks. */
  lemma FoxBlocks(tail: seq<bv8>)
    ensures Include(Seeded(0), FoxBlock0 + (FoxBlock1 + tail)) == Include(State(0xef7ef36e84b36d66, 0x20112c4dac59411d, 32), tail)
  {
    var s0 := Seeded(0);
    assert s0 == State(0, 0, 0);
    IncludeAligned(s0, FoxBlock0, FoxBlock1 + tail);
    FoxBlock0State();
    IncludeAligned(State(0x065f54070009580c, 0x1185bfe0bc383732, 16), FoxBlock1, tail);
    FoxBlock1State();
  }

  lemma DogTailWords()
    ensures TailK1(DogTail) == 0x20797a616c206568 && TailK2(DogTail) == 0x676f64
  {
    TailK1IsGetLittleEndianLong(DogTail);
    var hi := DogTail[8..];
    assert TailK2(DogTail) == LeWord(hi);
    LeWordUnfold(hi, 2);
    LeWordUnfold(hi, 1);
    LeWordUnfold(hi, 0);
    assert hi[0..] == hi;
  }

  lemma CogTailWords()
    ensures TailK1(CogTail) == 0x20797a616c206568 && TailK2(CogTail) == 0x676f63
  {
    TailK1IsGetLittleEndianLong(CogTail);
    var hi := CogTail[8..];
    assert TailK2(CogTail) == LeWord(hi);
    LeWordUnfold(hi, 2);
    LeWordUnfold(hi, 1);
    LeWordUnfold(hi, 0);
    assert hi[0..] == hi;
  }

  lemma DogTailMixed()
    ensures MixK1(0x20797a616c206568) == 0xbe2cc08576171173 && MixK2(0x676f64) == 0x307f8a9bc938d855
  {
  }

  lemma CogTailMixed()
    ensures MixK1(0x20797a616c206568) == 0xbe2cc08576171173 && MixK2(0x676f63) == 0x04dd3cf22d8114d7
  {
  }

  lemma DogTailState()
    ensures MixTail(State(0xef7ef36e84b36d66, 0x20112c4dac59411d, 32), DogTail) == State(0x515233ebf2a47c15, 0x106ea6d665619948, 43)
  {
    DogTailWords();
    DogTailMixed();
  }

  lemma FoxDogState()
    ensures Include(Seeded(0), FoxDog) == Completed(State(0x515233ebf2a47c15, 0x106ea6d665619948, 43))
  {
    assert FoxDog == FoxBlock0 + (FoxBlock1 + DogTail);
    FoxBlocks(DogTail);
    IncludeShort(State(0xef7ef36e84b36d66, 0x20112c4dac59411d, 32), DogTail);
    DogTailState();
  }

  lemma CogTailState()
    ensures MixTail(State(0xef7ef36e84b36d66, 0x20112c4dac59411d, 32), CogTail) == State(0x515233ebf2a47c15, 0x24cc10bf81d855ca, 43)
  {
    CogTailWords();
    CogTailMixed();
  }

  lemma FoxCogState()
    ensures Include(Seeded(0), FoxCog) == Completed(State(0x515233ebf2a47c15, 0x24cc10bf81d855ca, 43))
  {
    assert FoxCog == FoxBlock0 + (FoxBlock1 + CogTail);
    FoxBlocks(CogTail);
    IncludeShort(State(0xef7ef36e84b36d66, 0x20112c4dac59411d, 32), CogTail);
    CogTailState();
  }

  lemma FoxDogDigest()
    ensures Digest(0x515233ebf2a47c15, 0x106ea6d665619948, 43) == HashCode(0xe34bbc7bbc071b6c, 0x7a433ca9c49a9347)
  {
  }

  lemma FoxCogDigest()
    ensures Digest(0x515233ebf2a47c15, 0x24cc10bf81d855ca, 43) == HashCode(0x658ca970ff85269a, 0x43fee3eaa68e5c3e)
  {
  }

  lemma FoxDogFinal()
    ensures Finalize(State(0x515233ebf2a47c15, 0x106ea6d665619948, 43)) == HashCode(0xe34bbc7bbc071b6c, 0x7a433ca9c49a9347)
  {
    FinalizeIsDigest(State(0x515233ebf2a47c15, 0x106ea6d665619948, 43), 43);
    FoxDogDigest();
  }

  lemma FoxDogVector()
    ensures HashOnce(0, FoxDog) == Some(HashCode(0xe34bbc7bbc071b6c, 0x7a433ca9c49a9347))
  {
    FoxDogState();
    HashOnceCompleted(0, FoxDog, State(0x515233ebf2a47c15, 0x106ea6d665619948, 43));
    FoxDogFinal();
  }

  lemma FoxCogFinal()
    ensures Finalize(State(0x515233ebf2a47c15, 0x24cc10bf81d855ca, 43)) == HashCode(0x658ca970ff85269a, 0x43fee3eaa68e5c3e)
  {
    FinalizeIsDigest(State(0x515233ebf2a47c15, 0x24cc10bf81d855ca, 43), 43);
    FoxCogDigest();
  }

  lemma FoxCogVector()
    ensures HashOnce(0, FoxCog) == Some(HashCode(0x658ca970ff85269a, 0x43fee3eaa68e5c3e))
  {
    FoxCogState();
    HashOnceCompleted(0, FoxCog, State(0x515233ebf2a47c15, 0x24cc10bf81d855ca, 43));
    FoxCogFinal();
  }

  /** All eight answers the repository's hashing test expects. */
  lemma KnownAnswers()
    ensures HashOnce(0, Hell) == Some(HashCode(0x629942693e10f867, 0x92db0b82baeb5347))
    ensures HashOnce(1, Hello) == Some(HashCode(0xa78ddff5adae8d10, 0x128900ef20900135))
    ensures HashOnce(2, HelloSpace) == Some(HashCode(0x8a486b23f422e826, 0xf962a2c58947765f))
    ensures HashOnce(3, HelloW) == Some(HashCode(0x2ea59f466f6bed8c, 0xc610990acc428a17))
    ensures HashOnce(4, HelloWo) == Some(HashCode(0x79f6305a386c572c, 0x46305aed3483b94e))
    ensures HashOnce(5, HelloWor) == Some(HashCode(0xc2219d213ec1f1b5, 0xa1d8e2e0a52785bd))
    ensures HashOnce(0, FoxDog) == Some(HashCode(0xe34bbc7bbc071b6c, 0x7a433ca9c49a9347))
    ensures HashOnce(0, FoxCog) == Some(HashCode(0x658ca970ff85269a, 0x43fee3eaa68e5c3e))
  {
    HellVector();
    HelloVector();
    HelloSpaceVector();
    HelloWVector();
    HelloWoVector();
    HelloWorVector();
    FoxDogVector();
    FoxCogVector();
  }

  lemma ByteWords()
    ensures TailK1([0x61]) == 0x61 && TailK1([0x62]) == 0x62 && TailK1([0x61, 0x62]) == 0x6261
    ensures TailK2([0x61]) == 0 && TailK2([0x62]) == 0 && TailK2([0x61, 0x62]) == 0
  {
    var a: seq<bv8> := [0x61];
    var b: seq<bv8> := [0x62];
    var ab: seq<bv8> := [0x61, 0x62];
    assert a[..1] == a && b[..1] == b && ab[..2] == ab;
    LeWordUnfold(a, 0);
    LeWordUnfold(b, 0);
    LeWordUnfold(ab, 1);
    LeWordUnfold(ab, 0);
    assert a[0..] == a && b[0..] == b && ab[0..] == ab;
    ShortTailHasNoK2(a);
    ShortTailHasNoK2(b);
    ShortTailHasNoK2(ab);
  }

  lemma ByteMixed()
    ensures MixK1(0x61) == 0xf49ed48e325ab585 && MixK1(0x62) == 0x76751edcc57f473c
    ensures MixK1(0x6261) == 0x4342408628d4e237
  {
  }

  /**
   * `include` finishes its tail on every call, so hashing "a" and then "b"
   * leaves another state than hashing "ab" in one call (compare IncludeAligned,
   * where the first piece is a whole number of blocks).
   */
  lemma SplitTailDiffers()
    ensures Include(Seeded(0), [0x61]).Completed?
    ensures Include(Include(Seeded(0), [0x61]).state, [0x62]) == Completed(State(0x82ebca52f725f2b9, 0, 2))
    ensures Include(Seeded(0), [0x61, 0x62]) == Completed(State(0x4342408628d4e237, 0, 2))
  {
    IncludeShort(State(0, 0, 0), [0x61]);
    IncludeShort(State(0xf49ed48e325ab585, 0, 1), [0x62]);
    IncludeShort(State(0, 0, 0), [0x61, 0x62]);
    ByteWords();
    ByteMixed();
  }
}
