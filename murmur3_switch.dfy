/**
 * The fall-through `switch` of `processRemaining`, case by case: for every
 * tail size from 0 to 15 the two words it builds are the little-endian tail
 * words TailK1 and TailK2, so byte j of the tail lands in k1 at bit 8*j when
 * j < 8 and in k2 at bit 8*(j-8) otherwise.
 */
module Murmur3Switch {
  import opened Murmur3Spec
  import opened Murmur3Words

  lemma SwitchCase0(tail: seq<bv8>)
    requires |tail| == 0
    ensures SwitchK1(tail) == TailK1(tail) && SwitchK2(tail) == TailK2(tail)
  {
    var s := tail[..Min(8, |tail|)];
    assert s[0..] == [];
    assert s[0..] == s;
    ShortTailHasNoK2(tail);
  }

  lemma SwitchCase1(tail: seq<bv8>)
    requires |tail| == 1
    ensures SwitchK1(tail) == TailK1(tail) && SwitchK2(tail) == TailK2(tail)
  {
    var s := tail[..Min(8, |tail|)];
    assert s[1..] == [];
    LeWordUnfold(s, 0);
    assert s[0..] == s;
    ShortTailHasNoK2(tail);
  }

  lemma SwitchCase2(tail: seq<bv8>)
    requires |tail| == 2
    ensures SwitchK1(tail) == TailK1(tail) && SwitchK2(tail) == TailK2(tail)
  {
    var s := tail[..Min(8, |tail|)];
    assert s[2..] == [];
    LeWordUnfold(s, 1);
    LeWordUnfold(s, 0);
    assert s[0..] == s;
    ShortTailHasNoK2(tail);
  }

  lemma SwitchCase3(tail: seq<bv8>)
    requires |tail| == 3
    ensures SwitchK1(tail) == TailK1(tail) && SwitchK2(tail) == TailK2(tail)
  {
    var s := tail[..Min(8, |tail|)];
    assert s[3..] == [];
    LeWordUnfold(s, 2);
    LeWordUnfold(s, 1);
    LeWordUnfold(s, 0);
    assert s[0..] == s;
    ShortTailHasNoK2(tail);
  }

  lemma SwitchCase4(tail: seq<bv8>)
    requires |tail| == 4
    ensures SwitchK1(tail) == TailK1(tail) && SwitchK2(tail) == TailK2(tail)
  {
    var s := tail[..Min(8, |tail|)];
    assert s[4..] == [];
    LeWordUnfold(s, 3);
    LeWordUnfold(s, 2);
    LeWordUnfold(s, 1);
    LeWordUnfold(s, 0);
    assert s[0..] == s;
    ShortTailHasNoK2(tail);
  }

  lemma SwitchCase5(tail: seq<bv8>)
    requires |tail| == 5
    ensures SwitchK1(tail) == TailK1(tail) && SwitchK2(tail) == TailK2(tail)
  {
    var s := tail[..Min(8, |tail|)];
    assert s[5..] == [];
    LeWordUnfold(s, 4);
    LeWordUnfold(s, 3);
    LeWordUnfold(s, 2);
    LeWordUnfold(s, 1);
    LeWordUnfold(s, 0);
    assert s[0..] == s;
    ShortTailHasNoK2(tail);
  }

  lemma SwitchCase6(tail: seq<bv8>)
    requires |tail| == 6
    ensures SwitchK1(tail) == TailK1(tail) && SwitchK2(tail) == TailK2(tail)
  {
    var s := tail[..Min(8, |tail|)];
    assert s[6..] == [];
    LeWordUnfold(s, 5);
    LeWordUnfold(s, 4);
    LeWordUnfold(s, 3);
    LeWordUnfold(s, 2);
    LeWordUnfold(s, 1);
    LeWordUnfold(s, 0);
    assert s[0..] == s;
    ShortTailHasNoK2(tail);
  }

  lemma SwitchCase7(tail: seq<bv8>)
    requires |tail| == 7
    ensures SwitchK1(tail) == TailK1(tail) && SwitchK2(tail) == TailK2(tail)
  {
    var s := tail[..Min(8, |tail|)];
    assert s[7..] == [];
    LeWordUnfold(s, 6);
    LeWordUnfold(s, 5);
    LeWordUnfold(s, 4);
    LeWordUnfold(s, 3);
    LeWordUnfold(s, 2);
    LeWordUnfold(s, 1);
    LeWordUnfold(s, 0);
    assert s[0..] == s;
    ShortTailHasNoK2(tail);
  }

  lemma SwitchCase8(tail: seq<bv8>)
    requires |tail| == 8
    ensures SwitchK1(tail) == TailK1(tail) && SwitchK2(tail) == TailK2(tail)
  {
    TailK1IsGetLittleEndianLong(tail);
    ShortTailHasNoK2(tail);
  }

  lemma SwitchCase9(tail: seq<bv8>)
    requires |tail| == 9
    ensures SwitchK1(tail) == TailK1(tail) && SwitchK2(tail) == TailK2(tail)
  {
    TailK1IsGetLittleEndianLong(tail);
    var t := tail[Min(8, |tail|)..];
    assert t[1..] == [];
    LeWordUnfold(t, 0);
    assert t[0..] == t;
  }

  lemma SwitchCase10(tail: seq<bv8>)
    requires |tail| == 10
    ensures SwitchK1(tail) == TailK1(tail) && SwitchK2(tail) == TailK2(tail)
  {
    TailK1IsGetLittleEndianLong(tail);
    var t := tail[Min(8, |tail|)..];
    assert t[2..] == [];
    LeWordUnfold(t, 1);
    LeWordUnfold(t, 0);
    assert t[0..] == t;
  }

  lemma SwitchCase11(tail: seq<bv8>)
    requires |tail| == 11
    ensures SwitchK1(tail) == TailK1(tail) && SwitchK2(tail) == TailK2(tail)
  {
    TailK1IsGetLittleEndianLong(tail);
    var t := tail[Min(8, |tail|)..];
    assert t[3..] == [];
    LeWordUnfold(t, 2);
    LeWordUnfold(t, 1);
    LeWordUnfold(t, 0);
    assert t[0..] == t;
  }

  lemma SwitchCase12(tail: seq<bv8>)
    requires |tail| == 12
    ensures SwitchK1(tail) == TailK1(tail) && SwitchK2(tail) == TailK2(tail)
  {
    TailK1IsGetLittleEndianLong(tail);
    var t := tail[Min(8, |tail|)..];
    assert t[4..] == [];
    LeWordUnfold(t, 3);
    LeWordUnfold(t, 2);
    LeWordUnfold(t, 1);
    LeWordUnfold(t, 0);
    assert t[0..] == t;
  }

  lemma SwitchCase13(tail: seq<bv8>)
    requires |tail| == 13
    ensures SwitchK1(tail) == TailK1(tail) && SwitchK2(tail) == TailK2(tail)
  {
    TailK1IsGetLittleEndianLong(tail);
    var t := tail[Min(8, |tail|)..];
    assert t[5..] == [];
    LeWordUnfold(t, 4);
    LeWordUnfold(t, 3);
    LeWordUnfold(t, 2);
    LeWordUnfold(t, 1);
    LeWordUnfold(t, 0);
    assert t[0..] == t;
  }

  lemma SwitchCase14(tail: seq<bv8>)
    requires |tail| == 14
    ensures SwitchK1(tail) == TailK1(tail) && SwitchK2(tail) == TailK2(tail)
  {
    TailK1IsGetLittleEndianLong(tail);
    var t := tail[Min(8, |tail|)..];
    assert t[6..] == [];
    LeWordUnfold(t, 5);
    LeWordUnfold(t, 4);
    LeWordUnfold(t, 3);
    LeWordUnfold(t, 2);
    LeWordUnfold(t, 1);
    LeWordUnfold(t, 0);
    assert t[0..] == t;
  }

  lemma SwitchCase15(tail: seq<bv8>)
    requires |tail| == 15
    ensures SwitchK1(tail) == TailK1(tail) && SwitchK2(tail) == TailK2(tail)
  {
    TailK1IsGetLittleEndianLong(tail);
    var t := tail[Min(8, |tail|)..];
    assert t[7..] == [];
    LeWordUnfold(t, 6);
    LeWordUnfold(t, 5);
    LeWordUnfold(t, 4);
    LeWordUnfold(t, 3);
    LeWordUnfold(t, 2);
    LeWordUnfold(t, 1);
    LeWordUnfold(t, 0);
    assert t[0..] == t;
  }

  /** The switch builds exactly the little-endian tail words, for every tail size it accepts. */
  lemma SwitchIsTailWords(tail: seq<bv8>)
    requires |tail| <= 15
    ensures SwitchK1(tail) == TailK1(tail) && SwitchK2(tail) == TailK2(tail)
  {
    match |tail|
    case 0 => SwitchCase0(tail);
    case 1 => SwitchCase1(tail);
    case 2 => SwitchCase2(tail);
    case 3 => SwitchCase3(tail);
    case 4 => SwitchCase4(tail);
    case 5 => SwitchCase5(tail);
    case 6 => SwitchCase6(tail);
    case 7 => SwitchCase7(tail);
    case 8 => SwitchCase8(tail);
    case 9 => SwitchCase9(tail);
    case 10 => SwitchCase10(tail);
    case 11 => SwitchCase11(tail);
    case 12 => SwitchCase12(tail);
    case 13 => SwitchCase13(tail);
    case 14 => SwitchCase14(tail);
    case 15 => SwitchCase15(tail);
  }
}
