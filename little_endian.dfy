/** Little-endian assembly of bytes into 64-bit words, and its numeric meaning. */
module LittleEndian {

  /** 256^n. */
  function Pow256(n: nat): (r: nat)
    ensures r >= 1
  {
    if n == 0 then 1 else 256 * Pow256(n - 1)
  }

  /**
   * The number that a byte sequence denotes when read little-endian:
   * the sum of s[j] * 256^j over all positions j.
   */
  function LeValue(s: seq<bv8>): nat
  {
    if s == [] then 0 else s[0] as int + 256 * LeValue(s[1..])
  }

  /**
   * Up to eight bytes packed into a word by shifts and ORs: byte j lands at
   * bit 8*j. This is how the hasher builds its block and tail words.
   */
  function LeWord(s: seq<bv8>): bv64
    requires |s| <= 8
  {
    if s == [] then 0 else (s[0] as bv64) | (LeWord(s[1..]) << 8)
  }

  /** A sequence of n bytes denotes a number below 256^n. */
  lemma {:induction false} LeValueBound(s: seq<bv8>)
    ensures LeValue(s) < Pow256(|s|)
  {
    if s != [] {
      LeValueBound(s[1..]);
      var v := LeValue(s[1..]);
      assert s[0] as int < 256;
      assert 256 * (v + 1) <= 256 * Pow256(|s| - 1);
    }
  }

  lemma {:induction false} Pow256Monotone(n: nat, m: nat)
    requires n <= m
    ensures Pow256(n) <= Pow256(m)
  {
    if n < m {
      Pow256Monotone(n, m - 1);
    }
  }

  /** One packing step: the OR of a byte and a word shifted by 8 is their weighted sum. */
  lemma ShiftOrIsSum(b: bv8, w: bv64, v: nat, r: bv64)
    requires w as int == v && v < 0x100_0000_0000_0000
    requires r == (b as bv64) | (w << 8)
    ensures r as int == b as int + 256 * v
  {
  }

  lemma LeWordStep(s: seq<bv8>)
    requires 0 < |s| <= 8
    requires LeWord(s[1..]) as int == LeValue(s[1..]) < 0x100_0000_0000_0000
    ensures LeWord(s) as int == LeValue(s)
  {
    ShiftOrIsSum(s[0], LeWord(s[1..]), LeValue(s[1..]), LeWord(s));
  }

  /** The packed word, read as an unsigned number, is the little-endian value of the bytes. */
  lemma {:induction false} LeWordValue(s: seq<bv8>)
    requires |s| <= 8
    ensures LeWord(s) as int == LeValue(s)
  {
    if s != [] {
      LeWordValue(s[1..]);
      LeValueBound(s[1..]);
      Pow256Monotone(|s| - 1, 7);
      assert Pow256(7) == 0x100_0000_0000_0000;
      LeWordStep(s);
    }
  }

  /** LeValue of a concatenation: the second part is weighted by 256^|a|. */
  lemma {:induction false} LeValueAppend(a: seq<bv8>, b: seq<bv8>)
    ensures LeValue(a + b) == LeValue(a) + Pow256(|a|) * LeValue(b)
  {
    if a == [] {
      assert a + b == b;
    } else {
      assert (a + b)[1..] == a[1..] + b;
      LeValueAppend(a[1..], b);
      var x, u, p, v := a[0] as int, LeValue(a[1..]), Pow256(|a| - 1), LeValue(b);
      assert LeValue(a + b) == x + 256 * LeValue(a[1..] + b);
      assert LeValue(a) == x + 256 * u;
      assert Pow256(|a|) == 256 * p;
      ScaleAssociates(p, v);
    }
  }

  lemma ScaleAssociates(p: int, v: int)
    ensures 256 * (p * v) == (256 * p) * v
  {
  }
}
