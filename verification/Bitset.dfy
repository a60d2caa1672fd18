/**
 Sets of small numbers packed into 64-bit words.  The words live in an array
 that `Set` and `Clear` change in place; `Members` gives the set they stand for.
 Words are numbers below 2^64 and the bitwise operators are spelled out on them,
 lowest bit first.
 */
module Bitset {

  const WORD_BITS: nat := 64
  const WORD_VALUES: nat := 0x1_0000_0000_0000_0000

  type Word = w: int | 0 <= w < WORD_VALUES

  /** `w & (1 << i) != 0` */
  predicate TestBit(w: nat, i: nat) {
    if i == 0 then w % 2 == 1 else TestBit(w / 2, i - 1)
  }

  /** `w | (1 << i)` */
  function WithBit(w: nat, i: nat): nat {
    if i == 0 then w - w % 2 + 1 else 2 * WithBit(w / 2, i - 1) + w % 2
  }

  /** `w &^ (1 << i)` */
  function WithoutBit(w: nat, i: nat): nat {
    if i == 0 then w - w % 2 else 2 * WithoutBit(w / 2, i - 1) + w % 2
  }

  /** `w ^ v` */
  function Xor(w: nat, v: nat): nat
    decreases w + v
  {
    if w == 0 && v == 0 then 0 else 2 * Xor(w / 2, v / 2) + (w + v) % 2
  }

  /** Is `pos` in the set that the words stand for? */
  predicate Has(words: seq<Word>, pos: nat) {
    pos / WORD_BITS < |words| && TestBit(words[pos / WORD_BITS], pos % WORD_BITS)
  }

  ghost function Members(words: seq<Word>): (r: set<nat>)
    ensures forall pos :: pos in r <==> Has(words, pos)
  {
    set pos: nat | 0 <= pos < WORD_BITS * |words| && Has(words, pos)
  }

  // ---------------------------------------------------------------------
  // Single words

  function Pow2(k: nat): nat {
    if k == 0 then 1 else 2 * Pow2(k - 1)
  }

  lemma ByteMore(k: nat)
    ensures Pow2(k + 8) == 256 * Pow2(k)
  {
    assert Pow2(k + 4) == 16 * Pow2(k) by {
      assert Pow2(k + 2) == 4 * Pow2(k);
    }
    assert Pow2(k + 6) == 4 * Pow2(k + 4);
  }

  lemma WordIs64Bits()
    ensures Pow2(WORD_BITS) == WORD_VALUES
  {
    ByteMore(0);
    ByteMore(8);
    ByteMore(16);
    ByteMore(24);
    ByteMore(32);
    ByteMore(40);
    ByteMore(48);
    ByteMore(56);
    assert Pow2(0) == 1;
  }

  lemma DoubledFits(x: nat, b: nat, k: nat)
    requires k > 0 && x < Pow2(k - 1) && b < 2
    ensures 2 * x + b < Pow2(k)
  {
  }

  lemma HalfFits(w: nat, k: nat)
    requires k > 0 && w < Pow2(k)
    ensures w / 2 < Pow2(k - 1)
  {
  }

  lemma {:induction false} UpdatedFits(w: nat, i: nat, k: nat)
    requires w < Pow2(k) && i < k
    ensures WithBit(w, i) < Pow2(k) && WithoutBit(w, i) < Pow2(k)
  {
    hide Pow2;
    HalfFits(w, k);
    if i == 0 {
      DoubledFits(w / 2, 1, k);
    } else {
      UpdatedFits(w / 2, i - 1, k - 1);
      DoubledFits(WithBit(w / 2, i - 1), w % 2, k);
      DoubledFits(WithoutBit(w / 2, i - 1), w % 2, k);
    }
  }

  lemma {:induction false} XorFits(w: nat, v: nat, k: nat)
    requires w < Pow2(k) && v < Pow2(k)
    ensures Xor(w, v) < Pow2(k)
  {
    if k > 0 {
      XorFits(w / 2, v / 2, k - 1);
    }
  }

  lemma Halved(x: nat, b: nat)
    requires b < 2
    ensures (2 * x + b) / 2 == x && (2 * x + b) % 2 == b
  {
  }

  lemma {:induction false} TestAfterSet(w: nat, i: nat, j: nat)
    ensures TestBit(WithBit(w, i), j) <==> i == j || TestBit(w, j)
  {
    if i == 0 {
      Halved(w / 2, 1);
    } else {
      Halved(WithBit(w / 2, i - 1), w % 2);
      if j > 0 {
        TestAfterSet(w / 2, i - 1, j - 1);
      }
    }
  }

  lemma {:induction false} TestAfterClear(w: nat, i: nat, j: nat)
    ensures TestBit(WithoutBit(w, i), j) <==> i != j && TestBit(w, j)
  {
    if i == 0 {
      Halved(w / 2, 0);
    } else {
      Halved(WithoutBit(w / 2, i - 1), w % 2);
      if j > 0 {
        TestAfterClear(w / 2, i - 1, j - 1);
      }
    }
  }

  lemma {:induction false} SameBitsSameWord(w: nat, v: nat, k: nat)
    requires w < Pow2(k) && v < Pow2(k)
    requires forall i: nat :: i < k ==> (TestBit(w, i) <==> TestBit(v, i))
    ensures w == v
  {
    if k > 0 {
      assert TestBit(w, 0) <==> TestBit(v, 0);
      forall i: nat | i < k - 1
        ensures TestBit(w / 2, i) <==> TestBit(v / 2, i)
      {
        assert TestBit(w, i + 1) <==> TestBit(v, i + 1);
      }
      SameBitsSameWord(w / 2, v / 2, k - 1);
    }
  }

  // ---------------------------------------------------------------------
  // Whole bitsets

  lemma {:induction false} ZeroHasNoBits(i: nat)
    ensures !TestBit(0, i)
  {
    if i > 0 {
      ZeroHasNoBits(i - 1);
    }
  }

  lemma ZeroesAreEmpty(words: seq<Word>)
    requires forall k :: 0 <= k < |words| ==> words[k] == 0
    ensures Members(words) == {}
  {
    forall pos: nat
      ensures !Has(words, pos)
    {
      ZeroHasNoBits(pos % WORD_BITS);
    }
  }

  /** Changing one word changes membership of the 64 positions it holds only. */
  lemma MembersAfterUpdate(words: seq<Word>, after: seq<Word>, pos: nat, on: bool)
    requires pos / WORD_BITS < |words| && |after| == |words|
    requires forall k :: 0 <= k < |words| && k != pos / WORD_BITS ==> after[k] == words[k]
    requires var w := words[pos / WORD_BITS];
             after[pos / WORD_BITS] == if on then WithBit(w, pos % WORD_BITS) else WithoutBit(w, pos % WORD_BITS)
    ensures Members(after) == if on then Members(words) + {pos} else Members(words) - {pos}
  {
    forall p: nat
      ensures Has(after, p) <==> if on then Has(words, p) || p == pos else Has(words, p) && p != pos
    {
      TestAfterSet(words[pos / WORD_BITS], pos % WORD_BITS, p % WORD_BITS);
      TestAfterClear(words[pos / WORD_BITS], pos % WORD_BITS, p % WORD_BITS);
    }
  }

  /** Bitsets of one length that stand for the same set hold the same words. */
  lemma MembersDetermineWords(a: seq<Word>, b: seq<Word>)
    requires |a| == |b| && Members(a) == Members(b)
    ensures a == b
  {
    WordIs64Bits();
    forall k | 0 <= k < |a|
      ensures a[k] == b[k]
    {
      forall i: nat | i < WORD_BITS
        ensures TestBit(a[k], i) <==> TestBit(b[k], i)
      {
        var pos := k * WORD_BITS + i;
        assert pos / WORD_BITS == k && pos % WORD_BITS == i;
        assert Has(a, pos) <==> Has(b, pos);
      }
      SameBitsSameWord(a[k], b[k], WORD_BITS);
    }
  }

  method New(bits: nat) returns (b: array<Word>)
    ensures fresh(b)
    ensures Members(b[..]) == {}
    ensures forall pos: nat :: pos < bits ==> pos / WORD_BITS < b.Length
  {
    var extra := 0;
    if bits % WORD_BITS != 0 {
      extra := 1;
    }
    var chunks := bits / WORD_BITS + extra;
    b := new Word[chunks](_ => 0);
    ZeroesAreEmpty(b[..]);
  }

  method Clone(b: array<Word>) returns (c: array<Word>)
    ensures fresh(c) && c[..] == b[..]
  {
    c := new Word[b.Length](_ => 0);
    for i := 0 to b.Length
      invariant c[..i] == b[..i]
    {
      c[i] := b[i];
    }
  }

  method Set(b: array<Word>, pos: nat)
    requires pos / WORD_BITS < b.Length
    modifies b
    ensures Members(b[..]) == old(Members(b[..])) + {pos}
  {
    var major, minor := pos / WORD_BITS, pos % WORD_BITS;
    WordIs64Bits();
    UpdatedFits(b[major], minor, WORD_BITS);
    b[major] := WithBit(b[major], minor);
    MembersAfterUpdate(old(b[..]), b[..], pos, true);
  }

  method Clear(b: array<Word>, pos: nat)
    requires pos / WORD_BITS < b.Length
    modifies b
    ensures Members(b[..]) == old(Members(b[..])) - {pos}
  {
    var major, minor := pos / WORD_BITS, pos % WORD_BITS;
    WordIs64Bits();
    UpdatedFits(b[major], minor, WORD_BITS);
    b[major] := WithoutBit(b[major], minor);
    MembersAfterUpdate(old(b[..]), b[..], pos, false);
  }

  method Get(b: array<Word>, pos: nat) returns (has: bool)
    requires pos / WORD_BITS < b.Length
    ensures has <==> pos in Members(b[..])
  {
    var major, minor := pos / WORD_BITS, pos % WORD_BITS;
    has := TestBit(b[major], minor);
  }

  // ---------------------------------------------------------------------
  // Hashing and comparing

  /** The number of bits set in one word. */
  function OnesCount(w: nat): nat {
    if w == 0 then 0 else w % 2 + OnesCount(w / 2)
  }

  function PopCount(words: seq<Word>): nat {
    if words == [] then 0 else PopCount(words[..|words| - 1]) + OnesCount(words[|words| - 1])
  }

  /** The positions of the first `k` bits of `w` that are set, counted from `base`. */
  ghost function BitsFrom(w: nat, k: nat, base: nat): (r: set<nat>)
    ensures forall x :: x in r <==> base <= x < base + k && TestBit(w, x - base)
  {
    if k == 0 then {} else BitsFrom(w / 2, k - 1, base + 1) + if w % 2 == 1 then {base} else {}
  }

  lemma {:induction false} OnesCountCounts(w: nat, k: nat, base: nat)
    requires w < Pow2(k)
    ensures |BitsFrom(w, k, base)| == OnesCount(w)
  {
    if k > 0 {
      OnesCountCounts(w / 2, k - 1, base + 1);
      assert base !in BitsFrom(w / 2, k - 1, base + 1);
    }
  }

  /** The members in the last word are those past the other words. */
  lemma LastWordHas(front: seq<Word>, last: Word, pos: nat)
    ensures Has(front + [last], pos) <==>
              Has(front, pos) || pos in BitsFrom(last, WORD_BITS, WORD_BITS * |front|)
    ensures !(Has(front, pos) && pos in BitsFrom(last, WORD_BITS, WORD_BITS * |front|))
  {
    hide BitsFrom, TestBit;
    SplitPosition(pos, |front|);
  }

  lemma MembersExtend(front: seq<Word>, last: Word)
    ensures var high := BitsFrom(last, WORD_BITS, WORD_BITS * |front|);
            Members(front + [last]) == Members(front) + high && Members(front) !! high
  {
    hide BitsFrom, Has, Members;
    forall pos: nat
      ensures Has(front + [last], pos) <==>
                Has(front, pos) || pos in BitsFrom(last, WORD_BITS, WORD_BITS * |front|)
      ensures !(Has(front, pos) && pos in BitsFrom(last, WORD_BITS, WORD_BITS * |front|))
    {
      LastWordHas(front, last, pos);
    }
  }

  /** The population count is the number of members. */
  lemma {:induction false} PopCountCounts(words: seq<Word>)
    ensures |Members(words)| == PopCount(words)
  {
    hide BitsFrom, Has, Members, Pow2, OnesCount;
    if words == [] {
      NoMembers();
    } else {
      var front, last := words[..|words| - 1], words[|words| - 1];
      PopCountCounts(front);
      WordIs64Bits();
      OnesCountCounts(last, WORD_BITS, WORD_BITS * |front|);
      assert words == front + [last];
      MembersExtend(front, last);
    }
  }

  lemma NoMembers()
    ensures Members([]) == {}
  {
  }

  lemma SplitPosition(pos: nat, n: nat)
    ensures pos / WORD_BITS < n <==> pos < WORD_BITS * n
    ensures pos / WORD_BITS == n <==> WORD_BITS * n <= pos < WORD_BITS * n + WORD_BITS
    ensures pos / WORD_BITS == n ==> pos % WORD_BITS == pos - WORD_BITS * n
  {
  }

  function Folded(start: Word, words: seq<Word>): Word {
    if words == [] then start
    else
      var w, v := Folded(start, words[..|words| - 1]), words[|words| - 1];
      WordIs64Bits(); XorFits(w, v, WORD_BITS);
      Xor(w, v)
  }

  /** The cache bucket of a bitset: it depends on the words only, so equal sets share one. */
  function HashOf(words: seq<Word>): Word {
    Folded(PopCount(words) % WORD_VALUES, words)
  }

  method Popcnt(b: array<Word>) returns (total: nat)
    ensures total == PopCount(b[..]) == |Members(b[..])|
  {
    PopCountCounts(b[..]);
    total := 0;
    for i := 0 to b.Length
      invariant total == PopCount(b[..i])
    {
      total := total + OnesCount(b[i]);
      assert b[..i + 1][..i] == b[..i];
    }
    assert b[..b.Length] == b[..];
  }

  method Hash(b: array<Word>) returns (h: Word)
    ensures h == HashOf(b[..])
  {
    var count := Popcnt(b);
    h := count % WORD_VALUES;
    ghost var start := h;
    for i := 0 to b.Length
      invariant h == Folded(start, b[..i])
    {
      assert b[..i + 1][..i] == b[..i];
      WordIs64Bits();
      XorFits(h, b[i], WORD_BITS);
      h := Xor(h, b[i]);
    }
    assert b[..b.Length] == b[..];
  }

  method Equals(b: array<Word>, b2: array<Word>) returns (same: bool)
    ensures same <==> b.Length == b2.Length && Members(b[..]) == Members(b2[..])
  {
    if b.Length != b2.Length {
      return false;
    }
    for i := 0 to b.Length
      invariant b[..i] == b2[..i]
    {
      if b[i] != b2[i] {
        assert b[..][i] != b2[..][i];
        assert Members(b[..]) != Members(b2[..]) by {
          if Members(b[..]) == Members(b2[..]) {
            MembersDetermineWords(b[..], b2[..]);
          }
        }
        return false;
      }
    }
    assert b[..] == b[..b.Length] && b2[..] == b2[..b2.Length];
    return true;
  }
}
