/**
 Sorting as the callers of Go's `sort` package may rely on it: the result is
 some sorted rearrangement, and nothing is said about the order of equals.
 */
module Sorting {
  import opened Linearizability

  predicate Sorted<T(!new)>(s: seq<T>, leq: (T, T) -> bool) {
    forall i, j :: 0 <= i < j < |s| ==> leq(s[i], s[j])
  }

  ghost predicate TotalPreorder<T(!new)>(leq: (T, T) -> bool) {
    && (forall x, y :: leq(x, y) || leq(y, x))
    && (forall x, y, z :: leq(x, y) && leq(y, z) ==> leq(x, z))
  }

  /** `r` lists the elements of `s` in the order given by `source`. */
  ghost predicate Rearranged<T>(s: seq<T>, r: seq<T>, source: seq<nat>) {
    && |r| == |s| && Permutation(source, |s|)
    && forall i :: 0 <= i < |r| ==> r[i] == s[source[i]]
  }

  lemma InsertedIsSorted<T(!new)>(r: seq<T>, leq: (T, T) -> bool, k: nat, x: T)
    requires TotalPreorder(leq) && Sorted(r, leq) && k <= |r|
    requires forall j :: 0 <= j < k ==> leq(r[j], x)
    requires k < |r| ==> !leq(r[k], x)
    ensures Sorted(r[..k] + [x] + r[k..], leq)
  {
    assert forall j :: k <= j < |r| ==> leq(x, r[j]) by {
      assert forall j :: k < j < |r| ==> leq(r[k], r[j]);
    }
  }

  lemma InsertedIsRearranged<T>(s: seq<T>, r: seq<T>, source: seq<nat>, k: nat, n: nat)
    requires n < |s| && Rearranged(s[..n], r, source) && k <= |r|
    ensures Rearranged(s[..n + 1], r[..k] + [s[n]] + r[k..], source[..k] + [n] + source[k..])
  {
  }

  lemma InsertedMultiset<T>(s: seq<T>, r: seq<T>, k: nat, n: nat)
    requires n < |s| && multiset(r) == multiset(s[..n]) && k <= |r|
    ensures multiset(r[..k] + [s[n]] + r[k..]) == multiset(s[..n + 1])
  {
    assert r == r[..k] + r[k..];
    assert s[..n + 1] == s[..n] + [s[n]];
  }

  /** Insertion sort; only its contract is used elsewhere. */
  method Sort<T(!new)>(s: seq<T>, leq: (T, T) -> bool) returns (r: seq<T>, ghost source: seq<nat>)
    requires TotalPreorder(leq)
    ensures Sorted(r, leq) && Rearranged(s, r, source) && multiset(r) == multiset(s)
  {
    r, source := [], [];
    for i := 0 to |s|
      invariant Sorted(r, leq)
      invariant Rearranged(s[..i], r, source) && multiset(r) == multiset(s[..i])
    {
      var k := 0;
      while k < |r| && leq(r[k], s[i])
        invariant 0 <= k <= |r|
        invariant forall j :: 0 <= j < k ==> leq(r[j], s[i])
      {
        k := k + 1;
      }
      assert |source| == |r|;
      InsertedIsSorted(r, leq, k, s[i]);
      InsertedIsRearranged(s, r, source, k, i);
      InsertedMultiset(s, r, k, i);
      hide *;
      r, source := r[..k] + [s[i]] + r[k..], source[..k] + [i] + source[k..];
    }
    assert s[..|s|] == s;
  }
}
