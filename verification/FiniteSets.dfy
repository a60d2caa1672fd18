/** Counting: the numbers below `n`, and subsets. */
module FiniteSets {
  predicate IsBelow(i: nat, n: nat) {
    i < n
  }

  function Range(n: nat): (r: set<nat>)
    ensures forall i: nat :: i in r <==> i < n
  {
    set i: nat | 0 <= i < n && IsBelow(i, n)
  }

  lemma {:induction false} RangeCardinality(n: nat)
    ensures |Range(n)| == n
  {
    if n > 0 {
      RangeCardinality(n - 1);
      assert Range(n) == Range(n - 1) + {n - 1};
    }
  }

  lemma SubsetCardinality<T>(a: set<T>, b: set<T>)
    requires a <= b
    ensures |a| <= |b|
    ensures |a| == |b| ==> a == b
  {
    assert b == a + (b - a);
  }

  /** A nonempty finite set has a greatest element in any total preorder. */
  lemma {:induction false} Greatest(q: set<nat>, leq: (nat, nat) -> bool) returns (m: nat)
    requires q != {}
    requires forall a, b :: a in q && b in q ==> leq(a, b) || leq(b, a)
    requires forall a, b, c :: a in q && b in q && c in q && leq(a, b) && leq(b, c) ==> leq(a, c)
    ensures m in q && forall u :: u in q ==> leq(u, m)
    decreases |q|
  {
    m :| m in q;
    var rest := q - {m};
    if rest != {} {
      var other := Greatest(rest, leq);
      if leq(m, other) {
        m := other;
      }
    }
  }
}
