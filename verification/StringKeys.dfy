/** Keys of a Go map in sorted order: ranging over the map gives them in some order, then they are sorted. */
module StringKeys {
  import opened Linearizability
  import Sorting

  /** Byte-wise string order, as `sort.Strings` uses. */
  predicate StringLeq(a: string, b: string) {
    a == [] || (b != [] && (a[0] < b[0] || (a[0] == b[0] && StringLeq(a[1..], b[1..]))))
  }

  lemma {:induction false} StringLeqTransitive(a: string, b: string, c: string)
    requires StringLeq(a, b) && StringLeq(b, c)
    ensures StringLeq(a, c)
  {
    if a != [] && a[0] == b[0] == c[0] {
      StringLeqTransitive(a[1..], b[1..], c[1..]);
    }
  }

  lemma {:induction false} StringLeqTotal(a: string, b: string)
    ensures StringLeq(a, b) || StringLeq(b, a)
  {
    if a != [] && b != [] && a[0] == b[0] {
      StringLeqTotal(a[1..], b[1..]);
    }
  }

  lemma {:induction false} StringLeqAntisymmetric(a: string, b: string)
    requires StringLeq(a, b) && StringLeq(b, a)
    ensures a == b
  {
    if a != [] {
      StringLeqAntisymmetric(a[1..], b[1..]);
      assert a == [a[0]] + a[1..] && b == [b[0]] + b[1..];
    }
  }

  lemma StringLeqIsTotalPreorder()
    ensures Sorting.TotalPreorder(StringLeq)
  {
    forall a, b
      ensures StringLeq(a, b) || StringLeq(b, a)
    {
      StringLeqTotal(a, b);
    }
    forall a, b, c | StringLeq(a, b) && StringLeq(b, c)
      ensures StringLeq(a, c)
    {
      StringLeqTransitive(a, b, c);
    }
  }

  method KeysInSomeOrder<V>(m: map<string, V>) returns (keys: seq<string>)
    ensures Distinct(keys) && forall k :: k in keys <==> k in m
  {
    keys := [];
    var rest := m.Keys;
    while rest != {}
      invariant Distinct(keys) && rest <= m.Keys
      invariant forall k :: k in keys <==> k in m && k !in rest
      decreases |rest|
    {
      var k :| k in rest;
      keys, rest := keys + [k], rest - {k};
    }
  }

  lemma RearrangedKeys(keys: seq<string>, sorted: seq<string>, source: seq<nat>)
    requires Distinct(keys) && Sorting.Rearranged(keys, sorted, source)
    ensures Distinct(sorted) && forall k :: k in sorted <==> k in keys
  {
    PermutationCovers(source, |keys|);
    forall k | k in keys
      ensures k in sorted
    {
      var i :| 0 <= i < |keys| && keys[i] == k;
      assert i in source;
      var j :| 0 <= j < |source| && source[j] == i;
      assert sorted[j] == k;
    }
  }

  method SortedKeys<V>(m: map<string, V>) returns (keys: seq<string>)
    ensures Distinct(keys) && Sorting.Sorted(keys, StringLeq) && forall k :: k in keys <==> k in m
  {
    var unsorted := KeysInSomeOrder(m);
    StringLeqIsTotalPreorder();
    ghost var source;
    hide StringLeq, Sorting.TotalPreorder, Sorting.Rearranged, Sorting.Sorted;
    keys, source := Sorting.Sort(unsorted, StringLeq);
    RearrangedKeys(unsorted, keys, source);
  }
}
