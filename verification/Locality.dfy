/**
 Locality: a key/value history is linearizable against the whole store exactly
 when the sub-history of each key is linearizable against a single string.
 `Partition` is the function that cuts a history into those sub-histories.
 */
module Locality {
  import opened FiniteSets
  import opened Linearizability
  import opened KvModel
  import Sorting
  import StringKeys

  predicate KeyUsed(ops: seq<KvOp>, k: string) {
    exists i :: 0 <= i < |ops| && ops[i].input.key == k
  }

  /** A linearization of the operations on one key, named by their numbers in the whole history. */
  ghost predicate KeyLinearization(ops: seq<KvOp>, k: string, order: seq<nat>) {
    && Distinct(order) && InRange(order, |ops|)
    && (forall x: nat :: x in order <==> x < |ops| && ops[x].input.key == k)
    && Legal(ONE_KEY, ops, order)
    && RespectsRealTime(ops, order)
  }

  // ---------------------------------------------------------------------
  // From the whole history to one key

  lemma {:induction false} OnKeyKeepsOrder(ops: seq<KvOp>, order: seq<nat>, k: string)
    requires InRange(order, |ops|) && Distinct(order) && RespectsRealTime(ops, order)
    ensures Distinct(OnKey(ops, order, k)) && RespectsRealTime(ops, OnKey(ops, order, k))
  {
    if order != [] {
      var front, last := order[..|order| - 1], order[|order| - 1];
      DistinctFront(order);
      RealTimeExtend(ops, front, last);
      assert order == front + [last];
      assert InRange(front, |ops|);
      assert last !in OnKey(ops, front, k);
      assert Distinct(OnKey(ops, front, k)) ==> Distinct(OnKey(ops, front, k) + [last]);
      hide *;
      OnKeyKeepsOrder(ops, front, k);
      OnKeyExtend(ops, front, last, k);
      RealTimeExtend(ops, OnKey(ops, front, k), last);
    }
  }

  lemma Restrict(ops: seq<KvOp>, order: seq<nat>, k: string)
    requires Linearization(WHOLE_STORE, ops, order)
    ensures KeyLinearization(ops, k, OnKey(ops, order, k))
  {
    PermutationCovers(order, |ops|);
    OnKeyKeepsOrder(ops, order, k);
    LegalByKey(ops, order);
    assert KeyLegal(ops, order, k);
    hide Legal, RespectsRealTime, Linearization;
  }

  // ---------------------------------------------------------------------
  // From the keys to the whole history

  /** `order` is an order of exactly the operations on `keys`. */
  ghost predicate Covers(ops: seq<KvOp>, keys: seq<string>, order: seq<nat>) {
    && Distinct(order) && InRange(order, |ops|) && RespectsRealTime(ops, order)
    && (forall x: nat :: x in order <==> x < |ops| && ops[x].input.key in keys)
  }

  /** Restricted to `k`, `order` is the order `parts` gives for it, or nothing when `k` is not among `keys`. */
  ghost predicate AgreesOn(ops: seq<KvOp>, keys: seq<string>, parts: map<string, seq<nat>>, order: seq<nat>, k: string)
    requires InRange(order, |ops|)
  {
    && (k in keys ==> k in parts)
    && OnKey(ops, order, k) == if k in keys then parts[k] else []
  }

  ghost predicate Agrees(ops: seq<KvOp>, keys: seq<string>, parts: map<string, seq<nat>>, order: seq<nat>) {
    InRange(order, |ops|) && forall k :: AgreesOn(ops, keys, parts, order, k)
  }

  ghost predicate PartsFit(ops: seq<KvOp>, keys: seq<string>, parts: map<string, seq<nat>>) {
    forall k :: k in keys ==> k in parts && KeyLinearization(ops, k, parts[k])
  }

  lemma {:induction false} Combine(
    ops: seq<KvOp>, keys: seq<string>, parts: map<string, seq<nat>>) returns (order: seq<nat>)
    requires WellTimed(ops) && Distinct(keys) && PartsFit(ops, keys, parts)
    ensures Covers(ops, keys, order) && Agrees(ops, keys, parts, order)
  {
    if keys == [] {
      order := [];
    } else {
      var front, key := keys[..|keys| - 1], keys[|keys| - 1];
      assert keys == front + [key] && key !in front;
      assert forall k :: k in front ==> k in keys;
      var a := Combine(ops, front, parts);
      var b := parts[key];
      order := Merge(ops, a, b);
      CoversMore(ops, front, key, a, b);
      AgreesMore(ops, front, key, parts, a);
    }
  }

  lemma CoversMore(ops: seq<KvOp>, front: seq<string>, key: string, a: seq<nat>, b: seq<nat>)
    requires WellTimed(ops) && key !in front
    requires Covers(ops, front, a) && KeyLinearization(ops, key, b)
    ensures Covers(ops, front + [key], Merge(ops, a, b))
  {
    hide Merge, RespectsRealTime, Legal, Distinct, InRange;
    MergeRespectsRealTime(ops, a, b);
    MergeIsDistinct(ops, a, b);
  }

  lemma AgreesAt(
    ops: seq<KvOp>, front: seq<string>, key: string, parts: map<string, seq<nat>>, a: seq<nat>, k: string)
    requires key !in front && key in parts
    requires Covers(ops, front, a) && AgreesOn(ops, front, parts, a, k) && KeyLinearization(ops, key, parts[key])
    ensures AgreesOn(ops, front + [key], parts, Merge(ops, a, parts[key]), k)
  {
    var b, keys := parts[key], front + [key];
    assert InRange(a, |ops|) && InRange(b, |ops|);
    assert forall x :: x in a ==> ops[x].input.key != key;
    assert forall x :: x in b ==> ops[x].input.key == key;
    hide Covers, KeyLinearization, Merge, OnKey, InRange;
    MergeOnKey(ops, a, b, key, k);
    assert k in keys <==> k in front || k == key;
  }

  lemma AgreesMore(ops: seq<KvOp>, front: seq<string>, key: string, parts: map<string, seq<nat>>, a: seq<nat>)
    requires key !in front && key in parts
    requires Covers(ops, front, a) && Agrees(ops, front, parts, a) && KeyLinearization(ops, key, parts[key])
    ensures Agrees(ops, front + [key], parts, Merge(ops, a, parts[key]))
  {
    var keys := front + [key];
    assert InRange(a, |ops|) && InRange(parts[key], |ops|);
    hide Covers, KeyLinearization, Merge, AgreesOn, InRange;
    forall k
      ensures AgreesOn(ops, keys, parts, Merge(ops, a, parts[key]), k)
    {
      AgreesAt(ops, front, key, parts, a, k);
    }
  }

  lemma CombinedIsLinearization(ops: seq<KvOp>, keys: seq<string>, parts: map<string, seq<nat>>, order: seq<nat>)
    requires Covers(ops, keys, order) && Agrees(ops, keys, parts, order) && PartsFit(ops, keys, parts)
    requires forall x :: 0 <= x < |ops| ==> ops[x].input.key in keys
    ensures Linearization(WHOLE_STORE, ops, order)
  {
    DistinctCardinality(order);
    RangeCardinality(|ops|);
    assert Ids(order) == Range(|ops|);
    forall k
      ensures KeyLegal(ops, order, k)
    {
      assert AgreesOn(ops, keys, parts, order, k);
    }
    LegalByKey(ops, order);
  }

  // ---------------------------------------------------------------------
  // One key's operations, renumbered from zero

  /** The numbers of the operations on key `k` among the first `n`, in the order they were recorded. */
  function IndicesUpTo(ops: seq<KvOp>, k: string, n: nat): (r: seq<nat>)
    requires n <= |ops|
    ensures Distinct(r) && forall x: nat :: x in r <==> x < n && ops[x].input.key == k
  {
    if n == 0 then []
    else if ops[n - 1].input.key == k then IndicesUpTo(ops, k, n - 1) + [n - 1]
    else IndicesUpTo(ops, k, n - 1)
  }

  function Indices(ops: seq<KvOp>, k: string): (r: seq<nat>)
    ensures Distinct(r) && forall x: nat :: x in r <==> x < |ops| && ops[x].input.key == k
  {
    IndicesUpTo(ops, k, |ops|)
  }

  /** The operations on key `k` among the first `n`, in the order they were recorded. */
  function PartUpTo(ops: seq<KvOp>, k: string, n: nat): (r: seq<KvOp>)
    requires n <= |ops|
    ensures |r| == |IndicesUpTo(ops, k, n)|
    ensures forall j :: 0 <= j < |r| ==> IndicesUpTo(ops, k, n)[j] < n && r[j] == ops[IndicesUpTo(ops, k, n)[j]]
  {
    if n == 0 then []
    else if ops[n - 1].input.key == k then PartUpTo(ops, k, n - 1) + [ops[n - 1]]
    else PartUpTo(ops, k, n - 1)
  }

  /** The sub-history of key `k`. */
  function Part(ops: seq<KvOp>, k: string): (r: seq<KvOp>)
    ensures |r| == |Indices(ops, k)|
    ensures forall j :: 0 <= j < |r| ==> Indices(ops, k)[j] < |ops| && r[j] == ops[Indices(ops, k)[j]]
  {
    PartUpTo(ops, k, |ops|)
  }

  /** `local` and `global` are the same order, under the two numberings. */
  ghost predicate Renumbers<I, O>(
    ops: seq<Operation<I, O>>, sub: seq<Operation<I, O>>, local: seq<nat>, global: seq<nat>) {
    && |local| == |global| && InRange(local, |sub|) && InRange(global, |ops|)
    && forall j :: 0 <= j < |local| ==> sub[local[j]] == ops[global[j]]
  }

  lemma {:induction false} RenumberedRun<S, I, O>(
    m: Model<S, I, O>, ops: seq<Operation<I, O>>, sub: seq<Operation<I, O>>, local: seq<nat>, global: seq<nat>)
    requires Renumbers(ops, sub, local, global)
    ensures Run(m, sub, local) == Run(m, ops, global)
  {
    if local != [] {
      RenumberedRun(m, ops, sub, local[..|local| - 1], global[..|global| - 1]);
    }
  }

  lemma RenumberedOrder<S, I, O>(
    m: Model<S, I, O>, ops: seq<Operation<I, O>>, sub: seq<Operation<I, O>>, local: seq<nat>, global: seq<nat>)
    requires Renumbers(ops, sub, local, global)
    ensures Legal(m, sub, local) <==> Legal(m, ops, global)
    ensures RespectsRealTime(sub, local) <==> RespectsRealTime(ops, global)
  {
    forall i | 0 <= i < |local|
      ensures Run(m, sub, local[..i]) == Run(m, ops, global[..i])
    {
      RenumberedRun(m, ops, sub, local[..i], global[..i]);
    }
    hide Run;
    if Legal(m, sub, local) {
      forall i | 0 <= i < |global|
        ensures Accepts(m, Run(m, ops, global[..i]), ops[global[i]])
      {
        assert Accepts(m, Run(m, sub, local[..i]), sub[local[i]]);
      }
    }
    if Legal(m, ops, global) {
      forall i | 0 <= i < |local|
        ensures Accepts(m, Run(m, sub, local[..i]), sub[local[i]])
      {
        assert Accepts(m, Run(m, ops, global[..i]), ops[global[i]]);
      }
    }
    assert forall i :: 0 <= i < |local| ==> sub[local[i]] == ops[global[i]];
  }

  ghost function IndexIn(s: seq<nat>, x: nat): (i: nat)
    requires x in s
    ensures i < |s| && s[i] == x
  {
    var i :| 0 <= i < |s| && s[i] == x;
    i
  }

  ghost function IndicesIn(s: seq<nat>, xs: seq<nat>): (r: seq<nat>)
    requires forall x :: x in xs ==> x in s
    ensures |r| == |xs| && InRange(r, |s|) && forall j :: 0 <= j < |xs| ==> s[r[j]] == xs[j]
  {
    assert forall j :: 0 <= j < |xs| ==> xs[j] in xs;
    seq(|xs|, j requires 0 <= j < |xs| => IndexIn(s, xs[j]))
  }

  lemma PartFromKey(ops: seq<KvOp>, k: string, global: seq<nat>)
    requires KeyLinearization(ops, k, global)
    ensures Linearizable(ONE_KEY, Part(ops, k))
  {
    var idx, sub := Indices(ops, k), Part(ops, k);
    hide Indices, Part, IndicesIn, Legal, RespectsRealTime;
    var local := IndicesIn(idx, global);
    assert forall j :: 0 <= j < |global| ==> sub[local[j]] == ops[idx[local[j]]] == ops[global[j]];
    assert Renumbers(ops, sub, local, global);
    RenumberedOrder(ONE_KEY, ops, sub, local, global);
    assert Distinct(local) by {
      assert forall i, j :: 0 <= i < j < |local| ==> idx[local[i]] != idx[local[j]];
    }
    SameLength(global, idx);
    assert Linearization(ONE_KEY, sub, local);
  }

  lemma KeyFromPart(ops: seq<KvOp>, k: string, local: seq<nat>) returns (global: seq<nat>)
    requires Linearization(ONE_KEY, Part(ops, k), local)
    ensures KeyLinearization(ops, k, global)
  {
    var idx, sub := Indices(ops, k), Part(ops, k);
    PermutationCovers(local, |sub|);
    global := Composed(idx, local);
    ComposedCovers(idx, local);
    assert forall j :: 0 <= j < |global| ==> global[j] in idx;
    hide Legal, RespectsRealTime, Indices, Part, Composed;
    assert Renumbers(ops, sub, local, global);
    RenumberedOrder(ONE_KEY, ops, sub, local, global);
  }

  ghost function Composed(idx: seq<nat>, local: seq<nat>): (r: seq<nat>)
    requires InRange(local, |idx|)
    ensures |r| == |local| && forall j :: 0 <= j < |r| ==> r[j] == idx[local[j]]
  {
    seq(|local|, j requires 0 <= j < |local| => idx[local[j]])
  }

  lemma ComposedCovers(idx: seq<nat>, local: seq<nat>)
    requires Distinct(idx) && Distinct(local) && InRange(local, |idx|)
    requires forall i: nat :: i < |idx| ==> i in local
    ensures Distinct(Composed(idx, local))
    ensures forall x :: x in Composed(idx, local) <==> x in idx
  {
    var global := Composed(idx, local);
    forall x | x in idx
      ensures x in global
    {
      var i: nat :| i < |idx| && idx[i] == x;
      assert i in local;
      var j :| 0 <= j < |local| && local[j] == i;
      assert global[j] == x;
    }
  }

  lemma SameLength(a: seq<nat>, b: seq<nat>)
    requires Distinct(a) && Distinct(b) && forall x: nat :: x in a <==> x in b
    ensures |a| == |b|
  {
    DistinctCardinality(a);
    DistinctCardinality(b);
    assert Ids(a) == Ids(b);
  }

  // ---------------------------------------------------------------------
  // The theorem, and the function that cuts a history

  ghost predicate EveryPartLinearizable(ops: seq<KvOp>, keys: seq<string>) {
    forall k :: k in keys ==> Linearizable(ONE_KEY, Part(ops, k))
  }

  lemma WholeImpliesParts(ops: seq<KvOp>, keys: seq<string>)
    requires Linearizable(WHOLE_STORE, ops)
    ensures EveryPartLinearizable(ops, keys)
  {
    var order :| Linearization(WHOLE_STORE, ops, order);
    forall k | k in keys
      ensures Linearizable(ONE_KEY, Part(ops, k))
    {
      hide Part, OnKey;
      Restrict(ops, order, k);
      PartFromKey(ops, k, OnKey(ops, order, k));
    }
  }

  lemma PartsImplyWhole(ops: seq<KvOp>, keys: seq<string>)
    requires WellTimed(ops) && Distinct(keys) && EveryPartLinearizable(ops, keys)
    requires forall x :: 0 <= x < |ops| ==> ops[x].input.key in keys
    ensures Linearizable(WHOLE_STORE, ops)
  {
    hide Part, KeyLinearization, WellTimed;
    forall k | k in keys
      ensures exists order :: KeyLinearization(ops, k, order)
    {
      var local :| Linearization(ONE_KEY, Part(ops, k), local);
      var order := KeyFromPart(ops, k, local);
    }
    var parts := map k | k in keys :: var order :| KeyLinearization(ops, k, order); order;
    assert PartsFit(ops, keys, parts);
    var order := Combine(ops, keys, parts);
    CombinedIsLinearization(ops, keys, parts, order);
  }

  /** The used keys, in byte-wise order and each once. */
  ghost predicate KeysOf(ops: seq<KvOp>, keys: seq<string>) {
    Distinct(keys) && Sorting.Sorted(keys, StringKeys.StringLeq) && forall k :: k in keys <==> KeyUsed(ops, k)
  }

  ghost predicate GroupedAt(history: seq<KvOp>, n: nat, m: map<string, seq<KvOp>>, k: string)
    requires n <= |history|
  {
    && (k in m <==> PartUpTo(history, k, n) != [])
    && (k in m ==> m[k] == PartUpTo(history, k, n))
  }

  lemma UsedMeansNonempty(history: seq<KvOp>, k: string)
    ensures KeyUsed(history, k) <==> Part(history, k) != []
  {
    if KeyUsed(history, k) {
      var i: nat :| i < |history| && history[i].input.key == k;
      assert i in Indices(history, k);
    }
    if Part(history, k) != [] {
      assert Indices(history, k)[0] in Indices(history, k);
    }
  }

  method GroupByKey(history: seq<KvOp>) returns (m: map<string, seq<KvOp>>)
    ensures forall k :: k in m <==> KeyUsed(history, k)
    ensures forall k :: k in m ==> m[k] == Part(history, k)
  {
    m := map[];
    for i := 0 to |history|
      invariant forall k :: GroupedAt(history, i, m, k)
    {
      var key := history[i].input.key;
      ghost var before, next := m, i + 1;
      m := m[key := (if key in m then m[key] else []) + [history[i]]];
      forall k
        ensures GroupedAt(history, next, m, k)
      {
        assert GroupedAt(history, i, before, k);
      }
    }
    forall k
      ensures (k in m <==> KeyUsed(history, k)) && (k in m ==> m[k] == Part(history, k))
    {
      assert GroupedAt(history, |history|, m, k);
      UsedMeansNonempty(history, k);
    }
  }

  /** One sub-history per key; the whole history is linearizable exactly when each of them is. */
  method Partition(history: seq<KvOp>) returns (ret: seq<seq<KvOp>>, ghost keys: seq<string>)
    ensures KeysOf(history, keys) && |ret| == |keys|
    ensures forall i :: 0 <= i < |ret| ==> ret[i] == Part(history, keys[i])
    ensures WellTimed(history) ==>
              (Linearizable(WHOLE_STORE, history) <==> forall i :: 0 <= i < |ret| ==> Linearizable(ONE_KEY, ret[i]))
  {
    var m := GroupByKey(history);
    var sorted := StringKeys.SortedKeys(m);
    hide Part, Linearizable, WellTimed, KeyUsed, Sorting.Sorted;
    keys := sorted;
    ret := [];
    for i := 0 to |sorted|
      invariant |ret| == i && forall j :: 0 <= j < i ==> ret[j] == Part(history, sorted[j])
    {
      ret := ret + [m[sorted[i]]];
    }
    PartitionIsExact(history, keys, ret);
  }

  lemma PartitionIsExact(history: seq<KvOp>, keys: seq<string>, ret: seq<seq<KvOp>>)
    requires KeysOf(history, keys) && |ret| == |keys|
    requires forall i :: 0 <= i < |ret| ==> ret[i] == Part(history, keys[i])
    ensures WellTimed(history) ==>
              (Linearizable(WHOLE_STORE, history) <==> forall i :: 0 <= i < |ret| ==> Linearizable(ONE_KEY, ret[i]))
  {
    assert forall x :: 0 <= x < |history| ==> KeyUsed(history, history[x].input.key);
    hide Part, Linearizable, WellTimed;
    if Linearizable(WHOLE_STORE, history) {
      WholeImpliesParts(history, keys);
    }
    if WellTimed(history) && forall i :: 0 <= i < |ret| ==> Linearizable(ONE_KEY, ret[i]) {
      assert EveryPartLinearizable(history, keys);
      PartsImplyWhole(history, keys);
    }
  }
}
