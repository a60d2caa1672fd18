/**
 What it means for a concurrent history to be linearizable with respect to a
 sequential model (Herlihy and Wing, 1990).  Everything the checker promises is
 stated against the definitions of this module, which mention neither entries,
 nor lists, nor caches.
 */
module Linearizability {
  import opened FiniteSets

  /** One completed operation; `call` and `ret` are the invocation and response times. */
  datatype Operation<+I, +O> = Operation(clientId: int, input: I, call: int, output: O, ret: int)

  /** A sequential specification: the initial state, the step relation and the state equality. */
  datatype Model<!S, !I, !O> = Model(init: S, step: (S, I, O) -> (bool, S), equal: (S, S) -> bool)

  function Step<S, I, O>(m: Model<S, I, O>, s: S, input: I, output: O): (bool, S) {
    m.step(s, input, output)
  }

  predicate Accepts<S, I, O>(m: Model<S, I, O>, s: S, op: Operation<I, O>) {
    Step(m, s, op.input, op.output).0
  }

  function After<S, I, O>(m: Model<S, I, O>, s: S, op: Operation<I, O>): S {
    Step(m, s, op.input, op.output).1
  }

  predicate Same<S, I, O>(m: Model<S, I, O>, s: S, t: S) {
    m.equal(s, t)
  }

  /** What the checker needs of `equal`: equal states are interchangeable for `step`. */
  ghost predicate EqualIsCongruence<S(!new), I(!new), O(!new)>(m: Model<S, I, O>) {
    && (forall s: S :: Same(m, s, s))
    && (forall s: S, t: S, u: S :: Same(m, s, t) && Same(m, t, u) ==> Same(m, s, u))
    && (forall s: S, t: S, op: Operation<I, O> ::
          Same(m, s, t) && Accepts(m, s, op) ==>
            Accepts(m, t, op) && Same(m, After(m, s, op), After(m, t, op)))
  }

  ghost function Ids(order: seq<nat>): set<nat> {
    set x | x in order
  }

  predicate Distinct<T(==)>(s: seq<T>) {
    forall i, j :: 0 <= i < j < |s| ==> s[i] != s[j]
  }

  predicate InRange(order: seq<nat>, n: nat) {
    forall i :: 0 <= i < |order| ==> order[i] < n
  }

  predicate Permutation(order: seq<nat>, n: nat) {
    |order| == n && Distinct(order) && InRange(order, n)
  }

  /** The state reached by executing `order` one operation after the other. */
  function Run<S, I, O>(m: Model<S, I, O>, ops: seq<Operation<I, O>>, order: seq<nat>): S
    requires InRange(order, |ops|)
  {
    if order == [] then m.init
    else After(m, Run(m, ops, order[..|order| - 1]), ops[order[|order| - 1]])
  }

  /** Every operation of `order` is accepted in the state its predecessors lead to. */
  ghost predicate Legal<S, I, O>(m: Model<S, I, O>, ops: seq<Operation<I, O>>, order: seq<nat>)
    requires InRange(order, |ops|)
  {
    forall i :: 0 <= i < |order| ==> Accepts(m, Run(m, ops, order[..i]), ops[order[i]])
  }

  /** No operation is placed before one that had returned when it was called. */
  ghost predicate RespectsRealTime<I, O>(ops: seq<Operation<I, O>>, order: seq<nat>)
    requires InRange(order, |ops|)
  {
    forall i, j :: 0 <= i < j < |order| ==> ops[order[i]].call <= ops[order[j]].ret
  }

  ghost predicate Linearization<S, I, O>(m: Model<S, I, O>, ops: seq<Operation<I, O>>, order: seq<nat>) {
    Permutation(order, |ops|) && Legal(m, ops, order) && RespectsRealTime(ops, order)
  }

  ghost predicate Linearizable<S, I, O>(m: Model<S, I, O>, ops: seq<Operation<I, O>>) {
    exists order :: Linearization(m, ops, order)
  }

  /** Callers never report an operation that returned before it was called. */
  ghost predicate WellTimed<I, O>(ops: seq<Operation<I, O>>) {
    forall i :: 0 <= i < |ops| ==> ops[i].call <= ops[i].ret
  }

  // ---------------------------------------------------------------------
  // Partial linearizations

  /** `id` may come next once `done` are linearized: nothing else still pending returned before it was called. */
  ghost predicate Enabled<I, O>(ops: seq<Operation<I, O>>, done: set<nat>, id: nat)
    requires id < |ops|
  {
    forall j :: 0 <= j < |ops| && j !in done ==> ops[id].call <= ops[j].ret
  }

  /** A prefix of a would-be linearization: distinct, legal, and closed under "returned before". */
  ghost predicate PartialLinearization<S, I, O>(m: Model<S, I, O>, ops: seq<Operation<I, O>>, order: seq<nat>) {
    && Distinct(order)
    && InRange(order, |ops|)
    && Legal(m, ops, order)
    && forall i :: 0 <= i < |order| ==> Enabled(ops, Ids(order[..i]), order[i])
  }

  lemma PartialPrefix<S, I, O>(m: Model<S, I, O>, ops: seq<Operation<I, O>>, order: seq<nat>, k: nat)
    requires PartialLinearization(m, ops, order) && k <= |order|
    ensures PartialLinearization(m, ops, order[..k])
  {
    forall i | 0 <= i < k
      ensures Accepts(m, Run(m, ops, order[..k][..i]), ops[order[..k][i]])
      ensures Enabled(ops, Ids(order[..k][..i]), order[..k][i])
    {
      assert order[..k][..i] == order[..i];
    }
  }

  /** `id` is a possible next operation after the partial linearization `order`. */
  ghost predicate Extends<S, I, O>(m: Model<S, I, O>, ops: seq<Operation<I, O>>, order: seq<nat>, id: nat)
    requires InRange(order, |ops|)
  {
    id < |ops| && id !in order && Enabled(ops, Ids(order), id) && Accepts(m, Run(m, ops, order), ops[id])
  }

  lemma PartialExtend<S, I, O>(m: Model<S, I, O>, ops: seq<Operation<I, O>>, order: seq<nat>, id: nat)
    requires PartialLinearization(m, ops, order) && Extends(m, ops, order, id)
    ensures PartialLinearization(m, ops, order + [id])
  {
    hide Run, Enabled;
    var next := order + [id];
    forall i | 0 <= i < |next|
      ensures Accepts(m, Run(m, ops, next[..i]), ops[next[i]])
      ensures Enabled(ops, Ids(next[..i]), next[i])
    {
      assert next[..i] == order[..i];
      if i == |order| {
        assert next[..i] == order;
      } else {
        assert next[i] == order[i];
      }
    }
  }

  lemma PartialUnextend<S, I, O>(m: Model<S, I, O>, ops: seq<Operation<I, O>>, order: seq<nat>)
    requires PartialLinearization(m, ops, order) && order != []
    ensures PartialLinearization(m, ops, order[..|order| - 1])
    ensures Extends(m, ops, order[..|order| - 1], order[|order| - 1])
  {
    PartialPrefix(m, ops, order, |order| - 1);
  }

  lemma RunExtend<S, I, O>(m: Model<S, I, O>, ops: seq<Operation<I, O>>, order: seq<nat>, id: nat)
    requires InRange(order, |ops|) && id < |ops|
    ensures InRange(order + [id], |ops|)
    ensures Run(m, ops, order + [id]) == After(m, Run(m, ops, order), ops[id])
    ensures Ids(order + [id]) == Ids(order) + {id}
  {
    assert (order + [id])[..|order|] == order;
  }

  lemma LegalExtend<S, I, O>(m: Model<S, I, O>, ops: seq<Operation<I, O>>, order: seq<nat>, id: nat)
    requires InRange(order, |ops|) && id < |ops|
    ensures InRange(order + [id], |ops|)
    ensures Legal(m, ops, order + [id]) <==> Legal(m, ops, order) && Accepts(m, Run(m, ops, order), ops[id])
  {
    var next := order + [id];
    assert forall i :: 0 <= i <= |order| ==> next[..i] == order[..i];
    assert next[..|order|] == order && next[|order|] == id;
    if Legal(m, ops, next) {
      forall i | 0 <= i < |order|
        ensures Accepts(m, Run(m, ops, order[..i]), ops[order[i]])
      {
        assert Accepts(m, Run(m, ops, next[..i]), ops[next[i]]);
      }
      assert Accepts(m, Run(m, ops, next[..|order|]), ops[next[|order|]]);
    }
  }

  lemma {:induction false} DistinctCardinality(order: seq<nat>)
    requires Distinct(order)
    ensures |Ids(order)| == |order|
  {
    if order != [] {
      var front := order[..|order| - 1];
      DistinctCardinality(front);
      assert Ids(order) == Ids(front) + {order[|order| - 1]};
    }
  }

  lemma PartialLength<S, I, O>(m: Model<S, I, O>, ops: seq<Operation<I, O>>, order: seq<nat>)
    requires PartialLinearization(m, ops, order)
    ensures |order| <= |ops|
    ensures |order| == |ops| <==> Ids(order) == Range(|ops|)
  {
    DistinctCardinality(order);
    RangeCardinality(|ops|);
    SubsetCardinality(Ids(order), Range(|ops|));
  }

  /** A partial linearization of full length is a linearization, and conversely. */
  lemma FullPartialIsLinearization<S, I, O>(m: Model<S, I, O>, ops: seq<Operation<I, O>>, order: seq<nat>)
    requires WellTimed(ops)
    ensures Linearization(m, ops, order) <==> PartialLinearization(m, ops, order) && |order| == |ops|
  {
    if PartialLinearization(m, ops, order) {
      EnabledIsRealTime(ops, order);
    }
    if Linearization(m, ops, order) {
      PermutationCovers(order, |ops|);
      RealTimeIsEnabled(ops, order);
    }
  }

  lemma EnabledIsRealTime<I, O>(ops: seq<Operation<I, O>>, order: seq<nat>)
    requires Distinct(order) && InRange(order, |ops|)
    requires forall i :: 0 <= i < |order| ==> Enabled(ops, Ids(order[..i]), order[i])
    ensures RespectsRealTime(ops, order)
  {
    forall i, j | 0 <= i < j < |order|
      ensures ops[order[i]].call <= ops[order[j]].ret
    {
      assert order[j] !in order[..i];
      assert Enabled(ops, Ids(order[..i]), order[i]);
    }
  }

  lemma RealTimeIsEnabled<I, O>(ops: seq<Operation<I, O>>, order: seq<nat>)
    requires WellTimed(ops) && InRange(order, |ops|) && RespectsRealTime(ops, order)
    requires forall j :: 0 <= j < |ops| ==> j in order
    ensures forall i :: 0 <= i < |order| ==> Enabled(ops, Ids(order[..i]), order[i])
  {
    forall i, j | 0 <= i < |order| && 0 <= j < |ops| && j !in Ids(order[..i])
      ensures ops[order[i]].call <= ops[j].ret
    {
      assert j in order;
      var k :| 0 <= k < |order| && order[k] == j;
      assert k >= i by {
        assert order[..i] + order[i..] == order;
      }
    }
  }

  /** A permutation hits every index. */
  lemma PermutationCovers(order: seq<nat>, n: nat)
    requires Permutation(order, n)
    ensures forall j :: 0 <= j < n ==> j in order
  {
    DistinctCardinality(order);
    RangeCardinality(n);
    SubsetCardinality(Ids(order), Range(n));
    forall j | 0 <= j < n
      ensures j in order
    {
      assert j in Range(n);
    }
  }

  // ---------------------------------------------------------------------
  // Only inputs, outputs and "returned before" matter

  /** The same operations, and one returned before another was called in `a` exactly when it did in `b`. */
  ghost predicate SameHistory<I, O>(a: seq<Operation<I, O>>, b: seq<Operation<I, O>>) {
    && |a| == |b|
    && (forall i :: 0 <= i < |a| ==> a[i].input == b[i].input && a[i].output == b[i].output)
    && (forall i, j :: 0 <= i < |a| && 0 <= j < |a| ==> (a[i].call <= a[j].ret <==> b[i].call <= b[j].ret))
  }

  /** The operations of `order` have the same inputs and outputs in `a` and in `b`. */
  ghost predicate SameEffects<I, O>(a: seq<Operation<I, O>>, b: seq<Operation<I, O>>, order: seq<nat>) {
    && InRange(order, |a|) && InRange(order, |b|)
    && forall i :: 0 <= i < |order| ==>
         a[order[i]].input == b[order[i]].input && a[order[i]].output == b[order[i]].output
  }

  lemma {:induction false} SameRun<S, I, O>(
    m: Model<S, I, O>, a: seq<Operation<I, O>>, b: seq<Operation<I, O>>, order: seq<nat>)
    requires SameEffects(a, b, order)
    ensures Run(m, a, order) == Run(m, b, order)
  {
    if order != [] {
      SameRun(m, a, b, order[..|order| - 1]);
    }
  }

  lemma SameLegal<S, I, O>(m: Model<S, I, O>, a: seq<Operation<I, O>>, b: seq<Operation<I, O>>, order: seq<nat>)
    requires SameEffects(a, b, order) && Legal(m, a, order)
    ensures Legal(m, b, order)
  {
    forall i | 0 <= i < |order|
      ensures Accepts(m, Run(m, b, order[..i]), b[order[i]])
    {
      SameRun(m, a, b, order[..i]);
    }
  }

  lemma SameLinearizations<S, I, O>(
    m: Model<S, I, O>, a: seq<Operation<I, O>>, b: seq<Operation<I, O>>, order: seq<nat>)
    requires SameHistory(a, b) && Linearization(m, a, order)
    ensures Linearization(m, b, order)
  {
    SameLegal(m, a, b, order);
  }

  lemma SameLinearizability<S, I, O>(m: Model<S, I, O>, a: seq<Operation<I, O>>, b: seq<Operation<I, O>>)
    requires SameHistory(a, b)
    ensures Linearizable(m, a) <==> Linearizable(m, b)
  {
    if order :| Linearization(m, a, order) {
      SameLinearizations(m, a, b, order);
    }
    if order :| Linearization(m, b, order) {
      SameLinearizations(m, b, a, order);
    }
  }
}
