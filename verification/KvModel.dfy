/**
 The key/value model: its step function for one key, the same for a whole map
 of keys, and the law that lets the checker look at one key at a time (locality).
 */
module KvModel {
  import opened Linearizability

  /** `op` is 0 for a get, 1 for a put, 2 for an append, and otherwise an append with result. */
  datatype KvInput = KvInput(op: nat, key: string, value: string)
  datatype KvOutput = KvOutput(value: string)

  type KvOp = Operation<KvInput, KvOutput>

  function KvStep(st: string, inp: KvInput, out: KvOutput): (bool, string) {
    if inp.op == 0 then (out.value == st, st)
    else if inp.op == 1 then (true, inp.value)
    else if inp.op == 2 then (true, st + inp.value)
    else (out.value == st, st + inp.value)
  }

  /** The model of a single key, as the checker uses it. */
  const ONE_KEY: Model<string, KvInput, KvOutput> :=
    Model("", (st, inp, out) => KvStep(st, inp, out), (s, t) => s == t)

  type Store = map<string, string>

  function Lookup(st: Store, key: string): string {
    if key in st then st[key] else ""
  }

  function StoreStep(st: Store, inp: KvInput, out: KvOutput): (bool, Store) {
    var (ok, v) := KvStep(Lookup(st, inp.key), inp, out);
    (ok, if inp.op == 0 then st else st[inp.key := v])
  }

  /** The model of a whole store: a key that was never written reads as the empty string. */
  const WHOLE_STORE: Model<Store, KvInput, KvOutput> :=
    Model(map[], (st, inp, out) => StoreStep(st, inp, out), (s, t) => s == t)

  lemma OneKeyIsCongruent()
    ensures EqualIsCongruence(ONE_KEY)
  {
  }

  lemma StoreStepIsKvStep(st: Store, op: KvOp)
    ensures Accepts(WHOLE_STORE, st, op) <==> Accepts(ONE_KEY, Lookup(st, op.input.key), op)
    ensures forall k :: Lookup(After(WHOLE_STORE, st, op), k) ==
              if k == op.input.key then After(ONE_KEY, Lookup(st, k), op) else Lookup(st, k)
  {
  }

  // ---------------------------------------------------------------------
  // The operations on one key, within an order

  ghost function OnKey(ops: seq<KvOp>, order: seq<nat>, k: string): (r: seq<nat>)
    requires InRange(order, |ops|)
    ensures InRange(r, |ops|)
    ensures forall x :: x in r <==> x in order && ops[x].input.key == k
  {
    if order == [] then []
    else
      var front, last := order[..|order| - 1], order[|order| - 1];
      assert order == front + [last];
      if ops[last].input.key == k then OnKey(ops, front, k) + [last] else OnKey(ops, front, k)
  }

  lemma OnKeyExtend(ops: seq<KvOp>, order: seq<nat>, id: nat, k: string)
    requires InRange(order, |ops|) && id < |ops|
    ensures InRange(order + [id], |ops|)
    ensures OnKey(ops, order + [id], k) ==
              if ops[id].input.key == k then OnKey(ops, order, k) + [id] else OnKey(ops, order, k)
  {
    assert (order + [id])[..|order|] == order;
  }

  /** What a key holds after a run of the store depends on the operations on that key only. */
  lemma {:induction false} RunByKey(ops: seq<KvOp>, order: seq<nat>, k: string)
    requires InRange(order, |ops|)
    ensures Lookup(Run(WHOLE_STORE, ops, order), k) == Run(ONE_KEY, ops, OnKey(ops, order, k))
  {
    if order != [] {
      var front, last := order[..|order| - 1], order[|order| - 1];
      assert order == front + [last];
      RunByKey(ops, front, k);
      OnKeyExtend(ops, front, last, k);
      RunExtend(WHOLE_STORE, ops, front, last);
      RunExtend(ONE_KEY, ops, OnKey(ops, front, k), last);
      StoreStepIsKvStep(Run(WHOLE_STORE, ops, front), ops[last]);
    }
  }

  ghost predicate KeyLegal(ops: seq<KvOp>, order: seq<nat>, k: string)
    requires InRange(order, |ops|)
  {
    Legal(ONE_KEY, ops, OnKey(ops, order, k))
  }

  lemma KeyLegalExtend(ops: seq<KvOp>, order: seq<nat>, id: nat, k: string)
    requires InRange(order, |ops|) && id < |ops|
    ensures InRange(order + [id], |ops|)
    ensures KeyLegal(ops, order + [id], k) <==>
              KeyLegal(ops, order, k)
                && (ops[id].input.key == k ==> Accepts(WHOLE_STORE, Run(WHOLE_STORE, ops, order), ops[id]))
  {
    hide Legal, Run, Accepts;
    OnKeyExtend(ops, order, id, k);
    StoreStepIsKvStep(Run(WHOLE_STORE, ops, order), ops[id]);
    RunByKey(ops, order, k);
    LegalExtend(ONE_KEY, ops, OnKey(ops, order, k), id);
  }

  /** A run of the store is legal exactly when its restriction to each key is. */
  lemma {:induction false} LegalByKey(ops: seq<KvOp>, order: seq<nat>)
    requires InRange(order, |ops|)
    ensures Legal(WHOLE_STORE, ops, order) <==> forall k :: KeyLegal(ops, order, k)
  {
    if order != [] {
      var front, last := order[..|order| - 1], order[|order| - 1];
      LegalByKey(ops, front);
      LegalExtend(WHOLE_STORE, ops, front, last);
      hide *;
      assert order == front + [last];
      forall k
        ensures KeyLegal(ops, order, k) <==>
                  KeyLegal(ops, front, k)
                    && (ops[last].input.key == k ==> Accepts(WHOLE_STORE, Run(WHOLE_STORE, ops, front), ops[last]))
      {
        KeyLegalExtend(ops, front, last, k);
      }
      assert KeyLegal(ops, order, ops[last].input.key) ==>
          Accepts(WHOLE_STORE, Run(WHOLE_STORE, ops, front), ops[last]);
    }
  }

  // ---------------------------------------------------------------------
  // Merging orders that do not share keys

  ghost function MaxCall<I, O>(ops: seq<Operation<I, O>>, order: seq<nat>): int
    requires InRange(order, |ops|) && order != []
  {
    var last := ops[order[|order| - 1]].call;
    if |order| == 1 then last
    else var m := MaxCall(ops, order[..|order| - 1]); if last < m then m else last
  }

  lemma {:induction false} MaxCallIsMax<I, O>(ops: seq<Operation<I, O>>, order: seq<nat>)
    requires InRange(order, |ops|) && order != []
    ensures forall i :: 0 <= i < |order| ==> ops[order[i]].call <= MaxCall(ops, order)
    ensures exists i :: 0 <= i < |order| && ops[order[i]].call == MaxCall(ops, order)
  {
    if |order| > 1 {
      var front := order[..|order| - 1];
      MaxCallIsMax(ops, front);
      var i :| 0 <= i < |front| && ops[front[i]].call == MaxCall(ops, front);
      assert order[i] == front[i];
    }
    assert ops[order[|order| - 1]].call <= MaxCall(ops, order);
  }

  /** Interleaves two orders, from the end: the one with the later latest call gives the last operation. */
  ghost function Merge<I, O>(ops: seq<Operation<I, O>>, a: seq<nat>, b: seq<nat>): (c: seq<nat>)
    requires InRange(a, |ops|) && InRange(b, |ops|)
    ensures InRange(c, |ops|) && |c| == |a| + |b|
    ensures forall x :: x in c <==> x in a || x in b
    decreases |a| + |b|
  {
    if a == [] then b
    else if b == [] then a
    else if MaxCall(ops, a) <= MaxCall(ops, b) then
      assert b == b[..|b| - 1] + [b[|b| - 1]];
      Merge(ops, a, b[..|b| - 1]) + [b[|b| - 1]]
    else
      assert a == a[..|a| - 1] + [a[|a| - 1]];
      Merge(ops, a[..|a| - 1], b) + [a[|a| - 1]]
  }

  lemma RealTimeExtend<I, O>(ops: seq<Operation<I, O>>, order: seq<nat>, id: nat)
    requires InRange(order, |ops|) && id < |ops|
    ensures InRange(order + [id], |ops|)
    ensures RespectsRealTime(ops, order + [id]) <==>
              RespectsRealTime(ops, order) && forall x :: x in order ==> ops[x].call <= ops[id].ret
  {
    var next := order + [id];
    if RespectsRealTime(ops, next) {
      forall i, j | 0 <= i < j < |order|
        ensures ops[order[i]].call <= ops[order[j]].ret
      {
        assert ops[next[i]].call <= ops[next[j]].ret;
      }
      forall x | x in order
        ensures ops[x].call <= ops[id].ret
      {
        var i :| 0 <= i < |order| && order[i] == x;
        assert ops[next[i]].call <= ops[next[|order|]].ret;
      }
    }
  }

  /** Everything in `a` was called before the last operation of `b` returned. */
  lemma LastIsLate<I, O>(ops: seq<Operation<I, O>>, a: seq<nat>, b: seq<nat>)
    requires WellTimed(ops) && InRange(a, |ops|) && InRange(b, |ops|) && a != [] && b != []
    requires RespectsRealTime(ops, b) && MaxCall(ops, a) <= MaxCall(ops, b)
    ensures forall x :: x in a || x in b ==> ops[x].call <= ops[b[|b| - 1]].ret
  {
    hide MaxCall;
    MaxCallIsMax(ops, a);
    MaxCallIsMax(ops, b);
    var last := |b| - 1;
    assert forall i :: 0 <= i < |b| ==> ops[b[i]].call <= ops[b[last]].ret;
    var i :| 0 <= i < |b| && ops[b[i]].call == MaxCall(ops, b);
    forall x | x in a
      ensures ops[x].call <= ops[b[last]].ret
    {
      var j :| 0 <= j < |a| && a[j] == x;
    }
    forall x | x in b
      ensures ops[x].call <= ops[b[last]].ret
    {
      var j :| 0 <= j < |b| && b[j] == x;
    }
  }

  lemma MergeUnfolds<I, O>(ops: seq<Operation<I, O>>, a: seq<nat>, b: seq<nat>)
    requires InRange(a, |ops|) && InRange(b, |ops|) && a != [] && b != []
    ensures InRange(a[..|a| - 1], |ops|) && InRange(b[..|b| - 1], |ops|)
    ensures a == a[..|a| - 1] + [a[|a| - 1]] && b == b[..|b| - 1] + [b[|b| - 1]]
    ensures a[|a| - 1] < |ops| && b[|b| - 1] < |ops|
    ensures Merge(ops, a, b) == if MaxCall(ops, a) <= MaxCall(ops, b) then Merge(ops, a, b[..|b| - 1]) + [b[|b| - 1]]
                                else Merge(ops, a[..|a| - 1], b) + [a[|a| - 1]]
  {
  }

  /** The interleaving never puts an operation before one that had returned when it was called. */
  lemma {:induction false} MergeRespectsRealTime<I, O>(ops: seq<Operation<I, O>>, a: seq<nat>, b: seq<nat>)
    requires WellTimed(ops) && InRange(a, |ops|) && InRange(b, |ops|)
    requires RespectsRealTime(ops, a) && RespectsRealTime(ops, b)
    ensures RespectsRealTime(ops, Merge(ops, a, b))
    decreases |a| + |b|
  {
    if a != [] && b != [] {
      hide *;
      MergeUnfolds(ops, a, b);
      if MaxCall(ops, a) <= MaxCall(ops, b) {
        LastIsLate(ops, a, b);
        RealTimeExtend(ops, b[..|b| - 1], b[|b| - 1]);
        MergeRespectsRealTime(ops, a, b[..|b| - 1]);
        RealTimeExtend(ops, Merge(ops, a, b[..|b| - 1]), b[|b| - 1]);
      } else {
        LastIsLate(ops, b, a);
        RealTimeExtend(ops, a[..|a| - 1], a[|a| - 1]);
        MergeRespectsRealTime(ops, a[..|a| - 1], b);
        RealTimeExtend(ops, Merge(ops, a[..|a| - 1], b), a[|a| - 1]);
      }
    }
  }

  lemma {:induction false} MergeIsDistinct<I, O>(ops: seq<Operation<I, O>>, a: seq<nat>, b: seq<nat>)
    requires InRange(a, |ops|) && InRange(b, |ops|)
    requires Distinct(a) && Distinct(b) && forall x :: x in a ==> x !in b
    ensures Distinct(Merge(ops, a, b))
    decreases |a| + |b|
  {
    if a != [] && b != [] {
      if MaxCall(ops, a) <= MaxCall(ops, b) {
        DistinctFront(b);
        MergeIsDistinct(ops, a, b[..|b| - 1]);
      } else {
        DistinctFront(a);
        MergeIsDistinct(ops, a[..|a| - 1], b);
      }
    }
  }

  lemma DistinctFront(a: seq<nat>)
    requires Distinct(a) && a != []
    ensures Distinct(a[..|a| - 1]) && a[|a| - 1] !in a[..|a| - 1]
    ensures forall x :: x in a[..|a| - 1] ==> x in a
  {
  }

  /** The numbers in `a` are on other keys than `key`, those in `b` on `key`. */
  ghost predicate Apart(ops: seq<KvOp>, a: seq<nat>, b: seq<nat>, key: string) {
    && InRange(a, |ops|) && InRange(b, |ops|)
    && (forall x :: x in a ==> ops[x].input.key != key)
    && (forall x :: x in b ==> ops[x].input.key == key)
  }

  lemma ApartFronts(ops: seq<KvOp>, a: seq<nat>, b: seq<nat>, key: string)
    requires Apart(ops, a, b, key)
    ensures InRange(a, |ops|) && InRange(b, |ops|)
    ensures a != [] ==> Apart(ops, a[..|a| - 1], b, key) && ops[a[|a| - 1]].input.key != key
    ensures b != [] ==> Apart(ops, a, b[..|b| - 1], key) && ops[b[|b| - 1]].input.key == key
  {
    assert b != [] ==> b[|b| - 1] in b;
    assert a != [] ==> a[|a| - 1] in a;
  }

  /** Restricting the interleaving to a key gives back the order it came from. */
  lemma {:induction false} MergeOnKey(ops: seq<KvOp>, a: seq<nat>, b: seq<nat>, key: string, k: string)
    requires Apart(ops, a, b, key)
    ensures OnKey(ops, Merge(ops, a, b), k) == if k == key then b else OnKey(ops, a, k)
    decreases |a| + |b|
  {
    ApartFronts(ops, a, b, key);
    if a == [] {
      OnlyKey(ops, b, key, k);
    } else if b == [] {
      OnlyOthers(ops, a, key);
    } else {
      hide *;
      MergeUnfolds(ops, a, b);
      if MaxCall(ops, a) <= MaxCall(ops, b) {
        MergeOnKey(ops, a, b[..|b| - 1], key, k);
        OnKeyExtend(ops, Merge(ops, a, b[..|b| - 1]), b[|b| - 1], k);
      } else {
        MergeOnKey(ops, a[..|a| - 1], b, key, k);
        OnKeyExtend(ops, Merge(ops, a[..|a| - 1], b), a[|a| - 1], k);
        OnKeyExtend(ops, a[..|a| - 1], a[|a| - 1], k);
      }
    }
  }

  lemma {:induction false} OnlyKey(ops: seq<KvOp>, b: seq<nat>, key: string, k: string)
    requires InRange(b, |ops|) && forall x :: x in b ==> ops[x].input.key == key
    ensures OnKey(ops, b, k) == if k == key then b else []
  {
    if b != [] {
      OnlyKey(ops, b[..|b| - 1], key, k);
    }
  }

  lemma {:induction false} OnlyOthers(ops: seq<KvOp>, a: seq<nat>, key: string)
    requires InRange(a, |ops|) && forall x :: x in a ==> ops[x].input.key != key
    ensures OnKey(ops, a, key) == []
  {
    if a != [] {
      OnlyOthers(ops, a[..|a| - 1], key);
    }
  }
}
