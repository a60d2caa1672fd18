/**
 What the server answers is linearizable in every run: the operations took
 effect in the order the server executed them, each write once.
 */
module KvLinearizable {
  import opened Linearizability
  import opened KvModel
  import opened KvMeaning
  import opened KvServer
  import opened KvClerks
  import Counting = FiniteSets

  /** The answer to the operation; a Put has none. */
  function Output(op: Op): string {
    if op.input.op == 1 then "" else op.result
  }

  /** The answers of the server; an operation that has not returned may still take until now. */
  function HistoryOf(ops: seq<Op>, now: int): (h: seq<KvOp>)
    ensures |h| == |ops|
    ensures forall i :: 0 <= i < |ops| ==>
              h[i] == Operation(ops[i].clerk, ops[i].input, ops[i].call, KvOutput(Output(ops[i])),
                                if ops[i].phase.Done? then ops[i].phase.ret else now)
  {
    seq(|ops|, i requires 0 <= i < |ops| =>
      Operation(ops[i].clerk, ops[i].input, ops[i].call, KvOutput(Output(ops[i])),
                if ops[i].phase.Done? then ops[i].phase.ret else now))
  }

  function History(s: World): seq<KvOp> {
    HistoryOf(s.ops, s.now)
  }

  // ---------------------------------------------------------------------
  // The order of effects

  ghost predicate Ordered(ops: seq<Op>, order: seq<nat>) {
    && InRange(order, |ops|)
    && (forall a, b :: 0 <= a < b < |order| ==> ops[order[a]].point < ops[order[b]].point)
  }

  ghost predicate OrderInv(s: World) {
    && Ordered(s.ops, s.order)
    && forall i: nat :: i in s.order <==> i < |s.ops| && s.ops[i].applied
  }

  /** Executing the order of effects is legal and leads to the store the server has. */
  ghost predicate StoreInv(s: World) {
    && InRange(s.order, |s.ops|)
    && Legal(WHOLE_STORE, History(s), s.order)
    && forall k :: Lookup(Run(WHOLE_STORE, History(s), s.order), k) == ValueOf(s.server, k)
  }

  // ---------------------------------------------------------------------
  // Taking a read out of an order

  lemma {:induction false} DropRead<S(!new), I, O>(
    m: Model<S, I, O>, ops: seq<Operation<I, O>>, a: seq<nat>, x: nat, b: seq<nat>)
    requires InRange(a, |ops|) && x < |ops| && InRange(b, |ops|)
    requires forall s :: After(m, s, ops[x]) == s
    ensures InRange(a + [x] + b, |ops|) && InRange(a + b, |ops|)
    ensures Run(m, ops, a + [x] + b) == Run(m, ops, a + b)
    ensures Legal(m, ops, a + [x] + b) ==> Legal(m, ops, a + b)
  {
    hide Run, Legal, InRange, Accepts;
    if b == [] {
      RunExtend(m, ops, a, x);
      LegalExtend(m, ops, a, x);
      assert a + [x] + b == a + [x] && a + b == a;
    } else {
      var front, last := b[..|b| - 1], b[|b| - 1];
      PrefixInRange(b, |ops|);
      DropRead(m, ops, a, x, front);
      RunExtend(m, ops, a + [x] + front, last);
      RunExtend(m, ops, a + front, last);
      LegalExtend(m, ops, a + [x] + front, last);
      LegalExtend(m, ops, a + front, last);
      assert a + [x] + b == (a + [x] + front) + [last];
      assert a + b == (a + front) + [last];
    }
  }

  lemma {:induction false} WithoutSplits(order: seq<nat>, id: nat) returns (p: nat)
    requires Distinct(order) && id in order
    ensures p < |order| && order[p] == id && Without(order, id) == order[..p] + order[p + 1..]
  {
    var front, last := order[..|order| - 1], order[|order| - 1];
    if last == id {
      p := |order| - 1;
      WithoutNothing(front, id);
    } else {
      p := WithoutSplits(front, id);
      assert order[..p] == front[..p] && order[p + 1..] == front[p + 1..] + [last];
    }
  }

  lemma {:induction false} WithoutNothing(order: seq<nat>, id: nat)
    requires id !in order
    ensures Without(order, id) == order
  {
    if order != [] {
      WithoutNothing(order[..|order| - 1], id);
    }
  }

  // ---------------------------------------------------------------------
  // Steps without effect

  /** The operations in `order` keep what they did. */
  ghost predicate SameDeeds(a: seq<Op>, b: seq<Op>, order: seq<nat>) {
    && InRange(order, |a|) && InRange(order, |b|)
    && forall i :: 0 <= i < |order| ==>
         && b[order[i]].input == a[order[i]].input && b[order[i]].result == a[order[i]].result
         && b[order[i]].point == a[order[i]].point
  }

  lemma DeedsAreEffects(a: seq<Op>, now: int, b: seq<Op>, later: int, order: seq<nat>)
    requires SameDeeds(a, b, order)
    ensures SameEffects(HistoryOf(a, now), HistoryOf(b, later), order)
  {
  }

  lemma StoreKept(s: World, t: World)
    requires StoreInv(s) && t.order == s.order && SameDeeds(s.ops, t.ops, s.order)
    requires forall k :: ValueOf(t.server, k) == ValueOf(s.server, k)
    ensures StoreInv(t)
  {
    DeedsAreEffects(s.ops, s.now, t.ops, t.now, s.order);
    hide Run, Legal, ValueOf, Lookup, HistoryOf;
    SameRun(WHOLE_STORE, History(s), History(t), s.order);
    SameLegal(WHOLE_STORE, History(s), History(t), s.order);
  }

  lemma OrderKept(s: World, t: World)
    requires OrderInv(s) && t.order == s.order && SameDeeds(s.ops, t.ops, s.order) && |t.ops| >= |s.ops|
    requires forall i :: 0 <= i < |s.ops| ==> t.ops[i].applied == s.ops[i].applied
    requires forall i :: |s.ops| <= i < |t.ops| ==> !t.ops[i].applied
    ensures OrderInv(t)
  {
  }

  /** Every step but a first execution or the loss of a Get's reply. */
  ghost predicate Idle(ids: seq<int>, s: World, a: Action) {
    match a
    case Execute(i) => i < |s.ops| && IsWrite(s.ops[i]) && s.ops[i].applied
    case LoseReply(i) => i < |s.ops| && IsWrite(s.ops[i])
    case _ => true
  }

  lemma IdleDeeds(ids: seq<int>, s: World, a: Action, t: World)
    requires ClerksInv(ids, s) && OrderInv(s) && Next(ids, s, a, t) && Idle(ids, s, a)
    ensures t.order == s.order && |t.ops| >= |s.ops| && SameDeeds(s.ops, t.ops, s.order)
    ensures forall i :: 0 <= i < |s.ops| ==> t.ops[i].applied == s.ops[i].applied
    ensures forall i :: |s.ops| <= i < |t.ops| ==> !t.ops[i].applied
    ensures forall k :: ValueOf(t.server, k) == ValueOf(s.server, k)
  {
    if a.Execute? {
      ExecuteWriteOk(ids, s, a.id);
      hide ClerksInv, Serve;
    }
    hide ClerksInv;
  }

  lemma IdleStep(ids: seq<int>, s: World, a: Action, t: World)
    requires ClerksInv(ids, s) && OrderInv(s) && StoreInv(s) && Next(ids, s, a, t) && Idle(ids, s, a)
    ensures OrderInv(t) && StoreInv(t)
  {
    hide ClerksInv, OrderInv, StoreInv, Next, Idle, SameDeeds, ValueOf;
    IdleDeeds(ids, s, a, t);
    OrderKept(s, t);
    StoreKept(s, t);
  }

  // ---------------------------------------------------------------------
  // Taking effect

  lemma EffectOrder(s: World, t: World, i: nat)
    requires OrderInv(s) && i < |s.ops| && !s.ops[i].applied && t.order == s.order + [i] && |t.ops| == |s.ops|
    requires forall j :: 0 <= j < |s.ops| && j != i ==> t.ops[j] == s.ops[j]
    requires t.ops[i].applied && forall j :: 0 <= j < |s.ops| && s.ops[j].applied ==> s.ops[j].point < t.ops[i].point
    ensures OrderInv(t) && SameDeeds(s.ops, t.ops, s.order)
  {
    forall j | 0 <= j < |s.order|
      ensures s.order[j] != i && s.ops[s.order[j]].applied
    {
      assert s.order[j] in s.order;
    }
  }

  /** The model accepts the operation in the present store and leads to the new one. */
  ghost predicate Fits(s: World, t: World, op: KvOp) {
    var out := op.output.value;
    var before := ValueOf(s.server, op.input.key);
    && (op.input.op == 0 || op.input.op > 2 ==> out == before)
    && forall k :: ValueOf(t.server, k) ==
         if k != op.input.key || op.input.op == 0 then ValueOf(s.server, k)
         else if op.input.op == 1 then op.input.value else before + op.input.value
  }

  lemma EffectStore(s: World, t: World, i: nat)
    requires StoreInv(s) && i < |t.ops| && t.order == s.order + [i] && SameDeeds(s.ops, t.ops, s.order)
    requires Fits(s, t, History(t)[i])
    ensures StoreInv(t)
  {
    DeedsAreEffects(s.ops, s.now, t.ops, t.now, s.order);
    var op := History(t)[i];
    hide Run, Legal, ValueOf, HistoryOf, SameDeeds;
    SameRun(WHOLE_STORE, History(s), History(t), s.order);
    SameLegal(WHOLE_STORE, History(s), History(t), s.order);
    RunExtend(WHOLE_STORE, History(t), s.order, i);
    LegalExtend(WHOLE_STORE, History(t), s.order, i);
    StoreStepIsKvStep(Run(WHOLE_STORE, History(t), s.order), op);
    FitsModel(s, t, Run(WHOLE_STORE, History(t), s.order), op);
  }

  lemma FitsModel(s: World, t: World, st: Store, op: KvOp)
    requires Fits(s, t, op) && forall k :: Lookup(st, k) == ValueOf(s.server, k)
    ensures Accepts(WHOLE_STORE, st, op)
    ensures forall k :: Lookup(After(WHOLE_STORE, st, op), k) == ValueOf(t.server, k)
  {
    StoreStepIsKvStep(st, op);
    hide ValueOf, Lookup;
  }

  lemma ExecuteFits(ids: seq<int>, s: World, i: nat, t: World)
    requires ClerksInv(ids, s) && Next(ids, s, Execute(i), t) && !Idle(ids, s, Execute(i))
    ensures !s.ops[i].applied && t.order == s.order + [i] && |t.ops| == |s.ops| && t.ops[i].applied
    ensures t.ops == s.ops[i := t.ops[i]] && t.ops[i].point == s.now
    ensures Fits(s, t, History(t)[i])
  {
    assert OpOk(ids, s, i);
    if IsWrite(s.ops[i]) {
      ExecuteWriteOk(ids, s, i);
      hide ClerksInv;
    } else {
      hide ClerksInv;
    }
  }

  lemma ExecuteEffect(ids: seq<int>, s: World, i: nat, t: World)
    requires ClerksInv(ids, s) && OrderInv(s) && StoreInv(s)
    requires Next(ids, s, Execute(i), t) && !Idle(ids, s, Execute(i))
    ensures OrderInv(t) && StoreInv(t)
  {
    ExecuteFits(ids, s, i, t);
    forall j: nat | j < |s.ops| && s.ops[j].applied
      ensures s.ops[j].point < s.now
    {
      assert OpOk(ids, s, j);
    }
    hide ClerksInv, OrderInv, StoreInv, Fits, SameDeeds;
    EffectOrder(s, t, i);
    EffectStore(s, t, i);
  }

  // ---------------------------------------------------------------------
  // A Get whose reply is lost

  lemma LostFacts(ids: seq<int>, s: World, i: nat, t: World)
    requires ClerksInv(ids, s) && OrderInv(s) && Next(ids, s, LoseReply(i), t) && !IsWrite(s.ops[i])
    ensures i in s.order && t.order == Without(s.order, i) && t.server == s.server && |t.ops| == |s.ops|
    ensures t.ops == s.ops[i := t.ops[i]] && !t.ops[i].applied
    ensures t.ops[i].input == s.ops[i].input && t.ops[i].result == s.ops[i].result && t.ops[i].point == s.ops[i].point
  {
    assert OpOk(ids, s, i);
    hide ClerksInv, Ordered;
  }

  lemma OrderParts(s: World)
    requires OrderInv(s)
    ensures Ordered(s.ops, s.order) && Distinct(s.order) && InRange(s.order, |s.ops|)
  {
  }

  lemma UnchangedDeeds(a: seq<Op>, b: seq<Op>, i: nat, order: seq<nat>)
    requires i < |a| == |b| && b == a[i := b[i]] && InRange(order, |b|)
    requires b[i].input == a[i].input && b[i].result == a[i].result && b[i].point == a[i].point
    ensures SameDeeds(a, b, order)
  {
  }

  lemma LostGet(ids: seq<int>, s: World, i: nat, t: World)
    requires ClerksInv(ids, s) && OrderInv(s) && StoreInv(s) && Next(ids, s, LoseReply(i), t) && !IsWrite(s.ops[i])
    ensures OrderInv(t) && StoreInv(t)
  {
    hide ClerksInv, OrderInv, StoreInv, SameDeeds, Effect, Without, Distinct, InRange, Ordered, IsWrite;
    LostFacts(ids, s, i, t);
    OrderParts(s);
    var p := WithoutSplits(s.order, i);
    LostOrder(s, t, i, p);
    OrderParts(t);
    UnchangedDeeds(s.ops, t.ops, i, t.order);
    assert s.order == s.order[..p] + [i] + s.order[p + 1..];
    LostStore(s, t, i, s.order[..p], s.order[p + 1..]);
  }

  lemma OrderedIsDistinct(ops: seq<Op>, order: seq<nat>)
    requires Ordered(ops, order)
    ensures Distinct(order)
  {
  }

  lemma LostOrder(s: World, t: World, i: nat, p: nat)
    requires OrderInv(s) && p < |s.order| && s.order[p] == i && t.order == s.order[..p] + s.order[p + 1..]
    requires i < |s.ops| == |t.ops| && t.ops == s.ops[i := t.ops[i]] && !t.ops[i].applied
    requires t.ops[i].point == s.ops[i].point
    ensures OrderInv(t)
  {
    OrderedIsDistinct(s.ops, s.order);
    forall j: nat
      ensures j in t.order <==> j in s.order && j != i
    {
      RemovedMembers(s.order, p, j);
    }
    hide Distinct;
  }

  lemma RemovedMembers(order: seq<nat>, p: nat, j: nat)
    requires Distinct(order) && p < |order|
    ensures j in order[..p] + order[p + 1..] <==> j in order && j != order[p]
  {
    var rest := order[..p] + order[p + 1..];
    if j in order && j != order[p] {
      var q :| 0 <= q < |order| && order[q] == j;
      assert rest[if q < p then q else q - 1] == j;
    }
  }

  lemma LostStore(s: World, t: World, i: nat, a: seq<nat>, b: seq<nat>)
    requires StoreInv(s) && i < |s.ops| && !IsWrite(s.ops[i]) && s.order == a + [i] + b && t.order == a + b
    requires t.server == s.server && |t.ops| == |s.ops| && SameDeeds(s.ops, t.ops, a + b)
    ensures StoreInv(t)
  {
    DeedsAreEffects(s.ops, s.now, t.ops, t.now, a + b);
    forall st
      ensures After(WHOLE_STORE, st, History(s)[i]) == st
    {
    }
    assert InRange(a, |s.ops|) && InRange(b, |s.ops|) by {
      assert forall j :: 0 <= j < |a| ==> a[j] == s.order[j];
      assert forall j :: 0 <= j < |b| ==> b[j] == s.order[|a| + 1 + j];
    }
    hide Run, Legal, HistoryOf, SameDeeds, After;
    DropRead(WHOLE_STORE, History(s), a, i, b);
    SameRun(WHOLE_STORE, History(s), History(t), a + b);
    SameLegal(WHOLE_STORE, History(s), History(t), a + b);
  }

  // ---------------------------------------------------------------------
  // Every run

  ghost predicate StepAt(ids: seq<int>, run: seq<World>, actions: seq<Action>, i: nat)
    requires i + 1 < |run| && i < |actions|
  {
    Next(ids, run[i], actions[i], run[i + 1])
  }

  /** Clerks with distinct ids. */
  ghost predicate ClerkRun(ids: seq<int>, run: seq<World>, actions: seq<Action>) {
    && Distinct(ids) && |run| == |actions| + 1 && Init(ids, run[0])
    && forall i: nat :: i < |actions| ==> StepAt(ids, run, actions, i)
  }

  lemma NextOrder(ids: seq<int>, s: World, a: Action, t: World)
    requires ClerksInv(ids, s) && OrderInv(s) && StoreInv(s) && Next(ids, s, a, t)
    ensures OrderInv(t) && StoreInv(t)
  {
    if Idle(ids, s, a) {
      hide *;
      IdleStep(ids, s, a, t);
    } else if a.Execute? {
      hide *;
      ExecuteEffect(ids, s, a.id, t);
    } else {
      hide ClerksInv, OrderInv, StoreInv, Effect;
      LostGet(ids, s, a.id, t);
    }
  }

  lemma InitOrder(ids: seq<int>, s: World)
    requires Init(ids, s) && Distinct(ids)
    ensures ClerksInv(ids, s) && OrderInv(s) && StoreInv(s)
  {
  }

  lemma {:induction false} EveryWorld(ids: seq<int>, run: seq<World>, actions: seq<Action>, i: nat)
    requires ClerkRun(ids, run, actions) && i < |run|
    ensures ClerksInv(ids, run[i]) && OrderInv(run[i]) && StoreInv(run[i])
  {
    hide ClerksInv, OrderInv, StoreInv, Next, Init;
    if i == 0 {
      InitOrder(ids, run[0]);
    } else {
      EveryWorld(ids, run, actions, i - 1);
      assert StepAt(ids, run, actions, i - 1);
      NextClerks(ids, run[i - 1], actions[i - 1], run[i]);
      NextOrder(ids, run[i - 1], actions[i - 1], run[i]);
    }
  }

  /** Effects happen between call and return, so the order of effects respects real time. */
  lemma EffectsRespectRealTime(ids: seq<int>, s: World)
    requires ClerksInv(ids, s) && OrderInv(s)
    ensures RespectsRealTime(History(s), s.order)
  {
    forall a, b | 0 <= a < b < |s.order|
      ensures History(s)[s.order[a]].call <= History(s)[s.order[b]].ret
    {
      assert s.order[a] in s.order && s.order[b] in s.order;
      assert OpOk(ids, s, s.order[a]) && OpOk(ids, s, s.order[b]);
    }
  }

  /**
   At every moment of a run: the operations that took effect include all that
   have returned, and in the order of their effects the server's answers are a
   legal history of the whole store that respects real time.
   */
  lemma EveryMomentLinearizes(ids: seq<int>, run: seq<World>, actions: seq<Action>, i: nat)
    requires ClerkRun(ids, run, actions) && i < |run|
    ensures var (s, h) := (run[i], History(run[i]));
            && Distinct(s.order) && InRange(s.order, |h|) && Legal(WHOLE_STORE, h, s.order)
            && RespectsRealTime(h, s.order)
            && (forall id: nat :: id < |s.ops| && s.ops[id].phase.Done? ==> id in s.order)
            && (forall k :: Lookup(Run(WHOLE_STORE, h, s.order), k) == ValueOf(s.server, k))
  {
    EveryWorld(ids, run, actions, i);
    EffectsRespectRealTime(ids, run[i]);
    OrderParts(run[i]);
    var s := run[i];
    forall id: nat | id < |s.ops| && s.ops[id].phase.Done?
      ensures id in s.order
    {
      assert OpOk(ids, s, id);
    }
  }

  ghost predicate AllReturned(s: World) {
    forall id :: 0 <= id < |s.ops| ==> s.ops[id].phase.Done?
  }

  /** When all operations have returned, the server's answers are linearizable. */
  lemma ServerHistoryLinearizable(ids: seq<int>, run: seq<World>, actions: seq<Action>, i: nat)
    requires ClerkRun(ids, run, actions) && i < |run| && AllReturned(run[i])
    ensures Linearization(WHOLE_STORE, History(run[i]), run[i].order) && WellTimed(History(run[i]))
  {
    EveryMomentLinearizes(ids, run, actions, i);
    EveryWorld(ids, run, actions, i);
    var (s, h) := (run[i], History(run[i]));
    forall id | 0 <= id < |h|
      ensures h[id].call <= h[id].ret
    {
      assert OpOk(ids, s, id);
    }
    hide Legal, RespectsRealTime, Run, ClerksInv, StoreInv, OrderInv, HistoryOf;
    CoveringLength(s.order, |h|);
  }

  lemma CoveringLength(order: seq<nat>, n: nat)
    requires Distinct(order) && InRange(order, n) && forall id: nat :: id < n ==> id in order
    ensures Permutation(order, n)
  {
    DistinctCardinality(order);
    Counting.RangeCardinality(n);
    assert Ids(order) == Counting.Range(n);
  }

  /** A repeated execution changes nothing and gives the reply of the first. */
  lemma RetryIsHarmless(ids: seq<int>, run: seq<World>, actions: seq<Action>, i: nat, id: nat)
    requires ClerkRun(ids, run, actions) && i < |actions| && actions[i] == Execute(id)
    requires id < |run[i].ops| == |run[i + 1].ops| && IsWrite(run[i].ops[id]) && run[i].ops[id].applied
    ensures run[i + 1].server == run[i].server && run[i + 1].order == run[i].order
    ensures run[i + 1].ops[id].phase == Executed(run[i].ops[id].result)
  {
    EveryWorld(ids, run, actions, i);
    assert StepAt(ids, run, actions, i);
    ExecuteWriteOk(ids, run[i], id);
    hide Serve, ClerksInv, OrderInv, StoreInv;
  }

  /** Had the server given any other answer to a Get or an Append, its answers would not be legal in that order. */
  lemma OtherAnswersAreIllegal(ids: seq<int>, run: seq<World>, actions: seq<Action>, i: nat, j: nat, wrong: string)
    requires ClerkRun(ids, run, actions) && i < |run| && j < |run[i].order|
    requires InRange(run[i].order, |run[i].ops|) && run[i].ops[run[i].order[j]].input.op != 1
    requires wrong != run[i].ops[run[i].order[j]].result
    ensures var (h, id) := (History(run[i]), run[i].order[j]);
            !Legal(WHOLE_STORE, h[id := Answering(h[id], wrong)], run[i].order)
  {
    hide ClerkRun, Legal, RespectsRealTime;
    EveryMomentLinearizes(ids, run, actions, i);
    InputsAreKnown(ids, run, actions, i, run[i].order[j]);
    AnswersAreDetermined(History(run[i]), run[i].order, j, wrong);
  }

  lemma InputsAreKnown(ids: seq<int>, run: seq<World>, actions: seq<Action>, i: nat, id: nat)
    requires ClerkRun(ids, run, actions) && i < |run| && id < |run[i].ops|
    ensures run[i].ops[id].input.op in {0, 1, 3}
  {
    hide ClerkRun, OrderInv, StoreInv;
    EveryWorld(ids, run, actions, i);
    assert OpOk(ids, run[i], id);
  }

  /** Once the server has executed the clerk's Delete, it keeps no reply of that client until the next write. */
  lemma DeletedIsForgotten(ids: seq<int>, run: seq<World>, actions: seq<Action>, i: nat, id: nat)
    requires ClerkRun(ids, run, actions) && i < |run| && id < |run[i].ops| && run[i].ops[id].phase.Deleted?
    ensures run[i].ops[id].clerk < |ids| && ids[run[i].ops[id].clerk] !in run[i].server.record
  {
    hide ClerkRun, OrderInv, StoreInv;
    EveryWorld(ids, run, actions, i);
    assert OpOk(ids, run[i], id);
  }
}
