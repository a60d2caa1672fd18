/** No operation of a clerk is ever stuck: from every moment on, all of them can return. */
module KvProgress {
  import opened Options
  import opened Linearizability
  import opened KvModel
  import opened KvServer
  import opened KvClerks
  import opened KvLinearizable

  /** Nothing is lost and nothing new is asked for. */
  predicate Undisturbed(a: Action) {
    !a.InvokeGet? && !a.InvokeWrite? && !a.LoseRequest? && !a.LoseReply?
  }

  function Rank(phase: Phase): nat {
    match phase
    case Locking => 6
    case Ready => 5
    case Sent => 4
    case Executed(_) => 3
    case Deleting(_) => 2
    case Deleted(_) => 1
    case Done(_, _) => 0
  }

  /** How many steps are left, at most. */
  function Weight(ops: seq<Op>): nat {
    if ops == [] then 0 else Weight(ops[..|ops| - 1]) + Rank(ops[|ops| - 1].phase)
  }

  lemma {:induction false} WeightUpdate(ops: seq<Op>, i: nat, op: Op)
    requires i < |ops|
    ensures Weight(ops[i := op]) == Weight(ops) - Rank(ops[i].phase) + Rank(op.phase)
  {
    var front, last := ops[..|ops| - 1], |ops| - 1;
    var after := ops[i := op];
    if i == last {
      assert after[..last] == front;
    } else {
      WeightUpdate(front, i, op);
      assert after[..last] == front[i := op];
    }
  }

  /** What the operation does next, when it need not wait for the lock. */
  function Move(op: Op, i: nat): Action
    requires op.phase != Locking && !op.phase.Done?
  {
    match op.phase
    case Ready => Send(i)
    case Sent => Execute(i)
    case Executed(_) => Receive(i)
    case Deleting(_) => ExecuteDelete(i)
    case Deleted(_) => Return(i)
  }

  /** One operation comes nearer to its end, and the others stay. */
  ghost predicate Nearer(s: World, t: World, i: nat) {
    && i < |s.ops| == |t.ops| && t.ops == s.ops[i := t.ops[i]] && Rank(t.ops[i].phase) < Rank(s.ops[i].phase)
    && t.ops[i].input == s.ops[i].input && t.ops[i].call == s.ops[i].call && t.ops[i].clerk == s.ops[i].clerk
  }

  lemma Moves(ids: seq<int>, s: World, i: nat) returns (t: World)
    requires ClerksInv(ids, s) && i < |s.ops| && s.ops[i].phase != Locking && !s.ops[i].phase.Done?
    ensures Next(ids, s, Move(s.ops[i], i), t) && Nearer(s, t, i)
  {
    KnownClerks(ids, s);
    assert OpOk(ids, s, i);
    hide ClerksInv, WriteOk, TimesOk, Serve, Without;
    t := Effect(ids, s, Move(s.ops[i], i)).(now := s.now + 1);
  }

  lemma KnownClerks(ids: seq<int>, s: World)
    requires ClerksInv(ids, s)
    ensures Known(ids, s)
  {
    forall i: nat | i < |s.ops|
      ensures s.ops[i].clerk < |ids|
    {
      assert OpOk(ids, s, i);
    }
  }

  /** While some operation has not returned, some step brings one nearer to its end. */
  lemma SomeMove(ids: seq<int>, s: World) returns (a: Action, t: World, i: nat)
    requires ClerksInv(ids, s) && !AllReturned(s)
    ensures Undisturbed(a) && Next(ids, s, a, t) && Nearer(s, t, i)
  {
    i :| i < |s.ops| && !s.ops[i].phase.Done?;
    assert OpOk(ids, s, i) && s.ops[i].clerk < |ids| == |s.clerks| && ClerkOk(ids, s, s.ops[i].clerk);
    if s.ops[i].phase == Locking && s.clerks[s.ops[i].clerk].busy.None? {
      KnownClerks(ids, s);
      hide ClerksInv, OpOk;
      a := Acquire(i);
      t := Effect(ids, s, a).(now := s.now + 1);
    } else {
      if s.ops[i].phase == Locking {
        i := s.clerks[s.ops[i].clerk].busy.value;
      }
      hide ClerksInv, OpOk, Effect;
      a := Move(s.ops[i], i);
      t := Moves(ids, s, i);
    }
  }

  /** The same operations were asked for. */
  ghost predicate SameCalls(s: World, t: World) {
    |t.ops| == |s.ops| && forall j :: 0 <= j < |s.ops| ==>
      t.ops[j].input == s.ops[j].input && t.ops[j].call == s.ops[j].call && t.ops[j].clerk == s.ops[j].clerk
  }

  lemma NearerIsLess(s: World, t: World, i: nat)
    requires Nearer(s, t, i)
    ensures Weight(t.ops) < Weight(s.ops) && SameCalls(s, t)
  {
    WeightUpdate(s.ops, i, t.ops[i]);
  }

  lemma SameCallsAsNow(s: World)
    ensures SameCalls(s, s)
  {
  }

  lemma SameCallsTrans(s: World, t: World, u: World)
    requires SameCalls(s, t) && SameCalls(t, u)
    ensures SameCalls(s, u)
  {
  }

  lemma Extended(ids: seq<int>, run: seq<World>, actions: seq<Action>, a: Action, t: World)
    requires ClerkRun(ids, run, actions) && Next(ids, run[|actions|], a, t)
    ensures ClerkRun(ids, run + [t], actions + [a])
  {
    hide Next, Init;
    var (longer, more) := (run + [t], actions + [a]);
    forall i: nat | i < |more|
      ensures StepAt(ids, longer, more, i)
    {
      if i < |actions| {
        assert StepAt(ids, run, actions, i);
        assert longer[i] == run[i] && longer[i + 1] == run[i + 1];
      }
    }
  }

  lemma OneMoves(ids: seq<int>, run: seq<World>, actions: seq<Action>) returns (a: Action, next: seq<World>)
    requires ClerkRun(ids, run, actions) && |run| == |actions| + 1 && !AllReturned(run[|actions|])
    ensures Undisturbed(a) && ClerkRun(ids, next, actions + [a]) && |next| == |run| + 1 && run <= next
    ensures var (s, t) := (run[|actions|], next[|actions| + 1]);
            Weight(t.ops) < Weight(s.ops) && SameCalls(s, t)
  {
    hide *;
    EveryWorld(ids, run, actions, |actions|);
    var t, i;
    a, t, i := SomeMove(ids, run[|actions|]);
    NearerIsLess(run[|actions|], t, i);
    Extended(ids, run, actions, a, t);
    next := run + [t];
  }

  /** Step by step all operations return, in no more steps than are left. */
  lemma {:induction false} AllMoveOn(ids: seq<int>, run: seq<World>, actions: seq<Action>)
    returns (longer: seq<World>, more: seq<Action>)
    requires ClerkRun(ids, run, actions) && |run| == |actions| + 1
    ensures ClerkRun(ids, longer, actions + more) && |longer| == |actions + more| + 1 && run <= longer
    ensures forall i :: 0 <= i < |more| ==> Undisturbed(more[i])
    ensures AllReturned(longer[|actions + more|]) && SameCalls(run[|actions|], longer[|actions + more|])
    ensures |more| <= Weight(run[|actions|].ops)
    decreases Weight(run[|actions|].ops)
  {
    var s := run[|actions|];
    if AllReturned(s) {
      hide *;
      longer, more := run, [];
      SameCallsAsNow(s);
      assert actions + [] == actions;
    } else {
      hide *;
      var a, next := OneMoves(ids, run, actions);
      var t := next[|actions| + 1];
      var rest;
      longer, rest := AllMoveOn(ids, next, actions + [a]);
      more := [a] + rest;
      assert actions + more == actions + [a] + rest;
      SameCallsTrans(s, t, longer[|actions + more|]);
    }
  }

  /**
   From every moment of every run, steps without loss let all operations return
   that were asked for, and then the server's answers are linearized by the order of
   effects.
   */
  lemma EverybodyCanReturn(ids: seq<int>, run: seq<World>, actions: seq<Action>)
    returns (longer: seq<World>, more: seq<Action>)
    requires ClerkRun(ids, run, actions) && |run| == |actions| + 1
    ensures ClerkRun(ids, longer, actions + more) && |longer| == |actions + more| + 1 && run <= longer
    ensures forall i :: 0 <= i < |more| ==> Undisturbed(more[i])
    ensures AllReturned(longer[|actions + more|]) && SameCalls(run[|actions|], longer[|actions + more|])
    ensures var t := longer[|actions + more|]; Linearization(WHOLE_STORE, History(t), t.order)
  {
    hide *;
    longer, more := AllMoveOn(ids, run, actions);
    ServerHistoryLinearizable(ids, longer, actions + more, |actions + more|);
  }
}
