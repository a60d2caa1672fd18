/**
 What the clients see.  A clerk reads two of the server's answers as an error;
 the order in which operations took effect explains what the clients saw if and
 only if no Get was answered with one of them.
 */
module KvClients {
  import opened Options
  import opened Linearizability
  import opened KvModel
  import opened KvServer
  import opened KvClerks
  import opened KvLinearizable
  import Locality
  import Verdict
  import CheckHistory

  /** A history as the clients see it: two of the answers to a Get are read as the empty string. */
  function Seen(h: seq<KvOp>): (r: seq<KvOp>)
    ensures |r| == |h| && forall i :: 0 <= i < |h| ==> r[i] == SeenOp(h[i])
  {
    seq(|h|, i requires 0 <= i < |h| => SeenOp(h[i]))
  }

  function SeenOp(op: KvOp): KvOp {
    if op.input.op == 0 then op.(output := KvOutput(Clean(op.output.value))) else op
  }

  /** No Get of `order` was answered with a string that the clerk reads as an error. */
  ghost predicate NoErrorRead(h: seq<KvOp>, order: seq<nat>)
    requires InRange(order, |h|)
  {
    forall i :: 0 <= i < |order| && h[order[i]].input.op == 0 ==>
      h[order[i]].output.value != ERR_NO_KEY && h[order[i]].output.value != ERR_VERSION
  }

  lemma SeenStep(st: Store, op: KvOp)
    ensures After(WHOLE_STORE, st, SeenOp(op)) == After(WHOLE_STORE, st, op)
    ensures Accepts(WHOLE_STORE, st, op) ==>
              (Accepts(WHOLE_STORE, st, SeenOp(op)) <==>
                 op.input.op == 0 ==> op.output.value != ERR_NO_KEY && op.output.value != ERR_VERSION)
  {
    CleanIsExact(op.output.value);
    hide Clean;
  }

  /** An order that explains the answers explains what the clients saw exactly when no Get read an error string. */
  lemma {:induction false} SeenIsLegal(h: seq<KvOp>, order: seq<nat>)
    requires InRange(order, |h|) && Legal(WHOLE_STORE, h, order)
    ensures Run(WHOLE_STORE, Seen(h), order) == Run(WHOLE_STORE, h, order)
    ensures Legal(WHOLE_STORE, Seen(h), order) <==> NoErrorRead(h, order)
  {
    if order != [] {
      var front, last := order[..|order| - 1], order[|order| - 1];
      assert order == front + [last];
      LegalExtend(WHOLE_STORE, h, front, last);
      LegalExtend(WHOLE_STORE, Seen(h), front, last);
      SeenIsLegal(h, front);
      SeenStep(Run(WHOLE_STORE, h, front), h[last]);
      hide Legal, Accepts, After;
      NoErrorReadExtend(h, front, last);
    }
  }

  lemma NoErrorReadExtend(h: seq<KvOp>, front: seq<nat>, last: nat)
    requires InRange(front, |h|) && last < |h|
    ensures InRange(front + [last], |h|)
    ensures NoErrorRead(h, front + [last]) <==>
              NoErrorRead(h, front)
                && (h[last].input.op == 0 ==> h[last].output.value != ERR_NO_KEY && h[last].output.value != ERR_VERSION)
  {
    var order := front + [last];
    if NoErrorRead(h, order) {
      assert order[|front|] == last;
      forall i | 0 <= i < |front|
        ensures order[i] == front[i]
      {
      }
    }
  }

  /**
   At every moment of a run, what the clients saw is a legal history in the
   order of effects if and only if no Get was answered with an error string.
   */
  lemma EveryMomentSeen(ids: seq<int>, run: seq<World>, actions: seq<Action>, i: nat)
    requires ClerkRun(ids, run, actions) && i < |run|
    ensures InRange(run[i].order, |History(run[i])|)
    ensures Legal(WHOLE_STORE, Seen(History(run[i])), run[i].order) <==> NoErrorRead(History(run[i]), run[i].order)
  {
    hide ClerkRun, Legal, NoErrorRead, RespectsRealTime;
    EveryMomentLinearizes(ids, run, actions, i);
    SeenIsLegal(History(run[i]), run[i].order);
  }

  /** When all operations have returned and no Get read an error string, what the clients saw is linearizable. */
  lemma ClientHistoryLinearizable(ids: seq<int>, run: seq<World>, actions: seq<Action>, i: nat)
    requires ClerkRun(ids, run, actions) && i < |run| && AllReturned(run[i])
    ensures InRange(run[i].order, |History(run[i])|) && WellTimed(Seen(History(run[i])))
    ensures Linearization(WHOLE_STORE, Seen(History(run[i])), run[i].order) <==>
            NoErrorRead(History(run[i]), run[i].order)
  {
    hide ClerkRun, Legal, NoErrorRead, AllReturned, HistoryOf;
    ServerHistoryLinearizable(ids, run, actions, i);
    EveryMomentSeen(ids, run, actions, i);
  }

  /** Then the checker never calls the clients' history illegal, and calls it Ok unless its timer fires. */
  lemma CheckerAcceptsClients(
    ids: seq<int>, run: seq<World>, actions: seq<Action>, i: nat, keys: seq<string>, parts: seq<seq<KvOp>>,
    computeInfo: bool, timeout: bool, check: seq<Verdict.State>, j: nat)
    requires ClerkRun(ids, run, actions) && i < |run| && AllReturned(run[i])
    requires InRange(run[i].order, |run[i].ops|) && NoErrorRead(History(run[i]), run[i].order)
    requires Locality.KeysOf(Seen(History(run[i])), keys) && |parts| == |keys|
    requires forall k :: 0 <= k < |parts| ==> parts[k] == Locality.Part(Seen(History(run[i])), keys[k])
    requires Verdict.Run(CheckHistory.JobFor(ONE_KEY, parts, computeInfo, timeout), check) && j < |check|
    requires check[j].phase.Finished?
    ensures check[j].phase.result == Verdict.Ok || (timeout && check[j].phase.result == Verdict.Unknown)
  {
    ClientHistoryLinearizable(ids, run, actions, i);
    CheckHistory.KvVerdictIsRight(Seen(History(run[i])), keys, parts, computeInfo, timeout, check, j);
  }

  // ---------------------------------------------------------------------
  // A run in which a Get reads an error string

  ghost predicate Reached(s: World) {
    exists run, actions :: ClerkRun([0], run, actions) && |run| == |actions| + 1 && run[|actions|] == s
  }

  lemma Extended(run: seq<World>, actions: seq<Action>, a: Action, t: World)
    requires ClerkRun([0], run, actions) && Next([0], run[|actions|], a, t)
    ensures ClerkRun([0], run + [t], actions + [a])
  {
    hide Next, Init;
    var (longer, more) := (run + [t], actions + [a]);
    forall i: nat | i < |more|
      ensures StepAt([0], longer, more, i)
    {
      if i < |actions| {
        assert StepAt([0], run, actions, i);
        assert longer[i] == run[i] && longer[i + 1] == run[i + 1];
      }
    }
  }

  lemma Step(s: World, a: Action, t: World)
    requires Reached(s) && Next([0], s, a, t)
    ensures Reached(t)
  {
    hide ClerkRun, Next;
    var run, actions :| ClerkRun([0], run, actions) && |run| == |actions| + 1 && run[|actions|] == s;
    Extended(run, actions, a, t);
    assert (run + [t])[|actions + [a]|] == t;
  }

  /** The Put in one of its phases, executed at time 3. */
  function PutOp(key: string, phase: Phase): Op {
    Op(0, KvInput(1, key, ERR_NO_KEY), 1, 0, phase, true, ERR_NO_KEY, 3)
  }

  /** The server after it. */
  function AfterPut(key: string): Server {
    Server(map[key := ERR_NO_KEY], map[0 := 1], map[0 := ERR_NO_KEY])
  }

  lemma PutSent(key: string) returns (t: World)
    ensures Reached(t)
    ensures t == World(Server(map[], map[], map[]), [ClerkState(1, Some(0))],
                       [Op(0, KvInput(1, key, ERR_NO_KEY), 1, 0, Sent, false, "", 0)], 3, [])
  {
    hide Reached;
    var s := World(Server(map[], map[], map[]), [ClerkState(0, None)], [], 0, []);
    assert Reached(s) by {
      assert ClerkRun([0], [s], []);
      StartsReached(s);
    }
    var op := Op(0, KvInput(1, key, ERR_NO_KEY), 0, 0, Locking, false, "", 0);
    var invoked := s.(ops := [op], now := 1);
    Step(s, InvokeWrite(0, false, key, ERR_NO_KEY), invoked);
    var locked := invoked.(ops := [op.(phase := Ready, seqNo := 1)], clerks := [ClerkState(1, Some(0))], now := 2);
    Step(invoked, Acquire(0), locked);
    t := locked.(ops := [op.(phase := Sent, seqNo := 1)], now := 3);
    Step(locked, Send(0), t);
  }

  lemma PutExecutes(key: string) returns (t: World)
    ensures Reached(t)
    ensures t == World(AfterPut(key), [ClerkState(1, Some(0))], [PutOp(key, Executed(ERR_NO_KEY))], 4, [0])
  {
    hide Reached;
    var sent := PutSent(key);
    t := World(AfterPut(key), [ClerkState(1, Some(0))], [PutOp(key, Executed(ERR_NO_KEY))], 4, [0]);
    Step(sent, Execute(0), t);
  }

  lemma PutReturns(key: string) returns (t: World)
    ensures Reached(t) && t == World(AfterPut(key), [ClerkState(1, None)], [PutOp(key, Done(ERR_NO_KEY, 5))], 6, [0])
  {
    hide Reached, Serve;
    var executed := PutExecutes(key);
    var received := executed.(ops := [PutOp(key, Deleting(ERR_NO_KEY))], now := 5);
    Step(executed, Receive(0), received);
    t := World(AfterPut(key), [ClerkState(1, None)], [PutOp(key, Done(ERR_NO_KEY, 5))], 6, [0]);
    Step(received, Return(0), t);
  }

  lemma StartsReached(s: World)
    requires ClerkRun([0], [s], [])
    ensures Reached(s)
  {
    assert [s][0] == s;
  }

  function GetOp(key: string, phase: Phase): Op {
    Op(0, KvInput(0, key, ""), 0, 6, phase, true, ERR_NO_KEY, 8)
  }

  lemma GetReturns(key: string) returns (t: World)
    ensures Reached(t) && t.ops == [PutOp(key, Done(ERR_NO_KEY, 5)), GetOp(key, Done("", 9))]
  {
    hide Reached;
    var s := PutReturns(key);
    var (put, op) := (PutOp(key, Done(ERR_NO_KEY, 5)), Op(0, KvInput(0, key, ""), 0, 6, Ready, false, "", 0));
    var invoked := s.(ops := [put, op], now := 7);
    Step(s, InvokeGet(0, key), invoked);
    var sent := s.(ops := [put, op.(phase := Sent)], now := 8);
    Step(invoked, Send(1), sent);
    var executed := s.(ops := [put, GetOp(key, Executed(ERR_NO_KEY))], now := 9, order := [0, 1]);
    Step(sent, Execute(1), executed);
    t := s.(ops := [put, GetOp(key, Done("", 9))], now := 10, order := [0, 1]);
    Step(executed, Receive(1), t);
  }

  /** A clerk puts an error string and gets it back: what it saw has no linearization in any order. */
  lemma ErrorStringBreaksHistory(key: string) returns (run: seq<World>, actions: seq<Action>)
    ensures ClerkRun([0], run, actions) && AllReturned(run[|actions|])
    ensures !Linearizable(WHOLE_STORE, Seen(History(run[|actions|])))
  {
    var s := GetReturns(key);
    run, actions :| ClerkRun([0], run, actions) && |run| == |actions| + 1 && run[|actions|] == s;
    var h := Seen(History(s));
    assert h == [h[0], h[1]];
    forall order
      ensures !Linearization(WHOLE_STORE, h, order)
    {
      if Permutation(order, 2) && RespectsRealTime(h, order) {
        assert h[order[0]].call <= h[order[1]].ret;
        assert order[0] == 0 && order[1] == 1;
        assert order[..0] == [] && order[..1] == [0];
        assert ERR_NO_KEY[0] == 'E';
        assert !Accepts(WHOLE_STORE, Run(WHOLE_STORE, h, order[..1]), h[1]);
      }
    }
  }
}
