/**
 Messages accepted out of order.  What the handler stores, when it takes away
 what an earlier message of the term had added, and that a leader which waits
 for its calls is never affected.
 */
module RaftOrder {
  import opened RaftState
  import opened RaftCluster
  import opened RaftElection
  import opened RaftLogs
  import opened RaftReplication
  import opened RaftMatching
  import opened RaftTheorems

  // ---------------------------------------------------------------------
  // What the handler does to any log

  /** Storing keeps the log up to the previous index and adds exactly the sent entries, unless the scan stops later. */
  lemma StoresExactly(log: Log, prevIndex: int, entries: Log)
    requires -1 <= prevIndex < |log|
    ensures Appended(log, prevIndex, entries) == log[..prevIndex + 1] + entries <==>
              FirstConflict(log, prevIndex + 1, entries, 0) <= 0
  {
    var k := FirstConflict(log, prevIndex + 1, entries, 0);
    if k > 0 {
      assert |Appended(log, prevIndex, entries)| == prevIndex + 1 + k + |entries|;
    }
  }

  /** A message delivered after a newer one takes entries away again. */
  lemma LateMessageShortens(log: Log, snapshot: Log, args: AppendArgs)
    requires SentFrom(args, snapshot) && args.prevIndex < |snapshot| && snapshot <= log
    ensures Appended(log, args.prevIndex, args.entries) == snapshot
  {
    hide FirstConflict, SentFrom;
    var start := args.prevIndex + 1;
    SentStarts(args, snapshot);
    forall j | 0 <= j < |args.entries|
      ensures start + j < |log| && log[start + j] == args.entries[j]
    {
      SentEntry(args, snapshot, j);
    }
    NoConflict(log, start, args.entries);
    SentIsRest(args, snapshot);
    assert log[..start] == snapshot[..start];
  }

  // ---------------------------------------------------------------------
  // What a server stored in a term, it keeps exactly when messages are accepted in order

  ghost predicate HeldOk(s: Cluster) {
    forall h :: h in s.held ==>
      && h.term in s.logs && h.log <= s.logs[h.term]
      && h.server < |s.nodes| && h.term <= s.nodes[h.server].term
  }

  /** The server keeps its log and its term, or goes on from them. */
  ghost predicate Longer(nd: Node, after: Node) {
    nd.log <= after.log && nd.term <= after.term
  }

  lemma BumpedIsLonger(nd: Node, after: Node)
    requires Bumped(nd, after)
    ensures Longer(nd, after)
  {
  }

  lemma SubmitIsLonger(nd: Node, command: Command)
    ensures Longer(nd, Submit(nd, command))
  {
  }

  lemma VoteReplyIsLonger(nd: Node, args: VoteArgs, reply: VoteReply)
    ensures Longer(nd, HandleVoteReply(nd, args, reply))
  {
  }

  lemma ReplyIsLonger(nd: Node, server: nat, args: AppendArgs, reply: AppendReply)
    requires nd.peers <= |nd.matched| && 0 <= nd.commit && nd.log != []
    requires server < |nd.next| && server < |nd.matched|
    ensures Longer(nd, HandleAppendReply(nd, server, args, reply))
  {
  }

  /** Only storing entries can shorten a log. */
  lemma NextLonger(n: nat, s: Cluster, a: Action)
    requires Shape(n, s) && Enabled(s, a) && Safe(s, a) && !a.DeliverAppend?
    ensures |Do(s, a).nodes| == |s.nodes| && forall v :: 0 <= v < |s.nodes| ==> Longer(s.nodes[v], Do(s, a).nodes[v])
  {
    if a.Restart? {
      MadeIsBump(n, a.server, s.nodes[a.server]);
      BumpedIsLonger(s.nodes[a.server], Made(a.server, s.nodes[a.server].peers, s.nodes[a.server].saved));
    }
    hide Shape, Bumped, HandleVote, HandleVoteReply, HandleAppendReply, Made, Submit, Elect, BuildAppend;
    match a
    case Timeout(v) =>
      VoteIsBump(s.nodes[v], VoteArgsOf(s.nodes[v]));
      BumpedIsLonger(s.nodes[v], Elect(s.nodes[v]));
    case DeliverVote(k) =>
      VoteIsBump(s.nodes[k.peer], s.ballots[k].args);
      BumpedIsLonger(s.nodes[k.peer], HandleVote(s.nodes[k.peer], s.ballots[k].args).0);
    case ReturnVote(k) => VoteReplyIsLonger(s.nodes[k.candidate], s.ballots[k].args, s.ballots[k].reply.value);
    case ReturnAppend(id) =>
      var call := s.appends[id];
      ReplyIsLonger(s.nodes[call.from], call.to, call.args, call.reply.value);
    case ClientCommand(v, command) => SubmitIsLonger(s.nodes[v], command);
    case _ =>
  }

  lemma DeliverHeld(n: nat, s: Cluster, id: nat)
    requires Shape(n, s) && LogInv(s) && HeldOk(s) && Enabled(s, DeliverAppend(id)) && Safe(s, DeliverAppend(id))
    ensures HeldOk(Do(s, DeliverAppend(id)))
  {
    hide Shape, LogInv, HandleAppend, Accurate, Bumped, HistoryOk, LogOk, LogShape, SentFrom, Position;
    DeliverCases(n, s, id);
    RequestParts(n, s, id);
  }

  lemma NextHeld(n: nat, s: Cluster, a: Action)
    requires Shape(n, s) && ElectionInv(s) && LogInv(s) && HeldOk(s) && Enabled(s, a) && Safe(s, a)
    ensures HeldOk(Do(s, a))
  {
    hide Shape, ElectionInv, LogInv, HandleVote, HandleVoteReply, HandleAppend, HandleAppendReply, Made, Submit,
      Elect, BuildAppend;
    if a.DeliverAppend? {
      DeliverHeld(n, s, a.id);
    } else {
      NextLogsGrow(n, s, a);
      NextLonger(n, s, a);
      assert Do(s, a).held == s.held;
      forall h | h in s.held
        ensures h.term in Do(s, a).logs && h.log <= Do(s, a).logs[h.term]
        ensures h.server < |s.nodes| && h.term <= Do(s, a).nodes[h.server].term
      {
        assert h.log <= s.logs[h.term] <= Do(s, a).logs[h.term];
        assert Longer(s.nodes[h.server], Do(s, a).nodes[h.server]);
      }
    }
  }

  lemma {:induction false} EveryHeld(n: nat, run: seq<Cluster>, actions: seq<Action>, i: nat)
    requires LedRun(n, run, actions) && i < |run|
    ensures HeldOk(run[i])
  {
    if i > 0 {
      hide Shape, ElectionInv, LogInv, HeldOk, Enabled, Safe, Do, LeaderSends, StepAt, Init;
      LedStep(n, run, actions, i - 1);
      EveryHeld(n, run, actions, i - 1);
      EveryLog(n, run, actions, i - 1);
      NextHeld(n, run[i - 1], actions[i - 1]);
    }
  }

  /** Accepting a call keeps every log the receiver stored in its term if and only if the call is not stale. */
  lemma StoredIsKept(n: nat, run: seq<Cluster>, actions: seq<Action>, i: nat, id: nat)
    requires LedRun(n, run, actions) && i < |actions| && actions[i] == DeliverAppend(id)
    requires id in run[i].appends && Accepts(run[i], run[i].appends[id])
    ensures |run[i + 1].nodes| == |run[i].nodes|
    ensures var call := run[i].appends[id];
            !Stale(run[i], call) <==>
              forall h :: h in run[i].held && h.server == call.to && h.term == call.args.term ==>
                h.log <= run[i + 1].nodes[call.to].log
  {
    hide LedRun, Shape, ElectionInv, LogInv, LeaderSends, HandleAppend, LogOk, LogShape, HistoryOk, Position,
      Accurate, SentFrom, Bumped;
    LedStep(n, run, actions, i);
    EveryLog(n, run, actions, i);
    EveryHeld(n, run, actions, i);
    var (s, call) := (run[i], run[i].appends[id]);
    DeliverCases(n, s, id);
    RequestParts(n, s, id);
    assert run[i + 1].nodes[call.to].log == call.snapshot <= s.logs[call.args.term];
    forall h | h in s.held && h.server == call.to && h.term == call.args.term
      ensures h.log <= call.snapshot <==> |h.log| <= |call.snapshot|
    {
      assert h.log <= s.logs[call.args.term];
    }
  }

  // ---------------------------------------------------------------------
  // Logs stay whole when messages are accepted in order

  ghost predicate AllWhole(s: Cluster) {
    forall v: nat :: v < |s.nodes| ==> Whole(s, v)
  }

  /** The receiver of an accepted call has what it stored in the term before, for that was shorter. */
  lemma ReceiverIsWhole(n: nat, s: Cluster, id: nat)
    requires Shape(n, s) && LogInv(s) && HeldOk(s) && Enabled(s, DeliverAppend(id)) && Safe(s, DeliverAppend(id))
    requires Accepts(s, s.appends[id]) && !Stale(s, s.appends[id])
    ensures Whole(Do(s, DeliverAppend(id)), s.appends[id].to)
  {
    hide Shape, LogInv, HandleAppend, Accurate, Bumped, HistoryOk, LogOk, LogShape, SentFrom, Position;
    DeliverCases(n, s, id);
    RequestParts(n, s, id);
    var (t, call) := (Do(s, DeliverAppend(id)), s.appends[id]);
    var stored := Holding(call.to, call.args.term, call.snapshot);
    assert stored in t.held && t.nodes[call.to].log == call.snapshot;
    forall h | h in t.held && h.server == call.to
               && (forall g :: g in t.held && g.server == call.to ==> g.term <= h.term)
      ensures h.log <= call.snapshot
    {
      assert stored.term <= h.term;
    }
  }

  lemma SameWhole(s: Cluster, t: Cluster, v: nat)
    requires v < |s.nodes| == |t.nodes| && Whole(s, v) && s.nodes[v].log <= t.nodes[v].log
    requires forall h :: h in t.held && h.server == v <==> h in s.held && h.server == v
    ensures Whole(t, v)
  {
  }

  lemma DeliverWhole(n: nat, s: Cluster, id: nat)
    requires Shape(n, s) && LogInv(s) && HeldOk(s) && AllWhole(s) && InOrder(s, DeliverAppend(id))
    requires Enabled(s, DeliverAppend(id)) && Safe(s, DeliverAppend(id))
    ensures AllWhole(Do(s, DeliverAppend(id)))
  {
    hide Shape, LogInv, HeldOk, HandleAppend, Accurate, Whole, Stale;
    var (t, call) := (Do(s, DeliverAppend(id)), s.appends[id]);
    DeliverCases(n, s, id);
    forall v: nat | v < |t.nodes|
      ensures Whole(t, v)
    {
      assert Whole(s, v);
      if v == call.to && Accepts(s, call) {
        ReceiverIsWhole(n, s, id);
      } else {
        SameWhole(s, t, v);
      }
    }
  }

  lemma NextWhole(n: nat, s: Cluster, a: Action)
    requires Shape(n, s) && LogInv(s) && HeldOk(s) && AllWhole(s) && Enabled(s, a) && Safe(s, a) && InOrder(s, a)
    ensures AllWhole(Do(s, a))
  {
    hide Shape, LogInv, HeldOk, HandleVote, HandleVoteReply, HandleAppend, HandleAppendReply, Made, Submit, Elect,
      BuildAppend, Whole, Stale, Accepts;
    if a.DeliverAppend? {
      DeliverWhole(n, s, a.id);
    } else {
      NextLonger(n, s, a);
      var t := Do(s, a);
      assert t.held == s.held;
      forall v: nat | v < |t.nodes|
        ensures Whole(t, v)
      {
        assert Longer(s.nodes[v], t.nodes[v]);
        SameWhole(s, t, v);
      }
    }
  }

  lemma OrderedStep(n: nat, run: seq<Cluster>, actions: seq<Action>, i: nat)
    requires OrderedRun(n, run, actions) && i < |actions|
    ensures |run| == |actions| + 1 && Next(run[i], actions[i], run[i + 1]) && InOrder(run[i], actions[i])
  {
    hide Next, LeaderSends, InOrder, LedRun;
    LedStep(n, run, actions, i);
  }

  lemma InitWhole(n: nat, run: seq<Cluster>, actions: seq<Action>)
    requires Run(n, run, actions)
    ensures AllWhole(run[0])
  {
    hide StepAt;
  }

  lemma {:induction false} EveryWhole(n: nat, run: seq<Cluster>, actions: seq<Action>, i: nat)
    requires OrderedRun(n, run, actions) && i < |run|
    ensures AllWhole(run[i])
  {
    hide Run, Shape, ElectionInv, LogInv, HeldOk, AllWhole, Enabled, Safe, Do, LeaderSends, InOrder;
    if i == 0 {
      InitWhole(n, run, actions);
    } else {
      RunLength(n, run, actions);
      OrderedStep(n, run, actions, i - 1);
      EveryWhole(n, run, actions, i - 1);
      EveryLog(n, run, actions, i - 1);
      EveryHeld(n, run, actions, i - 1);
      NextWhole(n, run[i - 1], actions[i - 1]);
    }
  }

  lemma AllWholeVotes(s: Cluster, a: Action)
    requires AllWhole(s)
    ensures WholeVotes(s, a)
  {
    hide Whole;
  }

  /** When no call is accepted out of order, nobody ever stands or votes with a log that lost something. */
  lemma OrderedIsWhole(n: nat, run: seq<Cluster>, actions: seq<Action>)
    requires OrderedRun(n, run, actions)
    ensures WholeRun(n, run, actions)
  {
    hide Run, LeaderSends, InOrder, WholeVotes, AllWhole;
    RunLength(n, run, actions);
    forall i | 0 <= i < |actions|
      ensures WholeVotes(run[i], actions[i])
    {
      EveryWhole(n, run, actions, i);
      AllWholeVotes(run[i], actions[i]);
    }
  }

  // ---------------------------------------------------------------------
  // A sender that waits for its calls keeps them in order

  /** No call is built while an earlier one to the same server is in flight. */
  ghost predicate OneAtATime(s: Cluster, a: Action) {
    a.SendAppend? ==> forall id :: id in s.appends ==> !(s.appends[id].from == a.from && s.appends[id].to == a.to)
  }

  ghost predicate OnePerPair(appends: map<nat, AppendCall>) {
    forall i, j :: i in appends && j in appends && i != j ==>
      appends[i].from != appends[j].from || appends[i].to != appends[j].to
  }

  /** Requests in flight are not stale, and two of them are for different pairs. */
  ghost predicate Waits(s: Cluster) {
    OnePerPair(s.appends) && forall id :: id in s.appends && s.appends[id].reply.None? ==> Carries(s, s.appends[id])
  }

  ghost predicate Carries(s: Cluster, call: AppendCall) {
    forall h :: h in s.held && h.server == call.to && h.term == call.args.term ==> |h.log| <= |call.snapshot|
  }

  lemma SendWaits(n: nat, s: Cluster, a: Action)
    requires Shape(n, s) && LogInv(s) && HeldOk(s) && Waits(s) && a.SendAppend? && Enabled(s, a) && Safe(s, a)
    requires LeaderSends(s, a) && OneAtATime(s, a)
    ensures Waits(Do(s, a))
  {
    hide Shape, HistoryOk, BeliefOk, Genuine, ReceiverOk, LogOk;
    assert NodeOk(s, a.from);
    var t := Do(s, a);
    forall id | id in t.appends && t.appends[id].reply.None?
      ensures Carries(t, t.appends[id])
    {
      assert id != a.id ==> Carries(s, s.appends[id]);
    }
  }

  lemma DeliverWaits(n: nat, s: Cluster, id: nat, j: nat)
    requires Shape(n, s) && LogInv(s) && Waits(s) && Enabled(s, DeliverAppend(id)) && Safe(s, DeliverAppend(id))
    requires j in s.appends && j != id && s.appends[j].reply.None?
    ensures Carries(Do(s, DeliverAppend(id)), s.appends[j])
  {
    hide Shape, LogInv, HandleAppend, HistoryOk, ReceiverOk, NodeOk, NodeShape, SentFrom;
    CallParts(n, s, id);
    CallParts(n, s, j);
    assert Carries(s, s.appends[j]);
  }

  lemma NextWaits(n: nat, s: Cluster, a: Action)
    requires Shape(n, s) && LogInv(s) && HeldOk(s) && Waits(s) && Enabled(s, a) && Safe(s, a)
    requires LeaderSends(s, a) && OneAtATime(s, a)
    ensures Waits(Do(s, a))
  {
    hide Shape, LogInv, HandleVote, HandleVoteReply, HandleAppend, HandleAppendReply, Made, Submit, Elect,
      BuildAppend, Carries;
    var t := Do(s, a);
    if a.SendAppend? {
      SendWaits(n, s, a);
    } else {
      forall j | j in t.appends && t.appends[j].reply.None?
        ensures Carries(t, t.appends[j])
      {
        if a.DeliverAppend? {
          DeliverWaits(n, s, a.id, j);
        } else {
          SameCarries(s, t, s.appends[j]);
        }
      }
    }
  }

  lemma SameCarries(s: Cluster, t: Cluster, call: AppendCall)
    requires Carries(s, call) && t.held == s.held
    ensures Carries(t, call)
  {
  }

  ghost predicate WaitingRun(n: nat, run: seq<Cluster>, actions: seq<Action>) {
    LedRun(n, run, actions) && forall i :: 0 <= i < |actions| ==> OneAtATime(run[i], actions[i])
  }

  lemma WaitingStep(n: nat, run: seq<Cluster>, actions: seq<Action>, i: nat)
    requires WaitingRun(n, run, actions) && i < |actions|
    ensures |run| == |actions| + 1 && Next(run[i], actions[i], run[i + 1])
    ensures LeaderSends(run[i], actions[i]) && OneAtATime(run[i], actions[i])
  {
    hide Next, LeaderSends, OneAtATime, LedRun;
    LedStep(n, run, actions, i);
  }

  lemma InitWaits(n: nat, run: seq<Cluster>, actions: seq<Action>)
    requires Run(n, run, actions)
    ensures Waits(run[0])
  {
    hide StepAt;
  }

  lemma {:induction false} EveryWaits(n: nat, run: seq<Cluster>, actions: seq<Action>, i: nat)
    requires WaitingRun(n, run, actions) && i < |run|
    ensures Waits(run[i])
  {
    hide Run, Shape, ElectionInv, LogInv, HeldOk, Waits, Enabled, Safe, Do, LeaderSends, OneAtATime;
    if i == 0 {
      InitWaits(n, run, actions);
    } else {
      RunLength(n, run, actions);
      WaitingStep(n, run, actions, i - 1);
      EveryWaits(n, run, actions, i - 1);
      EveryLog(n, run, actions, i - 1);
      EveryHeld(n, run, actions, i - 1);
      NextWaits(n, run[i - 1], actions[i - 1]);
    }
  }

  lemma RunLength(n: nat, run: seq<Cluster>, actions: seq<Action>)
    requires Run(n, run, actions)
    ensures |run| == |actions| + 1
  {
  }

  lemma CarriedIsInOrder(n: nat, s: Cluster, a: Action)
    requires Shape(n, s) && LogInv(s) && Waits(s) && Enabled(s, a) && Safe(s, a)
    ensures InOrder(s, a)
  {
    if a.DeliverAppend? && Accepts(s, s.appends[a.id]) {
      hide Shape, LogInv, HandleAppend, Accurate, Bumped;
      DeliverCases(n, s, a.id);
      assert Carries(s, s.appends[a.id]);
    }
  }

  /** Leaders that have at most one call per server in flight never have one accepted out of order. */
  lemma WaitingIsOrdered(n: nat, run: seq<Cluster>, actions: seq<Action>)
    requires WaitingRun(n, run, actions)
    ensures OrderedRun(n, run, actions)
  {
    hide Shape, ElectionInv, LogInv, Waits, Enabled, Safe, Do, LeaderSends, OneAtATime, InOrder, StepAt, Init;
    forall i | 0 <= i < |actions|
      ensures InOrder(run[i], actions[i])
    {
      LedStep(n, run, actions, i);
      EveryLog(n, run, actions, i);
      EveryWaits(n, run, actions, i);
      CarriedIsInOrder(n, run[i], actions[i]);
    }
  }
}
