/**
 Leader Completeness and State Machine Safety (section 5.4.3 of the extended
 Raft paper): what servers commit never differs, over every run in which only
 servers with whole logs stand and vote, and never changes, over every ordered
 run.
 */
module RaftSafety {
  import opened RaftState
  import opened RaftCluster
  import opened RaftElection
  import opened RaftLogs
  import opened RaftReplication
  import opened RaftMatching
  import opened RaftTheorems
  import opened RaftOrder
  import opened RaftPast
  import opened RaftPastSteps
  import opened RaftCompleteness

  // ---------------------------------------------------------------------
  // Leader Completeness over runs

  /** Every later leader has the entries up to a chosen one, whether elected before or after it was chosen. */
  lemma LeaderCompleteness(n: nat, run: seq<Cluster>, actions: seq<Action>, i: nat, term: int, k: nat, v: nat)
    requires WholeRun(n, run, actions) && i < |run| && Chosen(run[i], term, k) && v < |run[i].nodes|
    requires run[i].nodes[v].role == Leader && term < run[i].nodes[v].term
    ensures term in run[i].logs && run[i].logs[term][..k + 1] <= run[i].nodes[v].log
  {
    hide StepAt, LeaderSends, Init, Shape, PastInv, Chosen, HistoryOk, BeliefOk, Genuine, ReceiverOk, LogOk,
      VoteMemory, BallotOk, Elected, Counted;
    EveryLog(n, run, actions, i);
    EveryPast(n, run, actions, i);
    assert NodeOk(run[i], v) && RoleOk(run[i], v);
    ChosenParts(run[i], term, k);
    LaterLeaderHasChosen(run[i], PastAt(run, actions, i), term, k, run[i].nodes[v].term);
  }

  // ---------------------------------------------------------------------
  // Chosen entries stay chosen

  ghost predicate Further(s: Cluster, t: Cluster) {
    && |t.nodes| == |s.nodes| && LogsGrow(s.logs, t.logs) && s.held <= t.held
    && forall u :: u in s.leaders ==> u in t.leaders && t.leaders[u] == s.leaders[u]
  }

  lemma ChosenFurther(s: Cluster, t: Cluster, term: int, k: nat)
    requires Further(s, t) && Chosen(s, term, k)
    ensures Chosen(t, term, k)
  {
    var quorum :| ChosenBy(s, term, k, quorum);
    assert s.logs[term] <= t.logs[term];
    assert t.logs[term][..k + 1] == s.logs[term][..k + 1] && t.logs[term][k] == s.logs[term][k];
    forall f | f in quorum
      ensures f == t.leaders[term] || Stored(t, f, term, t.logs[term][..k + 1])
    {
      if f != s.leaders[term] {
        StoredFurther(s, t, f, term, s.logs[term][..k + 1]);
      }
    }
    assert ChosenBy(t, term, k, quorum);
  }

  lemma StoredFurther(s: Cluster, t: Cluster, f: nat, term: int, prefix: Log)
    requires s.held <= t.held && Stored(s, f, term, prefix)
    ensures Stored(t, f, term, prefix)
  {
  }

  // ---------------------------------------------------------------------
  // Why a commit index is right

  /**
   Up to index `c`, and as far as it goes, `log` has the entries of the leader of
   `term`, where a later or equal index was chosen.
   */
  ghost predicate Covered(s: Cluster, log: Log, c: int, term: int, k: nat) {
    && Chosen(s, term, k) && 0 <= c <= k && term in s.logs && k < |s.logs[term]|
    && forall x :: 0 <= x <= c && x < |log| ==> log[x] == s.logs[term][x]
  }

  ghost predicate Justified(s: Cluster, v: nat, term: int, k: nat)
    requires v < |s.nodes|
  {
    var nd := s.nodes[v];
    && Covered(s, nd.log, nd.commit, term, k) && term <= nd.term
    && (term == nd.term ==> (term in s.leaders && s.leaders[term] == v) || HeldThrough(s, v, term, nd.commit))
  }

  ghost predicate NodeCommit(s: Cluster, v: nat)
    requires v < |s.nodes|
  {
    0 <= s.nodes[v].commit && (s.nodes[v].commit > 0 ==> exists term, k :: Justified(s, v, term, k))
  }

  ghost predicate CallCommit(s: Cluster, call: AppendCall) {
    call.reply.None? ==>
      && 0 <= call.args.commit
      && (call.args.commit > 0 ==>
            exists term, k :: term <= call.args.term && Covered(s, call.snapshot, call.args.commit, term, k))
  }

  ghost predicate CommitInv(s: Cluster) {
    && (forall v: nat :: v < |s.nodes| ==> NodeCommit(s, v))
    && (forall id :: id in s.appends ==> CallCommit(s, s.appends[id]))
  }

  lemma CoveredFurther(s: Cluster, t: Cluster, log: Log, c: int, term: int, k: nat)
    requires Further(s, t) && Covered(s, log, c, term, k)
    ensures Covered(t, log, c, term, k)
  {
    ChosenFurther(s, t, term, k);
    assert s.logs[term] <= t.logs[term];
  }

  /** A server that keeps its log, adds to it only past its commit index, and keeps that index or forgets it. */
  ghost predicate Steady(nd: Node, after: Node) {
    && after.term >= nd.term && nd.log <= after.log && (|after.log| == |nd.log| || nd.commit < |nd.log|)
    && (after.commit == nd.commit || after.commit == 0)
  }

  lemma SteadyCommit(s: Cluster, t: Cluster, v: nat)
    requires Further(s, t) && v < |s.nodes| && NodeCommit(s, v) && Steady(s.nodes[v], t.nodes[v])
    ensures NodeCommit(t, v)
  {
    hide LogsGrow, Chosen;
    var (nd, after) := (s.nodes[v], t.nodes[v]);
    if after.commit > 0 {
      var term, k :| Justified(s, v, term, k);
      CoveredFurther(s, t, nd.log, nd.commit, term, k);
      if term == after.term && !(term in s.leaders && s.leaders[term] == v) {
        HeldFurther(s, t, v, term, nd.commit);
      }
      assert Justified(t, v, term, k);
    }
  }

  lemma HeldFurther(s: Cluster, t: Cluster, f: nat, term: int, k: int)
    requires Further(s, t) && HeldThrough(s, f, term, k)
    ensures HeldThrough(t, f, term, k)
  {
    HeldGrows(s, t, f, term, k);
  }

  lemma CallFurther(s: Cluster, t: Cluster, call: AppendCall)
    requires Further(s, t) && CallCommit(s, call)
    ensures CallCommit(t, call)
  {
    hide Further, Covered;
    if call.reply.None? && call.args.commit > 0 {
      var term, k :| term <= call.args.term && Covered(s, call.snapshot, call.args.commit, term, k);
      CoveredFurther(s, t, call.snapshot, call.args.commit, term, k);
    }
  }

  /** A step in which every server is steady, and requests in flight stay. */
  lemma SteadyStep(s: Cluster, t: Cluster)
    requires CommitInv(s) && Further(s, t)
    requires forall v :: 0 <= v < |s.nodes| ==> Steady(s.nodes[v], t.nodes[v])
    requires forall id :: id in t.appends && t.appends[id].reply.None? ==>
             id in s.appends && s.appends[id] == t.appends[id]
    ensures CommitInv(t)
  {
    hide NodeCommit, CallCommit, LogsGrow;
    forall v: nat | v < |t.nodes|
      ensures NodeCommit(t, v)
    {
      assert Steady(s.nodes[v], t.nodes[v]);
      SteadyCommit(s, t, v);
    }
    forall id | id in t.appends
      ensures CallCommit(t, t.appends[id])
    {
      if t.appends[id].reply.None? {
        CallFurther(s, t, s.appends[id]);
      } else {
        AnsweredCommit(t, t.appends[id]);
      }
    }
  }

  lemma AnsweredCommit(s: Cluster, call: AppendCall)
    requires call.reply.Some?
    ensures CallCommit(s, call)
  {
  }

  // ---------------------------------------------------------------------
  // Storing an accepted message

  /** What was committed before is in the stored log, as far as it goes: its leader has it. */
  lemma CommittedSurvives(s: Cluster, p: Past, t: Cluster, id: nat, term: int, k: nat)
    requires PastInv(s, p) && LogInv(s) && Accepted(s, t, id) && Genuine(s, s.appends[id])
    requires Justified(s, s.appends[id].to, term, k)
    ensures Covered(s, s.appends[id].snapshot, s.nodes[s.appends[id].to].commit, term, k)
  {
    hide PastInv, LogInv, Chosen, SentFrom, HeldThrough;
    var (call, c) := (s.appends[id], s.nodes[s.appends[id].to].commit);
    var now := call.args.term;
    if term < now {
      LaterLeaderHasChosen(s, p, term, k, now);
      forall x | 0 <= x <= c && x < |call.snapshot|
        ensures call.snapshot[x] == s.logs[term][x]
      {
        assert s.logs[term][..k + 1][x] == s.logs[now][x];
      }
    }
  }

  /** The commit index after an accepted message. */
  ghost predicate CommitTaken(nd: Node, after: Node, args: AppendArgs) {
    after.commit ==
      if args.commit > nd.commit then (if args.commit < |after.log| - 1 then args.commit else |after.log| - 1)
      else nd.commit
  }

  lemma AcceptedCommit(s: Cluster, p: Past, t: Cluster, id: nat)
    requires PastInv(s, p) && LogInv(s) && CommitInv(s) && Accepted(s, t, id) && Further(s, t)
    requires Genuine(s, s.appends[id])
    requires CommitTaken(s.nodes[s.appends[id].to], t.nodes[s.appends[id].to], s.appends[id].args)
    ensures NodeCommit(t, s.appends[id].to)
  {
    hide PastInv, LogInv, Chosen, Covered, LogsGrow, SentFrom;
    var (call, f) := (s.appends[id], s.appends[id].to);
    var (nd, after) := (s.nodes[f], t.nodes[f]);
    assert CallCommit(s, call) && NodeCommit(s, f);
    SnapshotNonempty(call);
    if after.commit > 0 {
      if call.args.commit > nd.commit {
        var term, k :| term <= call.args.term && Covered(s, call.snapshot, call.args.commit, term, k);
        CoveredFurther(s, t, call.snapshot, call.args.commit, term, k);
        CoveredLess(t, call.snapshot, call.args.commit, after.commit, term, k);
        StoredThrough(s, t, id, after.commit);
        assert Justified(t, f, term, k);
      } else {
        var term, k :| Justified(s, f, term, k);
        CommittedSurvives(s, p, t, id, term, k);
        CoveredFurther(s, t, call.snapshot, nd.commit, term, k);
        if term == after.term {
          HeldFurther(s, t, f, term, nd.commit);
        }
        assert Justified(t, f, term, k);
      }
    }
  }

  lemma StoredThrough(s: Cluster, t: Cluster, id: nat, c: int)
    requires Accepted(s, t, id) && Genuine(s, s.appends[id]) && c < |s.appends[id].snapshot|
    ensures HeldThrough(t, s.appends[id].to, s.appends[id].args.term, c)
  {
    hide SentFrom;
    var h := Holding(s.appends[id].to, s.appends[id].args.term, s.appends[id].snapshot);
    assert h in t.held;
  }

  lemma CoveredLess(s: Cluster, log: Log, c: int, d: int, term: int, k: nat)
    requires Covered(s, log, c, term, k) && 0 <= d <= c
    ensures Covered(s, log, d, term, k)
  {
    hide Chosen;
  }

  // ---------------------------------------------------------------------
  // A leader commits

  lemma LeaderCommits(n: nat, t: Cluster, l: nat)
    requires Shape(n, t) && LogInv(t) && ElectionInv(t) && l < n && t.nodes[l].role == Leader
    requires 0 < t.nodes[l].commit < |t.nodes[l].log| && t.nodes[l].peers <= |t.nodes[l].matched|
    requires MayCommit(t.nodes[l], t.nodes[l].commit)
    ensures NodeCommit(t, l)
  {
    hide ElectionInv, LogInv, Shape, VoteMemory, LogOk, Counted, Stored, Covered;
    ShapeParts(n, t, l);
    var nd := t.nodes[l];
    var quorum := Quorum(n, t, l, nd.commit);
    NodeIsOk(t, l);
    VoterRemembers(t, l);
    assert t.leaders[nd.term] == l && t.logs[nd.term] == nd.log;
    assert ChosenBy(t, nd.term, nd.commit, quorum);
    assert Covered(t, nd.log, nd.commit, nd.term, nd.commit) by {
      CoversItself(t, nd.log, nd.commit, nd.term);
    }
    assert Justified(t, l, nd.term, nd.commit);
  }

  lemma CoversItself(s: Cluster, log: Log, c: nat, term: int)
    requires Chosen(s, term, c) && term in s.logs && s.logs[term] == log && c < |log|
    ensures Covered(s, log, c, term, c)
  {
    hide Chosen;
  }

  /** A leader's log reaches past what it has committed: it has all that was chosen. */
  lemma LeaderReaches(s: Cluster, p: Past, v: nat)
    requires PastInv(s, p) && LogInv(s) && v < |s.nodes| && NodeOk(s, v) && RoleOk(s, v) && NodeCommit(s, v)
    requires s.nodes[v].role == Leader
    ensures s.nodes[v].commit < |s.nodes[v].log|
  {
    hide PastInv, LogInv, Chosen, LogOk, Counted, HeldThrough;
    var nd := s.nodes[v];
    if nd.commit > 0 {
      var term, k :| Justified(s, v, term, k);
      if term < nd.term {
        LaterLeaderHasChosen(s, p, term, k, nd.term);
      }
    } else {
      LogOkCoherent(s.logs, nd.log, nd.term);
    }
  }

  lemma ShapeParts(n: nat, s: Cluster, v: nat)
    requires Shape(n, s) && v < n
    ensures |s.nodes| == n && NodeShape(n, v, s.nodes[v])
  {
    hide NodeShape, CallShape;
  }

  // ---------------------------------------------------------------------
  // Every step

  lemma StepGoesFurther(n: nat, s: Cluster, a: Action)
    requires Shape(n, s) && ElectionInv(s) && LogInv(s) && Enabled(s, a) && Safe(s, a)
    ensures Further(s, Do(s, a))
  {
    hide Shape, ElectionInv, LogInv, LogsGrow, HandleVote, HandleVoteReply, HandleAppend, HandleAppendReply, Made,
      Submit, Elect, BuildAppend;
    NextLogsGrow(n, s, a);
    NextElection(n, s, a);
    assert |Do(s, a).nodes| == |s.nodes| && s.held <= Do(s, a).held;
  }

  lemma OneSteady(s: Cluster, t: Cluster, v: nat)
    requires CommitInv(s) && Further(s, t) && v < |s.nodes| && t.nodes == s.nodes[v := t.nodes[v]]
    requires Steady(s.nodes[v], t.nodes[v])
    requires forall id :: id in t.appends && t.appends[id].reply.None? ==>
             id in s.appends && s.appends[id] == t.appends[id]
    ensures CommitInv(t)
  {
    hide CommitInv, Further;
    assert |t.nodes| == |s.nodes|;
    assert forall u :: 0 <= u < |s.nodes| && u != v ==> Steady(s.nodes[u], t.nodes[u]);
    SteadyStep(s, t);
  }

  lemma VoteIsSteady(nd: Node, args: VoteArgs, reply: VoteReply)
    ensures Steady(nd, Elect(nd)) && Steady(nd, HandleVote(nd, args).0) && Steady(nd, HandleVoteReply(nd, args, reply))
  {
  }

  lemma MadeIsSteady(n: nat, v: nat, nd: Node)
    requires NodeShape(n, v, nd)
    ensures Steady(nd, Made(v, nd.peers, nd.saved))
  {
  }

  lemma RejectedIsSteady(nd: Node, args: AppendArgs)
    requires nd.log != [] && args.prevIndex >= -1
    ensures !HandleAppend(nd, args).1.success ==>
            Steady(nd, HandleAppend(nd, args).0) && HandleAppend(nd, args).0.commit == nd.commit
    ensures HandleAppend(nd, args).1.success ==> CommitTaken(nd, HandleAppend(nd, args).0, args)
  {
    hide Appended, RunStart;
  }

  lemma ReplyIsSteady(nd: Node, server: nat, args: AppendArgs, reply: AppendReply)
    requires nd.peers <= |nd.matched| && 0 <= nd.commit && nd.log != []
    requires server < |nd.next| && server < |nd.matched|
    ensures var after := HandleAppendReply(nd, server, args, reply);
            after.log == nd.log && after.term >= nd.term && (after.commit == nd.commit ==> Steady(nd, after))
  {
  }

  lemma SendCommit(s: Cluster, t: Cluster, id: nat)
    requires CommitInv(s) && Further(s, t) && t == s.(appends := t.appends) && id in t.appends
    requires t.appends == s.appends[id := t.appends[id]] && t.appends[id].from < |s.nodes|
    requires var (call, nd) := (t.appends[id], s.nodes[t.appends[id].from]);
             call.args.term == nd.term && call.args.commit == nd.commit && call.snapshot == nd.log
    ensures CommitInv(t)
  {
    hide Further, Covered, HeldThrough;
    var call := t.appends[id];
    assert NodeCommit(s, call.from);
    if call.args.commit > 0 {
      var term, k :| Justified(s, call.from, term, k);
      assert term <= call.args.term && Covered(s, call.snapshot, call.args.commit, term, k);
    }
    assert CallCommit(s, call);
    hide NodeCommit, CallCommit;
    forall v: nat | v < |t.nodes|
      ensures NodeCommit(t, v)
    {
      SteadyItself(s, t, v);
    }
    forall j | j in t.appends
      ensures CallCommit(t, t.appends[j])
    {
      CallFurther(s, t, t.appends[j]);
    }
  }

  lemma SteadyItself(s: Cluster, t: Cluster, v: nat)
    requires Further(s, t) && v < |s.nodes| == |t.nodes| && NodeCommit(s, v) && t.nodes[v] == s.nodes[v]
    ensures NodeCommit(t, v)
  {
    SteadyCommit(s, t, v);
  }

  /** All but server `v` are as before. */
  lemma OthersCommit(s: Cluster, t: Cluster, v: nat)
    requires CommitInv(s) && Further(s, t) && v < |s.nodes| && t.nodes == s.nodes[v := t.nodes[v]] && NodeCommit(t, v)
    requires forall id :: id in t.appends && t.appends[id].reply.None? ==>
             id in s.appends && s.appends[id] == t.appends[id]
    ensures CommitInv(t)
  {
    hide NodeCommit, CallCommit, LogsGrow;
    forall u: nat | u < |t.nodes|
      ensures NodeCommit(t, u)
    {
      if u != v {
        SteadyItself(s, t, u);
      }
    }
    forall id | id in t.appends
      ensures CallCommit(t, t.appends[id])
    {
      if t.appends[id].reply.None? {
        CallFurther(s, t, s.appends[id]);
      } else {
        AnsweredCommit(t, t.appends[id]);
      }
    }
  }

  lemma DeliverCommit(n: nat, s: Cluster, p: Past, id: nat)
    requires Shape(n, s) && PastInv(s, p) && LogInv(s) && ElectionInv(s) && CommitInv(s)
    requires Enabled(s, DeliverAppend(id)) && Safe(s, DeliverAppend(id)) && WholeVotes(s, DeliverAppend(id))
    ensures CommitInv(Do(s, DeliverAppend(id)))
  {
    hide PastInv, Shape, LogInv, ElectionInv, CommitInv, HandleAppend, Accurate, Further, CommitTaken, Steady,
      NodeCommit, NodeShape, HistoryOk, Genuine, ReceiverOk, NodeOk, VoteMemory, RoleOk, Bumped;
    var (t, call) := (Do(s, DeliverAppend(id)), s.appends[id]);
    StepGoesFurther(n, s, DeliverAppend(id));
    CallParts(n, s, id);
    DeliverCases(n, s, id);
    VoterRemembers(s, call.to);
    ReceiverDoesNotLead(s, call);
    RejectedIsSteady(s.nodes[call.to], call.args);
    if HandleAppend(s.nodes[call.to], call.args).1.success {
      assert Accepted(s, t, id);
      AcceptedCommit(s, p, t, id);
      OthersCommit(s, t, call.to);
    } else {
      OneSteady(s, t, call.to);
    }
  }

  lemma ReturnCommit(n: nat, s: Cluster, id: nat)
    requires Shape(n, s) && LogInv(s) && ElectionInv(s) && CommitInv(s)
    requires Enabled(s, ReturnAppend(id)) && Safe(s, ReturnAppend(id))
    ensures CommitInv(Do(s, ReturnAppend(id)))
  {
    hide Shape, LogInv, ElectionInv, CommitInv, HandleAppendReply, Further, Steady, NodeCommit, NodeShape, HistoryOk,
      Genuine, ReceiverOk, NodeOk, MayCommit;
    var (a, call) := (ReturnAppend(id), s.appends[id]);
    var t := Do(s, a);
    StepGoesFurther(n, s, a);
    CallParts(n, s, id);
    ReplyIsSteady(s.nodes[call.from], call.to, call.args, call.reply.value);
    if t.nodes[call.from].commit == s.nodes[call.from].commit {
      OneSteady(s, t, call.from);
    } else {
      CommitMoves(s.nodes[call.from], call.to, call.args, call.reply.value);
      NextShape(n, s, a);
      NextElection(n, s, a);
      ReturnAppendLog(n, s, id);
      LeaderCommits(n, t, call.from);
      OthersCommit(s, t, call.from);
    }
  }

  lemma SubmitIsSteady(nd: Node, command: Command)
    requires nd.role == Leader ==> nd.commit < |nd.log|
    ensures Steady(nd, Submit(nd, command))
  {
  }

  /** Elections, commands and restarts. */
  lemma NodeCommitStep(n: nat, s: Cluster, a: Action, v: nat)
    requires Shape(n, s) && ElectionInv(s) && LogInv(s) && CommitInv(s) && Enabled(s, a) && Safe(s, a) && v < |s.nodes|
    requires var t := Do(s, a);
             |t.nodes| == |s.nodes| && t.nodes == s.nodes[v := t.nodes[v]] && t.appends == s.appends
               && Steady(s.nodes[v], t.nodes[v])
    ensures CommitInv(Do(s, a))
  {
    hide Shape, ElectionInv, LogInv, CommitInv, Steady, Further, Enabled, Safe, Do;
    StepGoesFurther(n, s, a);
    OneSteady(s, Do(s, a), v);
  }

  lemma VoteCommit(n: nat, s: Cluster, a: Action)
    requires Shape(n, s) && ElectionInv(s) && LogInv(s) && CommitInv(s) && Enabled(s, a) && Safe(s, a)
    requires a.Timeout? || a.DeliverVote? || a.ReturnVote?
    ensures CommitInv(Do(s, a))
  {
    hide Shape, ElectionInv, LogInv, CommitInv, Steady, HandleVote, HandleVoteReply, Elect;
    match a
    case Timeout(v) =>
      VoteIsSteady(s.nodes[v], VoteArgsOf(s.nodes[v]), VoteReply(0, false));
      NodeCommitStep(n, s, a, v);
    case DeliverVote(k) =>
      VoteIsSteady(s.nodes[k.peer], s.ballots[k].args, VoteReply(0, false));
      NodeCommitStep(n, s, a, k.peer);
    case ReturnVote(k) =>
      VoteIsSteady(s.nodes[k.candidate], s.ballots[k].args, s.ballots[k].reply.value);
      NodeCommitStep(n, s, a, k.candidate);
  }

  lemma NodeCommits(s: Cluster, v: nat)
    requires CommitInv(s) && v < |s.nodes|
    ensures NodeCommit(s, v)
  {
    hide NodeCommit, CallCommit;
  }

  lemma CommandCommit(n: nat, s: Cluster, p: Past, v: nat, command: Command)
    requires Shape(n, s) && ElectionInv(s) && LogInv(s) && PastInv(s, p) && CommitInv(s)
    requires Enabled(s, ClientCommand(v, command))
    ensures CommitInv(Do(s, ClientCommand(v, command)))
  {
    hide Shape, ElectionInv, LogInv, PastInv, CommitInv, NodeCommit, NodeOk, RoleOk, VoteMemory, Steady, Submit;
    if s.nodes[v].role == Leader {
      NodeIsOk(s, v);
      VoterRemembers(s, v);
      NodeCommits(s, v);
      LeaderReaches(s, p, v);
    }
    SubmitIsSteady(s.nodes[v], command);
    NodeCommitStep(n, s, ClientCommand(v, command), v);
  }

  lemma RestartCommit(n: nat, s: Cluster, v: nat)
    requires Shape(n, s) && ElectionInv(s) && LogInv(s) && CommitInv(s) && Enabled(s, Restart(v))
    ensures CommitInv(Do(s, Restart(v)))
  {
    assert |s.nodes| == n;
    hide Shape, ElectionInv, LogInv, CommitInv, Steady, Made, NodeShape;
    ShapeParts(n, s, v);
    MadeIsSteady(n, v, s.nodes[v]);
    NodeCommitStep(n, s, Restart(v), v);
  }

  lemma SendOrLoseCommit(n: nat, s: Cluster, a: Action)
    requires Shape(n, s) && ElectionInv(s) && LogInv(s) && CommitInv(s) && Enabled(s, a) && Safe(s, a)
    requires a.SendAppend? || a.LoseAppend? || a.LoseVote?
    ensures CommitInv(Do(s, a))
  {
    hide Shape, ElectionInv, LogInv, CommitInv, Further;
    StepGoesFurther(n, s, a);
    match a
    case SendAppend(from, to, id, isHeartbeat) => SendCommit(s, Do(s, a), id);
    case LoseAppend(id) => LostCommit(s, Do(s, a));
    case LoseVote(k) => LostCommit(s, Do(s, a));
  }

  lemma NextCommit(n: nat, s: Cluster, a: Action, p: Past)
    requires Shape(n, s) && ElectionInv(s) && LogInv(s) && PastInv(s, p) && CommitInv(s)
    requires Enabled(s, a) && Safe(s, a) && WholeVotes(s, a)
    ensures CommitInv(Do(s, a))
  {
    hide *;
    match a
    case DeliverAppend(id) => DeliverCommit(n, s, p, id);
    case ReturnAppend(id) => ReturnCommit(n, s, id);
    case ClientCommand(v, command) => CommandCommit(n, s, p, v, command);
    case Restart(v) => RestartCommit(n, s, v);
    case Timeout(_) => VoteCommit(n, s, a);
    case DeliverVote(_) => VoteCommit(n, s, a);
    case ReturnVote(_) => VoteCommit(n, s, a);
    case _ => SendOrLoseCommit(n, s, a);
  }

  lemma LostCommit(s: Cluster, t: Cluster)
    requires CommitInv(s) && Further(s, t) && t.nodes == s.nodes
    requires forall id :: id in t.appends ==> id in s.appends && s.appends[id] == t.appends[id]
    ensures CommitInv(t)
  {
    hide CommitInv, Further;
    assert forall u :: 0 <= u < |s.nodes| ==> Steady(s.nodes[u], t.nodes[u]);
    SteadyStep(s, t);
  }

  lemma InitCommit(n: nat, s: Cluster)
    requires Init(n, s)
    ensures CommitInv(s)
  {
  }

  lemma WholeStep(n: nat, run: seq<Cluster>, actions: seq<Action>, i: nat)
    requires WholeRun(n, run, actions) && i < |actions|
    ensures |run| == |actions| + 1 && Next(run[i], actions[i], run[i + 1]) && WholeVotes(run[i], actions[i])
  {
    hide Next, LeaderSends, WholeVotes, LedRun;
    LedStep(n, run, actions, i);
  }

  lemma InitCommits(n: nat, run: seq<Cluster>, actions: seq<Action>)
    requires Run(n, run, actions)
    ensures CommitInv(run[0])
  {
    hide StepAt, CommitInv, Init;
    InitCommit(n, run[0]);
  }

  lemma {:induction false} EveryCommit(n: nat, run: seq<Cluster>, actions: seq<Action>, i: nat)
    requires WholeRun(n, run, actions) && i < |run|
    ensures CommitInv(run[i])
  {
    hide Run, Shape, ElectionInv, LogInv, PastInv, CommitInv, Enabled, Safe, Do, LeaderSends, WholeVotes;
    if i == 0 {
      InitCommits(n, run, actions);
    } else {
      RunLength(n, run, actions);
      EveryCommit(n, run, actions, i - 1);
      var p := SomePast(n, run, actions, i - 1);
      EveryLog(n, run, actions, i - 1);
      WholeStep(n, run, actions, i - 1);
      NextCommit(n, run[i - 1], actions[i - 1], p);
    }
  }

  // ---------------------------------------------------------------------
  // State Machine Safety

  lemma {:induction false} FurtherAlong(n: nat, run: seq<Cluster>, actions: seq<Action>, i: nat, j: nat)
    requires WholeRun(n, run, actions) && i <= j < |run|
    ensures Further(run[i], run[j])
  {
    hide StepAt, Init, Shape, ElectionInv, LogInv, Enabled, Safe, Do, LeaderSends, WholeVotes;
    LogsGrowAlong(n, run, actions, i, j);
    hide LogsGrow;
    if i < j {
      FurtherAlong(n, run, actions, i, j - 1);
      EveryLog(n, run, actions, j - 1);
      LedStep(n, run, actions, j - 1);
      StepGoesFurther(n, run[j - 1], actions[j - 1]);
    }
  }

  /** What is committed, as far as the log goes, is what a leader has up to a chosen index. */
  lemma CommitIsCovered(n: nat, run: seq<Cluster>, actions: seq<Action>, i: nat, v: nat) returns (term: int, k: nat)
    requires WholeRun(n, run, actions) && i < |run| && v < |run[i].nodes|
    ensures 0 <= run[i].nodes[v].commit
    ensures run[i].nodes[v].commit > 0 ==> Covered(run[i], run[i].nodes[v].log, run[i].nodes[v].commit, term, k)
  {
    hide WholeRun, Covered, HeldThrough;
    EveryCommit(n, run, actions, i);
    assert NodeCommit(run[i], v);
    term, k := 0, 0;
    if run[i].nodes[v].commit > 0 {
      term, k :| Justified(run[i], v, term, k);
    }
  }

  /** Two covered logs agree where both reach. */
  lemma CoveredAgree(
    s: Cluster, p: Past, a: Log, c: int, term: int, k: nat, b: Log, d: int, later: int, m: nat, x: nat)
    requires PastInv(s, p) && LogInv(s) && Covered(s, a, c, term, k) && Covered(s, b, d, later, m) && term <= later
    requires x <= c && x <= d && x < |a| && x < |b|
    ensures a[x] == b[x]
  {
    hide PastInv, LogInv, Chosen;
    ChosenParts(s, later, m);
    if term < later {
      LaterLeaderHasChosen(s, p, term, k, later);
      assert s.logs[term][..k + 1][x] == s.logs[later][x];
    }
  }

  /**
   State Machine Safety: what two servers commit at an index, at whatever moments,
   is the same entry wherever both logs reach; and that is everywhere when no
   call is accepted out of order.
   */
  lemma StateMachineSafety(n: nat, run: seq<Cluster>, actions: seq<Action>, i: nat, j: nat, a: nat, b: nat, x: nat)
    requires WholeRun(n, run, actions) && i <= j < |run| && a < |run[i].nodes| && b < |run[j].nodes|
    requires x <= run[i].nodes[a].commit && x <= run[j].nodes[b].commit
    ensures x < |run[i].nodes[a].log| && x < |run[j].nodes[b].log| ==>
              run[i].nodes[a].log[x] == run[j].nodes[b].log[x]
    ensures OrderedRun(n, run, actions) ==> x < |run[i].nodes[a].log| && x < |run[j].nodes[b].log|
  {
    if OrderedRun(n, run, actions) {
      CommitInside(n, run, actions, i, a);
      CommitInside(n, run, actions, j, b);
    }
    if x < |run[i].nodes[a].log| && x < |run[j].nodes[b].log| {
      CommittedAgree(n, run, actions, i, j, a, b, x);
    }
  }

  lemma CommittedAgree(n: nat, run: seq<Cluster>, actions: seq<Action>, i: nat, j: nat, a: nat, b: nat, x: nat)
    requires WholeRun(n, run, actions) && i <= j < |run| && a < |run[i].nodes| && b < |run[j].nodes|
    requires x <= run[i].nodes[a].commit && x <= run[j].nodes[b].commit
    requires x < |run[i].nodes[a].log| && x < |run[j].nodes[b].log|
    ensures run[i].nodes[a].log[x] == run[j].nodes[b].log[x]
  {
    hide Run, LeaderSends, WholeVotes, Covered, Further, PastInv, LogInv, ElectionInv, Shape, Coherent;
    var term, k := CommitIsCovered(n, run, actions, i, a);
    var later, m := CommitIsCovered(n, run, actions, j, b);
    if x == 0 {
      FirstEntries(n, run, actions, i, a);
      FirstEntries(n, run, actions, j, b);
    } else {
      FurtherAlong(n, run, actions, i, j);
      CoveredFurther(run[i], run[j], run[i].nodes[a].log, run[i].nodes[a].commit, term, k);
      EveryLog(n, run, actions, j);
      var p := SomePast(n, run, actions, j);
      if term <= later {
        CoveredAgree(run[j], p, run[i].nodes[a].log, run[i].nodes[a].commit, term, k,
                     run[j].nodes[b].log, run[j].nodes[b].commit, later, m, x);
      } else {
        CoveredAgree(run[j], p, run[j].nodes[b].log, run[j].nodes[b].commit, later, m,
                     run[i].nodes[a].log, run[i].nodes[a].commit, term, k, x);
      }
    }
  }

  lemma SomePast(n: nat, run: seq<Cluster>, actions: seq<Action>, i: nat) returns (p: Past)
    requires WholeRun(n, run, actions) && i < |run|
    ensures PastInv(run[i], p)
  {
    hide StepAt, LeaderSends, Init, PastInv;
    EveryPast(n, run, actions, i);
    p := PastAt(run, actions, i);
  }

  lemma FirstEntries(n: nat, run: seq<Cluster>, actions: seq<Action>, i: nat, v: nat)
    requires WholeRun(n, run, actions) && i < |run| && v < |run[i].nodes|
    ensures run[i].nodes[v].log != [] && run[i].nodes[v].log[0] == SENTINEL
  {
    EveryLog(n, run, actions, i);
    hide LogInv, ElectionInv, WholeRun;
    assert NodeShape(n, v, run[i].nodes[v]);
  }

  // ---------------------------------------------------------------------
  // Ordered runs: the log never falls behind the commit index

  ghost predicate InsideInv(s: Cluster) {
    && (forall v: nat :: v < |s.nodes| ==> s.nodes[v].commit < |s.nodes[v].log|)
    && (forall id :: id in s.appends && s.appends[id].reply.None? ==>
          s.appends[id].args.commit < |s.appends[id].snapshot|)
  }

  /** A call that is not stale leaves the receiver with all it has committed. */
  lemma AcceptedInside(s: Cluster, p: Past, t: Cluster, id: nat)
    requires PastInv(s, p) && LogInv(s) && Accepted(s, t, id)
    requires Genuine(s, s.appends[id]) && CallPast(s, p, s.appends[id])
    requires NodeCommit(s, s.appends[id].to) && !Stale(s, s.appends[id])
    requires |s.appends[id].snapshot| == s.appends[id].args.prevIndex + 1 + |s.appends[id].args.entries|
    ensures s.nodes[s.appends[id].to].commit < |s.appends[id].snapshot|
  {
    hide VoteGood, NodePast, HeldPast, BallotPast, Grounded, NodeOk, BeliefOk, ReceiverOk, LeaderOk, Chosen, SentFrom,
      HistoryOk, LeaderPast;
    var (call, nd) := (s.appends[id], s.nodes[s.appends[id].to]);
    var now := call.args.term;
    SnapshotNonempty(call);
    if nd.commit > 0 {
      var term, k :| Justified(s, call.to, term, k);
      if term < now {
        LaterLeaderHasChosen(s, p, term, k, now);
        assert LeaderPast(s, p, now);
        ChosenFitsStart(s, p, term, k, now);
      } else {
        assert HeldThrough(s, call.to, term, nd.commit);
      }
    }
  }

  lemma CallIsPast(s: Cluster, p: Past, id: nat)
    requires PastInv(s, p) && id in s.appends
    ensures CallPast(s, p, s.appends[id])
  {
    hide Grounded, LeaderPast, VoteGood, NodePast, HeldPast, BallotPast, CallPast;
  }

  lemma DeliverInside(n: nat, s: Cluster, p: Past, id: nat)
    requires Shape(n, s) && PastInv(s, p) && LogInv(s) && ElectionInv(s) && CommitInv(s) && InsideInv(s)
    requires Enabled(s, DeliverAppend(id)) && Safe(s, DeliverAppend(id)) && InOrder(s, DeliverAppend(id))
    ensures InsideInv(Do(s, DeliverAppend(id)))
  {
    hide PastInv, Shape, LogInv, ElectionInv, CommitInv, HandleAppend, Accurate, NodeCommit, NodeShape, HistoryOk,
      Genuine, ReceiverOk, NodeOk, VoteMemory, RoleOk, Bumped, Stale, CallPast, SentFrom;
    var (t, call) := (Do(s, DeliverAppend(id)), s.appends[id]);
    CallParts(n, s, id);
    DeliverCases(n, s, id);
    VoterRemembers(s, call.to);
    ReceiverDoesNotLead(s, call);
    RejectedIsSteady(s.nodes[call.to], call.args);
    if HandleAppend(s.nodes[call.to], call.args).1.success {
      assert Accepted(s, t, id);
      CallIsPast(s, p, id);
      NodeCommits(s, call.to);
      AcceptedInside(s, p, t, id);
      SnapshotIsLog(s, call);
    }
  }

  lemma SnapshotIsLog(s: Cluster, call: AppendCall)
    requires Genuine(s, call)
    ensures call.snapshot != []
  {
    SnapshotNonempty(call);
  }

  /** The index may move, but stays inside the log. */
  ghost predicate StaysInside(nd: Node, after: Node) {
    0 <= nd.commit < |nd.log| ==> nd.commit <= after.commit < |after.log| || (after.commit == 0 && after.log != [])
  }

  lemma VoteStaysInside(nd: Node, args: VoteArgs, reply: VoteReply)
    ensures StaysInside(nd, Elect(nd)) && StaysInside(nd, HandleVote(nd, args).0)
    ensures StaysInside(nd, HandleVoteReply(nd, args, reply))
  {
  }

  lemma ReplyStaysInside(nd: Node, server: nat, args: AppendArgs, reply: AppendReply)
    requires nd.peers <= |nd.matched| && 0 <= nd.commit && nd.log != []
    requires server < |nd.next| && server < |nd.matched|
    ensures StaysInside(nd, HandleAppendReply(nd, server, args, reply))
  {
    CommitMoves(nd, server, args, reply);
    ReplyIsSteady(nd, server, args, reply);
    hide HandleAppendReply, MayCommit, Steady;
  }

  lemma OwnStaysInside(n: nat, v: nat, nd: Node, command: Command)
    requires NodeShape(n, v, nd)
    ensures StaysInside(nd, Submit(nd, command)) && StaysInside(nd, Made(v, nd.peers, nd.saved))
  {
  }

  lemma OneStaysInside(s: Cluster, t: Cluster, v: nat)
    requires InsideInv(s) && v < |s.nodes| == |t.nodes| && t.nodes == s.nodes[v := t.nodes[v]] && s.nodes[v].commit >= 0
    requires StaysInside(s.nodes[v], t.nodes[v])
    requires forall id :: id in t.appends && t.appends[id].reply.None? ==>
             id in s.appends && s.appends[id] == t.appends[id]
    ensures InsideInv(t)
  {
  }

  lemma VoteInside(s: Cluster, a: Action)
    requires InsideInv(s) && Enabled(s, a) && Safe(s, a) && (a.Timeout? || a.DeliverVote? || a.ReturnVote?)
    requires forall v: nat :: v < |s.nodes| ==> s.nodes[v].commit >= 0
    ensures InsideInv(Do(s, a))
  {
    hide InsideInv, HandleVote, HandleVoteReply, Elect, StaysInside;
    var t := Do(s, a);
    match a
    case Timeout(v) =>
      VoteStaysInside(s.nodes[v], VoteArgsOf(s.nodes[v]), VoteReply(0, false));
      OneStaysInside(s, t, v);
    case DeliverVote(k) =>
      VoteStaysInside(s.nodes[k.peer], s.ballots[k].args, VoteReply(0, false));
      OneStaysInside(s, t, k.peer);
    case ReturnVote(k) =>
      VoteStaysInside(s.nodes[k.candidate], s.ballots[k].args, s.ballots[k].reply.value);
      OneStaysInside(s, t, k.candidate);
  }

  lemma OwnInside(n: nat, s: Cluster, a: Action)
    requires Shape(n, s) && InsideInv(s) && Enabled(s, a) && Safe(s, a)
    requires a.ReturnAppend? || a.ClientCommand? || a.Restart?
    requires forall v: nat :: v < |s.nodes| ==> s.nodes[v].commit >= 0
    ensures InsideInv(Do(s, a))
  {
    assert |s.nodes| == n;
    hide Shape, InsideInv, HandleAppendReply, Made, Submit, StaysInside, NodeShape;
    var t := Do(s, a);
    match a
    case ReturnAppend(id) =>
      var call := s.appends[id];
      ReplyStaysInside(s.nodes[call.from], call.to, call.args, call.reply.value);
      OneStaysInside(s, t, call.from);
    case ClientCommand(v, command) =>
      ShapeParts(n, s, v);
      OwnStaysInside(n, v, s.nodes[v], command);
      OneStaysInside(s, t, v);
    case Restart(v) =>
      ShapeParts(n, s, v);
      OwnStaysInside(n, v, s.nodes[v], 0);
      OneStaysInside(s, t, v);
  }

  lemma CommitsAreIndices(s: Cluster)
    requires CommitInv(s)
    ensures forall v: nat :: v < |s.nodes| ==> s.nodes[v].commit >= 0
  {
    forall v: nat | v < |s.nodes|
      ensures s.nodes[v].commit >= 0
    {
      assert NodeCommit(s, v);
    }
  }

  lemma NextInside(n: nat, s: Cluster, a: Action, p: Past)
    requires Shape(n, s) && ElectionInv(s) && LogInv(s) && PastInv(s, p) && CommitInv(s) && InsideInv(s)
    requires Enabled(s, a) && Safe(s, a) && InOrder(s, a)
    ensures InsideInv(Do(s, a))
  {
    hide *;
    CommitsAreIndices(s);
    match a
    case Timeout(_) => VoteInside(s, a);
    case DeliverVote(_) => VoteInside(s, a);
    case ReturnVote(_) => VoteInside(s, a);
    case DeliverAppend(id) => DeliverInside(n, s, p, id);
    case ReturnAppend(_) => OwnInside(n, s, a);
    case ClientCommand(_, _) => OwnInside(n, s, a);
    case Restart(_) => OwnInside(n, s, a);
    case _ => SendOrLoseInside(s, a);
  }

  lemma SendOrLoseInside(s: Cluster, a: Action)
    requires InsideInv(s) && Enabled(s, a) && Safe(s, a) && (a.SendAppend? || a.LoseAppend? || a.LoseVote?)
    ensures InsideInv(Do(s, a))
  {
  }

  lemma InitInside(n: nat, s: Cluster)
    requires Init(n, s)
    ensures InsideInv(s)
  {
  }

  lemma {:induction false} EveryInside(n: nat, run: seq<Cluster>, actions: seq<Action>, i: nat)
    requires OrderedRun(n, run, actions) && WholeRun(n, run, actions) && i < |run|
    ensures InsideInv(run[i])
  {
    hide StepAt, Shape, ElectionInv, LogInv, CommitInv, PastInv, InsideInv, Enabled, Safe, Do, LeaderSends, InOrder,
      WholeVotes, Init;
    if i == 0 {
      InitInside(n, run[0]);
    } else {
      EveryInside(n, run, actions, i - 1);
      var p := SomePast(n, run, actions, i - 1);
      EveryCommit(n, run, actions, i - 1);
      EveryLog(n, run, actions, i - 1);
      OrderedStep(n, run, actions, i - 1);
      NextInside(n, run[i - 1], actions[i - 1], p);
    }
  }

  /** In an ordered run the commit index is always inside the log. */
  lemma CommitInside(n: nat, run: seq<Cluster>, actions: seq<Action>, i: nat, v: nat)
    requires OrderedRun(n, run, actions) && i < |run| && v < |run[i].nodes|
    ensures 0 <= run[i].nodes[v].commit < |run[i].nodes[v].log|
  {
    hide OrderedRun, WholeRun, NodeCommit;
    OrderedIsWhole(n, run, actions);
    EveryInside(n, run, actions, i);
    var _, _ := CommitIsCovered(n, run, actions, i, v);
  }

  /** What a server has committed it keeps, in every step of an ordered run but its own restart. */
  lemma CommittedStays(n: nat, run: seq<Cluster>, actions: seq<Action>, i: nat, v: nat)
    requires OrderedRun(n, run, actions) && i < |actions| && v < |run[i].nodes| && actions[i] != Restart(v)
    ensures |run[i + 1].nodes| == |run[i].nodes|
    ensures var (nd, after) := (run[i].nodes[v], run[i + 1].nodes[v]);
            && nd.commit <= after.commit && 0 <= nd.commit < |nd.log| && after.commit < |after.log|
            && after.log[..nd.commit + 1] == nd.log[..nd.commit + 1]
  {
    hide StepAt, Init, LeaderSends, InOrder, WholeVotes, LogsGrow;
    OrderedIsWhole(n, run, actions);
    FurtherAlong(n, run, actions, i, i + 1);
    CommitInside(n, run, actions, i, v);
    CommitInside(n, run, actions, i + 1, v);
    CommitGrows(n, run, actions, i, v);
    hide Further, WholeRun, OrderedRun;
    var (nd, after) := (run[i].nodes[v], run[i + 1].nodes[v]);
    forall x: nat | x <= nd.commit
      ensures after.log[x] == nd.log[x]
    {
      StateMachineSafety(n, run, actions, i, i + 1, v, v, x);
    }
  }

  lemma CommitGrows(n: nat, run: seq<Cluster>, actions: seq<Action>, i: nat, v: nat)
    requires OrderedRun(n, run, actions) && i < |actions| && v < |run[i].nodes| && actions[i] != Restart(v)
    requires |run[i + 1].nodes| == |run[i].nodes|
    ensures run[i].nodes[v].commit <= run[i + 1].nodes[v].commit
  {
    hide LedRun, InOrder, LeaderSends, HandleVote, HandleVoteReply, Elect, Submit, HandleAppend, HandleAppendReply,
      Made, LogInv, ElectionInv, PastInv, InsideInv;
    OrderedIsWhole(n, run, actions);
    OrderedStep(n, run, actions, i);
    EveryLog(n, run, actions, i);
    EveryInside(n, run, actions, i);
    hide WholeRun;
    var (s, a) := (run[i], actions[i]);
    assert |s.nodes| == n;
    hide Shape;
    match a
    case Timeout(u) => VoteKeepsCommit(s.nodes[u], VoteArgsOf(s.nodes[u]), VoteReply(0, false));
    case DeliverVote(k) => VoteKeepsCommit(s.nodes[k.peer], s.ballots[k].args, VoteReply(0, false));
    case ReturnVote(k) => VoteKeepsCommit(s.nodes[k.candidate], s.ballots[k].args, s.ballots[k].reply.value);
    case DeliverAppend(id) => RaisedByAppend(n, s, id);
    case ReturnAppend(id) =>
      var call := s.appends[id];
      RaisedByReply(s.nodes[call.from], call.to, call.args, call.reply.value);
    case ClientCommand(u, command) => SubmitKeepsCommit(s.nodes[u], command);
    case _ =>
  }

  lemma VoteKeepsCommit(nd: Node, args: VoteArgs, reply: VoteReply)
    ensures Elect(nd).commit == HandleVote(nd, args).0.commit == HandleVoteReply(nd, args, reply).commit == nd.commit
  {
  }

  lemma RaisedByAppend(n: nat, s: Cluster, id: nat)
    requires Shape(n, s) && LogInv(s) && InsideInv(s) && Enabled(s, DeliverAppend(id)) && Safe(s, DeliverAppend(id))
    ensures var nd := s.nodes[s.appends[id].to]; HandleAppend(nd, s.appends[id].args).0.commit >= nd.commit
  {
    hide Shape, LogInv, HandleAppend, Accurate, Steady, Bumped;
    DeliverCases(n, s, id);
    RejectedIsSteady(s.nodes[s.appends[id].to], s.appends[id].args);
  }

  lemma RaisedByReply(nd: Node, server: nat, args: AppendArgs, reply: AppendReply)
    requires nd.peers <= |nd.matched| && 0 <= nd.commit && nd.log != []
    requires server < |nd.next| && server < |nd.matched|
    ensures HandleAppendReply(nd, server, args, reply).commit >= nd.commit
  {
    hide HandleAppendReply, MayCommit;
    CommitMoves(nd, server, args, reply);
  }

  lemma SubmitKeepsCommit(nd: Node, command: Command)
    ensures Submit(nd, command).commit == nd.commit
  {
  }
}
