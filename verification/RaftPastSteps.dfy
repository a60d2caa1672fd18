/** Every step of a run with whole voters keeps what the past says. */
module RaftPastSteps {
  import opened FiniteSets
  import opened RaftState
  import opened RaftCluster
  import opened RaftElection
  import opened RaftLogs
  import opened RaftReplication
  import opened RaftMatching
  import opened RaftPast

  // ---------------------------------------------------------------------
  // Steps after which the past is the same

  /** The server keeps its log, and is a candidate only if it was one in the same term. */
  ghost predicate Unmoved(nd: Node, after: Node) {
    && after.log == nd.log && after.term >= nd.term
    && (after.role == Candidate ==> nd.role == Candidate && nd.term == after.term)
    && (after.role == Leader ==> nd.role == Leader)
  }

  lemma SameOnward(s: Cluster, t: Cluster, p: Past)
    requires |t.nodes| == |s.nodes| && t.logs == s.logs && t.leaders == s.leaders && t.cast == s.cast
    requires t.held == s.held
    ensures Onward(s, p, t, p) && FreshOnly(s, t) && forall v: nat, bound: int :: NothingNew(s, t, v, bound)
  {
  }

  lemma StillNode(s: Cluster, t: Cluster, p: Past, v: nat)
    requires PastInv(s, p) && LogInv(s) && Onward(s, p, t, p) && v < |s.nodes| == |t.nodes|
    requires Unmoved(s.nodes[v], t.nodes[v])
    requires t.leaders == s.leaders && t.held == s.held && NothingNew(s, t, v, t.nodes[v].term + 1)
    ensures NodePast(t, p, v)
  {
    hide PastInv, LogInv, Onward, NothingNew, WithinTerm, Sourced, MostlySourced;
    StaysWithin(s, p, v);
    NodeIsPast(s, p, v);
    assert CandsOk(t, p, v) && StandsOk(s, t, p, v);
    NodeOnward(s, p, t, p, v);
  }

  /** Requests in flight stay, and nobody stored anything. */
  lemma StillStep(s: Cluster, t: Cluster, p: Past)
    requires PastInv(s, p) && LogInv(s) && ElectionInv(s) && |t.nodes| == |s.nodes|
    requires t.logs == s.logs && t.leaders == s.leaders && t.cast == s.cast && t.held == s.held
    requires forall v :: 0 <= v < |s.nodes| ==> Unmoved(s.nodes[v], t.nodes[v])
    requires forall k :: k in t.ballots ==> k in s.ballots && t.ballots[k].args == s.ballots[k].args
    requires forall id :: id in t.appends && t.appends[id].reply.None? ==>
             id in s.appends && s.appends[id] == t.appends[id]
    ensures PastInv(t, p)
  {
    hide ElectionInv, LogInv, LeaderPast, VoteGood, NodePast, HeldPast, BallotPast, Onward, FreshOnly, NothingNew;
    SameOnward(s, t, p);
    forall v: nat | v < |t.nodes|
      ensures NodePast(t, p, v) && t.nodes[v].term >= s.nodes[v].term
    {
      assert Unmoved(s.nodes[v], t.nodes[v]);
      StillNode(s, t, p, v);
    }
    forall id | id in t.appends
      ensures CallPast(t, p, t.appends[id])
    {
      if t.appends[id].reply.None? {
        assert CallPast(s, p, s.appends[id]);
      }
    }
    Assemble(s, p, t, p);
  }

  lemma PastIsGrounded(s: Cluster, p: Past)
    requires PastInv(s, p)
    ensures Grounded(s, p)
  {
    hide Grounded, LeaderPast, VoteGood, NodePast, HeldPast, BallotPast, CallPast;
  }

  // ---------------------------------------------------------------------
  // Standing for election

  /** What standing for election changes. */
  ghost predicate Stood(s: Cluster, p: Past, t: Cluster, q: Past, v: nat, term: int) {
    && v < |s.nodes| == |t.nodes| && t.nodes == s.nodes[v := t.nodes[v]] && term == s.nodes[v].term + 1
    && t.nodes[v].log == s.nodes[v].log && t.nodes[v].term == term && t.nodes[v].role == Candidate && Whole(s, v)
    && t.logs == s.logs && t.leaders == s.leaders && t.held == s.held && t.appends == s.appends
    && t.cast == s.cast[(v, term) := v]
    && q == p.(cands := p.cands[(v, term) := s.nodes[v].log], seen := p.seen[(v, term) := s.nodes[v].log])
    && forall k :: k in t.ballots ==>
         || (k in s.ballots && t.ballots[k] == s.ballots[k])
         || (&& k.candidate == v && k.term == term && t.ballots[k].args.lastIndex == LastLogIndex(s.nodes[v].log)
             && t.ballots[k].args.lastTerm == LogTerm(s.nodes[v].log, LastLogIndex(s.nodes[v].log)))
  }

  lemma TimeoutStood(n: nat, s: Cluster, p: Past, v: nat)
    requires Shape(n, s) && Enabled(s, Timeout(v)) && WholeVotes(s, Timeout(v))
    ensures Stood(s, p, Do(s, Timeout(v)), Remember(s, Timeout(v), p), v, s.nodes[v].term + 1)
  {
    assert NodeShape(n, v, s.nodes[v]);
  }

  lemma StoodOnward(s: Cluster, p: Past, t: Cluster, q: Past, v: nat, term: int)
    requires PastInv(s, p) && ElectionInv(s) && Stood(s, p, t, q, v, term)
    ensures Onward(s, p, t, q) && FreshOnly(s, t) && Grounded(t, q) && (v, term) !in s.cast
    ensures forall u: nat, bound: int :: NothingNew(s, t, u, bound)
  {
    hide PastInv, ElectionInv, Sourced, MostlySourced, Whole;
    NodeIsPast(s, p, v);
    VoterRemembers(s, v);
    PastIsGrounded(s, p);
  }

  lemma NodeIsPast(s: Cluster, p: Past, v: nat)
    requires PastInv(s, p) && v < |s.nodes|
    ensures NodePast(s, p, v)
  {
    hide Grounded, LeaderPast, VoteGood, NodePast, HeldPast, BallotPast, CallPast;
  }

  lemma VoterRemembers(s: Cluster, v: nat)
    requires ElectionInv(s) && v < |s.nodes|
    ensures VoteMemory(s, v) && RoleOk(s, v)
  {
    hide VoteMemory, RoleOk, BallotOk, Elected;
  }

  lemma SelfVote(s: Cluster, p: Past, t: Cluster, q: Past, v: nat, term: int)
    requires Stood(s, p, t, q, v, term) && NodePast(s, p, v) && NodeOk(s, v)
    requires Onward(s, p, t, q) && NothingNew(s, t, v, term)
    ensures (v, term) in t.cast && VoteGood(t, q, v, term)
  {
    hide Onward, NothingNew, Sourced, MostlySourced, LogOk, Whole;
    WholeIsSourced(s, p, v, term);
    SourcedOnward(s, p, t, q, v, s.nodes[v].log, term, term);
  }

  lemma StoodNode(s: Cluster, p: Past, t: Cluster, q: Past, v: nat, term: int, u: nat)
    requires PastInv(s, p) && LogInv(s) && Stood(s, p, t, q, v, term) && term >= 1 && u < |s.nodes|
    requires Onward(s, p, t, q) && NothingNew(s, t, u, t.nodes[u].term + 1)
    ensures NodePast(t, q, u) && t.nodes[u].term >= s.nodes[u].term
  {
    hide PastInv, LogInv, Onward, NothingNew, WithinTerm, Sourced, MostlySourced, Whole;
    StaysWithin(s, p, u);
    NodeIsPast(s, p, u);
    if u == v {
      WholeIsSourced(s, p, v, term);
      SourcedOnward(s, p, t, q, v, s.nodes[v].log, term, term + 1);
    }
    NodeOnward(s, p, t, q, u);
  }

  lemma StoodPast(s: Cluster, p: Past, t: Cluster, q: Past, v: nat, term: int)
    requires PastInv(s, p) && LogInv(s) && ElectionInv(s) && Stood(s, p, t, q, v, term) && term >= 1
    ensures PastInv(t, q)
  {
    hide LogInv, ElectionInv, LeaderPast, VoteGood, HeldPast, NodePast, Onward, FreshOnly, NothingNew, Grounded,
      Whole;
    StoodOnward(s, p, t, q, v, term);
    NodeIsOk(s, v);
    SelfVote(s, p, t, q, v, term);
    forall u: nat | u < |t.nodes|
      ensures NodePast(t, q, u) && t.nodes[u].term >= s.nodes[u].term
    {
      StoodNode(s, p, t, q, v, term, u);
    }
    forall id | id in t.appends
      ensures CallPast(t, q, t.appends[id])
    {
      assert CallPast(s, p, s.appends[id]);
    }
    Assemble(s, p, t, q);
  }

  lemma NodeIsOk(s: Cluster, v: nat)
    requires LogInv(s) && v < |s.nodes|
    ensures NodeOk(s, v)
  {
    hide NodeOk, HistoryOk, BeliefOk, Genuine, ReceiverOk;
  }

  // ---------------------------------------------------------------------
  // Voting

  /** What a new vote changes. */
  ghost predicate Voted(s: Cluster, p: Past, t: Cluster, q: Past, k: VoteKey) {
    var v := k.peer;
    && k in s.ballots && v < |s.nodes| == |t.nodes| && t.nodes == s.nodes[v := t.nodes[v]]
    && Unmoved(s.nodes[v], t.nodes[v]) && t.nodes[v].term == k.term
    && t.logs == s.logs && t.leaders == s.leaders && t.held == s.held && t.appends == s.appends
    && (v, k.term) !in s.cast && t.cast == s.cast[(v, k.term) := k.candidate]
    && q == p.(seen := p.seen[(v, k.term) := s.nodes[v].log])
    && UpToDate(s.ballots[k].args, s.nodes[v].log) && Whole(s, v)
    && forall l :: l in t.ballots ==> l in s.ballots && t.ballots[l].args == s.ballots[l].args
  }

  lemma VotedOnward(s: Cluster, p: Past, t: Cluster, q: Past, k: VoteKey)
    requires PastInv(s, p) && Voted(s, p, t, q, k)
    ensures Onward(s, p, t, q) && FreshOnly(s, t) && Grounded(t, q)
    ensures forall u: nat, bound: int :: NothingNew(s, t, u, bound)
  {
    hide PastInv, UpToDate, Whole;
    PastIsGrounded(s, p);
  }

  /** With no leader of `term` yet, nothing of that term has replaced anything. */
  lemma SourcedLower(s: Cluster, p: Past, v: nat, log: Log, term: int)
    requires Sourced(s, p, v, log, term + 1) && term !in s.leaders
    ensures Sourced(s, p, v, log, term)
  {
    forall h | h in s.held && h.server == v && h.term < term
      ensures Kept(s, p, h.log, h.term, log, term)
    {
      KeptLower(s, p, h.log, h.term, log, term);
    }
    forall u | u in s.leaders && u in s.logs && s.leaders[u] == v && u < term
      ensures Kept(s, p, s.logs[u], u, log, term)
    {
      KeptLower(s, p, s.logs[u], u, log, term);
    }
  }

  lemma KeptLower(s: Cluster, p: Past, stored: Log, u: int, log: Log, term: int)
    requires Kept(s, p, stored, u, log, term + 1) && term !in s.leaders
    ensures Kept(s, p, stored, u, log, term)
  {
    if !(stored <= log) {
      var w :| Replaced(s, p, u, log, term + 1, w);
      assert Replaced(s, p, u, log, term, w);
    }
  }

  /** A log without entries of the undecided term. */
  lemma UndecidedTerm(logs: map<int, Log>, leaders: map<int, nat>, log: Log, bound: int, term: int)
    requires LogOk(logs, log, bound) && bound <= term && term >= 1 && term !in leaders
    requires forall u :: u in logs ==> u == 0 || u in leaders
    ensures LogOk(logs, log, term - 1)
  {
  }

  lemma VoteIsGood(s: Cluster, p: Past, t: Cluster, q: Past, k: VoteKey)
    requires Voted(s, p, t, q, k) && NodePast(s, p, k.peer) && NodeOk(s, k.peer) && BallotPast(s, p, k)
    requires Onward(s, p, t, q) && NothingNew(s, t, k.peer, k.term) && WithinTerm(s, k.peer, s.nodes[k.peer].term + 1)
    requires k.term !in s.leaders && k.term >= 1 && forall u :: u in s.logs ==> u == 0 || u in s.leaders
    ensures (k.peer, k.term) in t.cast && VoteGood(t, q, k.peer, k.term)
  {
    hide Onward, NothingNew, WithinTerm, Sourced, MostlySourced, LogOk, Whole;
    var (v, log, term) := (k.peer, s.nodes[k.peer].log, k.term);
    WholeIsSourced(s, p, v, s.nodes[v].term + 1);
    UndecidedTerm(s.logs, s.leaders, log, s.nodes[v].term, term);
    if s.nodes[v].term == term {
      SourcedLower(s, p, v, log, term);
      SourcedOnward(s, p, t, q, v, log, term, term);
    } else {
      SourcedOnward(s, p, t, q, v, log, s.nodes[v].term + 1, term);
    }
  }

  lemma VotedNode(s: Cluster, p: Past, t: Cluster, q: Past, k: VoteKey, u: nat)
    requires PastInv(s, p) && LogInv(s) && Voted(s, p, t, q, k) && u < |s.nodes|
    requires Onward(s, p, t, q) && NothingNew(s, t, u, t.nodes[u].term + 1)
    ensures NodePast(t, q, u) && t.nodes[u].term >= s.nodes[u].term
  {
    hide PastInv, LogInv, Onward, NothingNew, WithinTerm, Sourced, MostlySourced, UpToDate, Whole;
    StaysWithin(s, p, u);
    NodeIsPast(s, p, u);
    NodeOnward(s, p, t, q, u);
  }

  lemma VotedPast(s: Cluster, p: Past, t: Cluster, q: Past, k: VoteKey)
    requires PastInv(s, p) && LogInv(s) && ElectionInv(s) && Voted(s, p, t, q, k) && k.term >= 1
    ensures PastInv(t, q)
  {
    hide ElectionInv, HistoryOk, NodeOk, BeliefOk, Genuine, ReceiverOk, LeaderOk, VoteGood, HeldPast, NodePast,
      Onward, FreshOnly, NothingNew, Grounded, WithinTerm, UpToDate, BallotPast;
    VotedOnward(s, p, t, q, k);
    StaysWithin(s, p, k.peer);
    if k.term !in s.leaders {
      VoteIsGood(s, p, t, q, k);
    }
    forall u: nat | u < |t.nodes|
      ensures NodePast(t, q, u) && t.nodes[u].term >= s.nodes[u].term
    {
      VotedNode(s, p, t, q, k, u);
    }
    forall id | id in t.appends
      ensures CallPast(t, q, t.appends[id])
    {
      assert CallPast(s, p, s.appends[id]);
    }
    Assemble(s, p, t, q);
  }

  // ---------------------------------------------------------------------
  // Winning

  /** What winning changes, in the cluster and in what is remembered. */
  ghost predicate WonPast(s: Cluster, p: Past, t: Cluster, q: Past, v: nat, term: int) {
    && Won(s, t, v) && term == t.nodes[v].term && t.cast == s.cast
    && |Supporters(s, v, term)| > |s.nodes| / 2
    && q == p.(electors := p.electors[term := Supporters(s, v, term)], starts := p.starts[term := t.nodes[v].log])
    && (forall l :: l in t.ballots ==> l in s.ballots && t.ballots[l].args == s.ballots[l].args)
    && term !in s.leaders && term !in s.logs && LogsGrow(s.logs, t.logs)
  }

  lemma WonFresh(s: Cluster, p: Past, t: Cluster, q: Past, v: nat, term: int)
    requires Grounded(s, p) && WonPast(s, p, t, q, v, term)
    ensures FreshOnly(s, t) && Grounded(t, q)
  {
    hide Supporters, LogsGrow;
  }

  lemma WonOnward(s: Cluster, p: Past, t: Cluster, q: Past, v: nat, term: int)
    requires PastInv(s, p) && WonPast(s, p, t, q, v, term)
    ensures Onward(s, p, t, q) && FreshOnly(s, t) && Grounded(t, q)
    ensures forall u: nat, bound: int :: u != v ==> NothingNew(s, t, u, bound)
  {
    hide PastInv, Supporters, LogsGrow, NothingNew, FreshOnly;
    PastIsGrounded(s, p);
    WonFresh(s, p, t, q, v, term);
    forall u: nat, bound: int | u != v
      ensures NothingNew(s, t, u, bound)
    {
      WonNothingNew(s, t, v, u, bound);
    }
  }

  lemma WonNothingNew(s: Cluster, t: Cluster, v: nat, u: nat, bound: int)
    requires Won(s, t, v) && u != v
    ensures NothingNew(s, t, u, bound)
  {
  }

  lemma WonLeader(s: Cluster, p: Past, t: Cluster, q: Past, v: nat, term: int)
    requires WonPast(s, p, t, q, v, term) && NodePast(s, p, v) && NodeOk(s, v)
    ensures LeaderPast(t, q, term)
  {
    hide Sourced, MostlySourced, LogsGrow;
    forall u | u in Supporters(s, v, term)
      ensures (u, term) in t.cast && t.cast[(u, term)] == v && u in Range(|s.nodes|)
    {
    }
  }

  /** The winner's own log is now also that of the leader of its term. */
  lemma WinnerSourced(s: Cluster, p: Past, t: Cluster, q: Past, v: nat, term: int)
    requires WonPast(s, p, t, q, v, term) && Onward(s, p, t, q) && Sourced(s, p, v, s.nodes[v].log, term + 1)
    ensures Sourced(t, q, v, t.nodes[v].log, term + 1)
  {
    hide Onward, Kept, LogsGrow, Supporters;
    var log := s.nodes[v].log;
    forall h | h in t.held && h.server == v && h.term < term + 1
      ensures Kept(t, q, h.log, h.term, log, term + 1)
    {
      KeptOnward(s, p, t, q, h.log, h.term, log, term + 1, term + 1);
    }
    forall u | u in t.leaders && u in t.logs && t.leaders[u] == v && u < term + 1
      ensures Kept(t, q, t.logs[u], u, log, term + 1)
    {
      if u == term {
        KeptItself(t, q, t.logs[u], u, term + 1);
      } else {
        KeptOnward(s, p, t, q, s.logs[u], u, log, term + 1, term + 1);
      }
    }
  }

  lemma KeptItself(s: Cluster, p: Past, log: Log, u: int, bound: int)
    ensures Kept(s, p, log, u, log, bound)
  {
  }

  lemma WonNodePast(s: Cluster, p: Past, t: Cluster, q: Past, v: nat, term: int, u: nat)
    requires PastInv(s, p) && LogInv(s) && WonPast(s, p, t, q, v, term) && Onward(s, p, t, q) && u < |s.nodes|
    requires u != v ==> NothingNew(s, t, u, t.nodes[u].term + 1)
    ensures NodePast(t, q, u) && t.nodes[u].term >= s.nodes[u].term
  {
    hide PastInv, LogInv, Onward, NothingNew, WithinTerm, Sourced, MostlySourced, LogsGrow, Supporters;
    NodeIsPast(s, p, u);
    if u == v {
      WinnerSourced(s, p, t, q, v, term);
      SourcedIsMostly(t, q, v, t.nodes[v].log, term + 1);
    } else {
      StaysWithin(s, p, u);
      NodeOnward(s, p, t, q, u);
    }
  }

  lemma WonVotes(s: Cluster, p: Past, t: Cluster, q: Past, v: nat, term: int, u: nat, x: int)
    requires WonPast(s, p, t, q, v, term) && (u, x) in t.cast && Matters(t, q, u, x)
    ensures (u, x) in s.cast && Matters(s, p, u, x)
  {
    hide Supporters, LogsGrow;
  }

  lemma WonCallPast(s: Cluster, p: Past, t: Cluster, q: Past, v: nat, term: int, call: AppendCall)
    requires Grounded(s, p) && WonPast(s, p, t, q, v, term) && CallPast(s, p, call)
    ensures CallPast(t, q, call)
  {
    hide Supporters, LogsGrow;
  }

  lemma WonIsPast(s: Cluster, p: Past, t: Cluster, q: Past, v: nat, term: int)
    requires PastInv(s, p) && LogInv(s) && ElectionInv(s) && WonPast(s, p, t, q, v, term)
    ensures PastInv(t, q)
  {
    hide LogInv, ElectionInv, LeaderPast, VoteGood, HeldPast, NodePast, Onward, FreshOnly, NothingNew, Grounded,
      BallotPast, Supporters, LogsGrow, Matters, NodeOk;
    PastIsGrounded(s, p);
    WonOnward(s, p, t, q, v, term);
    NodeIsOk(s, v);
    WonLeader(s, p, t, q, v, term);
    forall u: nat | u < |t.nodes|
      ensures NodePast(t, q, u) && t.nodes[u].term >= s.nodes[u].term
    {
      WonNodePast(s, p, t, q, v, term, u);
    }
    forall u: nat, x: int | (u, x) in t.cast && Matters(t, q, u, x)
      ensures (u, x) in s.cast && Matters(s, p, u, x)
    {
      WonVotes(s, p, t, q, v, term, u, x);
    }
    forall id | id in t.appends
      ensures CallPast(t, q, t.appends[id])
    {
      assert CallPast(s, p, s.appends[id]);
      WonCallPast(s, p, t, q, v, term, s.appends[id]);
    }
    Assemble(s, p, t, q);
  }

  // ---------------------------------------------------------------------
  // A leader takes a command

  lemma CommandOnward(s: Cluster, p: Past, t: Cluster, v: nat, entry: LogEntry)
    requires PastInv(s, p) && Commanded(s, t, v, entry) && t.cast == s.cast && LogsGrow(s.logs, t.logs) && RoleOk(s, v)
    ensures Onward(s, p, t, p) && FreshOnly(s, t) && Grounded(t, p)
    ensures forall u: nat, bound: int :: u != v ==> NothingNew(s, t, u, bound)
  {
    hide PastInv, LogsGrow, Counted;
    PastIsGrounded(s, p);
  }

  lemma KeptInTerm(s: Cluster, p: Past, stored: Log, term: int, log: Log)
    requires Kept(s, p, stored, term, log, term + 1)
    ensures stored <= log
  {
  }

  /** Everything a leader ever stored before its term was replaced by the log it leads with. */
  lemma WriterSourced(s: Cluster, p: Past, t: Cluster, v: nat, entry: LogEntry)
    requires Commanded(s, t, v, entry) && NodeOk(s, v) && RoleOk(s, v) && entry.term in s.leaders
    requires LeaderPast(s, p, entry.term)
    requires Sourced(s, p, v, s.nodes[v].log, entry.term + 1)
    ensures Sourced(t, p, v, t.nodes[v].log, entry.term + 1)
  {
    var (term, log) := (entry.term, t.nodes[v].log);
    assert log == t.logs[term] && s.nodes[v].log <= log && |log| >= |p.starts[term]|;
    hide LeaderPast, LogOk, Counted;
    forall h | h in t.held && h.server == v && h.term < term + 1
      ensures Kept(t, p, h.log, h.term, log, term + 1)
    {
      if h.term < term {
        assert Replaced(t, p, h.term, log, term + 1, term);
      } else {
        KeptInTerm(s, p, h.log, term, s.nodes[v].log);
        assert h.log <= s.nodes[v].log <= log;
      }
    }
    forall u | u in t.leaders && u in t.logs && t.leaders[u] == v && u < term + 1
      ensures Kept(t, p, t.logs[u], u, log, term + 1)
    {
      if u < term {
        assert Replaced(t, p, u, log, term + 1, term);
      }
    }
  }

  lemma CommandNodePast(s: Cluster, p: Past, t: Cluster, v: nat, entry: LogEntry, u: nat)
    requires PastInv(s, p) && LogInv(s) && ElectionInv(s) && Commanded(s, t, v, entry) && Onward(s, p, t, p)
    requires u < |s.nodes|
    requires u != v ==> NothingNew(s, t, u, t.nodes[u].term + 1)
    ensures NodePast(t, p, u) && t.nodes[u].term >= s.nodes[u].term
  {
    hide LogInv, ElectionInv, Onward, NothingNew, WithinTerm, Sourced, MostlySourced, LeaderPast, VoteGood, HeldPast,
      BallotPast, CallPast, Grounded;
    NodeIsPast(s, p, u);
    if u == v {
      NodeIsOk(s, v);
      VoterRemembers(s, v);
      WriterSourced(s, p, t, v, entry);
      SourcedIsMostly(t, p, v, t.nodes[v].log, entry.term + 1);
    } else {
      StaysWithin(s, p, u);
      NodeOnward(s, p, t, p, u);
    }
  }

  lemma CommandPast(s: Cluster, p: Past, t: Cluster, v: nat, entry: LogEntry)
    requires PastInv(s, p) && LogInv(s) && ElectionInv(s) && Commanded(s, t, v, entry) && t.cast == s.cast
    requires t.ballots == s.ballots && LogsGrow(s.logs, t.logs)
    ensures PastInv(t, p)
  {
    hide LogInv, ElectionInv, LeaderPast, VoteGood, HeldPast, NodePast, Onward, FreshOnly, NothingNew, Grounded,
      BallotPast, LogsGrow, RoleOk;
    VoterRemembers(s, v);
    CommandOnward(s, p, t, v, entry);
    forall u: nat | u < |t.nodes|
      ensures NodePast(t, p, u) && t.nodes[u].term >= s.nodes[u].term
    {
      CommandNodePast(s, p, t, v, entry, u);
    }
    forall id | id in t.appends
      ensures CallPast(t, p, t.appends[id])
    {
      assert CallPast(s, p, s.appends[id]);
    }
    Assemble(s, p, t, p);
  }

  // ---------------------------------------------------------------------
  // A leader sends

  lemma SendPast(s: Cluster, p: Past, t: Cluster, id: nat)
    requires PastInv(s, p) && LogInv(s) && ElectionInv(s) && t == s.(appends := t.appends) && id in t.appends
    requires t.appends == s.appends[id := t.appends[id]] && t.appends[id].from < |s.nodes|
    requires var (call, nd) := (t.appends[id], s.nodes[t.appends[id].from]);
             nd.role == Leader && call.args.term == nd.term && call.snapshot == nd.log
    ensures PastInv(t, p)
  {
    hide LogInv, ElectionInv, VoteGood, NodePast, BallotPast, Onward, FreshOnly, NothingNew, Grounded, LogOk;
    var call := t.appends[id];
    NodeIsOk(s, call.from);
    VoterRemembers(s, call.from);
    assert LeaderPast(s, p, call.args.term);
    SameOnward(s, t, p);
    forall v: nat | v < |t.nodes|
      ensures NodePast(t, p, v) && t.nodes[v].term >= s.nodes[v].term
    {
      StillNode(s, t, p, v);
    }
    forall j | j in t.appends
      ensures CallPast(t, p, t.appends[j])
    {
      assert j != id ==> CallPast(s, p, s.appends[j]);
    }
    hide LeaderPast, HeldPast, CallPast;
    PastIsGrounded(s, p);
    assert Grounded(t, p) by {
      SameGrounds(s, t, p);
    }
    Assemble(s, p, t, p);
  }

  lemma SameGrounds(s: Cluster, t: Cluster, p: Past)
    requires Grounded(s, p) && t.cast == s.cast && t.leaders == s.leaders
    ensures Grounded(t, p)
  {
  }

  // ---------------------------------------------------------------------
  // A follower stores

  /** An accepted message and what it changes. */
  ghost predicate Accepted(s: Cluster, t: Cluster, id: nat) {
    && id in s.appends && id in t.appends && |t.nodes| == |s.nodes| && s.appends[id].reply.None?
    && t.logs == s.logs && t.leaders == s.leaders && t.cast == s.cast && t.ballots == s.ballots
    && var call := s.appends[id];
       && call.to < |s.nodes| && call.from != call.to && t.nodes == s.nodes[call.to := t.nodes[call.to]]
       && t.nodes[call.to].log == call.snapshot && t.nodes[call.to].term == call.args.term >= s.nodes[call.to].term
       && t.nodes[call.to].role != Leader
       && t.held == s.held + {Holding(call.to, call.args.term, call.snapshot)}
       && t.appends == s.appends[id := t.appends[id]] && t.appends[id].reply.Some?
  }

  lemma AcceptedOnward(s: Cluster, p: Past, t: Cluster, id: nat)
    requires PastInv(s, p) && Accepted(s, t, id)
    ensures Onward(s, p, t, p) && FreshOnly(s, t) && Grounded(t, p)
    ensures forall u: nat, bound: int :: u != s.appends[id].to ==> NothingNew(s, t, u, bound)
  {
    hide PastInv;
    PastIsGrounded(s, p);
  }

  /** The new log replaces what was stored before the term, and may cut what was stored in it. */
  lemma ReceiverSourced(s: Cluster, p: Past, t: Cluster, id: nat)
    requires Accepted(s, t, id) && Genuine(s, s.appends[id]) && CallPast(s, p, s.appends[id])
    requires WithinTerm(s, s.appends[id].to, s.nodes[s.appends[id].to].term + 1)
    ensures MostlySourced(t, p, s.appends[id].to, s.appends[id].snapshot, s.appends[id].args.term + 1)
  {
    hide SentFrom;
    var (call, term, log) := (s.appends[id], s.appends[id].args.term, s.appends[id].snapshot);
    forall h | h in t.held && h.server == call.to && h.term < term + 1
      ensures Kept(t, p, h.log, h.term, log, term + 1) || CutShort(t, p, call.to, h, log)
    {
      if h.term < term {
        assert Replaced(t, p, h.term, log, term + 1, term);
      }
    }
    forall u | u in t.leaders && u in t.logs && t.leaders[u] == call.to && u < term + 1
      ensures Kept(t, p, t.logs[u], u, log, term + 1)
    {
      assert Replaced(t, p, u, log, term + 1, term);
    }
  }

  lemma AcceptedNode(s: Cluster, p: Past, t: Cluster, id: nat, u: nat)
    requires PastInv(s, p) && LogInv(s) && Accepted(s, t, id) && Onward(s, p, t, p) && u < |s.nodes|
    requires u != s.appends[id].to ==> NothingNew(s, t, u, t.nodes[u].term + 1)
    ensures NodePast(t, p, u) && t.nodes[u].term >= s.nodes[u].term
  {
    hide Onward, NothingNew, WithinTerm, Sourced, MostlySourced, LeaderPast, VoteGood, HeldPast, BallotPast, Grounded,
      NodeOk, BeliefOk, ReceiverOk, HistoryOk, SentFrom;
    NodeIsPast(s, p, u);
    StaysWithin(s, p, u);
    if u == s.appends[id].to {
      assert Genuine(s, s.appends[id]) && CallPast(s, p, s.appends[id]);
      ReceiverSourced(s, p, t, id);
    } else {
      NodeOnward(s, p, t, p, u);
    }
  }

  lemma AcceptedHeld(s: Cluster, p: Past, t: Cluster, id: nat)
    requires Accepted(s, t, id) && Genuine(s, s.appends[id]) && CallPast(s, p, s.appends[id])
    ensures HeldPast(t, p, Holding(s.appends[id].to, s.appends[id].args.term, s.appends[id].snapshot))
  {
  }

  lemma AcceptedCall(s: Cluster, p: Past, t: Cluster, id: nat, j: nat)
    requires Accepted(s, t, id) && PastInv(s, p) && j in t.appends
    ensures CallPast(t, p, t.appends[j])
  {
    hide LeaderPast, VoteGood, NodePast, HeldPast, BallotPast, Grounded;
    assert j in s.appends && CallPast(s, p, s.appends[j]);
  }

  lemma AcceptedPast(s: Cluster, p: Past, t: Cluster, id: nat)
    requires PastInv(s, p) && LogInv(s) && ElectionInv(s) && Accepted(s, t, id)
    ensures PastInv(t, p)
  {
    hide ElectionInv, HistoryOk, NodeOk, BeliefOk, ReceiverOk, LeaderOk, LeaderPast, VoteGood, HeldPast, NodePast,
      Onward, FreshOnly, NothingNew, Grounded, BallotPast, Genuine;
    AcceptedOnward(s, p, t, id);
    assert Genuine(s, s.appends[id]) && CallPast(s, p, s.appends[id]);
    AcceptedHeld(s, p, t, id);
    forall u: nat | u < |t.nodes|
      ensures NodePast(t, p, u) && t.nodes[u].term >= s.nodes[u].term
    {
      AcceptedNode(s, p, t, id, u);
    }
    forall j | j in t.appends
      ensures CallPast(t, p, t.appends[j])
    {
      AcceptedCall(s, p, t, id, j);
    }
    hide CallPast;
    Assemble(s, p, t, p);
  }

  // ---------------------------------------------------------------------
  // Every step

  lemma OneUnmoved(s: Cluster, t: Cluster, p: Past, v: nat)
    requires PastInv(s, p) && LogInv(s) && ElectionInv(s) && v < |s.nodes| == |t.nodes|
    requires t.nodes == s.nodes[v := t.nodes[v]]
    requires t.logs == s.logs && t.leaders == s.leaders && t.cast == s.cast && t.held == s.held
    requires Unmoved(s.nodes[v], t.nodes[v])
    requires forall k :: k in t.ballots ==> k in s.ballots && t.ballots[k].args == s.ballots[k].args
    requires forall id :: id in t.appends && t.appends[id].reply.None? ==>
             id in s.appends && s.appends[id] == t.appends[id]
    ensures PastInv(t, p)
  {
    hide PastInv, LogInv, ElectionInv;
    assert forall u :: 0 <= u < |s.nodes| ==> Unmoved(s.nodes[u], t.nodes[u]);
    StillStep(s, t, p);
  }

  lemma VoteUnmoved(nd: Node, args: VoteArgs)
    ensures Unmoved(nd, HandleVote(nd, args).0)
    ensures HandleVote(nd, args).1.granted ==> UpToDate(args, nd.log) && HandleVote(nd, args).0.term == args.term
  {
  }

  lemma BallotTerm(s: Cluster, p: Past, k: VoteKey)
    requires PastInv(s, p) && ElectionInv(s) && k in s.ballots
    ensures k.term >= 1 && s.ballots[k].args.term == k.term && s.ballots[k].args.candidate == k.candidate
  {
    hide Grounded, LeaderPast, VoteGood, HeldPast, CallPast, VoteMemory, RoleOk, Elected, Sourced;
    assert BallotOk(s, k) && BallotPast(s, p, k) && NodePast(s, p, k.candidate);
  }

  lemma DeliverVotePast(s: Cluster, p: Past, k: VoteKey)
    requires PastInv(s, p) && LogInv(s) && ElectionInv(s) && Enabled(s, DeliverVote(k)) && WholeVotes(s, DeliverVote(k))
    ensures PastInv(Do(s, DeliverVote(k)), Remember(s, DeliverVote(k), p))
  {
    hide PastInv, LogInv, ElectionInv, HandleVote, UpToDate, Whole;
    var (t, q) := (Do(s, DeliverVote(k)), Remember(s, DeliverVote(k), p));
    BallotTerm(s, p, k);
    VoteUnmoved(s.nodes[k.peer], s.ballots[k].args);
    var granted := HandleVote(s.nodes[k.peer], s.ballots[k].args).1.granted;
    if granted && (k.peer, k.term) !in s.cast {
      assert Voted(s, p, t, q, k);
      VotedPast(s, p, t, q, k);
    } else {
      if granted {
        CastOnce(s, k);
      }
      assert t.cast == s.cast;
      OneUnmoved(s, t, p, k.peer);
    }
  }

  lemma VoteReplyUnmoved(nd: Node, args: VoteArgs, reply: VoteReply)
    ensures var after := HandleVoteReply(nd, args, reply);
            Unmoved(nd, after) || (after.role == Leader && nd.role != Leader)
  {
  }

  lemma ReturnVotePast(n: nat, s: Cluster, p: Past, k: VoteKey)
    requires Shape(n, s) && PastInv(s, p) && LogInv(s) && ElectionInv(s) && Enabled(s, ReturnVote(k))
    ensures PastInv(Do(s, ReturnVote(k)), Remember(s, ReturnVote(k), p))
  {
    hide PastInv, Shape, LogInv, ElectionInv, HandleVoteReply, Quiet, Bumped, Supporters, LogsGrow, VoteMemory,
      RoleOk;
    var (t, q, v) := (Do(s, ReturnVote(k)), Remember(s, ReturnVote(k), p), k.candidate);
    VoteReplyUnmoved(s.nodes[v], s.ballots[k].args, s.ballots[k].reply.value);
    if t.nodes[v].role == Leader && s.nodes[v].role != Leader {
      VoteReplyIsBumpOrWin(s.nodes[v], s.ballots[k].args, s.ballots[k].reply.value);
      assert Won(s, t, v);
      WonIsNotQuiet(s.nodes[v], t.nodes[v]);
      CountVoteNode(s, t, k);
      WinnerTermIsNew(n, s, t, v);
      SameSupporters(s, t, v, t.nodes[v].term);
      assert WonPast(s, p, t, q, v, t.nodes[v].term);
      WonIsPast(s, p, t, q, v, t.nodes[v].term);
    } else {
      OneUnmoved(s, t, p, v);
    }
  }

  lemma SameSupporters(s: Cluster, t: Cluster, v: nat, term: int)
    requires t.cast == s.cast && |t.nodes| == |s.nodes|
    ensures Supporters(t, v, term) == Supporters(s, v, term)
  {
  }

  lemma ReplyUnmoved(nd: Node, server: nat, args: AppendArgs, reply: AppendReply)
    requires nd.peers <= |nd.matched| && 0 <= nd.commit && nd.log != []
    requires server < |nd.next| && server < |nd.matched|
    ensures Unmoved(nd, HandleAppendReply(nd, server, args, reply))
  {
  }

  lemma DeliverAppendPast(n: nat, s: Cluster, p: Past, id: nat)
    requires Shape(n, s) && PastInv(s, p) && LogInv(s) && ElectionInv(s)
    requires Enabled(s, DeliverAppend(id)) && Safe(s, DeliverAppend(id))
    ensures PastInv(Do(s, DeliverAppend(id)), p)
  {
    hide PastInv, Shape, LogInv, ElectionInv, HandleAppend, Accurate, NodeShape, HistoryOk, Genuine, ReceiverOk,
      NodeOk, VoteMemory, RoleOk, Bumped;
    var t := Do(s, DeliverAppend(id));
    CallParts(n, s, id);
    DeliverCases(n, s, id);
    var call := s.appends[id];
    VoterRemembers(s, call.to);
    ReceiverDoesNotLead(s, call);
    if HandleAppend(s.nodes[call.to], call.args).1.success {
      assert Accepted(s, t, id);
      AcceptedPast(s, p, t, id);
    } else {
      AppendUnmoved(s.nodes[call.to], call.args);
      OneUnmoved(s, t, p, call.to);
    }
  }

  /** A call of the leader of a term is not sent to the leader of that term. */
  lemma ReceiverDoesNotLead(s: Cluster, call: AppendCall)
    requires Genuine(s, call) && call.to < |s.nodes| && call.from != call.to && RoleOk(s, call.to)
    ensures s.nodes[call.to].role == Leader ==> s.nodes[call.to].term != call.args.term
  {
    hide SentFrom, Counted;
  }

  lemma AppendUnmoved(nd: Node, args: AppendArgs)
    requires nd.log != [] && args.prevIndex >= -1 && !HandleAppend(nd, args).1.success
    ensures Unmoved(nd, HandleAppend(nd, args).0)
  {
  }

  lemma ClientCommandPast(s: Cluster, p: Past, v: nat, command: Command)
    requires PastInv(s, p) && LogInv(s) && ElectionInv(s) && Enabled(s, ClientCommand(v, command))
    ensures PastInv(Do(s, ClientCommand(v, command)), p)
  {
    hide PastInv, LogInv, ElectionInv, HistoryOk, LogsGrow, NodeOk;
    var t := Do(s, ClientCommand(v, command));
    if s.nodes[v].role == Leader {
      var entry := LogEntry(s.nodes[v].term, command);
      assert Commanded(s, t, v, entry);
      NodeIsOk(s, v);
      HistoryIsOk(s);
      CommandLogs(s, t, v, entry);
      CommandPast(s, p, t, v, entry);
    } else {
      OneUnmoved(s, t, p, v);
    }
  }

  lemma HistoryIsOk(s: Cluster)
    requires LogInv(s)
    ensures HistoryOk(s.logs)
  {
    hide NodeOk, HistoryOk, BeliefOk, Genuine, ReceiverOk;
  }

  lemma MadeUnmoved(n: nat, v: nat, nd: Node)
    requires NodeShape(n, v, nd)
    ensures Unmoved(nd, Made(v, nd.peers, nd.saved))
  {
  }

  lemma LostPast(s: Cluster, t: Cluster, p: Past)
    requires PastInv(s, p) && LogInv(s) && ElectionInv(s) && t == s.(ballots := t.ballots, appends := t.appends)
    requires forall k :: k in t.ballots ==> k in s.ballots && t.ballots[k] == s.ballots[k]
    requires forall id :: id in t.appends ==> id in s.appends && s.appends[id] == t.appends[id]
    ensures PastInv(t, p)
  {
    hide PastInv, LogInv, ElectionInv;
    assert forall u :: 0 <= u < |s.nodes| ==> Unmoved(s.nodes[u], t.nodes[u]);
    StillStep(s, t, p);
  }

  lemma StandPast(n: nat, s: Cluster, p: Past, v: nat)
    requires Shape(n, s) && PastInv(s, p) && LogInv(s) && ElectionInv(s)
    requires Enabled(s, Timeout(v)) && WholeVotes(s, Timeout(v))
    ensures PastInv(Do(s, Timeout(v)), Remember(s, Timeout(v), p))
  {
    assert NodeShape(n, v, s.nodes[v]);
    hide Shape, ElectionInv, LogInv, PastInv, Durable, Stood, Elect, Whole;
    TimeoutStood(n, s, p, v);
    StoodPast(s, p, Do(s, Timeout(v)), Remember(s, Timeout(v), p), v, s.nodes[v].term + 1);
  }

  lemma RestartPast(n: nat, s: Cluster, p: Past, v: nat)
    requires Shape(n, s) && PastInv(s, p) && LogInv(s) && ElectionInv(s) && Enabled(s, Restart(v))
    ensures PastInv(Do(s, Restart(v)), p)
  {
    assert NodeShape(n, v, s.nodes[v]);
    hide Shape, ElectionInv, LogInv, PastInv, NodeShape, Made;
    MadeUnmoved(n, v, s.nodes[v]);
    OneUnmoved(s, Do(s, Restart(v)), p, v);
  }

  lemma ReturnAppendPast(s: Cluster, p: Past, id: nat)
    requires PastInv(s, p) && LogInv(s) && ElectionInv(s) && Enabled(s, ReturnAppend(id)) && Safe(s, ReturnAppend(id))
    ensures PastInv(Do(s, ReturnAppend(id)), p)
  {
    hide ElectionInv, LogInv, PastInv, HandleAppendReply;
    var call := s.appends[id];
    ReplyUnmoved(s.nodes[call.from], call.to, call.args, call.reply.value);
    OneUnmoved(s, Do(s, ReturnAppend(id)), p, call.from);
  }

  lemma NextPast(n: nat, s: Cluster, a: Action, p: Past)
    requires Shape(n, s) && ElectionInv(s) && LogInv(s) && PastInv(s, p) && Enabled(s, a) && Safe(s, a)
    requires LeaderSends(s, a) && WholeVotes(s, a)
    ensures PastInv(Do(s, a), Remember(s, a, p))
  {
    hide Shape, ElectionInv, LogInv, PastInv, HandleVote, HandleVoteReply, HandleAppend, HandleAppendReply, Made,
      Submit, Elect, Whole;
    match a
    case Timeout(v) => StandPast(n, s, p, v);
    case DeliverVote(k) => DeliverVotePast(s, p, k);
    case ReturnVote(k) => ReturnVotePast(n, s, p, k);
    case LoseVote(k) => LostPast(s, Do(s, a), p);
    case SendAppend(from, to, id, isHeartbeat) => SendPast(s, p, Do(s, a), id);
    case DeliverAppend(id) => DeliverAppendPast(n, s, p, id);
    case ReturnAppend(id) => ReturnAppendPast(s, p, id);
    case LoseAppend(id) => LostPast(s, Do(s, a), p);
    case ClientCommand(v, command) => ClientCommandPast(s, p, v, command);
    case Restart(v) => RestartPast(n, s, p, v);
  }

  lemma InitPast(n: nat, s: Cluster)
    requires Init(n, s)
    ensures PastInv(s, Past(map[], map[], map[], map[]))
  {
  }

  lemma {:induction false} EveryPast(n: nat, run: seq<Cluster>, actions: seq<Action>, i: nat)
    requires WholeRun(n, run, actions) && i < |run|
    ensures PastInv(run[i], PastAt(run, actions, i))
  {
    hide Shape, ElectionInv, LogInv, PastInv, Enabled, Safe, Do, Remember, LeaderSends, WholeVotes, Init;
    if i == 0 {
      InitPast(n, run[0]);
    } else {
      EveryPast(n, run, actions, i - 1);
      EveryLog(n, run, actions, i - 1);
      LedStep(n, run, actions, i - 1);
      NextPast(n, run[i - 1], actions[i - 1], PastAt(run, actions, i - 1));
    }
  }
}
