/**
 What a run with whole voters remembers about elections: the log each candidate stood
 with, the log each voter had when it voted, who elected each leader and the
 log it started with.  From it follows what a voter's log still contained of
 everything the voter had stored before.
 */
module RaftPast {
  import opened FiniteSets
  import opened RaftState
  import opened RaftCluster
  import opened RaftElection
  import opened RaftLogs
  import opened RaftReplication
  import opened RaftMatching

  datatype Past = Past(
    cands: map<(nat, int), Log>, seen: map<(nat, int), Log>, electors: map<int, set<nat>>, starts: map<int, Log>)

  /** The past after step `a` from `s`. */
  ghost function Remember(s: Cluster, a: Action, p: Past): Past
    requires Enabled(s, a) && Safe(s, a)
  {
    match a
    case Timeout(v) =>
      var key := (v, s.nodes[v].term + 1);
      p.(cands := p.cands[key := s.nodes[v].log], seen := p.seen[key := s.nodes[v].log])
    case DeliverVote(k) =>
      var key := (k.peer, s.ballots[k].args.term);
      if HandleVote(s.nodes[k.peer], s.ballots[k].args).1.granted && key !in s.cast then
        p.(seen := p.seen[key := s.nodes[k.peer].log])
      else p
    case ReturnVote(k) =>
      var nd := Do(s, a).nodes[k.candidate];
      if nd.role == Leader && s.nodes[k.candidate].role != Leader then
        p.(electors := p.electors[nd.term := Supporters(s, k.candidate, nd.term)],
          starts := p.starts[nd.term := nd.log])
      else p
    case _ => p
  }

  ghost function PastAt(run: seq<Cluster>, actions: seq<Action>, i: nat): Past
    requires i < |run| == |actions| + 1
    requires forall j: nat :: j < |actions| ==> StepAt(run, actions, j)
  {
    if i == 0 then Past(map[], map[], map[], map[])
    else
      assert StepAt(run, actions, i - 1);
      Remember(run[i - 1], actions[i - 1], PastAt(run, actions, i - 1))
  }

  // ---------------------------------------------------------------------
  // What the past says

  /** A log at least as up to date as another (section 5.4.1 of the extended Raft paper). */
  predicate NotBehind(a: Log, b: Log) {
    UpToDate(VoteArgs(0, 0, LastLogIndex(a), LogTerm(a, LastLogIndex(a))), b)
  }

  /** The leader of `term` was elected by a majority and started with the log it stood with. */
  ghost predicate LeaderPast(s: Cluster, p: Past, term: int)
    requires term in s.leaders
  {
    && term in s.logs && term in p.electors && term in p.starts
    && p.electors[term] <= Range(|s.nodes|) && |p.electors[term]| > |s.nodes| / 2
    && (forall v :: v in p.electors[term] ==> (v, term) in s.cast && s.cast[(v, term)] == s.leaders[term])
    && (s.leaders[term], term) in p.cands && p.cands[(s.leaders[term], term)] == p.starts[term]
    && p.starts[term] != [] && p.starts[term] <= s.logs[term]
    && (forall i :: |p.starts[term]| <= i < |s.logs[term]| ==> s.logs[term][i].term == term)
    && (forall i :: 0 <= i < |p.starts[term]| ==> p.starts[term][i].term < term)
  }

  /** A log stored in term `u` is still there, or was replaced by a later leader with all that leader started with. */
  ghost predicate Kept(s: Cluster, p: Past, stored: Log, u: int, log: Log, bound: int) {
    stored <= log || exists w :: Replaced(s, p, u, log, bound, w)
  }

  ghost predicate Replaced(s: Cluster, p: Past, u: int, log: Log, bound: int, w: int) {
    && u < w < bound && w in s.leaders && w in s.logs && w in p.starts
    && log <= s.logs[w] && |log| >= |p.starts[w]|
  }

  /** Everything `v` stored, or wrote as a leader, in terms before `bound` is kept in `log`. */
  ghost predicate Sourced(s: Cluster, p: Past, v: nat, log: Log, bound: int) {
    && (forall h :: h in s.held && h.server == v && h.term < bound ==> Kept(s, p, h.log, h.term, log, bound))
    && (forall u :: u in s.leaders && u in s.logs && s.leaders[u] == v && u < bound ==>
          Kept(s, p, s.logs[u], u, log, bound))
  }

  /** The log was cut, within the latest term in which `v` stored anything. */
  ghost predicate CutShort(s: Cluster, p: Past, v: nat, h: Holding, log: Log) {
    && h.term in s.logs && h.term in p.starts && log <= s.logs[h.term] && |log| >= |p.starts[h.term]|
    && forall g :: g in s.held && g.server == v ==> g.term <= h.term
  }

  /** The same, but for what was cut. */
  ghost predicate MostlySourced(s: Cluster, p: Past, v: nat, log: Log, bound: int) {
    && (forall h :: h in s.held && h.server == v && h.term < bound ==>
          Kept(s, p, h.log, h.term, log, bound) || CutShort(s, p, v, h, log))
    && (forall u :: u in s.leaders && u in s.logs && s.leaders[u] == v && u < bound ==>
          Kept(s, p, s.logs[u], u, log, bound))
  }

  lemma WholeIsSourced(s: Cluster, p: Past, v: nat, bound: int)
    requires v < |s.nodes| && Whole(s, v) && MostlySourced(s, p, v, s.nodes[v].log, bound)
    ensures Sourced(s, p, v, s.nodes[v].log, bound)
  {
    hide Replaced;
  }

  lemma SourcedIsMostly(s: Cluster, p: Past, v: nat, log: Log, bound: int)
    requires Sourced(s, p, v, log, bound)
    ensures MostlySourced(s, p, v, log, bound)
  {
    hide Kept;
  }

  /** A vote that helped to elect a leader, or still may. */
  ghost predicate VoteGood(s: Cluster, p: Past, v: nat, term: int)
    requires (v, term) in s.cast
  {
    && (v, term) in p.seen && (s.cast[(v, term)], term) in p.cands
    && NotBehind(p.cands[(s.cast[(v, term)], term)], p.seen[(v, term)])
    && LogOk(s.logs, p.seen[(v, term)], term - 1)
    && Sourced(s, p, v, p.seen[(v, term)], term)
  }

  ghost predicate Matters(s: Cluster, p: Past, v: nat, term: int) {
    term !in s.leaders || (term in p.electors && v in p.electors[term])
  }

  ghost predicate BallotPast(s: Cluster, p: Past, k: VoteKey)
    requires k in s.ballots
  {
    && (k.candidate, k.term) in p.cands
    && s.ballots[k].args.lastIndex == LastLogIndex(p.cands[(k.candidate, k.term)])
    && s.ballots[k].args.lastTerm == LogTerm(p.cands[(k.candidate, k.term)], s.ballots[k].args.lastIndex)
  }

  ghost predicate NodePast(s: Cluster, p: Past, v: nat)
    requires v < |s.nodes|
  {
    var nd := s.nodes[v];
    && (forall term :: (v, term) in p.cands ==> 1 <= term <= nd.term)
    && (nd.role == Candidate && nd.term !in s.leaders ==> (v, nd.term) in p.cands && p.cands[(v, nd.term)] == nd.log)
    && (nd.role == Leader || (nd.role == Candidate && nd.term !in s.leaders) ==> Sourced(s, p, v, nd.log, nd.term + 1))
    && MostlySourced(s, p, v, nd.log, nd.term + 1)
  }

  ghost predicate HeldPast(s: Cluster, p: Past, h: Holding) {
    && h.server < |s.nodes| && h.term in s.leaders && h.term in s.logs && h.term in p.starts
    && h.log <= s.logs[h.term] && h.term <= s.nodes[h.server].term && |h.log| >= |p.starts[h.term]|
  }

  /** A request in flight carries all the leader started with. */
  ghost predicate CallPast(s: Cluster, p: Past, call: AppendCall) {
    call.reply.None? ==>
      call.args.term in p.starts && |call.snapshot| >= |p.starts[call.args.term]|
  }

  /** Nothing is remembered that did not happen. */
  ghost predicate Grounded(s: Cluster, p: Past) {
    && (forall x :: x in p.seen ==> x in s.cast)
    && (forall term :: term in p.electors ==> term in s.leaders)
    && (forall term :: term in p.starts ==> term in s.leaders)
  }

  ghost predicate PastInv(s: Cluster, p: Past) {
    && Grounded(s, p)
    && (forall term :: term in s.leaders ==> LeaderPast(s, p, term))
    && (forall v: nat, term: int :: (v, term) in s.cast && Matters(s, p, v, term) ==> VoteGood(s, p, v, term))
    && (forall k :: k in s.ballots ==> BallotPast(s, p, k))
    && (forall v: nat :: v < |s.nodes| ==> NodePast(s, p, v))
    && (forall h :: h in s.held ==> HeldPast(s, p, h))
    && (forall id :: id in s.appends ==> CallPast(s, p, s.appends[id]))
  }

  // ---------------------------------------------------------------------
  // The past only grows

  /** Leaders, their logs, votes and what is remembered of them stay. */
  ghost predicate Onward(s: Cluster, p: Past, t: Cluster, q: Past) {
    && |t.nodes| == |s.nodes| && LogsGrow(s.logs, t.logs)
    && (forall u :: u in s.leaders ==> u in t.leaders && t.leaders[u] == s.leaders[u])
    && (forall x :: x in s.cast ==> x in t.cast && t.cast[x] == s.cast[x])
    && (forall x :: x in p.cands ==> x in q.cands && q.cands[x] == p.cands[x])
    && (forall x :: x in p.seen ==> x in q.seen && q.seen[x] == p.seen[x])
    && (forall u :: u in p.electors ==> u in q.electors && q.electors[u] == p.electors[u])
    && (forall u :: u in p.starts ==> u in q.starts && q.starts[u] == p.starts[u])
  }

  lemma KeptOnward(s: Cluster, p: Past, t: Cluster, q: Past, stored: Log, u: int, log: Log, bound: int, later: int)
    requires Onward(s, p, t, q) && Kept(s, p, stored, u, log, bound) && bound <= later
    ensures Kept(t, q, stored, u, log, later)
  {
    if !(stored <= log) {
      var w :| Replaced(s, p, u, log, bound, w);
      assert log <= s.logs[w] <= t.logs[w];
      assert Replaced(t, q, u, log, later, w);
    }
  }

  /** `v` stored nothing new and wrote nothing new, in terms before `bound`. */
  ghost predicate NothingNew(s: Cluster, t: Cluster, v: nat, bound: int) {
    && (forall h :: h in t.held && h.server == v && h.term < bound ==> h in s.held)
    && (forall u :: u in t.leaders && u in t.logs && t.leaders[u] == v && u < bound ==>
          u in s.leaders && s.leaders[u] == v && u in s.logs && t.logs[u] == s.logs[u])
  }

  /** All that `v` stored or wrote was in terms before `bound`. */
  ghost predicate WithinTerm(s: Cluster, v: nat, bound: int) {
    && (forall h :: h in s.held && h.server == v ==> h.term < bound)
    && (forall u :: u in s.leaders && s.leaders[u] == v ==> u < bound)
  }

  lemma SourcedOnward(s: Cluster, p: Past, t: Cluster, q: Past, v: nat, log: Log, bound: int, later: int)
    requires Onward(s, p, t, q) && Sourced(s, p, v, log, bound) && bound <= later && NothingNew(s, t, v, later)
    requires bound == later || WithinTerm(s, v, bound)
    ensures Sourced(t, q, v, log, later)
  {
    hide Kept, Onward;
    forall h | h in t.held && h.server == v && h.term < later
      ensures Kept(t, q, h.log, h.term, log, later)
    {
      KeptOnward(s, p, t, q, h.log, h.term, log, bound, later);
    }
    forall u | u in t.leaders && u in t.logs && t.leaders[u] == v && u < later
      ensures Kept(t, q, t.logs[u], u, log, later)
    {
      KeptOnward(s, p, t, q, s.logs[u], u, log, bound, later);
    }
  }

  lemma CutOnward(s: Cluster, p: Past, t: Cluster, q: Past, v: nat, h: Holding, log: Log)
    requires Onward(s, p, t, q) && CutShort(s, p, v, h, log) && forall g :: g in t.held && g.server == v ==> g in s.held
    ensures CutShort(t, q, v, h, log)
  {
    assert log <= s.logs[h.term] <= t.logs[h.term];
  }

  lemma MostlyOnward(s: Cluster, p: Past, t: Cluster, q: Past, v: nat, log: Log, bound: int, later: int)
    requires Onward(s, p, t, q) && MostlySourced(s, p, v, log, bound) && bound <= later && NothingNew(s, t, v, later)
    requires WithinTerm(s, v, bound) && forall g :: g in t.held && g.server == v ==> g in s.held
    ensures MostlySourced(t, q, v, log, later)
  {
    hide Kept, Onward, CutShort;
    forall h | h in t.held && h.server == v && h.term < later
      ensures Kept(t, q, h.log, h.term, log, later) || CutShort(t, q, v, h, log)
    {
      if Kept(s, p, h.log, h.term, log, bound) {
        KeptOnward(s, p, t, q, h.log, h.term, log, bound, later);
      } else {
        CutOnward(s, p, t, q, v, h, log);
      }
    }
    forall u | u in t.leaders && u in t.logs && t.leaders[u] == v && u < later
      ensures Kept(t, q, t.logs[u], u, log, later)
    {
      KeptOnward(s, p, t, q, s.logs[u], u, log, bound, later);
    }
  }

  lemma LeaderOnward(s: Cluster, p: Past, t: Cluster, q: Past, term: int)
    requires Onward(s, p, t, q) && term in s.leaders && LeaderPast(s, p, term)
    ensures LeaderPast(t, q, term)
  {
    assert p.starts[term] <= s.logs[term] <= t.logs[term];
    forall i | |q.starts[term]| <= i < |t.logs[term]|
      ensures t.logs[term][i].term == term
    {
      assert i < |s.logs[term]| ==> t.logs[term][i] == s.logs[term][i];
    }
  }

  lemma VoteOnward(s: Cluster, p: Past, t: Cluster, q: Past, v: nat, term: int)
    requires Onward(s, p, t, q) && (v, term) in s.cast && VoteGood(s, p, v, term) && NothingNew(s, t, v, term)
    ensures VoteGood(t, q, v, term)
  {
    hide Onward, NothingNew, Sourced, NotBehind, LogOk, LogsGrow;
    OnwardParts(s, p, t, q, v, term);
    GrownLogOk(s.logs, t.logs, p.seen[(v, term)], term - 1);
    SourcedOnward(s, p, t, q, v, p.seen[(v, term)], term, term);
  }

  lemma OnwardParts(s: Cluster, p: Past, t: Cluster, q: Past, v: nat, term: int)
    requires Onward(s, p, t, q) && (v, term) in s.cast && (v, term) in p.seen && (s.cast[(v, term)], term) in p.cands
    ensures LogsGrow(s.logs, t.logs) && (v, term) in t.cast && t.cast[(v, term)] == s.cast[(v, term)]
    ensures (v, term) in q.seen && q.seen[(v, term)] == p.seen[(v, term)]
    ensures (s.cast[(v, term)], term) in q.cands
    ensures q.cands[(s.cast[(v, term)], term)] == p.cands[(s.cast[(v, term)], term)]
  {
  }

  lemma HeldOnward(s: Cluster, p: Past, t: Cluster, q: Past, h: Holding)
    requires Onward(s, p, t, q) && HeldPast(s, p, h) && t.nodes[h.server].term >= s.nodes[h.server].term
    ensures HeldPast(t, q, h)
  {
    assert h.log <= s.logs[h.term] <= t.logs[h.term];
  }

  // ---------------------------------------------------------------------
  // One step

  /** Whatever is newly stored or written is of the present term of the server, or later. */
  ghost predicate FreshOnly(s: Cluster, t: Cluster) {
    && (forall h :: h in t.held && h !in s.held ==> h.server < |s.nodes| && h.term >= s.nodes[h.server].term)
    && (forall u :: u in t.leaders && u in t.logs && !(u in s.leaders && u in s.logs && t.logs[u] == s.logs[u]) ==>
          t.leaders[u] < |s.nodes| && u >= s.nodes[t.leaders[u]].term)
  }

  lemma OldVoteNothingNew(s: Cluster, p: Past, t: Cluster, q: Past, v: nat, term: int)
    requires ElectionInv(s) && Onward(s, p, t, q) && FreshOnly(s, t) && (v, term) in s.cast
    ensures NothingNew(s, t, v, term)
  {
    hide LogsGrow;
    if v < |s.nodes| {
      assert VoteMemory(s, v);
    }
    hide ElectionInv;
  }

  lemma StaysWithin(s: Cluster, p: Past, v: nat)
    requires PastInv(s, p) && LogInv(s) && v < |s.nodes|
    ensures WithinTerm(s, v, s.nodes[v].term + 1)
  {
    hide LeaderPast, VoteGood, BallotPast, NodePast, CallPast, HistoryOk, NodeOk, BeliefOk, Genuine, ReceiverOk;
    forall h | h in s.held && h.server == v
      ensures h.term < s.nodes[v].term + 1
    {
      assert HeldPast(s, p, h);
    }
    forall u | u in s.leaders && s.leaders[u] == v
      ensures u < s.nodes[v].term + 1
    {
      assert LeaderOk(s, u);
    }
  }

  /** A candidate for an undecided term either was one already or has just been remembered. */
  ghost predicate StandsOk(s: Cluster, t: Cluster, q: Past, v: nat)
    requires v < |s.nodes| == |t.nodes|
  {
    var (nd, after) := (s.nodes[v], t.nodes[v]);
    after.role == Candidate && after.term !in t.leaders ==>
      || (nd.role == Candidate && nd.term == after.term && nd.log == after.log)
      || (&& (v, after.term) in q.cands && q.cands[(v, after.term)] == after.log
          && Sourced(t, q, v, after.log, after.term + 1))
  }

  ghost predicate CandsOk(t: Cluster, q: Past, v: nat)
    requires v < |t.nodes|
  {
    forall term :: (v, term) in q.cands ==> 1 <= term <= t.nodes[v].term
  }

  /** A server whose log stays. */
  lemma NodeOnward(s: Cluster, p: Past, t: Cluster, q: Past, v: nat)
    requires Onward(s, p, t, q) && v < |s.nodes| && NodePast(s, p, v) && WithinTerm(s, v, s.nodes[v].term + 1)
    requires t.nodes[v].log == s.nodes[v].log && t.nodes[v].term >= s.nodes[v].term
    requires t.nodes[v].role == Leader ==> s.nodes[v].role == Leader
    requires NothingNew(s, t, v, t.nodes[v].term + 1) && StandsOk(s, t, q, v) && CandsOk(t, q, v)
    requires forall g :: g in t.held && g.server == v ==> g in s.held
    ensures NodePast(t, q, v)
  {
    hide LogsGrow, Sourced, MostlySourced, NothingNew, WithinTerm;
    MostlyOnward(s, p, t, q, v, s.nodes[v].log, s.nodes[v].term + 1, t.nodes[v].term + 1);
    if Sourced(s, p, v, s.nodes[v].log, s.nodes[v].term + 1) {
      SourcedOnward(s, p, t, q, v, s.nodes[v].log, s.nodes[v].term + 1, t.nodes[v].term + 1);
    }
  }

  lemma VotesOnward(s: Cluster, p: Past, t: Cluster, q: Past, v: nat, term: int)
    requires PastInv(s, p) && ElectionInv(s) && Onward(s, p, t, q) && FreshOnly(s, t)
    requires (v, term) in s.cast && (v, term) in t.cast && Matters(t, q, v, term) && Matters(s, p, v, term)
    ensures VoteGood(t, q, v, term)
  {
    hide ElectionInv, LeaderPast, BallotPast, NodePast, HeldPast, CallPast, Onward, FreshOnly, NothingNew, VoteGood;
    assert VoteGood(s, p, v, term);
    OldVoteNothingNew(s, p, t, q, v, term);
    VoteOnward(s, p, t, q, v, term);
  }

  /** The parts of the invariant that a step has to establish itself. */
  lemma Assemble(s: Cluster, p: Past, t: Cluster, q: Past)
    requires PastInv(s, p) && ElectionInv(s) && Onward(s, p, t, q) && FreshOnly(s, t)
    requires Grounded(t, q) && forall u :: u in t.leaders && u !in s.leaders ==> LeaderPast(t, q, u)
    requires forall v: nat, term: int :: (v, term) in t.cast && Matters(t, q, v, term) ==>
               ((v, term) in s.cast && Matters(s, p, v, term)) || VoteGood(t, q, v, term)
    requires forall k :: k in t.ballots ==>
             (k in s.ballots && t.ballots[k].args == s.ballots[k].args) || BallotPast(t, q, k)
    requires forall v: nat :: v < |t.nodes| ==> NodePast(t, q, v) && t.nodes[v].term >= s.nodes[v].term
    requires forall h :: h in t.held && h !in s.held ==> HeldPast(t, q, h)
    requires forall id :: id in t.appends ==> CallPast(t, q, t.appends[id])
    ensures PastInv(t, q)
  {
    hide ElectionInv, FreshOnly, LeaderPast, VoteGood, NodePast, CallPast, Matters, LogsGrow;
    forall term | term in t.leaders
      ensures LeaderPast(t, q, term)
    {
      if term in s.leaders {
        LeaderOnward(s, p, t, q, term);
      }
    }
    forall v: nat, term: int | (v, term) in t.cast && Matters(t, q, v, term)
      ensures VoteGood(t, q, v, term)
    {
      if (v, term) in s.cast && Matters(s, p, v, term) {
        VotesOnward(s, p, t, q, v, term);
      }
    }
    forall k | k in t.ballots
      ensures BallotPast(t, q, k)
    {
      if k in s.ballots && t.ballots[k].args == s.ballots[k].args {
        assert BallotPast(s, p, k);
      }
    }
    forall h | h in t.held
      ensures HeldPast(t, q, h)
    {
      if h in s.held {
        assert HeldPast(s, p, h);
        HeldOnward(s, p, t, q, h);
      }
    }
  }
}
