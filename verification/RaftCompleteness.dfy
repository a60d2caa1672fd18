/**
 Leader Completeness (section 5.4.3 of the extended Raft paper): an entry that
 a majority stored in its own term is in the log of every later leader.
 */
module RaftCompleteness {
  import opened FiniteSets
  import opened RaftState
  import opened RaftCluster
  import opened RaftElection
  import opened RaftLogs
  import opened RaftReplication
  import opened RaftTheorems
  import opened RaftPast

  /** Index `k` of the leader of `term` is an entry of that term which a majority holds, the leader included. */
  ghost predicate ChosenBy(s: Cluster, term: int, k: nat, quorum: set<nat>) {
    && term in s.leaders && term in s.logs && k < |s.logs[term]| && s.logs[term][k].term == term
    && quorum <= Range(|s.nodes|) && 2 * |quorum| > |s.nodes|
    && forall f :: f in quorum ==> f == s.leaders[term] || Stored(s, f, term, s.logs[term][..k + 1])
  }

  ghost predicate Chosen(s: Cluster, term: int, k: nat) {
    exists quorum :: ChosenBy(s, term, k, quorum)
  }

  lemma ChosenParts(s: Cluster, term: int, k: nat)
    requires Chosen(s, term, k)
    ensures term in s.leaders && term in s.logs && k < |s.logs[term]| && s.logs[term][k].term == term
  {
  }

  /** The entries up to a chosen one are older than any later leader's own entries. */
  lemma ChosenFitsStart(s: Cluster, p: Past, term: int, k: nat, w: int)
    requires HistoryOk(s.logs) && term in s.logs && k < |s.logs[term]| && w in s.leaders && LeaderPast(s, p, w)
    requires term < w
    requires s.logs[term][..k + 1] <= s.logs[w]
    ensures k + 1 <= |p.starts[w]|
  {
    assert LogOk(s.logs, s.logs[term], term);
    assert s.logs[w][k] == s.logs[term][..k + 1][k] == s.logs[term][k];
  }

  /** A member of the quorum that voted in a later election still had the chosen entries when it voted. */
  lemma VoterHadChosen(s: Cluster, p: Past, term: int, k: nat, quorum: set<nat>, later: int, v: nat)
    requires PastInv(s, p) && HistoryOk(s.logs) && ChosenBy(s, term, k, quorum) && v in quorum && term < later
    requires (v, later) in s.cast && VoteGood(s, p, v, later)
    requires forall w :: w in s.leaders && w in s.logs && term < w < later ==> s.logs[term][..k + 1] <= s.logs[w]
    ensures s.logs[term][..k + 1] <= p.seen[(v, later)]
  {
    hide BallotPast, NodePast, HeldPast, CallPast, HistoryOk, LogOk, LeaderPast, NotBehind;
    var (chosen, log) := (s.logs[term][..k + 1], p.seen[(v, later)]);
    var stored := s.logs[term];
    if v != s.leaders[term] {
      var h :| h in s.held && h.server == v && h.term == term && chosen <= h.log;
      stored := h.log;
    }
    assert Kept(s, p, stored, term, log, later) && chosen <= stored;
    if !(stored <= log) {
      var w :| Replaced(s, p, term, log, later, w);
      assert LeaderPast(s, p, w);
      ChosenFitsStart(s, p, term, k, w);
    }
  }

  /** A log that is not behind one with the chosen entries has them, too. */
  lemma CandidateHasChosen(s: Cluster, p: Past, term: int, k: nat, later: int, log: Log, seen: Log)
    requires HistoryOk(s.logs) && term in s.logs && k < |s.logs[term]| && s.logs[term][k].term == term
    requires LogOk(s.logs, log, later - 1) && LogOk(s.logs, seen, later - 1) && NotBehind(log, seen)
    requires s.logs[term][..k + 1] <= seen && term >= 1
    requires forall w :: w in s.logs ==> w == 0 || (w in s.leaders && LeaderPast(s, p, w))
    requires forall w :: w in s.leaders && w in s.logs && term < w < later ==> s.logs[term][..k + 1] <= s.logs[w]
    ensures s.logs[term][..k + 1] <= log
  {
    var chosen := s.logs[term][..k + 1];
    var (last, lastSeen) := (|log| - 1, |seen| - 1);
    assert seen[k] == chosen[k] == s.logs[term][k];
    TermsAreSorted(s.logs, seen, k, lastSeen);
    var u := log[last].term;
    assert log[..last + 1] == log && seen[..lastSeen + 1] == seen;
    assert log <= s.logs[u];
    if u == seen[lastSeen].term {
      assert seen <= s.logs[u];
    } else {
      assert term < u < later;
      assert LeaderPast(s, p, u);
      ChosenFitsStart(s, p, term, k, u);
      assert log[last] == s.logs[u][last];
    }
  }

  lemma {:induction false} LaterLeaderHasChosen(s: Cluster, p: Past, term: int, k: nat, later: int)
    requires PastInv(s, p) && LogInv(s) && Chosen(s, term, k) && later in s.leaders && term < later
    ensures later in s.logs && s.logs[term][..k + 1] <= s.logs[later]
    decreases later - term
  {
    hide BallotPast, NodePast, HeldPast, CallPast, HistoryOk, LogOk, NodeOk, BeliefOk, Genuine, ReceiverOk, NotBehind,
      Sourced;
    var quorum :| ChosenBy(s, term, k, quorum);
    forall w | w in s.leaders && w in s.logs && term < w < later
      ensures s.logs[term][..k + 1] <= s.logs[w]
    {
      LaterLeaderHasChosen(s, p, term, k, w);
    }
    assert LeaderPast(s, p, later) && LeaderOk(s, term);
    var v := MajoritiesMeet(quorum, p.electors[later], |s.nodes|);
    assert VoteGood(s, p, v, later);
    VoterHadChosen(s, p, term, k, quorum, later, v);
    StartIsOk(s, p, later);
    CandidateHasChosen(s, p, term, k, later, p.starts[later], p.seen[(v, later)]);
  }

  lemma StartIsOk(s: Cluster, p: Past, term: int)
    requires HistoryOk(s.logs) && term in s.leaders && LeaderPast(s, p, term)
    ensures LogOk(s.logs, p.starts[term], term - 1)
  {
    assert LogOk(s.logs, s.logs[term], term);
    PrefixLogOk(s.logs, s.logs[term], p.starts[term], term);
  }
}
