/**
 Log Matching (section 5.3 of the extended Raft paper) for this code.  It needs
 that AppendEntries arguments are built by a leader; however many calls are in
 flight, an accepted one then leaves the follower with the log the leader had
 when it built the message.
 */
module RaftLogs {
  import opened RaftState
  import opened RaftCluster

  /**
   Arguments are built only while the sender is leader.  The code releases the
   lock between its test of the role and the building of the arguments.
   */
  ghost predicate LeaderSends(s: Cluster, a: Action) {
    a.SendAppend? ==> a.from < |s.nodes| && s.nodes[a.from].role == Leader
  }

  ghost predicate LedRun(n: nat, run: seq<Cluster>, actions: seq<Action>) {
    Run(n, run, actions) && forall i :: 0 <= i < |actions| ==> LeaderSends(run[i], actions[i])
  }

  /** The receiver would accept the call. */
  ghost predicate Accepts(s: Cluster, call: AppendCall) {
    && call.to < |s.nodes| && s.nodes[call.to].log != [] && call.args.prevIndex >= -1
    && HandleAppend(s.nodes[call.to], call.args).1.success
  }

  /** The receiver has stored a longer log on a message of this term than the call leaves it with. */
  ghost predicate Stale(s: Cluster, call: AppendCall) {
    exists h :: h in s.held && h.server == call.to && h.term == call.args.term
                && |h.log| > call.args.prevIndex + 1 + |call.args.entries|
  }

  /** No call is accepted after a longer one of its term.  Any number may be in flight, and be lost or rejected. */
  ghost predicate InOrder(s: Cluster, a: Action) {
    a.DeliverAppend? && a.id in s.appends && Accepts(s, s.appends[a.id]) ==> !Stale(s, s.appends[a.id])
  }

  /** Everything the server stored in the latest term in which it stored anything is still in its log. */
  ghost predicate Whole(s: Cluster, v: nat)
    requires v < |s.nodes|
  {
    forall h :: h in s.held && h.server == v && (forall g :: g in s.held && g.server == v ==> g.term <= h.term) ==>
      h.log <= s.nodes[v].log
  }

  /** Nobody stands for election or grants a vote while its log has lost something it stored. */
  ghost predicate WholeVotes(s: Cluster, a: Action) {
    match a
    case Timeout(v) => v < |s.nodes| ==> Whole(s, v)
    case DeliverVote(k) => Grants(s, k) ==> Whole(s, k.peer)
    case _ => true
  }

  ghost predicate Grants(s: Cluster, k: VoteKey) {
    k in s.ballots && k.peer < |s.nodes| && HandleVote(s.nodes[k.peer], s.ballots[k].args).1.granted
  }

  /** Leaders send, and only servers with whole logs stand and vote.  A log that was cut may be made whole again. */
  ghost predicate WholeRun(n: nat, run: seq<Cluster>, actions: seq<Action>) {
    LedRun(n, run, actions) && forall i :: 0 <= i < |actions| ==> WholeVotes(run[i], actions[i])
  }

  /** Leaders send, and what one of them sends to a server is not accepted out of order. */
  ghost predicate OrderedRun(n: nat, run: seq<Cluster>, actions: seq<Action>) {
    LedRun(n, run, actions) && forall i :: 0 <= i < |actions| ==> InOrder(run[i], actions[i])
  }

  // ---------------------------------------------------------------------
  // Logs that agree with the leaders' logs

  /** Up to each of its entries, `log` is a prefix of the log of the leader of that entry's term. */
  ghost predicate Coherent(logs: map<int, Log>, log: Log) {
    forall i :: 0 <= i < |log| ==> log[i].term in logs && log[..i + 1] <= logs[log[i].term]
  }

  ghost predicate LogOk(logs: map<int, Log>, log: Log, bound: int) {
    log != [] && Coherent(logs, log) && forall i :: 0 <= i < |log| ==> log[i].term <= bound
  }

  ghost predicate HistoryOk(logs: map<int, Log>) {
    forall term :: term in logs ==> LogOk(logs, logs[term], term)
  }

  /** Log Matching, for any two coherent logs. */
  lemma SameTermSamePrefix(logs: map<int, Log>, a: Log, b: Log, i: nat)
    requires Coherent(logs, a) && Coherent(logs, b) && i < |a| && i < |b| && a[i].term == b[i].term
    ensures a[..i + 1] == b[..i + 1]
  {
  }

  lemma DifferentPrefixDifferentTerm(logs: map<int, Log>, a: Log, b: Log, i: nat)
    requires Coherent(logs, a) && Coherent(logs, b) && i < |a| && i < |b| && a[..i + 1] != b[..i + 1]
    ensures a[i].term != b[i].term
  {
  }

  /** Terms never decrease along a coherent log. */
  lemma TermsAreSorted(logs: map<int, Log>, log: Log, i: nat, j: nat)
    requires HistoryOk(logs) && Coherent(logs, log) && i <= j < |log|
    ensures log[i].term <= log[j].term
  {
    var term := log[j].term;
    assert log[..j + 1] <= logs[term];
    assert logs[term][i] == log[..j + 1][i] == log[i];
    assert LogOk(logs, logs[term], term);
  }

  // ---------------------------------------------------------------------
  // Where a follower's log may differ from the leader's

  /** The follower's log is part of the leader's, or the two differ at or before `n`. */
  ghost predicate Positioned(leaderLog: Log, log: Log, n: int) {
    log <= leaderLog || !(0 <= n < |log| && n < |leaderLog| && log[..n + 1] == leaderLog[..n + 1])
  }

  /** From `n - 1` on the leader's log has only entries of its own term. */
  ghost predicate Beyond(leaderLog: Log, term: int, n: int) {
    forall i :: n - 1 <= i < |leaderLog| && 0 <= i ==> leaderLog[i].term == term
  }

  /** What the next index `n` for a server in state `nd` promises the leader of `term`. */
  ghost predicate Position(leaderLog: Log, term: int, nd: Node, n: int) {
    && (nd.term < term ==> Beyond(leaderLog, term, n))
    && (nd.term == term ==> Positioned(leaderLog, nd.log, n))
  }

  lemma BeyondIsPositioned(leaderLog: Log, term: int, log: Log, n: int)
    requires Beyond(leaderLog, term, n) && forall i :: 0 <= i < |log| ==> log[i].term < term
    ensures Positioned(leaderLog, log, n)
  {
    if 0 <= n < |log| && n < |leaderLog| {
      assert log[n] != leaderLog[n];
      assert log[..n + 1][n] != leaderLog[..n + 1][n];
    }
  }

  lemma PositionIsPositioned(logs: map<int, Log>, leaderLog: Log, term: int, nd: Node, n: int)
    requires Position(leaderLog, term, nd, n) && nd.term <= term && LogOk(logs, nd.log, nd.term)
    ensures Positioned(leaderLog, nd.log, n)
  {
    if nd.term < term {
      BeyondIsPositioned(leaderLog, term, nd.log, n);
    }
  }

  // ---------------------------------------------------------------------
  // What an accepted message does

  /** `args` carry everything after the previous index of the log they were built from. */
  ghost predicate SentFrom(args: AppendArgs, snapshot: Log) {
    && snapshot != [] && args.prevIndex >= 0
    && args.prevTerm == LogTerm(snapshot, args.prevIndex)
    && args.entries == if args.prevIndex + 1 < |snapshot| then snapshot[args.prevIndex + 1..] else []
  }

  /** A matching previous entry lies in both logs, which agree up to it. */
  lemma PrevAgrees(logs: map<int, Log>, log: Log, snapshot: Log, args: AppendArgs)
    requires Coherent(logs, log) && Coherent(logs, snapshot) && LogShape(log) && SentFrom(args, snapshot)
    requires args.prevIndex < |log| && args.prevTerm == log[args.prevIndex].term
    ensures args.prevIndex < |snapshot| && log[..args.prevIndex + 1] == snapshot[..args.prevIndex + 1]
  {
    SameTermSamePrefix(logs, log, snapshot, args.prevIndex);
  }

  /** Entries that agree in term with the log give the scan nothing to find. */
  lemma NoConflict(log: Log, start: nat, entries: Log)
    requires forall j :: 0 <= j < |entries| && start + j < |log| ==> log[start + j].term == entries[j].term
    ensures FirstConflict(log, start, entries, 0) == -1
  {
    var k := FirstConflict(log, start, entries, 0);
    hide FirstConflict;
  }

  /** A conflict at the first entry is where the scan stops, if it looks there. */
  lemma ConflictNow(log: Log, start: nat, entries: Log)
    requires start < |log| && entries != [] ==> log[start].term != entries[0].term
    ensures FirstConflict(log, start, entries, 0) in {-1, 0}
  {
  }

  lemma SentStarts(args: AppendArgs, snapshot: Log)
    requires SentFrom(args, snapshot)
    ensures args.prevIndex >= 0
  {
  }

  lemma SentEntry(args: AppendArgs, snapshot: Log, j: nat)
    requires SentFrom(args, snapshot) && j < |args.entries|
    ensures args.prevIndex + 1 + j < |snapshot| && args.entries[j] == snapshot[args.prevIndex + 1 + j]
  {
  }

  /** The conflict scan finds nothing or stops at the first entry sent. */
  lemma ConflictAtFirst(logs: map<int, Log>, leaderLog: Log, log: Log, snapshot: Log, args: AppendArgs)
    requires Coherent(logs, log) && Coherent(logs, snapshot) && LogShape(log) && SentFrom(args, snapshot)
    requires snapshot <= leaderLog && Positioned(leaderLog, log, args.prevIndex + 1)
    requires args.prevIndex < |log| && args.prevTerm == log[args.prevIndex].term
    ensures FirstConflict(log, args.prevIndex + 1, args.entries, 0) in {-1, 0}
  {
    hide Coherent, LogShape, SentFrom, FirstConflict;
    var start := args.prevIndex + 1;
    SentStarts(args, snapshot);
    if log <= leaderLog {
      forall j | 0 <= j < |args.entries| && start + j < |log|
        ensures log[start + j] == args.entries[j]
      {
        SentEntry(args, snapshot, j);
      }
      NoConflict(log, start, args.entries);
    } else {
      if start < |log| && args.entries != [] {
        SentEntry(args, snapshot, 0);
        assert snapshot[..start + 1] == leaderLog[..start + 1];
        DifferentPrefixDifferentTerm(logs, log, snapshot, start);
      }
      ConflictNow(log, start, args.entries);
    }
  }

  lemma SentIsRest(args: AppendArgs, snapshot: Log)
    requires SentFrom(args, snapshot) && args.prevIndex < |snapshot|
    ensures snapshot == snapshot[..args.prevIndex + 1] + args.entries
  {
  }

  /** An accepted message makes the follower's log the one the leader had. */
  lemma AcceptedIsSnapshot(logs: map<int, Log>, leaderLog: Log, log: Log, snapshot: Log, args: AppendArgs)
    requires Coherent(logs, log) && Coherent(logs, snapshot) && LogShape(log) && SentFrom(args, snapshot)
    requires snapshot <= leaderLog && Positioned(leaderLog, log, args.prevIndex + 1)
    requires args.prevIndex < |log| && args.prevTerm == log[args.prevIndex].term
    ensures Appended(log, args.prevIndex, args.entries) == snapshot
  {
    hide Coherent, Positioned, FirstConflict, LogShape, SentFrom;
    ConflictAtFirst(logs, leaderLog, log, snapshot, args);
    PrevAgrees(logs, log, snapshot, args);
    SentIsRest(args, snapshot);
  }

  // ---------------------------------------------------------------------
  // What a rejection tells

  /** A reply still true of the follower's log. */
  ghost predicate Accurate(args: AppendArgs, reply: AppendReply, log: Log, snapshot: Log) {
    if reply.success then log == snapshot
    else if reply.conflictTerm == -1 then reply.conflictIndex == |log|
    else
      && 0 <= args.prevIndex < |log| && log[args.prevIndex].term == reply.conflictTerm != args.prevTerm
      && 0 <= reply.conflictIndex <= args.prevIndex && log[reply.conflictIndex].term == reply.conflictTerm
  }

  lemma PrefixTerms(log: Log, leaderLog: Log, n: int, i: int)
    requires 0 <= i <= n < |log| && n < |leaderLog| && log[..n + 1] == leaderLog[..n + 1]
    ensures log[i] == leaderLog[i]
  {
    assert log[..n + 1][i] == log[i] && leaderLog[..n + 1][i] == leaderLog[i];
  }

  /** After backing up, the next index is again at or past the first difference. */
  lemma BackedUpIsPositioned(
    logs: map<int, Log>, term: int, log: Log, snapshot: Log, args: AppendArgs, reply: AppendReply)
    requires HistoryOk(logs) && term in logs && LogOk(logs, log, term) && SentFrom(args, snapshot)
    requires snapshot <= logs[term]
    requires forall i :: |snapshot| <= i < |logs[term]| ==> logs[term][i].term == term
    requires !reply.success && Accurate(args, reply, log, snapshot)
    ensures Positioned(logs[term], log, BackedUp(logs[term], reply))
  {
    var leaderLog, n := logs[term], BackedUp(logs[term], reply);
    if 0 <= n < |log| && n < |leaderLog| && log[..n + 1] == leaderLog[..n + 1] {
      var i := LastWithTerm(leaderLog, reply.conflictTerm, |leaderLog|);
      PrefixTerms(log, leaderLog, n, n);
      assert i != -1 && n == i + 1;
      TermsAreSorted(logs, leaderLog, i, n);
      DifferPastConflict(logs, term, log, snapshot, args, reply, n);
    }
  }

  /** The logs differ at or before an entry of a later term than the conflicting one. */
  lemma DifferPastConflict(
    logs: map<int, Log>, term: int, log: Log, snapshot: Log, args: AppendArgs, reply: AppendReply, n: int)
    requires HistoryOk(logs) && term in logs && LogOk(logs, log, term) && SentFrom(args, snapshot)
    requires snapshot <= logs[term]
    requires forall i :: |snapshot| <= i < |logs[term]| ==> logs[term][i].term == term
    requires !reply.success && reply.conflictTerm != -1 && Accurate(args, reply, log, snapshot)
    requires 0 <= n < |log| && n < |logs[term]| && reply.conflictTerm < log[n].term
    ensures log[..n + 1] != logs[term][..n + 1]
  {
    var prev := args.prevIndex;
    assert prev < n by {
      if n <= prev {
        TermsAreSorted(logs, log, n, prev);
      }
    }
    assert log[prev] != logs[term][prev];
    assert log[..n + 1][prev] != logs[term][..n + 1][prev];
  }
}
