/**
 Fast backup: how quickly rejections move a leader's next index to where a
 message is accepted, and that this message makes the logs equal.
 */
module RaftBackup {
  import opened RaftState
  import opened RaftCluster
  import opened RaftLogs

  ghost predicate SortedTerms(log: Log) {
    forall i, j :: 0 <= i <= j < |log| ==> log[i].term <= log[j].term
  }

  ghost predicate Matching(a: Log, b: Log) {
    forall i :: 0 <= i < |a| && i < |b| && a[i].term == b[i].term ==> a[..i + 1] == b[..i + 1]
  }

  ghost predicate StartsAt(log: Log, i: int) {
    0 < i < |log| && log[i - 1].term != log[i].term
  }

  /** A term that occurs in both logs starts at the same index in both. */
  ghost predicate SharedStarts(a: Log, b: Log) {
    forall i, j :: StartsAt(a, i) && StartsAt(b, j) && a[i].term == b[j].term ==> i == j
  }

  /** What Raft guarantees of any two logs. */
  ghost predicate Comparable(a: Log, b: Log) {
    LogShape(a) && LogShape(b) && SortedTerms(a) && SortedTerms(b) && Matching(a, b) && SharedStarts(a, b)
  }

  // ---------------------------------------------------------------------
  // Counting terms

  /** How many terms start at indices 1 to `m`. */
  ghost function Starts(log: Log, m: nat): nat
    requires m < |log|
  {
    if m == 0 then 0 else Starts(log, m - 1) + if StartsAt(log, m) then 1 else 0
  }

  ghost function TermsUpTo(log: Log, m: nat): set<int>
    requires m < |log|
  {
    if m == 0 then {} else TermsUpTo(log, m - 1) + {log[m].term}
  }

  /** How many distinct terms the log has, the sentinel's apart. */
  ghost function TermCount(log: Log): nat {
    if log == [] then 0 else |TermsUpTo(log, |log| - 1)|
  }

  lemma {:induction false} TermsAreBounded(log: Log, m: nat)
    requires LogShape(log) && SortedTerms(log) && m < |log|
    ensures forall term :: term in TermsUpTo(log, m) ==> 1 <= term <= log[m].term
    ensures m > 0 ==> log[m].term in TermsUpTo(log, m)
  {
    if m > 0 {
      TermsAreBounded(log, m - 1);
    }
  }

  /** Starts count distinct terms, the sentinel's apart. */
  lemma {:induction false} StartsCountTerms(log: Log, m: nat)
    requires LogShape(log) && SortedTerms(log) && m < |log|
    ensures Starts(log, m) == |TermsUpTo(log, m)|
  {
    if m > 0 {
      StartsCountTerms(log, m - 1);
      TermsAreBounded(log, m - 1);
      if StartsAt(log, m) {
        assert log[m].term !in TermsUpTo(log, m - 1);
      } else {
        assert m > 1;
        assert TermsUpTo(log, m) == TermsUpTo(log, m - 1);
      }
    }
  }

  lemma {:induction false} StartsMonotone(log: Log, a: nat, b: nat)
    requires a <= b < |log|
    ensures Starts(log, a) <= Starts(log, b)
    ensures forall i :: a < i <= b && StartsAt(log, i) ==> Starts(log, a) < Starts(log, b)
  {
    if a < b {
      StartsMonotone(log, a, b - 1);
    }
  }

  // ---------------------------------------------------------------------
  // One round without loss

  ghost predicate Ready(leader: Node, follower: Node, f: nat) {
    && leader.role == Leader && follower.term <= leader.term && leader.log != [] && follower.log != []
    && f < |leader.next| && f < |leader.matched| && leader.next[f] >= 1 && leader.peers <= |leader.matched|
    && leader.commit >= 0
  }

  ghost function Round(leader: Node, follower: Node, f: nat): (Node, Node, AppendReply)
    requires Ready(leader, follower, f)
  {
    var args := BuildAppend(leader, f, true);
    var (after, reply) := HandleAppend(follower, args);
    (HandleAppendReply(leader, f, args, reply), after, reply)
  }

  /** `r` rounds are rejected, and the next one makes the follower's log the leader's. */
  ghost predicate RejectsThenCopies(leader: Node, follower: Node, f: nat, r: nat)
    decreases r
  {
    && Ready(leader, follower, f)
    && var (leader', follower', reply) := Round(leader, follower, f);
       if r == 0 then reply.success && follower'.log == leader.log
       else !reply.success && RejectsThenCopies(leader', follower', f, r - 1)
  }

  /** The follower accepts a message with next index `n`. */
  predicate Accepts(leaderLog: Log, log: Log, n: int) {
    0 < n <= |log| && LogTerm(leaderLog, n - 1) == log[n - 1].term
  }

  /** The next index after a rejection of `n`. */
  ghost function Backed(leaderLog: Log, log: Log, n: int): int
    requires n >= 1
  {
    if n > |log| then |log|
    else
      var i := LastWithTerm(leaderLog, log[n - 1].term, |leaderLog|);
      if i != -1 then i + 1 else RunStart(log, n - 1, log[n - 1].term)
  }

  lemma RejectedReply(leader: Node, follower: Node, f: nat)
    requires Ready(leader, follower, f) && LogShape(follower.log) && !Accepts(leader.log, follower.log, leader.next[f])
    ensures var (after, reply) := HandleAppend(follower, BuildAppend(leader, f, true));
            var n := leader.next[f];
            && !reply.success && after.log == follower.log && after.term == leader.term
            && (n > |follower.log| ==> reply.conflictTerm == -1 && reply.conflictIndex == |follower.log|)
            && (n <= |follower.log| ==>
                  && reply.conflictTerm == follower.log[n - 1].term >= 0
                  && reply.conflictIndex == RunStart(follower.log, n - 1, reply.conflictTerm))
  {
    hide RunStart, Appended;
  }

  lemma RejectedRound(leader: Node, follower: Node, f: nat)
    requires Ready(leader, follower, f) && LogShape(follower.log) && !Accepts(leader.log, follower.log, leader.next[f])
    ensures var (leader', follower', reply) := Round(leader, follower, f);
            && !reply.success && follower'.log == follower.log && follower'.term == leader.term
            && leader' == leader.(next := leader.next[f := Backed(leader.log, follower.log, leader.next[f])])
  {
    hide HandleAppend, RunStart, LastWithTerm, CommitCheck;
    RejectedReply(leader, follower, f);
  }

  lemma AcceptedRound(leader: Node, follower: Node, f: nat)
    requires Ready(leader, follower, f) && LogShape(follower.log) && Accepts(leader.log, follower.log, leader.next[f])
    requires Matching(leader.log, follower.log) && Positioned(leader.log, follower.log, leader.next[f])
    ensures var (leader', follower', reply) := Round(leader, follower, f);
            reply.success && follower'.log == leader.log
  {
    hide Matching, Positioned, Appended, RunStart, LogShape, HandleAppendReply;
    CopiesLog(leader.log, follower.log, leader.next[f]);
  }

  lemma CopiesLog(leaderLog: Log, log: Log, n: int)
    requires LogShape(log) && leaderLog != [] && Accepts(leaderLog, log, n) && Matching(leaderLog, log)
    requires Positioned(leaderLog, log, n)
    ensures Appended(log, n - 1, if n < |leaderLog| then leaderLog[n..] else []) == leaderLog
  {
    var entries := if n < |leaderLog| then leaderLog[n..] else [];
    assert log[..n] == leaderLog[..n];
    if log <= leaderLog {
      assert forall j :: 0 <= j < |entries| && n + j < |log| ==> log[n + j] == entries[j];
    } else if n < |log| && n < |leaderLog| {
      assert entries[0] == leaderLog[n];
      assert log[n].term != leaderLog[n].term;
    }
    assert leaderLog == leaderLog[..n] + leaderLog[n..];
  }

  // ---------------------------------------------------------------------
  // Convergence

  lemma RunStartStarts(log: Log, i: nat)
    requires LogShape(log) && 0 < i < |log|
    ensures var a := RunStart(log, i, log[i].term); 0 < a <= i && StartsAt(log, a) && log[a].term == log[i].term
    ensures forall k :: RunStart(log, i, log[i].term) <= k <= i ==> log[k].term == log[i].term
  {
  }

  /** A term found in the leader's log: its last entry there is one the follower has, too. */
  lemma BackedToShared(leaderLog: Log, log: Log, n: int, i: int)
    requires Comparable(leaderLog, log) && 1 < n <= |log| && !Accepts(leaderLog, log, n)
    requires i == LastWithTerm(leaderLog, log[n - 1].term, |leaderLog|) && i != -1
    ensures 0 < i < n - 1 && Accepts(leaderLog, log, i + 1) && Positioned(leaderLog, log, i + 1)
  {
    RunStartStarts(log, n - 1);
    RunStartStarts(leaderLog, i);
    var a := RunStart(leaderLog, i, leaderLog[i].term);
    assert a == RunStart(log, n - 1, log[n - 1].term);
    hide RunStart, LastWithTerm, Matching, SharedStarts, SortedTerms;
    if i + 1 < |leaderLog| && i + 1 < |log| {
      assert log[i + 1] != leaderLog[i + 1];
      assert log[..i + 2][i + 1] != leaderLog[..i + 2][i + 1];
    }
  }

  /** A term the leader lacks: one term of the follower less to try. */
  lemma BackedToStart(leaderLog: Log, log: Log, n: int)
    requires Comparable(leaderLog, log) && 1 < n <= |log|
    requires LastWithTerm(leaderLog, log[n - 1].term, |leaderLog|) == -1
    ensures var m := RunStart(log, n - 1, log[n - 1].term);
            0 < m < n && Positioned(leaderLog, log, m) && Starts(log, m - 1) < Starts(log, n - 1)
  {
    hide Matching, SharedStarts, SortedTerms, Starts, RunStart, LastWithTerm;
    RunStartStarts(log, n - 1);
    var m := RunStart(log, n - 1, log[n - 1].term);
    StartsMonotone(log, m - 1, n - 1);
    if m < |leaderLog| {
      assert log[m] != leaderLog[m];
      assert log[..m + 1][m] != leaderLog[..m + 1][m];
    }
  }

  lemma SomeStart(log: Log, m: nat)
    requires LogShape(log) && 0 < m < |log|
    ensures Starts(log, m) >= 1
  {
    RunStartStarts(log, m);
    StartsMonotone(log, 0, m);
  }

  /** How many rejections are still possible at next index `n`. */
  ghost function Rank(leaderLog: Log, log: Log, n: int): nat
    requires 1 <= n <= |log|
  {
    if Accepts(leaderLog, log, n) then 0 else Starts(log, n - 1)
  }

  /** A next index inside the follower's log and not before the first difference. */
  ghost predicate Placed(leaderLog: Log, log: Log, n: int) {
    1 <= n <= |log| && Positioned(leaderLog, log, n)
  }

  lemma NonemptyLogs(leaderLog: Log, log: Log, n: int)
    requires LogShape(leaderLog) && LogShape(log) && n >= 1 && !Accepts(leaderLog, log, n)
    ensures leaderLog != [] && log != [] && n > 1
  {
  }

  lemma BackedIsPlaced(leaderLog: Log, log: Log, n: int)
    requires Comparable(leaderLog, log) && 1 <= n && !Accepts(leaderLog, log, n)
    ensures Placed(leaderLog, log, Backed(leaderLog, log, n))
    ensures n <= |log| ==> Rank(leaderLog, log, Backed(leaderLog, log, n)) < Starts(log, n - 1)
    ensures Rank(leaderLog, log, Backed(leaderLog, log, n)) <= Starts(log, |log| - 1)
  {
    hide Matching, SharedStarts, SortedTerms, Positioned, RunStart, LastWithTerm, Starts, Accepts, LogShape;
    NonemptyLogs(leaderLog, log, n);
    if n > |log| {
      PastEndIsPositioned(leaderLog, log);
    } else {
      SomeStart(log, n - 1);
      StartsMonotone(log, n - 1, |log| - 1);
      var i := LastWithTerm(leaderLog, log[n - 1].term, |leaderLog|);
      if i != -1 {
        BackedToShared(leaderLog, log, n, i);
      } else {
        BackedToStart(leaderLog, log, n);
      }
    }
  }

  lemma PastEndIsPositioned(leaderLog: Log, log: Log)
    ensures Positioned(leaderLog, log, |log|)
  {
  }

  /** One more rejected round before a convergent one. */
  lemma OneMoreReject(leader: Node, follower: Node, f: nat, r: nat)
    requires Ready(leader, follower, f) && LogShape(follower.log) && !Accepts(leader.log, follower.log, leader.next[f])
    requires RejectsThenCopies(Round(leader, follower, f).0, Round(leader, follower, f).1, f, r)
    ensures RejectsThenCopies(leader, follower, f, r + 1)
  {
    hide Round, Ready, LogShape, Accepts;
    RejectedRound(leader, follower, f);
  }

  lemma RejectedIsReady(leader: Node, follower: Node, f: nat)
    requires Ready(leader, follower, f) && LogShape(follower.log) && !Accepts(leader.log, follower.log, leader.next[f])
    requires Backed(leader.log, follower.log, leader.next[f]) >= 1
    ensures var (leader', follower', _) := Round(leader, follower, f);
            && Ready(leader', follower', f) && leader'.log == leader.log && follower'.log == follower.log
            && leader'.next[f] == Backed(leader.log, follower.log, leader.next[f])
  {
    hide Round, Backed, LogShape, Accepts;
    RejectedRound(leader, follower, f);
  }

  /** From a placed next index: at most one rejection for each follower term up to it. */
  lemma {:induction false} Converges(leader: Node, follower: Node, f: nat) returns (r: nat)
    requires Ready(leader, follower, f) && Comparable(leader.log, follower.log)
    requires Placed(leader.log, follower.log, leader.next[f])
    ensures RejectsThenCopies(leader, follower, f, r) && r <= Rank(leader.log, follower.log, leader.next[f])
    decreases Rank(leader.log, follower.log, leader.next[f])
  {
    hide Matching, SharedStarts, SortedTerms, Round, Positioned, Backed, Accepts;
    if Accepts(leader.log, follower.log, leader.next[f]) {
      AcceptedRound(leader, follower, f);
      r := 0;
    } else {
      BackedIsPlaced(leader.log, follower.log, leader.next[f]);
      RejectedIsReady(leader, follower, f);
      var less := Converges(Round(leader, follower, f).0, Round(leader, follower, f).1, f);
      OneMoreReject(leader, follower, f, less);
      r := less + 1;
    }
  }

  lemma OvershootIsRejected(leaderLog: Log, log: Log)
    requires LogShape(leaderLog) && LogShape(log)
    ensures !Accepts(leaderLog, log, |leaderLog| + 1)
  {
  }

  /**
   Rounds without loss from any next index that is not before the first
   difference: at most one rejection for an index past the follower's end, and
   one per distinct follower term; then the logs are equal.
   */
  lemma BackupConverges(leader: Node, follower: Node, f: nat) returns (r: nat)
    requires Ready(leader, follower, f) && Comparable(leader.log, follower.log)
    requires Positioned(leader.log, follower.log, leader.next[f])
    ensures RejectsThenCopies(leader, follower, f, r) && r <= 1 + TermCount(follower.log)
    ensures r == 0 <==> Accepts(leader.log, follower.log, leader.next[f])
  {
    hide Matching, SharedStarts, SortedTerms, Round, Positioned, Backed, Accepts, TermsUpTo, Starts;
    StartsCountTerms(follower.log, |follower.log| - 1);
    if Accepts(leader.log, follower.log, leader.next[f]) {
      AcceptedRound(leader, follower, f);
      r := 0;
    } else {
      BackedIsPlaced(leader.log, follower.log, leader.next[f]);
      RejectedIsReady(leader, follower, f);
      var less := Converges(Round(leader, follower, f).0, Round(leader, follower, f).1, f);
      OneMoreReject(leader, follower, f, less);
      r := less + 1;
    }
  }

  /** A new leader probes one past its end, which is always rejected. */
  lemma FastBackupConverges(leader: Node, follower: Node, f: nat) returns (r: nat)
    requires Ready(leader, follower, f) && Comparable(leader.log, follower.log)
    requires leader.next[f] == |leader.log| + 1
    ensures RejectsThenCopies(leader, follower, f, r)
    ensures 1 <= r <= 1 + TermCount(follower.log)
  {
    OvershootIsRejected(leader.log, follower.log);
    hide RejectsThenCopies, Matching, SharedStarts, SortedTerms, TermsUpTo, Accepts;
    r := BackupConverges(leader, follower, f);
  }
}
