/**
 What holds over every run in which only leaders send: Log Matching, accepted
 messages copy the leader's log, and the commit rule.
 */
module RaftTheorems {
  import opened FiniteSets
  import opened RaftState
  import opened RaftCluster
  import opened RaftElection
  import opened RaftLogs
  import opened RaftReplication
  import opened RaftMatching
  import RaftBackup

  // ---------------------------------------------------------------------
  // Log Matching

  lemma LogsGrowTrans(a: map<int, Log>, b: map<int, Log>, c: map<int, Log>)
    requires LogsGrow(a, b) && LogsGrow(b, c)
    ensures LogsGrow(a, c)
  {
    forall term | term in a
      ensures term in c && a[term] <= c[term]
      ensures forall i :: |a[term]| <= i < |c[term]| ==> c[term][i].term == term
    {
      assert a[term] <= b[term] <= c[term];
      forall i | |a[term]| <= i < |c[term]|
        ensures c[term][i].term == term
      {
        assert i < |b[term]| ==> b[term][i] == c[term][i];
      }
    }
  }

  lemma CommandLogsGrow(s: Cluster, v: nat, command: Command)
    requires v < |s.nodes| && NodeOk(s, v)
    ensures LogsGrow(s.logs, Do(s, ClientCommand(v, command)).logs)
  {
    hide LogOk;
    var entry := LogEntry(s.nodes[v].term, command);
    if s.nodes[v].role == Leader {
      assert Do(s, ClientCommand(v, command)).logs == s.logs[entry.term := s.logs[entry.term] + [entry]];
    }
  }

  lemma VoteLogsGrow(n: nat, s: Cluster, k: VoteKey)
    requires Shape(n, s) && ElectionInv(s) && LogInv(s) && Enabled(s, ReturnVote(k))
    ensures LogsGrow(s.logs, Do(s, ReturnVote(k)).logs)
  {
    hide Shape, ElectionInv, LogInv, HandleVoteReply, Quiet, Bumped;
    var t := Do(s, ReturnVote(k));
    if s.nodes[k.candidate].role != Leader && t.nodes[k.candidate].role == Leader {
      VoteReplyIsBumpOrWin(s.nodes[k.candidate], s.ballots[k].args, s.ballots[k].reply.value);
      assert Won(s, t, k.candidate);
      WonIsNotQuiet(s.nodes[k.candidate], t.nodes[k.candidate]);
      CountVoteNode(s, t, k);
      WinnerTermIsNew(n, s, t, k.candidate);
    } else {
      assert t.logs == s.logs;
    }
  }

  lemma NextLogsGrow(n: nat, s: Cluster, a: Action)
    requires Shape(n, s) && ElectionInv(s) && LogInv(s) && Enabled(s, a) && Safe(s, a)
    ensures LogsGrow(s.logs, Do(s, a).logs)
  {
    hide Shape, ElectionInv, NodeOk, HistoryOk, BeliefOk, Genuine, ReceiverOk, HandleVote, HandleVoteReply,
      HandleAppend, HandleAppendReply, Made, Submit, Elect, BuildAppend;
    match a
    case ReturnVote(k) => VoteLogsGrow(n, s, k);
    case ClientCommand(v, command) => CommandLogsGrow(s, v, command);
    case _ => assert Do(s, a).logs == s.logs;
  }

  lemma StepLogsGrow(n: nat, s: Cluster, a: Action, t: Cluster)
    requires Shape(n, s) && ElectionInv(s) && LogInv(s) && Next(s, a, t)
    ensures LogsGrow(s.logs, t.logs)
  {
    hide Shape, ElectionInv, LogInv, Enabled, Safe, Do, LogsGrow;
    NextLogsGrow(n, s, a);
  }

  lemma LogsGrowItself(logs: map<int, Log>)
    ensures LogsGrow(logs, logs)
  {
  }

  lemma {:induction false} LogsGrowAlong(n: nat, run: seq<Cluster>, actions: seq<Action>, i: nat, j: nat)
    requires LedRun(n, run, actions) && i <= j < |run|
    ensures LogsGrow(run[i].logs, run[j].logs)
  {
    hide LogsGrow, StepAt, Init, LeaderSends, Next, Shape, ElectionInv, LogInv;
    if i == j {
      LogsGrowItself(run[i].logs);
    } else {
      LedStep(n, run, actions, j - 1);
      LogsGrowAlong(n, run, actions, i, j - 1);
      EveryLog(n, run, actions, j - 1);
      StepLogsGrow(n, run[j - 1], actions[j - 1], run[j]);
      LogsGrowTrans(run[i].logs, run[j - 1].logs, run[j].logs);
    }
  }

  lemma LogAt(n: nat, run: seq<Cluster>, actions: seq<Action>, i: nat, j: nat, v: nat)
    requires LedRun(n, run, actions) && i <= j < |run| && v < |run[i].nodes|
    ensures Coherent(run[j].logs, run[i].nodes[v].log)
  {
    hide Run, Shape, ElectionInv, HistoryOk, BeliefOk, Genuine, ReceiverOk, LogsGrow, LeaderSends;
    EveryLog(n, run, actions, i);
    LogsGrowAlong(n, run, actions, i, j);
    assert NodeOk(run[i], v);
    CoherentGrows(run[i].logs, run[j].logs, run[i].nodes[v].log);
  }

  /** Log Matching: two logs, at whatever moments of a run, with the same term at an index are the same up to it. */
  lemma LogMatching(n: nat, run: seq<Cluster>, actions: seq<Action>, i: nat, j: nat, a: nat, b: nat, k: nat)
    requires LedRun(n, run, actions) && i <= j < |run| && a < |run[i].nodes| && b < |run[j].nodes|
    requires k < |run[i].nodes[a].log| && k < |run[j].nodes[b].log|
    requires run[i].nodes[a].log[k].term == run[j].nodes[b].log[k].term
    ensures run[i].nodes[a].log[..k + 1] == run[j].nodes[b].log[..k + 1]
  {
    hide Run, LeaderSends, Coherent;
    LogAt(n, run, actions, i, j, a);
    LogAt(n, run, actions, j, j, b);
    SameTermSamePrefix(run[j].logs, run[i].nodes[a].log, run[j].nodes[b].log, k);
  }

  lemma CoherentIsComparable(logs: map<int, Log>, a: Log, b: Log)
    requires HistoryOk(logs) && Coherent(logs, a) && Coherent(logs, b) && LogShape(a) && LogShape(b)
    ensures RaftBackup.Comparable(a, b)
  {
    forall i, j | 0 <= i <= j < |a|
      ensures a[i].term <= a[j].term
    {
      TermsAreSorted(logs, a, i, j);
    }
    forall i, j | 0 <= i <= j < |b|
      ensures b[i].term <= b[j].term
    {
      TermsAreSorted(logs, b, i, j);
    }
    hide HistoryOk;
    forall i, j | RaftBackup.StartsAt(a, i) && RaftBackup.StartsAt(b, j) && a[i].term == b[j].term
      ensures i == j
    {
      StartsNotLater(logs, a, b, i, j);
      StartsNotLater(logs, b, a, j, i);
    }
  }

  lemma StartsNotLater(logs: map<int, Log>, a: Log, b: Log, i: nat, j: nat)
    requires Coherent(logs, a) && Coherent(logs, b) && RaftBackup.SortedTerms(b)
    requires RaftBackup.StartsAt(a, i) && RaftBackup.StartsAt(b, j) && a[i].term == b[j].term
    ensures j <= i
  {
    var term := a[i].term;
    assert a[..i + 1] <= logs[term] && b[..j + 1] <= logs[term];
    assert a[..i + 1][i] == logs[term][i];
  }

  /** The logs of any two servers, at any moment of a run, are such that fast backup converges on them. */
  lemma LogsAreComparable(n: nat, run: seq<Cluster>, actions: seq<Action>, i: nat, a: nat, b: nat)
    requires LedRun(n, run, actions) && i < |run| && a < |run[i].nodes| && b < |run[i].nodes|
    ensures RaftBackup.Comparable(run[i].nodes[a].log, run[i].nodes[b].log)
  {
    hide LedRun, ElectionInv, BeliefOk, Genuine, ReceiverOk, HistoryOk, Durable, Coherent;
    EveryLog(n, run, actions, i);
    assert NodeOk(run[i], a) && NodeOk(run[i], b);
    assert NodeShape(n, a, run[i].nodes[a]) && NodeShape(n, b, run[i].nodes[b]);
    CoherentIsComparable(run[i].logs, run[i].nodes[a].log, run[i].nodes[b].log);
  }

  /** An accepted AppendEntries leaves the follower with the log the leader had when it built the message. */
  lemma AcceptedCopiesLeader(n: nat, run: seq<Cluster>, actions: seq<Action>, i: nat, id: nat)
    requires LedRun(n, run, actions) && i < |actions| && actions[i] == DeliverAppend(id)
    requires id in run[i].appends && run[i].appends[id].to < |run[i].nodes| == |run[i + 1].nodes|
    requires id in run[i + 1].appends && run[i + 1].appends[id].reply.Some?
    requires run[i + 1].appends[id].reply.value.success
    ensures run[i + 1].nodes[run[i].appends[id].to].log == run[i].appends[id].snapshot
    ensures var (call, log) := (run[i].appends[id], run[i].nodes[run[i].appends[id].to].log);
            call.args.prevIndex >= 0 && FirstConflict(log, call.args.prevIndex + 1, call.args.entries, 0) in {-1, 0}
  {
    hide LedRun, Shape, ElectionInv, LogInv, LeaderSends, HandleAppend, FirstConflict, LogOk, HistoryOk, Position,
      Accurate;
    LedStep(n, run, actions, i);
    EveryLog(n, run, actions, i);
    var (s, call) := (run[i], run[i].appends[id]);
    DeliverCases(n, s, id);
    RequestParts(n, s, id);
    ScanFacts(s.logs, s.nodes[call.to], call.args, call.snapshot);
  }

  lemma ScanFacts(logs: map<int, Log>, nd: Node, args: AppendArgs, snapshot: Log)
    requires args.term in logs && HistoryOk(logs) && LogOk(logs, nd.log, nd.term) && LogShape(nd.log)
    requires SentFrom(args, snapshot) && snapshot <= logs[args.term]
    requires Position(logs[args.term], args.term, nd, args.prevIndex + 1) && HandleAppend(nd, args).1.success
    ensures FirstConflict(nd.log, args.prevIndex + 1, args.entries, 0) in {-1, 0}
  {
    hide Appended, RunStart;
    PositionIsPositioned(logs, logs[args.term], args.term, nd, args.prevIndex + 1);
    assert LogOk(logs, logs[args.term], args.term);
    PrefixLogOk(logs, logs[args.term], snapshot, args.term);
    hide Position, Positioned, HistoryOk, Coherent;
    ConflictAtFirst(logs, logs[args.term], nd.log, snapshot, args);
  }

  // ---------------------------------------------------------------------
  // The commit rule

  ghost function MatchedBy(nd: Node, n: int, k: nat): set<nat>
    requires k <= |nd.matched|
  {
    set f: nat | f in Range(k) && f != nd.me && nd.matched[f] >= n
  }

  lemma {:induction false} MatchCountCounts(nd: Node, n: int, k: nat)
    requires k <= |nd.matched|
    ensures |MatchedBy(nd, n, k)| == MatchCount(nd, n, k)
  {
    if k == 0 {
      assert MatchedBy(nd, n, 0) == {};
    } else {
      MatchCountCounts(nd, n, k - 1);
      var last := k - 1;
      if last != nd.me && nd.matched[last] >= n {
        assert MatchedBy(nd, n, k) == MatchedBy(nd, n, last) + {last};
      } else {
        assert MatchedBy(nd, n, k) == MatchedBy(nd, n, last);
      }
    }
  }

  /** A majority with the leader: every other member stored the leader's log through index `c` in this term. */
  ghost predicate MajorityHolds(s: Cluster, l: nat, c: nat, quorum: set<nat>)
    requires l < |s.nodes|
  {
    && quorum <= Range(|s.nodes|) && l in quorum && 2 * |quorum| > |s.nodes|
    && c < |s.nodes[l].log|
    && forall f :: f in quorum && f != l ==> Stored(s, f, s.nodes[l].term, s.nodes[l].log[..c + 1])
  }

  /** Server `f` stored a log that starts with `prefix` on a message of the leader of `term`. */
  ghost predicate Stored(s: Cluster, f: nat, term: int, prefix: Log) {
    exists h :: h in s.held && h.server == f && h.term == term && prefix <= h.log
  }

  /** A leader that moves its commit index has a majority behind the entry, which is of its own term. */
  lemma CommitHasMajority(n: nat, run: seq<Cluster>, actions: seq<Action>, i: nat, id: nat) returns (quorum: set<nat>)
    requires LedRun(n, run, actions) && i < |actions| && actions[i] == ReturnAppend(id)
    requires id in run[i].appends && run[i].appends[id].from < |run[i].nodes| == |run[i + 1].nodes|
    requires var (before, after) := (run[i].nodes[run[i].appends[id].from], run[i + 1].nodes[run[i].appends[id].from]);
             after.commit != before.commit
    ensures var (l, nd) := (run[i].appends[id].from, run[i + 1].nodes[run[i].appends[id].from]);
            && nd.role == Leader && 0 <= run[i].nodes[l].commit < nd.commit < |nd.log|
            && nd.log[nd.commit].term == nd.term
            && MajorityHolds(run[i + 1], l, nd.commit, quorum)
  {
    hide LedRun, ElectionInv, LogInv, LeaderSends, Durable, LogShape, HandleAppendReply, MayCommit, CallShape;
    LedStep(n, run, actions, i);
    var (s, t, l) := (run[i], run[i + 1], run[i].appends[id].from);
    EveryLog(n, run, actions, i);
    EveryLog(n, run, actions, i + 1);
    assert NodeShape(n, l, s.nodes[l]) && NodeShape(n, l, t.nodes[l]);
    CommitMoves(s.nodes[l], s.appends[id].to, s.appends[id].args, s.appends[id].reply.value);
    quorum := Quorum(n, t, l, t.nodes[l].commit);
  }

  /** The commit index only moves by the rule. */
  lemma CommitMoves(nd: Node, server: nat, args: AppendArgs, reply: AppendReply)
    requires nd.peers <= |nd.matched| && 0 <= nd.commit && nd.log != []
    requires server < |nd.next| && server < |nd.matched|
    ensures var after := HandleAppendReply(nd, server, args, reply);
            after.commit != nd.commit ==>
              && after.role == Leader && nd.commit < after.commit < |after.log| && after.peers <= |after.matched|
              && after.log[after.commit].term == after.term && MayCommit(after, after.commit)
              && forall k :: after.commit < k < |after.log| ==> !MayCommit(after, k)
  {
    var after := HandleAppendReply(nd, server, args, reply);
    if after.commit != nd.commit {
      var matched := args.prevIndex + |args.entries|;
      var checked := nd.(matched := nd.matched[server := matched], next := nd.next[server := matched + 1]);
      assert after == CommitCheck(checked);
      forall k | 0 <= k < |after.log|
        ensures MayCommit(after, k) == MayCommit(checked, k)
      {
        SameMatchCount(after, checked, k, nd.peers);
      }
    }
  }

  /** Every entry of the leader's own term that it knows a majority to have is committed. */
  ghost predicate CommitsAll(nd: Node) {
    nd.peers <= |nd.matched| &&
    forall n :: 0 <= n < |nd.log| && nd.log[n].term == nd.term && 2 * (1 + |MatchedBy(nd, n, nd.peers)|) > nd.peers ==>
      n <= nd.commit
  }

  /** When an acknowledgement reaches the leader it was for, nothing that may be committed is left uncommitted. */
  lemma CommitsWhatItMay(nd: Node, server: nat, args: AppendArgs, reply: AppendReply)
    requires nd.peers <= |nd.matched| && 0 <= nd.commit && nd.log != []
    requires server < |nd.next| && server < |nd.matched|
    requires nd.role == Leader && args.term == nd.term && reply.success && !args.isNil
    ensures CommitsAll(HandleAppendReply(nd, server, args, reply))
  {
    hide CommitPoint, LastLogIndex;
    var matched := args.prevIndex + |args.entries|;
    var checked := nd.(matched := nd.matched[server := matched], next := nd.next[server := matched + 1]);
    var after := HandleAppendReply(nd, server, args, reply);
    var last := LastLogIndex(nd.log);
    LastIndexIs(nd.log);
    assert after == checked.(commit := CommitPoint(checked, last));
    forall n | 0 <= n < |after.log| && after.log[n].term == after.term
               && 2 * (1 + |MatchedBy(after, n, after.peers)|) > after.peers
      ensures n <= after.commit
    {
      MatchCountCounts(after, n, after.peers);
      SameMatchCount(after, checked, n, nd.peers);
      assert MayCommit(checked, n);
    }
  }

  lemma LastIndexIs(log: Log)
    requires log != []
    ensures LastLogIndex(log) == |log| - 1
  {
  }

  lemma {:induction false} SameMatchCount(a: Node, b: Node, n: int, k: nat)
    requires a.matched == b.matched && a.me == b.me && k <= |a.matched|
    ensures MatchCount(a, n, k) == MatchCount(b, n, k)
  {
    if k > 0 {
      SameMatchCount(a, b, n, k - 1);
    }
  }

  lemma Quorum(n: nat, s: Cluster, l: nat, c: int) returns (quorum: set<nat>)
    requires Shape(n, s) && LogInv(s) && l < n && s.nodes[l].role == Leader && 0 < c < |s.nodes[l].log|
    requires s.nodes[l].peers <= |s.nodes[l].matched| && MayCommit(s.nodes[l], c)
    ensures MajorityHolds(s, l, c, quorum)
  {
    hide ReceiverOk, Genuine, HistoryOk, Durable, HeldThrough, Stored, Position, LogOk;
    var nd := s.nodes[l];
    assert NodeShape(n, l, nd) && NodeOk(s, l);
    var others := MatchedBy(nd, c, n);
    quorum := others + {l};
    MatchCountCounts(nd, c, n);
    forall f | f in others
      ensures Stored(s, f, nd.term, nd.log[..c + 1])
    {
      assert BeliefOk(s, l, f);
      HeldIsStored(s, f, nd.term, nd.matched[f], c);
    }
  }

  lemma HeldIsStored(s: Cluster, f: nat, term: int, k: int, c: nat)
    requires HeldThrough(s, f, term, k) && c <= k && term in s.logs && c < |s.logs[term]|
    ensures Stored(s, f, term, s.logs[term][..c + 1])
  {
    var h :| h in s.held && h.server == f && h.term == term && k < |h.log| && term in s.logs && h.log <= s.logs[term];
    assert s.logs[term][..c + 1] <= h.log;
  }
}
