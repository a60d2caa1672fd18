/**
 Fast backup inside runs of the cluster: from any moment of a run in which only
 leaders send, a leader that exchanges messages with a server which is not ahead
 of it in term, without loss, soon gives that server its log and its commit index.
 */
module RaftCatchUp {
  import opened Options
  import opened RaftState
  import opened RaftCluster
  import opened RaftElection
  import opened RaftLogs
  import opened RaftReplication
  import opened RaftMatching
  import opened RaftTheorems
  import opened RaftOrder
  import opened RaftPaths
  import RaftBackup

  // ---------------------------------------------------------------------
  // One exchange

  /** One call from `l` to `f`: sent, delivered and answered. */
  function Exchange(l: nat, f: nat, id: nat): seq<Action> {
    [SendAppend(l, f, id, true), DeliverAppend(id), ReturnAppend(id)]
  }

  function Exchanges(l: nat, f: nat, id: nat, r: nat): seq<Action> {
    if r == 0 then [] else Exchange(l, f, id) + Exchanges(l, f, id, r - 1)
  }

  /** The state after an exchange, in terms of the two servers. */
  ghost predicate Exchanged(s: Cluster, t: Cluster, l: nat, f: nat)
    requires l < |s.nodes| && f < |s.nodes| && RaftBackup.Ready(s.nodes[l], s.nodes[f], f)
  {
    var (leader, follower, _) := RaftBackup.Round(s.nodes[l], s.nodes[f], f);
    && |t.nodes| == |s.nodes| && t.nodes[l] == leader && t.nodes[f] == follower && t.appends == s.appends
    && forall v :: 0 <= v < |s.nodes| && v != l && v != f ==> t.nodes[v] == s.nodes[v]
  }

  /** What a leader has just sent carries all it has, so it is not accepted out of order. */
  lemma OwnCallInOrder(n: nat, s: Cluster, id: nat)
    requires Sound(n, s) && id in s.appends && Enabled(s, DeliverAppend(id)) && Safe(s, DeliverAppend(id))
    requires s.appends[id].args.term in s.logs && s.appends[id].snapshot == s.logs[s.appends[id].args.term]
    ensures InOrder(s, DeliverAppend(id))
  {
    if Accepts(s, s.appends[id]) {
      hide Shape, ElectionInv, LogInv, HandleAppend, Accurate, Bumped;
      DeliverCases(n, s, id);
    }
  }

  lemma LeaderLog(n: nat, s: Cluster, l: nat)
    requires Sound(n, s) && l < n && s.nodes[l].role == Leader
    ensures s.nodes[l].term in s.logs && s.nodes[l].log == s.logs[s.nodes[l].term]
  {
    assert |s.nodes| == n;
    hide Shape, ElectionInv, HeldOk, HistoryOk, BeliefOk, Genuine, ReceiverOk, LogOk;
    assert NodeOk(s, l);
  }

  lemma SendIsAllowed(q: set<nat>, n: nat, s: Cluster, l: nat, f: nat, id: nat) returns (t: Cluster)
    requires Sound(n, s) && |s.nodes| == n && l < n && f < n && l != f && l in q && f in q && id !in s.appends
    requires RaftBackup.Ready(s.nodes[l], s.nodes[f], f)
    ensures Allowed(q, s, SendAppend(l, f, id, true)) && t == Do(s, SendAppend(l, f, id, true))
    ensures Sound(n, t) && Allowed(q, t, DeliverAppend(id)) && t.nodes == s.nodes && t.held == s.held
    ensures var args := BuildAppend(s.nodes[l], f, true);
            t.appends == s.appends[id := AppendCall(l, f, args, s.nodes[l].log, None)]
  {
    hide Sound;
    LeaderLog(n, s, l);
    t := Do(s, SendAppend(l, f, id, true));
    StepIsSound(q, n, s, SendAppend(l, f, id, true));
    OwnCallInOrder(n, t, id);
  }

  /** The three steps are possible, and they are a round of the two servers. */
  lemma ExchangeFollows(q: set<nat>, n: nat, s: Cluster, l: nat, f: nat, id: nat) returns (t: Cluster)
    requires Sound(n, s) && |s.nodes| == n && l < n && f < n && l != f && l in q && f in q && id !in s.appends
    requires RaftBackup.Ready(s.nodes[l], s.nodes[f], f)
    ensures Follows(q, s, Exchange(l, f, id), t) && Exchanged(s, t, l, f)
  {
    hide Sound, HandleAppend, HandleAppendReply, BuildAppend, InOrder, Follows;
    var sent := SendIsAllowed(q, n, s, l, f, id);
    FollowsOne(q, s, SendAppend(l, f, id, true));
    FollowsOne(q, sent, DeliverAppend(id));
    var delivered := Do(sent, DeliverAppend(id));
    assert delivered.appends[id].to == f && delivered.nodes[l] == s.nodes[l];
    NotADelivery(delivered, ReturnAppend(id));
    FollowsOne(q, delivered, ReturnAppend(id));
    t := Do(delivered, ReturnAppend(id));
    assert t.appends == s.appends;
    FollowsJoin(q, s, [SendAppend(l, f, id, true)], sent, [DeliverAppend(id)], delivered);
    FollowsJoin(q, s, [SendAppend(l, f, id, true)] + [DeliverAppend(id)], delivered, [ReturnAppend(id)], t);
    assert Exchange(l, f, id) == [SendAppend(l, f, id, true)] + [DeliverAppend(id)] + [ReturnAppend(id)];
  }

  lemma NotADelivery(s: Cluster, a: Action)
    requires !a.DeliverAppend?
    ensures InOrder(s, a)
  {
  }

  // ---------------------------------------------------------------------
  // What exchanges do to the two servers

  /** The leader learns about `f` only, and may commit more. */
  ghost predicate LearnsOf(a: Node, b: Node, f: nat) {
    && a.role == b.role == Leader && b.term == a.term && b.log == a.log && b.me == a.me && b.peers == a.peers
    && |b.next| == |a.next| && |b.matched| == |a.matched| && b.commit >= a.commit
    && forall g :: 0 <= g < |a.matched| && g != f ==> b.matched[g] == a.matched[g]
  }

  /** The follower's log lacks the last entry of the leader's. */
  ghost predicate Lacks(leaderLog: Log, log: Log) {
    |leaderLog| > 1 && !(|leaderLog| <= |log| && log[|leaderLog| - 1].term == leaderLog[|leaderLog| - 1].term)
  }

  /** The leader knows that `f` has its whole log, and has committed all it may. */
  ghost predicate Credits(nd: Node, f: nat) {
    f < |nd.matched| && nd.matched[f] == |nd.log| - 1 && CommitsAll(nd)
  }

  /** The follower knows of all that the leader had committed, as far as the log goes. */
  ghost predicate CommitsWith(a: Node, b: Node) {
    b.commit >= if a.commit < |a.log| - 1 then a.commit else |a.log| - 1
  }

  lemma RejectedRound(leader: Node, follower: Node, f: nat)
    requires RaftBackup.Ready(leader, follower, f) && !RaftBackup.Round(leader, follower, f).2.success
    ensures var (after, other, _) := RaftBackup.Round(leader, follower, f);
            LearnsOf(leader, after, f) && after.commit == leader.commit && other.log == follower.log
  {
    hide RunStart, Appended, BackedUp;
  }

  /** An accepted message is one that the follower's log fits. */
  lemma AcceptedArgs(leader: Node, follower: Node, f: nat)
    requires RaftBackup.Ready(leader, follower, f) && RaftBackup.Round(leader, follower, f).2.success
    ensures leader.next[f] <= |follower.log|
    ensures LogTerm(leader.log, leader.next[f] - 1) == follower.log[leader.next[f] - 1].term
    ensures RaftBackup.Round(leader, follower, f).1.term == leader.term
    ensures var after := RaftBackup.Round(leader, follower, f).1; CommitsWith(leader.(log := after.log), after)
  {
    hide RunStart, Appended, HandleAppendReply;
  }

  lemma AcceptedLeader(leader: Node, follower: Node, f: nat)
    requires RaftBackup.Ready(leader, follower, f) && RaftBackup.Round(leader, follower, f).2.success
    ensures var after := RaftBackup.Round(leader, follower, f).0;
            LearnsOf(leader, after, f) && (leader.next[f] < |leader.log| ==> Credits(after, f))
  {
    hide HandleAppend, MayCommit, CommitsAll;
    var args := BuildAppend(leader, f, true);
    var reply := HandleAppend(follower, args).1;
    if leader.next[f] < |leader.log| {
      CommitsWhatItMay(leader, f, args, reply);
    }
  }

  /** A follower that lacks the last entry accepts only what brings it. */
  lemma AcceptedBrings(leader: Node, follower: Node, f: nat)
    requires RaftBackup.Ready(leader, follower, f) && RaftBackup.Round(leader, follower, f).2.success
    requires LogShape(leader.log) && LogShape(follower.log) && Lacks(leader.log, follower.log)
    ensures leader.next[f] < |leader.log|
  {
    hide RaftBackup.Round;
    AcceptedArgs(leader, follower, f);
  }

  /** What the exchanges of `l` with `f` leave, and what they do not touch. */
  ghost predicate CaughtUp(s: Cluster, t: Cluster, l: nat, f: nat)
    requires l < |s.nodes| && f < |s.nodes|
  {
    && |t.nodes| == |s.nodes| && t.appends == s.appends
    && (forall v :: 0 <= v < |s.nodes| && v != l && v != f ==> t.nodes[v] == s.nodes[v])
    && LearnsOf(s.nodes[l], t.nodes[l], f)
    && t.nodes[f].log == s.nodes[l].log && t.nodes[f].term == s.nodes[l].term && CommitsWith(s.nodes[l], t.nodes[f])
    && (LogShape(s.nodes[l].log) && LogShape(s.nodes[f].log) && Lacks(s.nodes[l].log, s.nodes[f].log) ==>
          Credits(t.nodes[l], f))
  }

  lemma LastRound(s: Cluster, t: Cluster, l: nat, f: nat)
    requires l < |s.nodes| && f < |s.nodes| && l != f && RaftBackup.RejectsThenCopies(s.nodes[l], s.nodes[f], f, 0)
    requires Exchanged(s, t, l, f)
    ensures CaughtUp(s, t, l, f)
  {
    hide RaftBackup.Ready, RaftBackup.Round, LogShape, Lacks, Credits, LearnsOf;
    var (leader, follower) := (s.nodes[l], s.nodes[f]);
    AcceptedArgs(leader, follower, f);
    AcceptedLeader(leader, follower, f);
    if LogShape(leader.log) && LogShape(follower.log) && Lacks(leader.log, follower.log) {
      AcceptedBrings(leader, follower, f);
    }
  }

  lemma MoreRounds(s: Cluster, t: Cluster, u: Cluster, l: nat, f: nat, r: nat)
    requires l < |s.nodes| && f < |s.nodes| && l != f && r > 0
    requires RaftBackup.RejectsThenCopies(s.nodes[l], s.nodes[f], f, r) && Exchanged(s, t, l, f) && CaughtUp(t, u, l, f)
    ensures CaughtUp(s, u, l, f)
  {
    hide RaftBackup.Ready, RaftBackup.Round, LogShape, Lacks, Credits;
    RejectedRound(s.nodes[l], s.nodes[f], f);
  }

  /** `r` rejected rounds and an accepted one are that many exchanges of the cluster. */
  lemma {:induction false} RoundsFollow(q: set<nat>, n: nat, s: Cluster, l: nat, f: nat, id: nat, r: nat)
    returns (t: Cluster)
    requires Sound(n, s) && |s.nodes| == n && l < n && f < n && l != f && l in q && f in q && id !in s.appends
    requires RaftBackup.RejectsThenCopies(s.nodes[l], s.nodes[f], f, r)
    ensures Follows(q, s, Exchanges(l, f, id, r + 1), t) && CaughtUp(s, t, l, f)
    decreases r
  {
    hide Sound, RaftBackup.Ready, RaftBackup.Round, Exchanges, Exchange, Follows, CaughtUp;
    var next := ExchangeFollows(q, n, s, l, f, id);
    if r == 0 {
      t := next;
      LastRound(s, t, l, f);
      OneExchange(l, f, id);
    } else {
      PathIsSound(q, n, s, Exchange(l, f, id), next);
      t := RoundsFollow(q, n, next, l, f, id, r - 1);
      MoreRounds(s, next, t, l, f, r);
      FollowsJoin(q, s, Exchange(l, f, id), next, Exchanges(l, f, id, r), t);
      MoreExchanges(l, f, id, r);
    }
  }

  lemma OneExchange(l: nat, f: nat, id: nat)
    ensures Exchanges(l, f, id, 1) == Exchange(l, f, id)
  {
    assert Exchanges(l, f, id, 1) == Exchange(l, f, id) + Exchanges(l, f, id, 0);
  }

  lemma MoreExchanges(l: nat, f: nat, id: nat, r: nat)
    ensures Exchanges(l, f, id, r + 1) == Exchange(l, f, id) + Exchanges(l, f, id, r)
  {
  }

  // ---------------------------------------------------------------------
  // Catching up

  /** What a leader and a server not ahead of it in term are like. */
  lemma LeaderIsReady(n: nat, s: Cluster, l: nat, f: nat)
    requires Sound(n, s) && l < n && f < n && l != f && |s.nodes| == n
    requires s.nodes[l].role == Leader && s.nodes[f].term <= s.nodes[l].term
    ensures var (leader, follower) := (s.nodes[l], s.nodes[f]);
            && RaftBackup.Ready(leader, follower, f) && RaftBackup.Comparable(leader.log, follower.log)
            && Positioned(leader.log, follower.log, leader.next[f])
  {
    hide ElectionInv, HeldOk, Genuine, ReceiverOk, HistoryOk, Durable, RaftBackup.Comparable, HeldThrough, LogOk,
      LogShape;
    assert NodeOk(s, l) && NodeOk(s, f) && BeliefOk(s, l, f);
    assert NodeShape(n, l, s.nodes[l]) && NodeShape(n, f, s.nodes[f]);
    ShapeNonempty(s.nodes[l].log);
    ShapeNonempty(s.nodes[f].log);
    LogOkCoherent(s.logs, s.nodes[l].log, s.nodes[l].term);
    LogOkCoherent(s.logs, s.nodes[f].log, s.nodes[f].term);
    CoherentIsComparable(s.logs, s.nodes[l].log, s.nodes[f].log);
    PositionIsPositioned(s.logs, s.logs[s.nodes[l].term], s.nodes[l].term, s.nodes[f], s.nodes[l].next[f]);
  }

  lemma ShapeNonempty(log: Log)
    requires LogShape(log)
    ensures log != []
  {
  }

  lemma CatchUp(q: set<nat>, n: nat, s: Cluster, l: nat, f: nat, id: nat) returns (t: Cluster, r: nat)
    requires Sound(n, s) && |s.nodes| == n && l < n && f < n && l != f && l in q && f in q && id !in s.appends
    requires s.nodes[l].role == Leader && s.nodes[f].term <= s.nodes[l].term
    ensures Follows(q, s, Exchanges(l, f, id, r + 1), t) && CaughtUp(s, t, l, f)
    ensures r <= 1 + RaftBackup.TermCount(s.nodes[f].log)
  {
    hide Sound, RaftBackup.RejectsThenCopies, RaftBackup.Comparable, Positioned, RaftBackup.Ready, RaftBackup.TermCount,
      Exchanges, CaughtUp, Follows;
    LeaderIsReady(n, s, l, f);
    r := RaftBackup.BackupConverges(s.nodes[l], s.nodes[f], f);
    t := RoundsFollow(q, n, s, l, f, id, r);
  }

  /**
   From any moment of a led run, exchanges with a server that is not ahead in
   term go on as a led run, ordered if it was, and end with the leader's log and
   commit index there, after at most one rejection per distinct term of the
   server's log and one more.
   */
  lemma CatchesUp(n: nat, run: seq<Cluster>, actions: seq<Action>, l: nat, f: nat, id: nat)
    returns (longer: seq<Cluster>, r: nat)
    requires LedRun(n, run, actions) && |run| == |actions| + 1
    requires var s := run[|actions|];
             && |s.nodes| == n && l < n && f < n && l != f && id !in s.appends
             && s.nodes[l].role == Leader && s.nodes[f].term <= s.nodes[l].term
    ensures r <= 1 + RaftBackup.TermCount(run[|actions|].nodes[f].log)
    ensures var more := actions + Exchanges(l, f, id, r + 1);
            && LedRun(n, longer, more) && |longer| == |more| + 1 && run <= longer
            && (OrderedRun(n, run, actions) ==> OrderedRun(n, longer, more))
            && CaughtUp(run[|actions|], longer[|more|], l, f)
  {
    hide Run, LeaderSends, OrderedRun, Sound, RaftBackup.TermCount, Exchanges, CaughtUp, Follows, OnlyAmong;
    RunIsSound(n, run, actions, |actions|);
    var t;
    t, r := CatchUp({l, f}, n, run[|actions|], l, f, id);
    longer := RunGoesOn({l, f}, n, run, actions, Exchanges(l, f, id, r + 1), t);
  }
}
