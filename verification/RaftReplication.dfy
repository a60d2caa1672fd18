/**
 The invariant of led runs: every log agrees with the leaders' logs, every next
 index and every message in flight is placed so that its acceptance copies the
 leader's log, and a reply in flight still tells the truth unless the follower
 has caught up with the leader in the meantime.
 */
module RaftReplication {
  import opened Options
  import opened RaftState
  import opened RaftCluster
  import opened RaftElection
  import opened RaftLogs

  /** The leader of `term` is on record with its log. */
  ghost predicate LeaderOk(s: Cluster, term: int)
    requires term in s.leaders
  {
    term >= 1 && term in s.logs && s.leaders[term] < |s.nodes| && term <= s.nodes[s.leaders[term]].term
  }

  ghost predicate NodeOk(s: Cluster, v: nat)
    requires v < |s.nodes|
  {
    var nd := s.nodes[v];
    && LogOk(s.logs, nd.log, nd.term)
    && (nd.role == Leader ==> nd.term in s.logs && nd.log == s.logs[nd.term])
    && (nd.role == Candidate && nd.term in s.leaders ==> s.leaders[nd.term] != v)
  }

  /** `f` stored, on a message of the leader of `term`, that leader's log through index `k`. */
  ghost predicate HeldThrough(s: Cluster, f: nat, term: int, k: int) {
    exists h :: h in s.held && h.server == f && h.term == term && k < |h.log| && term in s.logs && h.log <= s.logs[term]
  }

  /** What a leader believes about `f`. */
  ghost predicate BeliefOk(s: Cluster, l: nat, f: nat)
    requires l < |s.nodes| && f < |s.nodes|
  {
    var nd := s.nodes[l];
    nd.role == Leader && nd.term in s.logs && f < |nd.next| && f < |nd.matched| ==>
      && Position(s.logs[nd.term], nd.term, s.nodes[f], nd.next[f])
      && (nd.matched[f] > 0 ==> HeldThrough(s, f, nd.term, nd.matched[f]))
  }

  /** The message is one of the leader of its term, built from a prefix of that leader's log. */
  ghost predicate Genuine(s: Cluster, call: AppendCall) {
    var term := call.args.term;
    && term in s.logs && term in s.leaders && s.leaders[term] == call.from
    && SentFrom(call.args, call.snapshot) && call.snapshot <= s.logs[term]
    && forall i :: |call.snapshot| <= i < |s.logs[term]| ==> s.logs[term][i].term == term
  }

  /** What is known of the receiver while the call is in flight. */
  ghost predicate ReceiverOk(s: Cluster, call: AppendCall) {
    && call.to < |s.nodes| && call.args.term in s.logs
    && var (nd, term) := (s.nodes[call.to], call.args.term);
       match call.reply
       case None => Position(s.logs[term], term, nd, call.args.prevIndex + 1)
       case Some(reply) =>
         && nd.term >= term
         && (nd.term == term ==> nd.log <= s.logs[term] || Accurate(call.args, reply, nd.log, call.snapshot))
         && (reply.success ==>
               && Holding(call.to, term, call.snapshot) in s.held
               && call.args.prevIndex + |call.args.entries| + 1 == |call.snapshot|)
  }

  ghost predicate LogInv(s: Cluster) {
    && HistoryOk(s.logs)
    && (forall term :: term in s.logs ==> term == 0 || term in s.leaders)
    && (forall term :: term in s.leaders ==> LeaderOk(s, term))
    && (forall v: nat :: v < |s.nodes| ==> NodeOk(s, v))
    && (forall l: nat, f: nat :: l < |s.nodes| && f < |s.nodes| && l != f ==> BeliefOk(s, l, f))
    && (forall id :: id in s.appends ==> Genuine(s, s.appends[id]) && ReceiverOk(s, s.appends[id]))
  }

  // ---------------------------------------------------------------------
  // Steps that change no log and give nobody a lead

  ghost predicate Bumped(nd: Node, after: Node) {
    && after.log == nd.log && after.term >= nd.term
    && (after.role == Leader ==>
          nd.role == Leader && after.term == nd.term && after.next == nd.next && after.matched == nd.matched)
    && (after.role == Candidate ==> after.term > nd.term || (after.term == nd.term && nd.role == Candidate))
  }

  lemma PositionBumped(logs: map<int, Log>, leaderLog: Log, term: int, nd: Node, after: Node, n: int)
    requires Position(leaderLog, term, nd, n) && LogOk(logs, nd.log, nd.term)
    requires after.log == nd.log && after.term >= nd.term
    ensures Position(leaderLog, term, after, n)
  {
    if nd.term < term == after.term {
      BeyondIsPositioned(leaderLog, term, nd.log, n);
    }
  }

  lemma BumpedNode(s: Cluster, t: Cluster, v: nat)
    requires v < |s.nodes| == |t.nodes| && t.logs == s.logs && t.leaders == s.leaders
    requires NodeOk(s, v) && Bumped(s.nodes[v], t.nodes[v])
    requires forall term :: term in s.leaders ==> LeaderOk(s, term)
    ensures NodeOk(t, v)
  {
  }

  lemma BumpedBelief(s: Cluster, t: Cluster, l: nat, f: nat)
    requires l < |s.nodes| == |t.nodes| && f < |s.nodes| && t.logs == s.logs && t.held == s.held
    requires BeliefOk(s, l, f) && NodeOk(s, f) && Bumped(s.nodes[l], t.nodes[l]) && Bumped(s.nodes[f], t.nodes[f])
    ensures BeliefOk(t, l, f)
  {
    var nd := s.nodes[l];
    if t.nodes[l].role == Leader && nd.term in s.logs && f < |nd.next| && f < |nd.matched| {
      PositionBumped(s.logs, s.logs[nd.term], nd.term, s.nodes[f], t.nodes[f], nd.next[f]);
    }
    hide Position, LogOk;
  }

  lemma BumpedReceiver(s: Cluster, t: Cluster, call: AppendCall)
    requires |s.nodes| == |t.nodes| && t.logs == s.logs && t.held == s.held
    requires ReceiverOk(s, call) && NodeOk(s, call.to) && Bumped(s.nodes[call.to], t.nodes[call.to])
    ensures ReceiverOk(t, call)
  {
    if call.reply.None? {
      var term := call.args.term;
      PositionBumped(s.logs, s.logs[term], term, s.nodes[call.to], t.nodes[call.to], call.args.prevIndex + 1);
    }
    hide Position, Accurate, LogOk;
  }

  /** Servers get a later term or lose a role, and calls may be lost. */
  lemma BumpedCluster(s: Cluster, t: Cluster)
    requires LogInv(s) && |s.nodes| == |t.nodes|
    requires forall u :: 0 <= u < |s.nodes| ==> Bumped(s.nodes[u], t.nodes[u])
    requires t.logs == s.logs && t.leaders == s.leaders && t.held == s.held
    requires forall id :: id in t.appends ==> id in s.appends && t.appends[id] == s.appends[id]
    ensures LogInv(t)
  {
    hide HistoryOk, NodeOk, BeliefOk, ReceiverOk, HeldThrough;
    forall v: nat | v < |t.nodes|
      ensures NodeOk(t, v)
    {
      BumpedNode(s, t, v);
    }
    forall l: nat, f: nat | l < |t.nodes| && f < |t.nodes| && l != f
      ensures BeliefOk(t, l, f)
    {
      BumpedBelief(s, t, l, f);
    }
    forall id | id in t.appends
      ensures Genuine(t, t.appends[id]) && ReceiverOk(t, t.appends[id])
    {
      assert Genuine(s, s.appends[id]);
      ReceiverExists(s, s.appends[id]);
      BumpedReceiver(s, t, s.appends[id]);
    }
    forall term | term in t.leaders
      ensures LeaderOk(t, term)
    {
      assert LeaderOk(s, term) && Bumped(s.nodes[s.leaders[term]], t.nodes[s.leaders[term]]);
    }
  }

  lemma ReceiverExists(s: Cluster, call: AppendCall)
    requires ReceiverOk(s, call)
    ensures call.to < |s.nodes|
  {
  }

  lemma BumpedStep(s: Cluster, t: Cluster, v: nat)
    requires LogInv(s) && v < |s.nodes| == |t.nodes| && Bumped(s.nodes[v], t.nodes[v])
    requires forall u :: 0 <= u < |s.nodes| && u != v ==> t.nodes[u] == s.nodes[u]
    requires t.logs == s.logs && t.leaders == s.leaders && t.held == s.held
    requires forall id :: id in t.appends ==> id in s.appends && t.appends[id] == s.appends[id]
    ensures LogInv(t)
  {
    assert forall u :: 0 <= u < |s.nodes| && u != v ==> Bumped(s.nodes[u], t.nodes[u]);
    hide LogInv, Bumped;
    BumpedCluster(s, t);
  }

  // ---------------------------------------------------------------------
  // Receiving a message

  lemma PrefixLogOk(logs: map<int, Log>, log: Log, prefix: Log, bound: int)
    requires LogOk(logs, log, bound) && prefix <= log && prefix != []
    ensures LogOk(logs, prefix, bound)
  {
    forall i | 0 <= i < |prefix|
      ensures prefix[i].term in logs && prefix[..i + 1] <= logs[prefix[i].term]
    {
      assert prefix[i] == log[i] && prefix[..i + 1] == log[..i + 1];
    }
  }

  lemma AcceptFacts(logs: map<int, Log>, nd: Node, args: AppendArgs, snapshot: Log)
    requires args.term in logs && HistoryOk(logs) && LogOk(logs, nd.log, nd.term) && LogShape(nd.log)
    requires SentFrom(args, snapshot) && snapshot <= logs[args.term] && nd.term <= args.term
    requires Position(logs[args.term], args.term, nd, args.prevIndex + 1)
    requires args.prevIndex < |nd.log| && args.prevTerm == nd.log[args.prevIndex].term
    ensures Appended(nd.log, args.prevIndex, args.entries) == snapshot
    ensures args.prevIndex + |args.entries| + 1 == |snapshot|
  {
    PositionIsPositioned(logs, logs[args.term], args.term, nd, args.prevIndex + 1);
    assert LogOk(logs, logs[args.term], args.term);
    PrefixLogOk(logs, logs[args.term], snapshot, args.term);
    hide Position, Positioned, HistoryOk, Appended, Coherent;
    AcceptedIsSnapshot(logs, logs[args.term], nd.log, snapshot, args);
    PrevAgrees(logs, nd.log, snapshot, args);
  }

  lemma RejectFacts(nd: Node, args: AppendArgs, snapshot: Log)
    requires nd.log != [] && args.prevIndex >= 0 && nd.term <= args.term
    requires args.prevIndex >= |nd.log| || args.prevTerm != nd.log[args.prevIndex].term
    requires LogShape(nd.log)
    ensures var (after, reply) := HandleAppend(nd, args);
            !reply.success && after.term == args.term && Bumped(nd, after) && Accurate(args, reply, nd.log, snapshot)
  {
    if args.prevIndex < |nd.log| {
      var i := RunStart(nd.log, args.prevIndex, nd.log[args.prevIndex].term);
    }
  }

  /** The receiver's answer, by cases. */
  lemma AppendCases(logs: map<int, Log>, nd: Node, args: AppendArgs, snapshot: Log)
    requires args.term in logs && HistoryOk(logs) && LogOk(logs, nd.log, nd.term) && LogShape(nd.log)
    requires SentFrom(args, snapshot) && snapshot <= logs[args.term]
    requires Position(logs[args.term], args.term, nd, args.prevIndex + 1)
    ensures var (after, reply) := HandleAppend(nd, args);
            if args.term < nd.term then after == nd && !reply.success
            else
              && after.term == args.term
              && (after.role == Follower || (after.role == nd.role && args.term == nd.term))
              && Accurate(args, reply, after.log, snapshot)
              && (if reply.success then after.log == snapshot && args.prevIndex + |args.entries| + 1 == |snapshot|
                  else Bumped(nd, after))
  {
    if args.term >= nd.term {
      if args.prevIndex < |nd.log| && args.prevTerm == nd.log[args.prevIndex].term {
        AcceptFacts(logs, nd, args, snapshot);
      } else {
        RejectFacts(nd, args, snapshot);
      }
    }
    hide Position, HistoryOk, LogOk, Coherent, Appended, RunStart;
  }

  lemma HeldGrows(s: Cluster, t: Cluster, f: nat, term: int, k: int)
    requires HeldThrough(s, f, term, k) && s.held <= t.held
    requires term in t.logs && (term in s.logs ==> s.logs[term] <= t.logs[term])
    ensures HeldThrough(t, f, term, k)
  {
    var h :| h in s.held && h.server == f && h.term == term && k < |h.log| && term in s.logs && h.log <= s.logs[term];
    assert h in t.held && h.log <= t.logs[term];
  }

  /** What delivering call `id` does: the receiver answers by `AppendCases`, and nothing else moves. */
  ghost predicate Delivered(s: Cluster, t: Cluster, id: nat)
    ensures Delivered(s, t, id) ==> id in s.appends && id in t.appends
  {
    && |s.nodes| == |t.nodes| && id in s.appends && s.appends[id].reply.None? && s.appends[id].to < |s.nodes|
    && t.logs == s.logs && t.leaders == s.leaders && s.held <= t.held
    && var call := s.appends[id];
       var (nd, after) := (s.nodes[call.to], t.nodes[call.to]);
       && (forall u :: 0 <= u < |s.nodes| && u != call.to ==> t.nodes[u] == s.nodes[u])
       && id in t.appends && t.appends[id].reply.Some?
       && t.appends == s.appends[id := call.(reply := t.appends[id].reply)]
       && var reply := t.appends[id].reply.value;
          if call.args.term < nd.term then after == nd && !reply.success
          else
            && after.term == call.args.term
            && (after.role == Follower || (after.role == nd.role && call.args.term == nd.term))
            && Accurate(call.args, reply, after.log, call.snapshot)
            && (if reply.success then
                  && after.log == call.snapshot && Holding(call.to, call.args.term, call.snapshot) in t.held
                  && call.args.prevIndex + |call.args.entries| + 1 == |call.snapshot|
                else Bumped(nd, after))
  }

  lemma CallParts(n: nat, s: Cluster, id: nat)
    requires Shape(n, s) && LogInv(s) && id in s.appends
    ensures HistoryOk(s.logs) && Genuine(s, s.appends[id]) && ReceiverOk(s, s.appends[id])
    ensures |s.nodes| == n && s.appends[id].to < n && s.appends[id].from < n && s.appends[id].from != s.appends[id].to
    ensures NodeOk(s, s.appends[id].to) && NodeShape(n, s.appends[id].to, s.nodes[s.appends[id].to])
    ensures NodeOk(s, s.appends[id].from) && NodeShape(n, s.appends[id].from, s.nodes[s.appends[id].from])
  {
    assert CallShape(n, s.appends[id]);
    hide HistoryOk, Genuine, ReceiverOk, NodeOk, NodeShape, BeliefOk;
  }

  lemma RequestParts(n: nat, s: Cluster, id: nat)
    requires Shape(n, s) && LogInv(s) && id in s.appends && s.appends[id].reply.None?
    ensures |s.nodes| == n && s.appends[id].to < n
    ensures var (call, nd) := (s.appends[id], s.nodes[s.appends[id].to]);
            var (args, logs) := (call.args, s.logs);
            && args.term in logs && HistoryOk(logs) && LogOk(logs, nd.log, nd.term) && LogShape(nd.log)
            && SentFrom(args, call.snapshot) && call.snapshot <= logs[args.term]
            && Position(logs[args.term], args.term, nd, args.prevIndex + 1)
  {
    hide LogInv, Shape, HistoryOk, LogOk, LogShape, SentFrom, Position, Durable, Accurate;
    CallParts(n, s, id);
  }

  lemma DeliverCases(n: nat, s: Cluster, id: nat)
    requires Shape(n, s) && LogInv(s) && Enabled(s, DeliverAppend(id)) && Safe(s, DeliverAppend(id))
    ensures var call := s.appends[id];
            var nd := s.nodes[call.to];
            var (after, reply) := HandleAppend(nd, call.args);
            if call.args.term < nd.term then after == nd && !reply.success
            else
              && after.term == call.args.term
              && (after.role == Follower || (after.role == nd.role && call.args.term == nd.term))
              && Accurate(call.args, reply, after.log, call.snapshot)
              && (if reply.success then
                    after.log == call.snapshot && call.args.prevIndex + |call.args.entries| + 1 == |call.snapshot|
                  else Bumped(nd, after))
  {
    hide LogInv, Shape, HistoryOk, LogOk, SentFrom, Position, Accurate, Bumped, HandleAppend;
    RequestParts(n, s, id);
    AppendCases(s.logs, s.nodes[s.appends[id].to], s.appends[id].args, s.appends[id].snapshot);
  }

  lemma DeliverIsDelivered(n: nat, s: Cluster, id: nat)
    requires Shape(n, s) && LogInv(s) && Enabled(s, DeliverAppend(id)) && Safe(s, DeliverAppend(id))
    ensures Delivered(s, Do(s, DeliverAppend(id)), id)
  {
    hide LogInv, Shape, HandleAppend, Accurate, Bumped;
    DeliverCases(n, s, id);
  }

  /** The receiver moved to a later term with its log, or took over the log of the leader of `term`. */
  ghost predicate Moved(logs: map<int, Log>, nd: Node, after: Node, term: int) {
    || Bumped(nd, after)
    || (&& term in logs && after.term == term >= nd.term && after.log <= logs[term] && after.log != []
        && after.role != Leader && (after.role == Candidate ==> nd.role == Candidate && nd.term == term))
  }

  lemma MovedPosition(logs: map<int, Log>, leaderTerm: int, nd: Node, after: Node, term: int, n: int)
    requires leaderTerm in logs && Position(logs[leaderTerm], leaderTerm, nd, n) && LogOk(logs, nd.log, nd.term)
    requires Moved(logs, nd, after, term)
    ensures Position(logs[leaderTerm], leaderTerm, after, n)
  {
    if Bumped(nd, after) {
      PositionBumped(logs, logs[leaderTerm], leaderTerm, nd, after, n);
    }
  }

  lemma MovedNode(s: Cluster, t: Cluster, v: nat, term: int)
    requires v < |s.nodes| == |t.nodes| && t.logs == s.logs && t.leaders == s.leaders
    requires NodeOk(s, v) && HistoryOk(s.logs) && Moved(s.logs, s.nodes[v], t.nodes[v], term)
    requires forall term :: term in s.leaders ==> LeaderOk(s, term)
    ensures NodeOk(t, v)
  {
    if !Bumped(s.nodes[v], t.nodes[v]) {
      assert LogOk(s.logs, s.logs[term], term);
      PrefixLogOk(s.logs, s.logs[term], t.nodes[v].log, term);
    }
    hide LogOk;
  }

  lemma MovedBelief(s: Cluster, t: Cluster, l: nat, f: nat, term: int)
    requires l < |s.nodes| == |t.nodes| && f < |s.nodes| && t.logs == s.logs && s.held <= t.held
    requires BeliefOk(s, l, f) && NodeOk(s, f)
    requires Moved(s.logs, s.nodes[l], t.nodes[l], term) && Moved(s.logs, s.nodes[f], t.nodes[f], term)
    ensures BeliefOk(t, l, f)
  {
    var nd := s.nodes[l];
    if t.nodes[l].role == Leader && nd.term in s.logs && f < |nd.next| && f < |nd.matched| {
      MovedPosition(s.logs, nd.term, s.nodes[f], t.nodes[f], term, nd.next[f]);
      if nd.matched[f] > 0 {
        HeldGrows(s, t, f, nd.term, nd.matched[f]);
      }
    }
    hide Position, LogOk, HeldThrough;
  }

  /** The receiver of a delivered call has moved. */
  lemma DeliveredMoved(n: nat, s: Cluster, t: Cluster, id: nat)
    requires Shape(n, s) && LogInv(s) && ElectionInv(s) && Delivered(s, t, id)
    ensures Moved(s.logs, s.nodes[s.appends[id].to], t.nodes[s.appends[id].to], s.appends[id].args.term)
  {
    hide LogInv, Shape, HistoryOk, LogOk, LogShape, SentFrom, Position, Durable, Accurate, Elected, VoteMemory,
      BallotOk;
    CallParts(n, s, id);
    assert RoleOk(s, s.appends[id].to);
    assert s.appends[id].snapshot != [] by {
      SnapshotNonempty(s.appends[id]);
    }
  }

  lemma SnapshotNonempty(call: AppendCall)
    requires SentFrom(call.args, call.snapshot)
    ensures call.snapshot != []
  {
  }

  /** The delivered call itself. */
  lemma DeliveredOwn(s: Cluster, t: Cluster, id: nat)
    requires Delivered(s, t, id) && Genuine(s, s.appends[id]) && ReceiverOk(s, s.appends[id])
    ensures Genuine(t, t.appends[id]) && ReceiverOk(t, t.appends[id])
  {
    hide SentFrom, Position, Accurate, Bumped;
  }

  /** Another call, perhaps of the same leader to the same server. */
  lemma DeliveredOther(s: Cluster, t: Cluster, call: AppendCall, other: AppendCall)
    requires Genuine(s, call) && Genuine(s, other) && ReceiverOk(s, other) && NodeOk(s, other.to)
    requires |s.nodes| == |t.nodes| && t.logs == s.logs && t.leaders == s.leaders && s.held <= t.held
    requires other.to != call.to ==> t.nodes[other.to] == s.nodes[other.to]
    requires other.to == call.to ==>
               || t.nodes[other.to] == s.nodes[other.to]
               || s.nodes[other.to].term <= t.nodes[other.to].term == call.args.term
    requires Moved(s.logs, s.nodes[other.to], t.nodes[other.to], call.args.term)
    ensures Genuine(t, other) && ReceiverOk(t, other)
  {
    hide SentFrom, LogOk, Position, Accurate;
    if other.reply.None? {
      MovedPosition(
        s.logs, other.args.term, s.nodes[other.to], t.nodes[other.to], call.args.term, other.args.prevIndex + 1);
    }
  }

  /** What stays the same, and that every server has moved. */
  lemma DeliveredParts(n: nat, s: Cluster, t: Cluster, id: nat)
    requires Shape(n, s) && LogInv(s) && ElectionInv(s) && Delivered(s, t, id)
    ensures |s.nodes| == |t.nodes| && t.logs == s.logs && t.leaders == s.leaders && s.held <= t.held
    ensures forall u :: 0 <= u < |s.nodes| ==> Moved(s.logs, s.nodes[u], t.nodes[u], s.appends[id].args.term)
    ensures forall j :: j in t.appends <==> j in s.appends
    ensures forall j :: j in s.appends ==> t.appends[j].from == s.appends[j].from && t.appends[j].to == s.appends[j].to
    ensures forall j :: j in s.appends && j != id ==> t.appends[j] == s.appends[j]
  {
    hide Shape, LogInv, ElectionInv, Accurate;
    DeliveredMoved(n, s, t, id);
  }

  lemma DeliveredReceiver(n: nat, s: Cluster, t: Cluster, id: nat, j: nat)
    requires Shape(n, s) && LogInv(s) && ElectionInv(s) && Delivered(s, t, id) && j in s.appends && j in t.appends
    ensures Genuine(t, t.appends[j]) && ReceiverOk(t, t.appends[j])
  {
    hide Shape, HistoryOk, ElectionInv, NodeOk, BeliefOk, Genuine, ReceiverOk, LeaderOk, NodeShape, Accurate, Moved,
      Bumped;
    CallParts(n, s, id);
    CallParts(n, s, j);
    DeliveredParts(n, s, t, id);
    if j == id {
      DeliveredOwn(s, t, id);
    } else {
      DeliveredOther(s, t, s.appends[id], s.appends[j]);
    }
  }

  lemma DeliverStep(n: nat, s: Cluster, t: Cluster, id: nat)
    requires Shape(n, s) && LogInv(s) && ElectionInv(s) && Delivered(s, t, id)
    ensures LogInv(t)
  {
    hide Shape, ElectionInv, HistoryOk, NodeOk, BeliefOk, ReceiverOk, Genuine, Moved, Delivered;
    DeliveredParts(n, s, t, id);
    var term := s.appends[id].args.term;
    forall v: nat | v < |t.nodes|
      ensures NodeOk(t, v)
    {
      MovedNode(s, t, v, term);
    }
    forall l: nat, f: nat | l < |t.nodes| && f < |t.nodes| && l != f
      ensures BeliefOk(t, l, f)
    {
      MovedBelief(s, t, l, f, term);
    }
    forall j | j in t.appends
      ensures Genuine(t, t.appends[j]) && ReceiverOk(t, t.appends[j])
    {
      DeliveredReceiver(n, s, t, id, j);
    }
    forall leaderTerm | leaderTerm in t.leaders
      ensures LeaderOk(t, leaderTerm)
    {
      assert LeaderOk(s, leaderTerm);
      MovedTerm(s.logs, s.nodes[s.leaders[leaderTerm]], t.nodes[s.leaders[leaderTerm]], term);
    }
  }

  lemma MovedTerm(logs: map<int, Log>, nd: Node, after: Node, term: int)
    requires Moved(logs, nd, after, term)
    ensures after.term >= nd.term
  {
  }
}
