/**
 The remaining steps, and with them that the invariant holds at every moment of
 every led run.
 */
module RaftMatching {
  import opened Options
  import opened RaftState
  import opened RaftCluster
  import opened RaftElection
  import opened RaftLogs
  import opened RaftReplication

  // ---------------------------------------------------------------------
  // The leaders' logs grow

  /** Every leader's log is kept, up to entries of its own term added at the end. */
  ghost predicate LogsGrow(logs: map<int, Log>, after: map<int, Log>) {
    forall term :: term in logs ==>
      && term in after && logs[term] <= after[term]
      && forall i :: |logs[term]| <= i < |after[term]| ==> after[term][i].term == term
  }

  lemma CoherentGrows(logs: map<int, Log>, after: map<int, Log>, log: Log)
    requires LogsGrow(logs, after) && Coherent(logs, log)
    ensures Coherent(after, log)
  {
    forall i | 0 <= i < |log|
      ensures log[i].term in after && log[..i + 1] <= after[log[i].term]
    {
      assert log[..i + 1] <= logs[log[i].term] <= after[log[i].term];
    }
  }

  /** An entry of the leader's term that is not in the leader's log is in no other log either. */
  lemma PositionGrows(logs: map<int, Log>, after: map<int, Log>, term: int, nd: Node, n: int)
    requires LogsGrow(logs, after) && term in logs && Position(logs[term], term, nd, n) && Coherent(logs, nd.log)
    ensures term in after && Position(after[term], term, nd, n)
  {
    var (was, now) := (logs[term], after[term]);
    if nd.term < term {
      assert forall i :: 0 <= i < |was| ==> now[i] == was[i];
    } else if nd.term == term && 0 <= n < |nd.log| && n < |now| && nd.log[..n + 1] == now[..n + 1] {
      PrefixTerms(nd.log, now, n, n);
      assert nd.log[n].term == term ==> nd.log[..n + 1] <= was;
      assert n < |was| && was[..n + 1] == now[..n + 1];
      assert nd.log <= was;
    }
  }

  lemma GenuineGrows(s: Cluster, t: Cluster, call: AppendCall)
    requires LogsGrow(s.logs, t.logs) && Genuine(s, call)
    requires forall term :: term in s.leaders ==> term in t.leaders && t.leaders[term] == s.leaders[term]
    ensures Genuine(t, call)
  {
    hide SentFrom;
    var term := call.args.term;
    assert call.snapshot <= s.logs[term] <= t.logs[term];
    forall i | |call.snapshot| <= i < |t.logs[term]|
      ensures t.logs[term][i].term == term
    {
      if i < |s.logs[term]| {
        assert t.logs[term][i] == s.logs[term][i];
      }
    }
  }

  lemma ReceiverGrows(s: Cluster, t: Cluster, call: AppendCall)
    requires LogsGrow(s.logs, t.logs) && ReceiverOk(s, call) && NodeOk(s, call.to) && s.held <= t.held
    requires |t.nodes| == |s.nodes| && t.nodes[call.to].term == s.nodes[call.to].term
    requires t.nodes[call.to].log == s.nodes[call.to].log
    ensures ReceiverOk(t, call)
  {
    if call.reply.None? {
      PositionGrows(s.logs, t.logs, call.args.term, s.nodes[call.to], call.args.prevIndex + 1);
    }
    assert s.logs[call.args.term] <= t.logs[call.args.term];
    hide Coherent, Accurate, LogsGrow;
  }

  lemma BeliefGrows(s: Cluster, t: Cluster, l: nat, f: nat)
    requires LogsGrow(s.logs, t.logs) && l < |s.nodes| == |t.nodes| && f < |s.nodes| && s.held <= t.held
    requires BeliefOk(s, l, f) && NodeOk(s, f) && NodeOk(s, l) && t.nodes[f].term == s.nodes[f].term
    requires t.nodes[f].log == s.nodes[f].log
    requires t.nodes[l].role == Leader ==> s.nodes[l].role == Leader
    requires t.nodes[l].term == s.nodes[l].term && t.nodes[l].next == s.nodes[l].next
    requires t.nodes[l].matched == s.nodes[l].matched
    ensures BeliefOk(t, l, f)
  {
    var nd := s.nodes[l];
    if t.nodes[l].role == Leader && f < |nd.next| && f < |nd.matched| {
      PositionGrows(s.logs, t.logs, nd.term, s.nodes[f], nd.next[f]);
      if nd.matched[f] > 0 {
        HeldGrows(s, t, f, nd.term, nd.matched[f]);
      }
    }
    hide Coherent, Position, HeldThrough;
  }

  // ---------------------------------------------------------------------
  // A leader takes a command

  lemma CommandGrows(logs: map<int, Log>, term: int, entry: LogEntry)
    requires HistoryOk(logs) && term in logs && entry.term == term
    ensures var after := logs[term := logs[term] + [entry]]; LogsGrow(logs, after) && HistoryOk(after)
  {
    var after := logs[term := logs[term] + [entry]];
    forall u | u in after
      ensures LogOk(after, after[u], u)
    {
      assert LogOk(logs, logs[u], u);
      CoherentGrows(logs, after, logs[u]);
      if u == term {
        LongerLogOk(after, logs[u], entry);
      }
    }
  }

  lemma LongerLogOk(logs: map<int, Log>, log: Log, entry: LogEntry)
    requires LogOk(logs, log, entry.term) && entry.term in logs && logs[entry.term] == log + [entry]
    ensures LogOk(logs, log + [entry], entry.term)
  {
    var longer := log + [entry];
    forall i | 0 <= i < |longer|
      ensures longer[i].term in logs && longer[..i + 1] <= logs[longer[i].term]
    {
      if i < |log| {
        assert longer[..i + 1] == log[..i + 1] && longer[i] == log[i];
      } else {
        assert longer[..i + 1] == longer;
      }
    }
  }

  lemma GrownLogOk(logs: map<int, Log>, after: map<int, Log>, log: Log, bound: int)
    requires LogsGrow(logs, after) && LogOk(logs, log, bound)
    ensures LogOk(after, log, bound)
  {
    CoherentGrows(logs, after, log);
  }

  lemma CommandNode(s: Cluster, t: Cluster, v: nat, u: nat, entry: LogEntry)
    requires v < |s.nodes| == |t.nodes| && u < |s.nodes| && s.nodes[v].role == Leader && entry.term == s.nodes[v].term
    requires NodeOk(s, u) && NodeOk(s, v) && RoleOk(s, u) && RoleOk(s, v)
    requires t.leaders == s.leaders && t.logs == s.logs[entry.term := s.logs[entry.term] + [entry]]
    requires LogsGrow(s.logs, t.logs) && HistoryOk(t.logs)
    requires if u == v then t.nodes[u].log == s.nodes[u].log + [entry] else t.nodes[u].log == s.nodes[u].log
    requires t.nodes[u].term == s.nodes[u].term && t.nodes[u].role == s.nodes[u].role
    ensures NodeOk(t, u)
  {
    if u == v {
      assert LogOk(t.logs, t.logs[entry.term], entry.term);
    } else {
      GrownLogOk(s.logs, t.logs, s.nodes[u].log, s.nodes[u].term);
    }
    hide LogOk, HistoryOk, LogsGrow, Counted;
  }

  /** Everybody else sees a leader's log grow, and that leader's own log is nobody's follower log of its term. */
  lemma CommandBelief(s: Cluster, t: Cluster, v: nat, l: nat, f: nat, entry: LogEntry)
    requires v < |s.nodes| == |t.nodes| && l < |s.nodes| && f < |s.nodes| && l != f && s.nodes[v].role == Leader
    requires entry.term == s.nodes[v].term && NodeOk(s, v) && NodeOk(s, l) && NodeOk(s, f) && RoleOk(s, v)
    requires RoleOk(s, l)
    requires BeliefOk(s, l, f) && LogsGrow(s.logs, t.logs) && t.held == s.held
    requires t.nodes == s.nodes[v := t.nodes[v]]
    requires t.nodes[v] == s.nodes[v].(log := t.nodes[v].log, saved := t.nodes[v].saved)
    ensures BeliefOk(t, l, f)
  {
    hide LogOk, Counted;
    if f != v {
      assert Coherent(s.logs, s.nodes[f].log) by {
        LogOkCoherent(s.logs, s.nodes[f].log, s.nodes[f].term);
      }
      BeliefGrows(s, t, l, f);
    } else {
      OwnLogPosition(s, t, l, f);
    }
  }

  lemma LogOkCoherent(logs: map<int, Log>, log: Log, bound: int)
    requires LogOk(logs, log, bound)
    ensures Coherent(logs, log) && log != []
  {
  }

  /** A leader's position towards another leader does not depend on that leader's new entries. */
  lemma OwnLogPosition(s: Cluster, t: Cluster, l: nat, f: nat)
    requires l < |s.nodes| == |t.nodes| && f < |s.nodes| && l != f && t.nodes[l] == s.nodes[l]
    requires s.nodes[f].role == Leader && RoleOk(s, l) && RoleOk(s, f) && NodeOk(s, l)
    requires BeliefOk(s, l, f) && LogsGrow(s.logs, t.logs) && t.held == s.held
    requires t.nodes[f].term == s.nodes[f].term
    ensures BeliefOk(t, l, f)
  {
    hide LogOk, Counted, HeldThrough;
    var nd := s.nodes[l];
    if nd.role == Leader && f < |nd.next| && f < |nd.matched| {
      assert nd.term != s.nodes[f].term;
      BeyondGrows(s.logs, t.logs, nd.term, nd.next[f]);
      if nd.matched[f] > 0 {
        HeldGrows(s, t, f, nd.term, nd.matched[f]);
      }
    }
  }

  lemma BeyondGrows(logs: map<int, Log>, after: map<int, Log>, term: int, n: int)
    requires LogsGrow(logs, after) && term in logs
    ensures term in after && (Beyond(logs[term], term, n) ==> Beyond(after[term], term, n))
  {
    assert forall i :: 0 <= i < |logs[term]| ==> after[term][i] == logs[term][i];
  }

  /** A message to a server that leads another term does not depend on that server's new entries. */
  lemma OwnLogReceiver(s: Cluster, t: Cluster, call: AppendCall)
    requires ReceiverOk(s, call) && Genuine(s, call) && call.from != call.to && |t.nodes| == |s.nodes|
    requires s.nodes[call.to].role == Leader && RoleOk(s, call.to)
    requires LogsGrow(s.logs, t.logs) && t.held == s.held && t.nodes[call.to].term == s.nodes[call.to].term
    ensures ReceiverOk(t, call)
  {
    hide SentFrom, Counted, Accurate, Positioned;
    assert s.nodes[call.to].term != call.args.term;
    BeyondGrows(s.logs, t.logs, call.args.term, call.args.prevIndex + 1);
  }

  /** What a command does at leader `v`. */
  ghost predicate Commanded(s: Cluster, t: Cluster, v: nat, entry: LogEntry) {
    && v < |s.nodes| == |t.nodes| && s.nodes[v].role == Leader && entry.term == s.nodes[v].term
    && t.nodes == s.nodes[v := t.nodes[v]]
    && t.nodes[v].log == s.nodes[v].log + [entry]
    && t.nodes[v] == s.nodes[v].(log := t.nodes[v].log, saved := t.nodes[v].saved)
    && t.leaders == s.leaders && t.held == s.held && t.appends == s.appends
    && t.logs == s.logs[entry.term := t.nodes[v].log]
  }

  lemma CommandLogs(s: Cluster, t: Cluster, v: nat, entry: LogEntry)
    requires Commanded(s, t, v, entry) && NodeOk(s, v) && HistoryOk(s.logs)
    ensures entry.term in s.logs && t.logs == s.logs[entry.term := s.logs[entry.term] + [entry]]
    ensures LogsGrow(s.logs, t.logs) && HistoryOk(t.logs)
  {
    hide LogOk, HistoryOk, LogsGrow;
    CommandGrows(s.logs, entry.term, entry);
  }

  lemma CommandCall(n: nat, s: Cluster, t: Cluster, v: nat, entry: LogEntry, id: nat)
    requires Shape(n, s) && LogInv(s) && Commanded(s, t, v, entry) && RoleOk(s, v) && LogsGrow(s.logs, t.logs)
    requires id in t.appends
    ensures Genuine(t, t.appends[id]) && ReceiverOk(t, t.appends[id])
  {
    hide LogInv, Shape, Genuine, ReceiverOk, NodeOk, NodeShape, RoleOk, LogsGrow, HistoryOk;
    CallParts(n, s, id);
    GenuineGrows(s, t, s.appends[id]);
    if s.appends[id].to == v {
      OwnLogReceiver(s, t, s.appends[id]);
    } else {
      ReceiverGrows(s, t, s.appends[id]);
    }
  }

  lemma CommandStep(n: nat, s: Cluster, t: Cluster, v: nat, entry: LogEntry)
    requires Shape(n, s) && LogInv(s) && ElectionInv(s) && Commanded(s, t, v, entry)
    ensures LogInv(t)
  {
    hide Shape, HistoryOk, NodeOk, RoleOk, VoteMemory, BallotOk, Elected, BeliefOk, Genuine, ReceiverOk, LogsGrow;
    assert RoleOk(s, v);
    CommandLogs(s, t, v, entry);
    forall u: nat | u < |t.nodes|
      ensures NodeOk(t, u)
    {
      CommandNode(s, t, v, u, entry);
    }
    forall l: nat, f: nat | l < |t.nodes| && f < |t.nodes| && l != f
      ensures BeliefOk(t, l, f)
    {
      CommandBelief(s, t, v, l, f, entry);
    }
    forall id | id in t.appends
      ensures Genuine(t, t.appends[id]) && ReceiverOk(t, t.appends[id])
    {
      CommandCall(n, s, t, v, entry, id);
    }
    forall term | term in t.leaders
      ensures LeaderOk(t, term)
    {
      assert LeaderOk(s, term);
    }
  }

  // ---------------------------------------------------------------------
  // A candidate wins

  /** What winning an election does to the cluster, beside the ballots. */
  ghost predicate Won(s: Cluster, t: Cluster, v: nat) {
    && v < |s.nodes| == |t.nodes| && s.nodes[v].role == Candidate && t.nodes[v].role == Leader
    && t.nodes == s.nodes[v := t.nodes[v]]
    && t.nodes[v].term == s.nodes[v].term && t.nodes[v].log == s.nodes[v].log
    && (forall f :: 0 <= f < |t.nodes[v].next| ==> t.nodes[v].next[f] == |t.nodes[v].log| + 1)
    && (forall f :: 0 <= f < |t.nodes[v].matched| ==> t.nodes[v].matched[f] == 0)
    && t.leaders == s.leaders[t.nodes[v].term := v] && t.logs == s.logs[t.nodes[v].term := t.nodes[v].log]
    && t.held == s.held && t.appends == s.appends
  }

  /** The term of a winner is new. */
  lemma WinnerTermIsNew(n: nat, s: Cluster, t: Cluster, v: nat)
    requires Shape(n, s) && LogInv(s) && Won(s, t, v)
    requires t.nodes[v].term in s.leaders ==> s.leaders[t.nodes[v].term] == v
    ensures t.nodes[v].term >= 1 && t.nodes[v].term !in s.leaders && t.nodes[v].term !in s.logs
    ensures LogsGrow(s.logs, t.logs) && HistoryOk(t.logs)
  {
    hide BeliefOk, Genuine, ReceiverOk, Durable, Coherent;
    assert NodeShape(n, v, s.nodes[v]) && NodeOk(s, v);
    var term := t.nodes[v].term;
    assert LogsGrow(s.logs, t.logs);
    forall u | u in t.logs
      ensures LogOk(t.logs, t.logs[u], u)
    {
      if u == term {
        GrownLogOk(s.logs, t.logs, s.nodes[v].log, term);
      } else {
        assert LogOk(s.logs, s.logs[u], u);
        GrownLogOk(s.logs, t.logs, s.logs[u], u);
      }
    }
  }

  lemma WonNode(s: Cluster, t: Cluster, v: nat, u: nat)
    requires Won(s, t, v) && u < |s.nodes| && NodeOk(s, u) && LogsGrow(s.logs, t.logs) && t.nodes[v].term !in s.logs
    requires t.nodes[v].term !in s.leaders
    ensures NodeOk(t, u)
  {
    hide LogOk, LogsGrow;
    GrownLogOk(s.logs, t.logs, s.nodes[u].log, s.nodes[u].term);
  }

  lemma WonBelief(s: Cluster, t: Cluster, v: nat, l: nat, f: nat)
    requires Won(s, t, v) && l < |s.nodes| && f < |s.nodes| && l != f && BeliefOk(s, l, f) && NodeOk(s, f)
    requires NodeOk(s, l)
    requires LogsGrow(s.logs, t.logs) && t.nodes[v].term !in s.logs
    ensures BeliefOk(t, l, f)
  {
    hide LogOk, LogsGrow, HeldThrough;
    if l != v {
      BeliefGrows(s, t, l, f);
    }
  }

  lemma WonCall(n: nat, s: Cluster, t: Cluster, v: nat, id: nat)
    requires Shape(n, s) && LogInv(s) && Won(s, t, v) && LogsGrow(s.logs, t.logs) && id in t.appends
    requires t.nodes[v].term !in s.leaders
    ensures Genuine(t, t.appends[id]) && ReceiverOk(t, t.appends[id])
  {
    hide LogInv, Shape, Genuine, ReceiverOk, NodeOk, NodeShape, LogsGrow, HistoryOk;
    CallParts(n, s, id);
    GenuineGrows(s, t, s.appends[id]);
    ReceiverGrows(s, t, s.appends[id]);
  }

  lemma WinStep(n: nat, s: Cluster, t: Cluster, v: nat)
    requires Shape(n, s) && LogInv(s) && Won(s, t, v)
    requires t.nodes[v].term in s.leaders ==> s.leaders[t.nodes[v].term] == v
    ensures LogInv(t)
  {
    hide Shape, HistoryOk, NodeOk, BeliefOk, Genuine, ReceiverOk, LogsGrow;
    WinnerTermIsNew(n, s, t, v);
    forall u: nat | u < |t.nodes|
      ensures NodeOk(t, u)
    {
      WonNode(s, t, v, u);
    }
    forall l: nat, f: nat | l < |t.nodes| && f < |t.nodes| && l != f
      ensures BeliefOk(t, l, f)
    {
      WonBelief(s, t, v, l, f);
    }
    forall id | id in t.appends
      ensures Genuine(t, t.appends[id]) && ReceiverOk(t, t.appends[id])
    {
      WonCall(n, s, t, v, id);
    }
    forall term | term in t.leaders
      ensures LeaderOk(t, term)
    {
      assert term in s.leaders ==> LeaderOk(s, term);
    }
  }

  // ---------------------------------------------------------------------
  // A leader sends

  lemma SentIsGenuine(n: nat, s: Cluster, from: nat, to: nat, isHeartbeat: bool)
    requires from < |s.nodes| && to < |s.nodes| && from != to && NodeShape(n, from, s.nodes[from]) && to < n
    requires s.nodes[from].role == Leader && NodeOk(s, from) && RoleOk(s, from) && BeliefOk(s, from, to)
    ensures var call := AppendCall(from, to, BuildAppend(s.nodes[from], to, isHeartbeat), s.nodes[from].log, None);
            Genuine(s, call) && ReceiverOk(s, call)
  {
    hide Position, LogOk, Counted, Durable, HeldThrough;
  }

  lemma SendStep(n: nat, s: Cluster, a: Action)
    requires Shape(n, s) && LogInv(s) && ElectionInv(s) && a.SendAppend? && Enabled(s, a) && Safe(s, a)
    requires LeaderSends(s, a)
    ensures LogInv(Do(s, a))
  {
    hide HistoryOk, NodeOk, RoleOk, VoteMemory, BallotOk, Elected, BeliefOk, Genuine, ReceiverOk, NodeShape,
      CallShape, BuildAppend;
    var t := Do(s, a);
    var call := AppendCall(a.from, a.to, BuildAppend(s.nodes[a.from], a.to, a.isHeartbeat), s.nodes[a.from].log, None);
    assert t == s.(appends := s.appends[a.id := call]);
    SentIsGenuine(n, s, a.from, a.to, a.isHeartbeat);
    OnlyAppendsDiffer(s, t);
    forall id | id in t.appends
      ensures Genuine(t, t.appends[id]) && ReceiverOk(t, t.appends[id])
    {
      SameCall(s, t, t.appends[id]);
    }
  }

  lemma OnlyAppendsDiffer(s: Cluster, t: Cluster)
    requires LogInv(s) && t == s.(appends := t.appends)
    ensures forall v: nat :: v < |t.nodes| ==> NodeOk(t, v)
    ensures forall l: nat, f: nat :: l < |t.nodes| && f < |t.nodes| && l != f ==> BeliefOk(t, l, f)
    ensures forall term :: term in t.leaders ==> LeaderOk(t, term)
  {
    hide HistoryOk, Genuine, ReceiverOk, Position, LogOk;
    forall v: nat | v < |t.nodes|
      ensures NodeOk(t, v)
    {
      assert NodeOk(s, v);
    }
    forall l: nat, f: nat | l < |t.nodes| && f < |t.nodes| && l != f
      ensures BeliefOk(t, l, f)
    {
      assert BeliefOk(s, l, f);
      SameBelief(s, t, l, f);
    }
    forall term | term in t.leaders
      ensures LeaderOk(t, term)
    {
      assert LeaderOk(s, term);
    }
  }

  lemma SameBelief(s: Cluster, t: Cluster, l: nat, f: nat)
    requires t == s.(appends := t.appends) && l < |s.nodes| && f < |s.nodes| && BeliefOk(s, l, f)
    ensures BeliefOk(t, l, f)
  {
    hide Position;
  }

  lemma SameCall(s: Cluster, t: Cluster, call: AppendCall)
    requires t == s.(appends := t.appends) && Genuine(s, call) && ReceiverOk(s, call)
    ensures Genuine(t, call) && ReceiverOk(t, call)
  {
    hide Position, Accurate, SentFrom;
  }

  // ---------------------------------------------------------------------
  // A leader gets a reply

  /** What a reply does at `nd` for `server`: a later term, or new beliefs about that server. */
  lemma ReplyCases(nd: Node, server: nat, args: AppendArgs, reply: AppendReply)
    requires nd.peers <= |nd.matched| && 0 <= nd.commit && nd.log != []
    requires server < |nd.next| && server < |nd.matched|
    ensures var after := HandleAppendReply(nd, server, args, reply);
            || Bumped(nd, after)
            || (&& nd.role == Leader && args.term == nd.term
                && (var next := if reply.success then args.prevIndex + |args.entries| + 1 else BackedUp(nd.log, reply);
                    var matched := if reply.success then args.prevIndex + |args.entries| else nd.matched[server];
                    after == nd.(next := nd.next[server := next], matched := nd.matched[server := matched],
                      commit := after.commit)))
  {
  }

  /** New beliefs of leader `l` about `f`, from a reply of `f`. */
  ghost predicate Learned(s: Cluster, t: Cluster, id: nat) {
    && id in s.appends && s.appends[id].reply.Some? && |t.nodes| == |s.nodes|
    && t.logs == s.logs && t.leaders == s.leaders && t.held == s.held && t.appends == s.appends - {id}
    && var (call, reply) := (s.appends[id], s.appends[id].reply.value);
       var (l, f) := (call.from, call.to);
       && l < |s.nodes| && f < |s.nodes| && l != f && t.nodes == s.nodes[l := t.nodes[l]]
       && var (nd, after) := (s.nodes[l], t.nodes[l]);
          && nd.role == Leader && call.args.term == nd.term && f < |nd.next| && f < |nd.matched|
          && (var sent := call.args.prevIndex + |call.args.entries|;
              var next := if reply.success then sent + 1 else BackedUp(nd.log, reply);
              var matched := if reply.success then sent else nd.matched[f];
              after == nd.(next := nd.next[f := next], matched := nd.matched[f := matched], commit := after.commit))
  }

  lemma LearnedPosition(s: Cluster, call: AppendCall, reply: AppendReply, next: int)
    requires Genuine(s, call) && ReceiverOk(s, call) && call.reply == Some(reply) && HistoryOk(s.logs)
    requires NodeOk(s, call.to)
    requires next == if reply.success then |call.snapshot| else BackedUp(s.logs[call.args.term], reply)
    ensures Position(s.logs[call.args.term], call.args.term, s.nodes[call.to], next)
  {
    var (nd, term) := (s.nodes[call.to], call.args.term);
    if nd.term == term && !reply.success && !(nd.log <= s.logs[term]) {
      BackedUpIsPositioned(s.logs, term, nd.log, call.snapshot, call.args, reply);
    }
  }

  lemma LearnedHolding(s: Cluster, call: AppendCall, reply: AppendReply)
    requires Genuine(s, call) && ReceiverOk(s, call) && call.reply == Some(reply) && reply.success
    ensures HeldThrough(s, call.to, call.args.term, |call.snapshot| - 1)
  {
    hide SentFrom, Accurate;
    var h := Holding(call.to, call.args.term, call.snapshot);
    assert h in s.held;
  }

  lemma LearnedAbout(n: nat, s: Cluster, t: Cluster, id: nat)
    requires Shape(n, s) && LogInv(s) && Learned(s, t, id)
    ensures BeliefOk(t, s.appends[id].from, s.appends[id].to)
  {
    hide Shape, HistoryOk, Genuine, ReceiverOk, NodeShape, Position, HeldThrough, BackedUp, LeaderOk, LogOk;
    CallParts(n, s, id);
    var (call, reply) := (s.appends[id], s.appends[id].reply.value);
    var (l, f) := (call.from, call.to);
    assert BeliefOk(s, l, f);
    SuccessLength(s, call, reply);
    LearnedPosition(s, call, reply, t.nodes[l].next[f]);
    if reply.success {
      LearnedHolding(s, call, reply);
      HeldGrows(s, t, f, call.args.term, |call.snapshot| - 1);
    } else if s.nodes[l].matched[f] > 0 {
      HeldGrows(s, t, f, call.args.term, s.nodes[l].matched[f]);
    }
  }

  lemma SuccessLength(s: Cluster, call: AppendCall, reply: AppendReply)
    requires ReceiverOk(s, call) && call.reply == Some(reply)
    ensures reply.success ==> call.args.prevIndex + |call.args.entries| + 1 == |call.snapshot|
    ensures call.args.term in s.logs
  {
    hide Accurate;
  }

  lemma LearnedBelief(n: nat, s: Cluster, t: Cluster, id: nat, l: nat, f: nat)
    requires Shape(n, s) && LogInv(s) && Learned(s, t, id) && l < |t.nodes| && f < |t.nodes| && l != f
    ensures BeliefOk(t, l, f)
  {
    hide Shape, HistoryOk, Genuine, ReceiverOk, LeaderOk, NodeOk;
    if l == s.appends[id].from && f == s.appends[id].to {
      LearnedAbout(n, s, t, id);
    } else {
      assert BeliefOk(s, l, f);
      hide Position, HeldThrough, LogInv;
      OtherBelief(s, t, l, f);
    }
  }

  lemma OtherBelief(s: Cluster, t: Cluster, l: nat, f: nat)
    requires l < |s.nodes| == |t.nodes| && f < |s.nodes| && BeliefOk(s, l, f) && t.logs == s.logs && t.held == s.held
    requires t.nodes[f].term == s.nodes[f].term && t.nodes[f].log == s.nodes[f].log
    requires t.nodes[l].term == s.nodes[l].term && t.nodes[l].role == s.nodes[l].role
    requires |t.nodes[l].next| == |s.nodes[l].next| && |t.nodes[l].matched| == |s.nodes[l].matched|
    requires f < |t.nodes[l].next| ==> t.nodes[l].next[f] == s.nodes[l].next[f]
    requires f < |t.nodes[l].matched| ==> t.nodes[l].matched[f] == s.nodes[l].matched[f]
    ensures BeliefOk(t, l, f)
  {
    var nd := s.nodes[l];
    if nd.role == Leader && nd.term in s.logs && f < |nd.next| && f < |nd.matched| && nd.matched[f] > 0 {
      HeldGrows(s, t, f, nd.term, nd.matched[f]);
    }
    hide HeldThrough, Positioned;
  }

  lemma LearnedCall(n: nat, s: Cluster, t: Cluster, id: nat, j: nat)
    requires Shape(n, s) && LogInv(s) && Learned(s, t, id) && j in t.appends
    ensures Genuine(t, t.appends[j]) && ReceiverOk(t, t.appends[j])
  {
    hide Shape, LogInv, HistoryOk, NodeOk, NodeShape, Accurate, Position, SentFrom;
    CallParts(n, s, j);
    assert t.nodes[s.appends[j].to].term == s.nodes[s.appends[j].to].term;
    assert t.nodes[s.appends[j].to].log == s.nodes[s.appends[j].to].log;
    SameReceiver(s, t, s.appends[j]);
  }

  lemma SameReceiver(s: Cluster, t: Cluster, call: AppendCall)
    requires ReceiverOk(s, call) && |t.nodes| == |s.nodes| && t.logs == s.logs && t.held == s.held
    requires t.nodes[call.to].term == s.nodes[call.to].term && t.nodes[call.to].log == s.nodes[call.to].log
    ensures ReceiverOk(t, call)
  {
    hide Accurate, Positioned;
  }

  lemma LearnedStep(n: nat, s: Cluster, t: Cluster, id: nat)
    requires Shape(n, s) && LogInv(s) && Learned(s, t, id)
    ensures LogInv(t)
  {
    hide Shape, HistoryOk, BeliefOk, Genuine, ReceiverOk, LogOk;
    forall u: nat | u < |t.nodes|
      ensures NodeOk(t, u)
    {
      assert NodeOk(s, u);
    }
    forall l: nat, f: nat | l < |t.nodes| && f < |t.nodes| && l != f
      ensures BeliefOk(t, l, f)
    {
      LearnedBelief(n, s, t, id, l, f);
    }
    forall j | j in t.appends
      ensures Genuine(t, t.appends[j]) && ReceiverOk(t, t.appends[j])
    {
      LearnedCall(n, s, t, id, j);
    }
    forall term | term in t.leaders
      ensures LeaderOk(t, term)
    {
      assert LeaderOk(s, term);
    }
  }

  // ---------------------------------------------------------------------
  // Every step of a led run

  lemma VoteIsBump(nd: Node, args: VoteArgs)
    ensures Bumped(nd, Elect(nd)) && Bumped(nd, HandleVote(nd, args).0)
  {
  }

  lemma MadeIsBump(n: nat, v: nat, nd: Node)
    requires NodeShape(n, v, nd)
    ensures Bumped(nd, Made(v, nd.peers, nd.saved))
  {
  }

  lemma VoteReplyIsBumpOrWin(nd: Node, args: VoteArgs, reply: VoteReply)
    ensures var after := HandleVoteReply(nd, args, reply);
            || (Bumped(nd, after) && !(after.role == Leader && nd.role != Leader))
            || (&& nd.role == Candidate && after.role == Leader && after.term == nd.term && after.log == nd.log
                && (forall f :: 0 <= f < |after.next| ==> after.next[f] == |after.log| + 1)
                && (forall f :: 0 <= f < |after.matched| ==> after.matched[f] == 0))
  {
  }

  lemma ReturnVoteLog(n: nat, s: Cluster, k: VoteKey)
    requires Shape(n, s) && LogInv(s) && ElectionInv(s) && Enabled(s, ReturnVote(k))
    ensures LogInv(Do(s, ReturnVote(k)))
  {
    var t := Do(s, ReturnVote(k));
    var v := k.candidate;
    VoteReplyIsBumpOrWin(s.nodes[v], s.ballots[k].args, s.ballots[k].reply.value);
    if Bumped(s.nodes[v], t.nodes[v]) && !(t.nodes[v].role == Leader && s.nodes[v].role != Leader) {
      hide LogInv, Shape, ElectionInv, Bumped, HandleVoteReply;
      BumpedStep(s, t, v);
    } else {
      hide LogInv, Shape, ElectionInv, HandleVoteReply, Quiet;
      assert Won(s, t, v);
      WonIsNotQuiet(s.nodes[v], t.nodes[v]);
      CountVoteNode(s, t, k);
      WinStep(n, s, t, v);
    }
  }

  lemma WonIsNotQuiet(nd: Node, after: Node)
    requires nd.role == Candidate && after.role == Leader
    ensures !Quiet(nd, after)
  {
  }

  lemma ReturnAppendLog(n: nat, s: Cluster, id: nat)
    requires Shape(n, s) && LogInv(s) && Enabled(s, ReturnAppend(id)) && Safe(s, ReturnAppend(id))
    ensures LogInv(Do(s, ReturnAppend(id)))
  {
    hide LogInv, Shape, Bumped, HandleAppendReply, NodeOk, NodeShape, Genuine, ReceiverOk, HistoryOk, BackedUp;
    var t := Do(s, ReturnAppend(id));
    CallParts(n, s, id);
    var call := s.appends[id];
    ReplyCases(s.nodes[call.from], call.to, call.args, call.reply.value);
    if Bumped(s.nodes[call.from], t.nodes[call.from]) {
      BumpedStep(s, t, call.from);
    } else {
      assert Learned(s, t, id);
      LearnedStep(n, s, t, id);
    }
  }

  lemma SubmitIsCommanded(s: Cluster, v: nat, command: Command)
    requires Enabled(s, ClientCommand(v, command)) && s.nodes[v].role == Leader
    ensures Commanded(s, Do(s, ClientCommand(v, command)), v, LogEntry(s.nodes[v].term, command))
  {
  }

  lemma ClientCommandLog(n: nat, s: Cluster, v: nat, command: Command)
    requires Shape(n, s) && LogInv(s) && ElectionInv(s) && Enabled(s, ClientCommand(v, command))
    ensures LogInv(Do(s, ClientCommand(v, command)))
  {
    hide LogInv, Shape, ElectionInv, Commanded;
    var t := Do(s, ClientCommand(v, command));
    if s.nodes[v].role == Leader {
      SubmitIsCommanded(s, v, command);
      CommandStep(n, s, t, v, LogEntry(s.nodes[v].term, command));
    } else {
      BumpedStep(s, t, v);
    }
  }

  lemma TimeoutLog(s: Cluster, v: nat)
    requires LogInv(s) && Enabled(s, Timeout(v))
    ensures LogInv(Do(s, Timeout(v)))
  {
    hide LogInv, Bumped, HandleVote, Elect;
    VoteIsBump(s.nodes[v], VoteArgsOf(s.nodes[v]));
    BumpedStep(s, Do(s, Timeout(v)), v);
  }

  lemma DeliverVoteLog(s: Cluster, k: VoteKey)
    requires LogInv(s) && Enabled(s, DeliverVote(k))
    ensures LogInv(Do(s, DeliverVote(k)))
  {
    hide LogInv, Bumped, HandleVote, Elect;
    VoteIsBump(s.nodes[k.peer], s.ballots[k].args);
    BumpedStep(s, Do(s, DeliverVote(k)), k.peer);
  }

  lemma RestartLog(n: nat, s: Cluster, v: nat)
    requires Shape(n, s) && LogInv(s) && Enabled(s, Restart(v))
    ensures LogInv(Do(s, Restart(v)))
  {
    assert NodeShape(n, v, s.nodes[v]);
    hide LogInv, Shape, NodeShape, Bumped, Made;
    MadeIsBump(n, v, s.nodes[v]);
    BumpedStep(s, Do(s, Restart(v)), v);
  }

  lemma LoseLog(s: Cluster, a: Action)
    requires LogInv(s) && Enabled(s, a) && (a.LoseVote? || a.LoseAppend?)
    ensures LogInv(Do(s, a))
  {
    hide LogInv;
    LostLog(s, Do(s, a));
  }

  lemma DeliverAppendLog(n: nat, s: Cluster, id: nat)
    requires Shape(n, s) && ElectionInv(s) && LogInv(s) && Enabled(s, DeliverAppend(id)) && Safe(s, DeliverAppend(id))
    ensures LogInv(Do(s, DeliverAppend(id)))
  {
    hide Shape, ElectionInv, LogInv, Do, Delivered;
    DeliverIsDelivered(n, s, id);
    DeliverStep(n, s, Do(s, DeliverAppend(id)), id);
  }

  lemma NextLog(n: nat, s: Cluster, a: Action)
    requires Shape(n, s) && ElectionInv(s) && LogInv(s) && Enabled(s, a) && Safe(s, a) && LeaderSends(s, a)
    ensures LogInv(Do(s, a))
  {
    hide *;
    match a
    case Timeout(v) => TimeoutLog(s, v);
    case DeliverVote(k) => DeliverVoteLog(s, k);
    case ReturnVote(k) => ReturnVoteLog(n, s, k);
    case LoseVote(_) => LoseLog(s, a);
    case SendAppend(_, _, _, _) => SendStep(n, s, a);
    case DeliverAppend(id) => DeliverAppendLog(n, s, id);
    case ReturnAppend(id) => ReturnAppendLog(n, s, id);
    case LoseAppend(_) => LoseLog(s, a);
    case ClientCommand(v, command) => ClientCommandLog(n, s, v, command);
    case Restart(v) => RestartLog(n, s, v);
  }

  lemma LostLog(s: Cluster, t: Cluster)
    requires LogInv(s) && t.nodes == s.nodes && t.logs == s.logs && t.leaders == s.leaders && t.held == s.held
    requires forall id :: id in t.appends ==> id in s.appends && t.appends[id] == s.appends[id]
    ensures LogInv(t)
  {
    assert forall u :: 0 <= u < |s.nodes| ==> Bumped(s.nodes[u], t.nodes[u]);
    hide LogInv, Bumped;
    BumpedCluster(s, t);
  }

  lemma InitLog(n: nat, s: Cluster)
    requires Init(n, s)
    ensures LogInv(s)
  {
  }

  lemma LedStep(n: nat, run: seq<Cluster>, actions: seq<Action>, i: nat)
    requires LedRun(n, run, actions) && i < |actions|
    ensures |run| == |actions| + 1 && Next(run[i], actions[i], run[i + 1]) && LeaderSends(run[i], actions[i])
  {
    hide Next, LeaderSends, Init;
    RunStep(n, run, actions, i);
  }

  lemma {:induction false} EveryLog(n: nat, run: seq<Cluster>, actions: seq<Action>, i: nat)
    requires LedRun(n, run, actions) && i < |run|
    ensures Shape(n, run[i]) && ElectionInv(run[i]) && LogInv(run[i])
  {
    hide Shape, ElectionInv, LogInv, Enabled, Safe, Do, LeaderSends, StepAt;
    EveryState(n, run, actions, i);
    if i == 0 {
      InitLog(n, run[0]);
    } else {
      LedStep(n, run, actions, i - 1);
      EveryLog(n, run, actions, i - 1);
      NextLog(n, run[i - 1], actions[i - 1]);
    }
  }
}
