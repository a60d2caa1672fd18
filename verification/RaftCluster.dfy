/**
 A cluster of Raft servers over a network that loses, delays and reorders
 messages, with servers that crash and restart from their persisters.  Every
 locked section of the code is one step.  A call is answered at most once: it
 leaves its map when the caller gets the reply or when it is lost.
 */
module RaftCluster {
  import opened Options
  import opened RaftState

  /** The RequestVote call of `candidate` to `peer` in an election. */
  datatype VoteKey = VoteKey(candidate: nat, term: int, peer: nat)
  datatype VoteCall = VoteCall(args: VoteArgs, reply: Option<VoteReply>)

  /** An AppendEntries call; `snapshot` records the sender's log when the arguments were built. */
  datatype AppendCall = AppendCall(from: nat, to: nat, args: AppendArgs, snapshot: Log, reply: Option<AppendReply>)

  /** `server` stored `log` on a message of a leader of `term`. */
  datatype Holding = Holding(server: nat, term: int, log: Log)

  /**
   Beside the servers and the calls in flight the state carries its past: the
   votes cast per server and term, who became leader in which term, the log of
   the leader of each term, and what servers stored on a leader's message.
   */
  datatype Cluster = Cluster(
    nodes: seq<Node>, ballots: map<VoteKey, VoteCall>, appends: map<nat, AppendCall>,
    cast: map<(nat, int), nat>, leaders: map<int, nat>, logs: map<int, Log>, held: set<Holding>)

  datatype Action =
    | Timeout(server: nat)
    | DeliverVote(key: VoteKey)
    | ReturnVote(key: VoteKey)
    | LoseVote(key: VoteKey)
    | SendAppend(from: nat, to: nat, id: nat, isHeartbeat: bool)
    | DeliverAppend(id: nat)
    | ReturnAppend(id: nat)
    | LoseAppend(id: nat)
    | ClientCommand(server: nat, command: Command)
    | Restart(server: nat)

  ghost predicate Init(n: nat, s: Cluster) {
    && |s.nodes| == n && (forall v :: 0 <= v < n ==> s.nodes[v] == Made(v, n, Nothing))
    && s == Cluster(s.nodes, map[], map[], map[], map[], map[0 := [SENTINEL]], {})
  }

  ghost predicate Enabled(s: Cluster, a: Action) {
    match a
    case Timeout(v) => v < |s.nodes| && s.nodes[v].role != Leader
    case DeliverVote(k) => k in s.ballots && s.ballots[k].reply.None? && k.peer < |s.nodes|
    case ReturnVote(k) => k in s.ballots && s.ballots[k].reply.Some? && k.candidate < |s.nodes|
    case LoseVote(k) => k in s.ballots
    case SendAppend(from, to, id, _) => from < |s.nodes| && to < |s.nodes| && from != to && id !in s.appends
    case DeliverAppend(id) => id in s.appends && s.appends[id].reply.None? && s.appends[id].to < |s.nodes|
    case ReturnAppend(id) => id in s.appends && s.appends[id].reply.Some? && s.appends[id].from < |s.nodes|
    case LoseAppend(id) => id in s.appends
    case ClientCommand(v, _) => v < |s.nodes|
    case Restart(v) => v < |s.nodes|
  }

  /** The indices the step uses are in range: the step does not panic. */
  ghost predicate Safe(s: Cluster, a: Action)
    requires Enabled(s, a)
  {
    match a
    case SendAppend(from, to, id, _) => to < |s.nodes[from].next| && s.nodes[from].next[to] >= 0
    case DeliverAppend(id) => s.nodes[s.appends[id].to].log != [] && s.appends[id].args.prevIndex >= -1
    case ReturnAppend(id) =>
      var nd := s.nodes[s.appends[id].from];
      && nd.peers <= |nd.matched| && 0 <= nd.commit && nd.log != []
      && s.appends[id].to < |nd.next| && s.appends[id].to < |nd.matched|
    case _ => true
  }

  ghost function NewBallots(n: nat, nd: Node): map<VoteKey, VoteCall> {
    map p: nat | p < n && p != nd.me :: VoteKey(nd.me, nd.term, p) := VoteCall(VoteArgsOf(nd), None)
  }

  /** The history after `nd` may have become leader. */
  ghost function Crowned(s: Cluster, v: nat, nd: Node): Cluster
    requires v < |s.nodes|
  {
    if nd.role == Leader && s.nodes[v].role != Leader then
      s.(leaders := s.leaders[nd.term := v], logs := s.logs[nd.term := nd.log])
    else s
  }

  ghost function Do(s: Cluster, a: Action): Cluster
    requires Enabled(s, a) && Safe(s, a)
  {
    match a
    case Timeout(v) =>
      var nd := Elect(s.nodes[v]);
      s.(nodes := s.nodes[v := nd], ballots := s.ballots + NewBallots(|s.nodes|, nd), cast := s.cast[(v, nd.term) := v])
    case DeliverVote(k) =>
      var (nd, reply) := HandleVote(s.nodes[k.peer], s.ballots[k].args);
      s.(nodes := s.nodes[k.peer := nd], ballots := s.ballots[k := s.ballots[k].(reply := Some(reply))],
         cast := if reply.granted then s.cast[(k.peer, nd.term) := s.ballots[k].args.candidate] else s.cast)
    case ReturnVote(k) =>
      var nd := HandleVoteReply(s.nodes[k.candidate], s.ballots[k].args, s.ballots[k].reply.value);
      Crowned(s, k.candidate, nd).(nodes := s.nodes[k.candidate := nd], ballots := s.ballots - {k})
    case LoseVote(k) => s.(ballots := s.ballots - {k})
    case SendAppend(from, to, id, isHeartbeat) =>
      var nd := s.nodes[from];
      s.(appends := s.appends[id := AppendCall(from, to, BuildAppend(nd, to, isHeartbeat), nd.log, None)])
    case DeliverAppend(id) =>
      var call := s.appends[id];
      var (nd, reply) := HandleAppend(s.nodes[call.to], call.args);
      s.(nodes := s.nodes[call.to := nd], appends := s.appends[id := call.(reply := Some(reply))],
         held := if reply.success then s.held + {Holding(call.to, call.args.term, nd.log)} else s.held)
    case ReturnAppend(id) =>
      var call := s.appends[id];
      s.(nodes := s.nodes[call.from := HandleAppendReply(s.nodes[call.from], call.to, call.args, call.reply.value)],
         appends := s.appends - {id})
    case LoseAppend(id) => s.(appends := s.appends - {id})
    case ClientCommand(v, command) =>
      var nd := Submit(s.nodes[v], command);
      s.(nodes := s.nodes[v := nd], logs := if nd.role == Leader then s.logs[nd.term := nd.log] else s.logs)
    case Restart(v) => s.(nodes := s.nodes[v := Made(v, s.nodes[v].peers, s.nodes[v].saved)])
  }

  ghost predicate Next(s: Cluster, a: Action, t: Cluster) {
    Enabled(s, a) && Safe(s, a) && t == Do(s, a)
  }

  ghost predicate StepAt(run: seq<Cluster>, actions: seq<Action>, i: nat)
    requires i + 1 < |run| && i < |actions|
  {
    Next(run[i], actions[i], run[i + 1])
  }

  ghost predicate Run(n: nat, run: seq<Cluster>, actions: seq<Action>) {
    && |run| == |actions| + 1 && Init(n, run[0])
    && forall i: nat :: i < |actions| ==> StepAt(run, actions, i)
  }

  // ---------------------------------------------------------------------
  // Shape: nothing a server does can index out of range

  /** A sentinel of term 0, and real terms after it. */
  ghost predicate LogShape(log: Log) {
    log != [] && log[0] == SENTINEL && forall i :: 1 <= i < |log| ==> log[i].term >= 1
  }

  /** What a restart would bring back is what the server has. */
  ghost predicate Durable(nd: Node) {
    var made := Made(nd.me, nd.peers, nd.saved);
    made.term == nd.term && made.votedFor == nd.votedFor && made.log == nd.log
  }

  ghost predicate NodeShape(n: nat, v: nat, nd: Node) {
    && nd.me == v && nd.peers == n && |nd.next| == n && |nd.matched| == n
    && LogShape(nd.log) && nd.term >= 0 && nd.commit >= 0
    && (nd.role != Follower ==> nd.term >= 1)
    && (forall i :: 0 <= i < n ==> nd.next[i] >= 1)
    && Durable(nd)
  }

  ghost predicate ArgsShape(args: AppendArgs) {
    && args.prevIndex >= 0 && (args.prevIndex == 0 ==> args.prevTerm == 0)
    && forall i :: 0 <= i < |args.entries| ==> args.entries[i].term >= 1
  }

  ghost predicate ReplyShape(reply: AppendReply) {
    reply.success || reply.conflictIndex >= 1 || reply.conflictTerm == 0
  }

  ghost predicate CallShape(n: nat, call: AppendCall) {
    && call.from < n && call.to < n && call.from != call.to && ArgsShape(call.args)
    && (call.reply.Some? ==> ReplyShape(call.reply.value))
  }

  ghost predicate Shape(n: nat, s: Cluster) {
    && |s.nodes| == n
    && (forall v :: 0 <= v < n ==> NodeShape(n, v, s.nodes[v]))
    && (forall id :: id in s.appends ==> CallShape(n, s.appends[id]))
  }

  lemma AppendedShape(log: Log, args: AppendArgs)
    requires LogShape(log) && ArgsShape(args) && args.prevIndex < |log|
    ensures LogShape(Appended(log, args.prevIndex, args.entries))
  {
  }

  lemma ToFollowerShape(n: nat, v: nat, nd: Node, term: int)
    requires NodeShape(n, v, nd) && term >= 0
    ensures NodeShape(n, v, ToFollower(nd, term))
  {
  }

  lemma StoredShape(n: nat, v: nat, nd: Node, log: Log, commit: int)
    requires NodeShape(n, v, nd) && LogShape(log) && commit >= 0
    ensures NodeShape(n, v, Persist(nd.(log := log)).(commit := commit))
  {
  }

  lemma HandleAppendShape(n: nat, v: nat, nd: Node, args: AppendArgs)
    requires NodeShape(n, v, nd) && ArgsShape(args)
    ensures NodeShape(n, v, HandleAppend(nd, args).0) && ReplyShape(HandleAppend(nd, args).1)
  {
    if args.term > nd.term {
      ToFollowerShape(n, v, nd, args.term);
    }
    var current := if args.term > nd.term then ToFollower(nd, args.term) else nd;
    if args.term >= nd.term && args.prevIndex < |nd.log| && args.prevTerm == LogTerm(nd.log, args.prevIndex) {
      AppendedShape(nd.log, args);
      var result := HandleAppend(nd, args).0;
      StoredShape(n, v, current, Appended(nd.log, args.prevIndex, args.entries), result.commit);
    }
  }

  lemma HandleReplyShape(n: nat, v: nat, nd: Node, to: nat, args: AppendArgs, reply: AppendReply)
    requires NodeShape(n, v, nd) && ArgsShape(args) && ReplyShape(reply) && to < n
    ensures NodeShape(n, v, HandleAppendReply(nd, to, args, reply))
  {
  }

  lemma BuildAppendShape(n: nat, v: nat, nd: Node, to: nat, isHeartbeat: bool)
    requires NodeShape(n, v, nd) && to < n
    ensures ArgsShape(BuildAppend(nd, to, isHeartbeat))
  {
  }

  lemma VoteShape(n: nat, v: nat, nd: Node, args: VoteArgs)
    requires NodeShape(n, v, nd)
    ensures NodeShape(n, v, Elect(nd)) && NodeShape(n, v, HandleVote(nd, args).0)
  {
  }

  lemma VoteReplyShape(n: nat, v: nat, nd: Node, args: VoteArgs, reply: VoteReply)
    requires NodeShape(n, v, nd)
    ensures NodeShape(n, v, HandleVoteReply(nd, args, reply))
  {
  }

  lemma MadeShape(n: nat, v: nat, nd: Node)
    requires NodeShape(n, v, nd)
    ensures NodeShape(n, v, Made(v, nd.peers, nd.saved))
  {
  }

  lemma SubmitShape(n: nat, v: nat, nd: Node, command: Command)
    requires NodeShape(n, v, nd)
    ensures NodeShape(n, v, Submit(nd, command))
  {
  }

  /** In every reachable state, whatever step is due can be taken without a panic. */
  lemma NextSafe(n: nat, s: Cluster, a: Action)
    requires Shape(n, s) && Enabled(s, a)
    ensures Safe(s, a)
  {
    if a.DeliverAppend? || a.ReturnAppend? {
      assert CallShape(n, s.appends[a.id]);
    }
  }

  lemma NextShape(n: nat, s: Cluster, a: Action)
    requires Shape(n, s) && Enabled(s, a) && Safe(s, a)
    ensures Shape(n, Do(s, a))
  {
    hide NodeShape, ArgsShape, ReplyShape, HandleAppend, HandleAppendReply, HandleVote, HandleVoteReply, Elect, Made,
      Submit;
    match a
    case Timeout(v) => VoteShape(n, v, s.nodes[v], VoteArgsOf(s.nodes[v]));
    case DeliverVote(k) => VoteShape(n, k.peer, s.nodes[k.peer], s.ballots[k].args);
    case ReturnVote(k) =>
      VoteReplyShape(n, k.candidate, s.nodes[k.candidate], s.ballots[k].args, s.ballots[k].reply.value);
    case LoseVote(k) =>
    case SendAppend(from, to, id, isHeartbeat) => BuildAppendShape(n, from, s.nodes[from], to, isHeartbeat);
    case DeliverAppend(id) => HandleAppendShape(n, s.appends[id].to, s.nodes[s.appends[id].to], s.appends[id].args);
    case ReturnAppend(id) =>
      var call := s.appends[id];
      HandleReplyShape(n, call.from, s.nodes[call.from], call.to, call.args, call.reply.value);
    case LoseAppend(id) =>
    case ClientCommand(v, command) => SubmitShape(n, v, s.nodes[v], command);
    case Restart(v) => MadeShape(n, v, s.nodes[v]);
  }
}
