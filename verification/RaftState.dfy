/**
 One Raft server as a value, and what each of its locked sections does to it.
 The sections are written as the code has them, including where they differ
 from Figure 2 of the extended Raft paper (Ongaro and Ousterhout): an accepted
 AppendEntries cuts the log after the previous index, the conflict scan stops
 short of the last entry, a conflict appends all sent entries, a new leader
 probes one past its own end, and a candidate stays one on a message of its term.
 */
module RaftState {
  type Command = int

  datatype LogEntry = LogEntry(term: int, command: Command)
  type Log = seq<LogEntry>

  datatype Role = Leader | Candidate | Follower

  /** What the persister holds: nothing yet, or the encoded fields. */
  datatype Saved = Nothing | Saved(term: int, votedFor: int, log: Log)

  /** `votes` is the vote counter of the latest election of this server. */
  datatype Node = Node(
    me: nat, peers: nat, role: Role, term: int, votedFor: int, log: Log, commit: int, applied: int,
    next: seq<int>, matched: seq<int>, votes: int, saved: Saved)

  datatype VoteArgs = VoteArgs(term: int, candidate: nat, lastIndex: int, lastTerm: int)
  datatype VoteReply = VoteReply(term: int, granted: bool)

  /** `isNil` tells a nil slice of entries from an empty one. */
  datatype AppendArgs = AppendArgs(
    term: int, leader: nat, prevIndex: int, prevTerm: int, entries: Log, isNil: bool, commit: int)
  datatype AppendReply = AppendReply(term: int, success: bool, conflictTerm: int, conflictIndex: int)

  const SENTINEL: LogEntry := LogEntry(0, 0)

  function LastLogIndex(log: Log): int {
    if |log| == 0 then 0 else |log| - 1
  }

  function LogTerm(log: Log, index: int): int {
    if index < 0 || index >= |log| then 0 else log[index].term
  }

  function Filled(n: nat, x: int): (s: seq<int>)
    ensures |s| == n && forall i :: 0 <= i < n ==> s[i] == x
  {
    seq(n, _ => x)
  }

  function Persist(nd: Node): Node {
    nd.(saved := Saved(nd.term, nd.votedFor, nd.log))
  }

  function ToFollower(nd: Node, term: int): Node {
    Persist(nd.(term := term, role := Follower, votedFor := -1))
  }

  function ToLeader(nd: Node): Node {
    nd.(role := Leader, next := Filled(nd.peers, |nd.log| + 1), matched := Filled(nd.peers, 0))
  }

  /** A server as it is made: from what the persister holds, everything else from scratch. */
  function Made(me: nat, peers: nat, saved: Saved): Node {
    var made := Node(me, peers, Follower, 0, -1, [SENTINEL], 0, 0, Filled(peers, 1), Filled(peers, 0), 0, saved);
    match saved
    case Nothing => made
    case Saved(term, votedFor, log) => made.(term := term, votedFor := votedFor, log := log)
  }

  // ---------------------------------------------------------------------
  // Elections

  function Elect(nd: Node): Node {
    Persist(nd.(votedFor := nd.me, role := Candidate, term := nd.term + 1, votes := 1))
  }

  function VoteArgsOf(nd: Node): VoteArgs {
    VoteArgs(nd.term, nd.me, LastLogIndex(nd.log), LogTerm(nd.log, LastLogIndex(nd.log)))
  }

  predicate UpToDate(args: VoteArgs, log: Log) {
    var last := LastLogIndex(log);
    var lastTerm := LogTerm(log, last);
    args.lastTerm > lastTerm || (args.lastTerm == lastTerm && args.lastIndex >= last)
  }

  function HandleVote(nd: Node, args: VoteArgs): (Node, VoteReply) {
    if args.term < nd.term then (nd, VoteReply(nd.term, false))
    else
      var current := if args.term > nd.term then ToFollower(nd, args.term) else nd;
      var canVote := current.votedFor == -1 || current.votedFor == args.candidate;
      if canVote && UpToDate(args, current.log) then
        (Persist(current.(votedFor := args.candidate)), VoteReply(nd.term, true))
      else (current, VoteReply(nd.term, false))
  }

  function HandleVoteReply(nd: Node, args: VoteArgs, reply: VoteReply): Node {
    if args.term != nd.term || nd.role != Candidate then nd
    else if reply.term > nd.term then ToFollower(nd, reply.term)
    else if !reply.granted then nd
    else
      var counted := nd.(votes := nd.votes + 1);
      if counted.votes > nd.peers / 2 then ToLeader(counted) else counted
  }

  // ---------------------------------------------------------------------
  // Replication

  function BuildAppend(nd: Node, server: nat, isHeartbeat: bool): AppendArgs
    requires server < |nd.next| && nd.next[server] >= 0
  {
    var next := nd.next[server];
    var entries := if next < |nd.log| then nd.log[next..] else [];
    AppendArgs(nd.term, nd.me, next - 1, LogTerm(nd.log, next - 1), entries, next >= |nd.log| && isHeartbeat, nd.commit)
  }

  /** The first index of the run of `term` that ends at `index`. */
  function RunStart(log: Log, index: int, term: int): (i: int)
    requires index < |log|
    ensures index >= 0 ==> 0 <= i <= index && forall k :: i <= k < index ==> log[k].term == term
    ensures i > 0 && index >= 0 ==> log[i - 1].term != term
  {
    if index <= 0 || log[index - 1].term != term then index else RunStart(log, index - 1, term)
  }

  /** Where the conflict scan stops with a conflict, as an offset into `entries`, or -1. */
  function FirstConflict(log: Log, start: nat, entries: Log, i: nat): (k: int)
    requires i <= |entries|
    ensures k == -1 || (i <= k < |entries| && start + k < LastLogIndex(log) && log[start + k].term != entries[k].term)
    ensures forall j :: i <= j < (if k == -1 then |entries| else k) && start + j < LastLogIndex(log) ==>
              log[start + j].term == entries[j].term
    decreases |entries| - i
  {
    if i == |entries| || start + i >= LastLogIndex(log) then -1
    else if log[start + i].term != entries[i].term then i
    else FirstConflict(log, start, entries, i + 1)
  }

  /** The follower's log after an accepted message. */
  function Appended(log: Log, prevIndex: int, entries: Log): Log
    requires -1 <= prevIndex < |log|
  {
    var k := FirstConflict(log, prevIndex + 1, entries, 0);
    log[..prevIndex + 1 + if k == -1 then 0 else k] + entries
  }

  function HandleAppend(nd: Node, args: AppendArgs): (Node, AppendReply)
    requires nd.log != [] && args.prevIndex >= -1
  {
    var reply := AppendReply(nd.term, false, 0, 0);
    if args.term < nd.term then (nd, reply)
    else
      var current := if args.term > nd.term then ToFollower(nd, args.term) else nd;
      if args.prevIndex > LastLogIndex(nd.log) then
        (current, reply.(conflictIndex := |nd.log|, conflictTerm := -1))
      else if args.prevTerm != LogTerm(nd.log, args.prevIndex) then
        var term := LogTerm(nd.log, args.prevIndex);
        (current, reply.(conflictTerm := term, conflictIndex := RunStart(nd.log, args.prevIndex, term)))
      else
        var stored := Persist(current.(log := Appended(nd.log, args.prevIndex, args.entries)));
        var last := |stored.log| - 1;
        var commit := if args.commit < last then args.commit else last;
        (if args.commit > stored.commit then stored.(commit := commit) else stored, reply.(success := true))
  }

  /** The last index below `n` whose entry has `term`, or -1. */
  function LastWithTerm(log: Log, term: int, n: nat): (i: int)
    requires n <= |log|
    ensures -1 <= i < n && (i >= 0 ==> log[i].term == term)
    ensures forall k :: i < k < n ==> log[k].term != term
  {
    if n == 0 then -1 else if log[n - 1].term == term then n - 1 else LastWithTerm(log, term, n - 1)
  }

  /** The new next index after a rejection. */
  function BackedUp(log: Log, reply: AppendReply): int {
    if reply.conflictTerm == -1 then reply.conflictIndex
    else
      var i := LastWithTerm(log, reply.conflictTerm, |log|);
      if i != -1 then i + 1 else reply.conflictIndex
  }

  /** How many of the first `k` peers, other than `me`, have matched index `n`. */
  function MatchCount(nd: Node, n: int, k: nat): nat
    requires k <= |nd.matched|
  {
    if k == 0 then 0
    else MatchCount(nd, n, k - 1) + if k - 1 != nd.me && nd.matched[k - 1] >= n then 1 else 0
  }

  predicate MajorityMatched(nd: Node, n: int)
    requires nd.peers <= |nd.matched|
  {
    1 + MatchCount(nd, n, nd.peers) >= nd.peers / 2 + 1
  }

  predicate MayCommit(nd: Node, n: int)
    requires nd.peers <= |nd.matched| && 0 <= n < |nd.log|
  {
    nd.log[n].term == nd.term && MajorityMatched(nd, n)
  }

  /**
   The commit index the leader moves to: the greatest index it may commit above the
   present one, or the present one.
   */
  function CommitPoint(nd: Node, n: int): (c: int)
    requires nd.peers <= |nd.matched| && 0 <= nd.commit && n < |nd.log|
    ensures c == nd.commit || (nd.commit < c <= n && MayCommit(nd, c))
    ensures forall k :: nd.commit < k <= n && c < k ==> !MayCommit(nd, k)
    decreases n - nd.commit
  {
    if n <= nd.commit then nd.commit
    else if MayCommit(nd, n) then n
    else CommitPoint(nd, n - 1)
  }

  function CommitCheck(nd: Node): Node
    requires nd.peers <= |nd.matched| && 0 <= nd.commit && nd.log != []
  {
    nd.(commit := CommitPoint(nd, LastLogIndex(nd.log)))
  }

  function HandleAppendReply(nd: Node, server: nat, args: AppendArgs, reply: AppendReply): Node
    requires nd.peers <= |nd.matched| && 0 <= nd.commit && nd.log != []
    requires server < |nd.next| && server < |nd.matched|
  {
    if args.term != nd.term || nd.role != Leader then
      if reply.term > nd.term then ToFollower(nd, reply.term) else nd
    else if !reply.success then nd.(next := nd.next[server := BackedUp(nd.log, reply)])
    else if args.isNil then nd
    else
      var matched := args.prevIndex + |args.entries|;
      CommitCheck(nd.(matched := nd.matched[server := matched], next := nd.next[server := matched + 1]))
  }

  /** A client command: appended and saved by a leader, refused by anyone else. */
  function Submit(nd: Node, command: Command): Node {
    if nd.role != Leader then nd
    else Persist(nd.(log := nd.log + [LogEntry(nd.term, command)]))
  }
}
