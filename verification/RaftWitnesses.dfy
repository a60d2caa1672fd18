/**
 Why the hypotheses on Raft runs: two runs of three servers.  In the first only
 leaders send, but a call is accepted after a longer one of its term, and two
 servers commit different entries at one index.  In the second every call is
 accepted in order, but one of them was sent by a server that no longer led,
 and two logs share an entry without sharing what comes before it.
 */
module RaftWitnesses {
  import opened Options
  import opened RaftState
  import opened RaftCluster
  import opened RaftLogs
  import opened RaftTheorems
  import opened RaftCompleteness

  /** Which of the two hypotheses a run obeys. */
  datatype Rule = OnlyLeaders | OnlyInOrder

  ghost predicate Obeys(rule: Rule, s: Cluster, a: Action) {
    match rule
    case OnlyLeaders => LeaderSends(s, a)
    case OnlyInOrder => InOrder(s, a)
  }

  ghost predicate RuledRun(rule: Rule, run: seq<Cluster>, actions: seq<Action>) {
    Run(3, run, actions) && forall i :: 0 <= i < |actions| ==> Obeys(rule, run[i], actions[i])
  }

  ghost predicate Reached(rule: Rule, s: Cluster) {
    exists run, actions :: RuledRun(rule, run, actions) && |run| == |actions| + 1 && run[|actions|] == s
  }

  lemma Extended(rule: Rule, run: seq<Cluster>, actions: seq<Action>, a: Action, t: Cluster)
    requires RuledRun(rule, run, actions) && Next(run[|actions|], a, t) && Obeys(rule, run[|actions|], a)
    ensures RuledRun(rule, run + [t], actions + [a])
  {
    hide Next, Init, Obeys;
    var (longer, more) := (run + [t], actions + [a]);
    forall i: nat | i < |more|
      ensures StepAt(longer, more, i) && Obeys(rule, longer[i], more[i])
    {
      if i < |actions| {
        assert StepAt(run, actions, i);
        assert longer[i] == run[i] && longer[i + 1] == run[i + 1];
      }
    }
  }

  lemma Step(rule: Rule, s: Cluster, a: Action)
    requires Reached(rule, s) && Enabled(s, a) && Safe(s, a) && Obeys(rule, s, a)
    ensures Reached(rule, Do(s, a))
  {
    hide RuledRun, Enabled, Safe, Do, Obeys;
    var run, actions :| RuledRun(rule, run, actions) && |run| == |actions| + 1 && run[|actions|] == s;
    Extended(rule, run, actions, a, Do(s, a));
    assert (run + [Do(s, a)])[|actions + [a]|] == Do(s, a);
  }

  ghost function Start(): Cluster {
    Cluster([Made(0, 3, Nothing), Made(1, 3, Nothing), Made(2, 3, Nothing)], map[], map[], map[], map[],
            map[0 := [SENTINEL]], {})
  }

  lemma StartIsReached(rule: Rule)
    ensures Reached(rule, Start())
  {
    assert RuledRun(rule, [Start()], []);
  }

  // ---------------------------------------------------------------------
  // Several steps at once

  lemma Stand(rule: Rule, s: Cluster, v: nat) returns (t: Cluster)
    requires Reached(rule, s) && |s.nodes| == 3 && v < 3 && s.nodes[v].role != Leader && s.nodes[v].me == v
    ensures Reached(rule, t)
    ensures t.nodes == s.nodes[v := Elect(s.nodes[v])]
    ensures t.appends == s.appends && t.held == s.held && t.leaders == s.leaders && t.logs == s.logs
    ensures forall key: VoteKey ::
              key.candidate == v && key.term == s.nodes[v].term + 1 && key.peer < 3 && key.peer != v ==>
              key in t.ballots && t.ballots[key] == VoteCall(VoteArgsOf(Elect(s.nodes[v])), None)
  {
    hide Reached;
    Step(rule, s, Timeout(v));
    t := Do(s, Timeout(v));
  }

  /** A candidate gets the vote of the server its request `key` is for, and with it the majority. */
  lemma Win(rule: Rule, s: Cluster, key: VoteKey) returns (t: Cluster)
    requires Reached(rule, s) && |s.nodes| == 3 && key.candidate < 3 && key.peer < 3 && key.candidate != key.peer
    requires var nd := s.nodes[key.candidate];
             && nd.role == Candidate && nd.me == key.candidate && nd.peers == 3 && nd.votes == 1 && nd.term == key.term
             && key in s.ballots && s.ballots[key] == VoteCall(VoteArgsOf(nd), None)
             && s.nodes[key.peer].term < key.term && UpToDate(VoteArgsOf(nd), s.nodes[key.peer].log)
    ensures Reached(rule, t)
    ensures var nd := s.nodes[key.candidate];
            && t.nodes == s.nodes[key.candidate := ToLeader(nd.(votes := 2))]
                            [key.peer := Persist(ToFollower(s.nodes[key.peer], key.term).(votedFor := key.candidate))]
            && t.appends == s.appends && t.held == s.held && t.ballots == s.ballots - {key}
            && t.leaders == s.leaders[key.term := key.candidate] && t.logs == s.logs[key.term := nd.log]
  {
    hide Reached, UpToDate;
    Step(rule, s, DeliverVote(key));
    var voted := Do(s, DeliverVote(key));
    Step(rule, voted, ReturnVote(key));
    t := Do(voted, ReturnVote(key));
  }

  /** `v` stands for election and wins with the vote of `peer`; its request to the third server stays in flight. */
  lemma Election(rule: Rule, s: Cluster, v: nat, peer: nat) returns (t: Cluster)
    requires Reached(rule, s) && |s.nodes| == 3 && v < 3 && peer < 3 && v != peer
    requires s.nodes[v].role != Leader && s.nodes[v].me == v && s.nodes[v].peers == 3
    requires s.nodes[peer].term <= s.nodes[v].term && UpToDate(VoteArgsOf(Elect(s.nodes[v])), s.nodes[peer].log)
    ensures Reached(rule, t)
    ensures var term := s.nodes[v].term + 1;
            && t.nodes == s.nodes[v := ToLeader(Elect(s.nodes[v]).(votes := 2))]
                            [peer := Persist(ToFollower(s.nodes[peer], term).(votedFor := v))]
            && t.appends == s.appends && t.held == s.held
            && t.leaders == s.leaders[term := v] && t.logs == s.logs[term := s.nodes[v].log]
            && var key := VoteKey(v, term, 3 - v - peer);
               key in t.ballots && t.ballots[key] == VoteCall(VoteArgsOf(Elect(s.nodes[v])), None)
  {
    hide Reached, UpToDate;
    var stood := Stand(rule, s, v);
    t := Win(rule, stood, VoteKey(v, s.nodes[v].term + 1, peer));
  }

  /** A call from `from` to `to`: sent, delivered and answered. */
  lemma Exchange(rule: Rule, s: Cluster, from: nat, to: nat) returns (t: Cluster)
    requires Reached(rule, s) && |s.nodes| == 3 && from < 3 && to < 3 && from != to && 0 !in s.appends
    requires to < |s.nodes[from].next| && s.nodes[from].next[to] >= 0
    requires s.nodes[from].peers <= |s.nodes[from].matched| && to < |s.nodes[from].matched|
    requires s.nodes[from].commit >= 0 && s.nodes[from].log != [] && s.nodes[to].log != []
    requires var call := AppendCall(from, to, BuildAppend(s.nodes[from], to, true), s.nodes[from].log, None);
             match rule
             case OnlyLeaders => s.nodes[from].role == Leader
             case OnlyInOrder => !Stale(s, call)
    ensures Reached(rule, t)
    ensures var (nd, args) := (s.nodes[from], BuildAppend(s.nodes[from], to, true));
            var (after, reply) := HandleAppend(s.nodes[to], args);
            && t.nodes == s.nodes[to := after][from := HandleAppendReply(nd, to, args, reply)]
            && t.held == s.held + (if reply.success then {Holding(to, args.term, after.log)} else {})
            && t == s.(nodes := t.nodes, held := t.held)
  {
    hide Reached, HandleAppend, HandleAppendReply, BuildAppend, Stale;
    Step(rule, s, SendAppend(from, to, 0, true));
    var sent := Do(s, SendAppend(from, to, 0, true));
    PrevIsIndex(s.nodes[from], to);
    SameStale(s, sent, sent.appends[0]);
    Step(rule, sent, DeliverAppend(0));
    var delivered := Do(sent, DeliverAppend(0));
    Step(rule, delivered, ReturnAppend(0));
    t := Do(delivered, ReturnAppend(0));
  }

  lemma PrevIsIndex(nd: Node, to: nat)
    requires to < |nd.next| && nd.next[to] >= 0
    ensures BuildAppend(nd, to, true).prevIndex >= -1
  {
  }

  lemma SameStale(s: Cluster, t: Cluster, call: AppendCall)
    requires t.held == s.held
    ensures Stale(s, call) == Stale(t, call)
  {
  }

  /** A leader probes past the end of the log of `to`, is rejected and backs up to that end. */
  lemma Probe(rule: Rule, s: Cluster, from: nat, to: nat) returns (t: Cluster)
    requires Reached(rule, s) && |s.nodes| == 3 && from < 3 && to < 3 && from != to && 0 !in s.appends
    requires s.nodes[from].role == Leader && |s.nodes[from].next| == |s.nodes[from].matched| == s.nodes[from].peers == 3
    requires s.nodes[from].commit >= 0 && s.nodes[from].log != [] && s.nodes[to].log != []
    requires s.nodes[to].term <= s.nodes[from].term && s.nodes[from].next[to] > |s.nodes[to].log|
    requires forall h :: h in s.held && h.server == to ==> h.term < s.nodes[from].term
    ensures Reached(rule, t)
    ensures var (nd, f) := (s.nodes[from], s.nodes[to]);
            t == s.(nodes := s.nodes[to := if f.term < nd.term then ToFollower(f, nd.term) else f]
                               [from := nd.(next := nd.next[to := |f.log|])])
  {
    hide Reached;
    t := Exchange(rule, s, from, to);
    assert t == s.(nodes := t.nodes);
  }

  lemma Command(rule: Rule, s: Cluster, v: nat, command: Command) returns (t: Cluster)
    requires Reached(rule, s) && v < |s.nodes| && s.nodes[v].role == Leader
    ensures Reached(rule, t)
    ensures var nd := s.nodes[v].(log := s.nodes[v].log + [LogEntry(s.nodes[v].term, command)]);
            t == s.(nodes := s.nodes[v := Persist(nd)], logs := s.logs[nd.term := nd.log])
  {
    hide Reached;
    Step(rule, s, ClientCommand(v, command));
    t := Do(s, ClientCommand(v, command));
  }

  // ---------------------------------------------------------------------
  // The servers of the two runs

  const A := LogEntry(1, 10)
  const B := LogEntry(2, 20)
  const C := LogEntry(3, 30)

  /** A server that has saved its state. */
  function Srv(
    me: nat, role: Role, term: int, vote: int, log: Log, commit: int, next: seq<int>, matched: seq<int>, votes: int)
    : Node
  {
    Node(me, 3, role, term, vote, log, commit, 0, next, matched, votes, Saved(term, vote, log))
  }

  function Three(x: int): seq<int> {
    [x, x, x]
  }

  lemma FilledThree(x: int)
    ensures Filled(3, x) == Three(x)
  {
  }

  /** A server nobody has called yet. */
  function Fresh(me: nat): Node {
    Node(me, 3, Follower, 0, -1, [SENTINEL], 0, 0, Three(1), Three(0), 0, Nothing)
  }

  lemma FreshIsMade(me: nat)
    ensures Fresh(me) == Made(me, 3, Nothing)
  {
    FilledThree(0);
    FilledThree(1);
  }

  lemma WinnerIs(nd: Node)
    requires nd.peers == 3
    ensures ToLeader(Elect(nd).(votes := 2)) ==
            Srv(nd.me, Leader, nd.term + 1, nd.me, nd.log, nd.commit, Three(|nd.log| + 1), Three(0),
              2).(applied := nd.applied)
  {
    FilledThree(0);
    FilledThree(|nd.log| + 1);
  }

  // ---------------------------------------------------------------------
  // A first entry is copied to one server and committed

  /** A leader of `term` with one entry, which has backed up to it for `server`. */
  function Writer(me: nat, server: nat, entry: LogEntry): Node
    requires server < 3
  {
    Srv(me, Leader, entry.term, me, [SENTINEL, entry], 0, Three(2)[server := 1], Three(0), 2)
  }

  function FirstArgs(me: nat, entry: LogEntry): AppendArgs {
    AppendArgs(entry.term, me, 0, 0, [entry], false, 0)
  }

  lemma WriterSends(me: nat, server: nat, entry: LogEntry)
    requires server < 3
    ensures BuildAppend(Writer(me, server, entry), server, true) == FirstArgs(me, entry)
  {
    assert [SENTINEL, entry][1..] == [entry];
  }

  lemma FollowerStores(f: Node, me: nat, entry: LogEntry)
    requires f.log == [SENTINEL] && f.term == entry.term && f.commit == 0
    ensures HandleAppend(f, FirstArgs(me, entry)) ==
            (Persist(f.(log := [SENTINEL, entry])), AppendReply(entry.term, true, 0, 0))
  {
    assert FirstConflict([SENTINEL], 1, [entry], 0) == -1;
    assert [SENTINEL][..1] + [entry] == [SENTINEL, entry];
  }

  /** A leader of three whose log is one entry of its term commits it on the first acknowledgement. */
  lemma CommitsOne(me: nat, server: nat, entry: LogEntry)
    requires me < 3 && server < 3 && me != server
    ensures HandleAppendReply(Writer(me, server, entry), server, FirstArgs(me, entry),
            AppendReply(entry.term, true, 0, 0)) ==
            Srv(me, Leader, entry.term, me, [SENTINEL, entry], 1, Three(2), Three(0)[server := 1], 2)
  {
    var nd := Srv(me, Leader, entry.term, me, [SENTINEL, entry], 0, Three(2), Three(0)[server := 1], 2);
    assert Three(2)[server := 1][server := 2] == Three(2);
    assert MatchCount(nd, 1, 3) == 1 by {
      assert MatchCount(nd, 1, 0) == 0;
      assert MatchCount(nd, 1, 1) == if server == 0 then 1 else 0;
      assert MatchCount(nd, 1, 2) == if server <= 1 then 1 else 0;
    }
    assert MayCommit(nd, 1);
    assert CommitPoint(nd, 1) == 1;
  }

  lemma CopyFirst(rule: Rule, s: Cluster, from: nat, to: nat, entry: LogEntry) returns (t: Cluster)
    requires Reached(rule, s) && |s.nodes| == 3 && from < 3 && to < 3 && from != to && 0 !in s.appends
    requires s.nodes[from] == Writer(from, to, entry)
    requires s.nodes[to].log == [SENTINEL] && s.nodes[to].term == entry.term && s.nodes[to].commit == 0
    requires forall h :: h in s.held && h.server == to ==> h.term < entry.term
    ensures Reached(rule, t)
    ensures t == s.(held := s.held + {Holding(to, entry.term, [SENTINEL, entry])},
                    nodes := s.nodes[to := Persist(s.nodes[to].(log := [SENTINEL, entry]))]
                               [from := Srv(from, Leader, entry.term, from, [SENTINEL, entry], 1, Three(2),
                                 Three(0)[to := 1], 2)])
  {
    WriterSends(from, to, entry);
    FollowerStores(s.nodes[to], from, entry);
    CommitsOne(from, to, entry);
    hide Reached, HandleAppend, HandleAppendReply, BuildAppend;
    t := Exchange(rule, s, from, to);
  }

  // ---------------------------------------------------------------------
  // A call accepted after a longer one of its term

  /** Server 0 leads term 1 and has learned that server 1 has nothing. */
  lemma Late1() returns (t: Cluster)
    ensures Reached(OnlyLeaders, t) && t.appends == map[] && t.held == {}
    ensures t.leaders == map[1 := 0] && t.logs == map[0 := [SENTINEL], 1 := [SENTINEL]]
    ensures t.nodes == [Srv(0, Leader, 1, 0, [SENTINEL], 0, Three(2)[1 := 1], Three(0), 2),
                        Srv(1, Follower, 1, 0, [SENTINEL], 0, Three(1), Three(0), 0), Fresh(2)]
  {
    hide Reached, ToLeader, Made;
    StartIsReached(OnlyLeaders);
    FreshIsMade(0);
    FreshIsMade(1);
    FreshIsMade(2);
    WinnerIs(Fresh(0));
    var s := Election(OnlyLeaders, Start(), 0, 1);
    assert s.nodes == [Srv(0, Leader, 1, 0, [SENTINEL], 0, Three(2), Three(0), 2),
                       Srv(1, Follower, 1, 0, [SENTINEL], 0, Three(1), Three(0), 0), Fresh(2)];
    t := Probe(OnlyLeaders, s, 0, 1);
  }

  /** Server 0 builds a call with no entries, and only then takes a command. */
  lemma Late2() returns (t: Cluster)
    ensures Reached(OnlyLeaders, t) && t.held == {}
    ensures t.appends == map[1 := AppendCall(0, 1, AppendArgs(1, 0, 0, 0, [], true, 0), [SENTINEL], None)]
    ensures t.leaders == map[1 := 0] && t.logs == map[0 := [SENTINEL], 1 := [SENTINEL, A]]
    ensures t.nodes == [Writer(0, 1, A), Srv(1, Follower, 1, 0, [SENTINEL], 0, Three(1), Three(0), 0), Fresh(2)]
  {
    hide Reached;
    var s := Late1();
    Step(OnlyLeaders, s, SendAppend(0, 1, 1, true));
    var sent := Do(s, SendAppend(0, 1, 1, true));
    t := Command(OnlyLeaders, sent, 0, 10);
    assert [SENTINEL] + [A] == [SENTINEL, A];
  }

  /** The command is copied to server 1 and committed; then the call built before arrives there. */
  lemma Late3() returns (t: Cluster)
    ensures Reached(OnlyLeaders, t) && t.appends == map[] && Holding(1, 1, [SENTINEL, A]) in t.held
    ensures t.leaders == map[1 := 0] && t.logs == map[0 := [SENTINEL], 1 := [SENTINEL, A]]
    ensures forall h :: h in t.held && h.server == 1 ==> h.term == 1
    ensures t.nodes == [Srv(0, Leader, 1, 0, [SENTINEL, A], 1, Three(2), Three(0)[1 := 1], 2),
                        Srv(1, Follower, 1, 0, [SENTINEL], 0, Three(1), Three(0), 0), Fresh(2)]
  {
    hide Reached;
    var s := Late2();
    var copied := CopyFirst(OnlyLeaders, s, 0, 1, A);
    Step(OnlyLeaders, copied, DeliverAppend(1));
    var cut := Do(copied, DeliverAppend(1));
    assert FirstConflict([SENTINEL, A], 1, [], 0) == -1;
    assert [SENTINEL, A][..1] + [] == [SENTINEL];
    Step(OnlyLeaders, cut, LoseAppend(1));
    t := Do(cut, LoseAppend(1));
  }

  /** Server 2, without the command, wins term 2 with the vote of server 1. */
  lemma Late4() returns (t: Cluster)
    ensures Reached(OnlyLeaders, t) && t.appends == map[] && Holding(1, 1, [SENTINEL, A]) in t.held
    ensures t.leaders == map[1 := 0, 2 := 2] && t.logs == map[0 := [SENTINEL], 1 := [SENTINEL, A], 2 := [SENTINEL, B]]
    ensures forall h :: h in t.held && h.server == 1 ==> h.term == 1
    ensures t.nodes == [Srv(0, Leader, 1, 0, [SENTINEL, A], 1, Three(2), Three(0)[1 := 1], 2),
                        Srv(1, Follower, 2, 2, [SENTINEL], 0, Three(1), Three(0), 0), Writer(2, 1, B)]
  {
    hide Reached, ToLeader;
    var s := Late3();
    var stood := Stand(OnlyLeaders, s, 2);
    WinnerIs(stood.nodes[2]);
    var led := Election(OnlyLeaders, stood, 2, 1);
    var told := Command(OnlyLeaders, led, 2, 20);
    assert [SENTINEL] + [B] == [SENTINEL, B];
    t := Probe(OnlyLeaders, told, 2, 1);
  }

  /**
   With only leaders sending, a call accepted after a longer one of its term
   breaks Leader Completeness and State Machine Safety.
   */
  lemma OutOfOrderBreaksSafety() returns (run: seq<Cluster>, actions: seq<Action>)
    ensures LedRun(3, run, actions)
    ensures var s := run[|actions|];
            && |s.nodes| == 3 && Chosen(s, 1, 1) && s.nodes[2].role == Leader && s.nodes[2].term == 2
            && !(s.logs[1][..2] <= s.nodes[2].log)
    ensures var (a, b) := (run[|actions|].nodes[0], run[|actions|].nodes[2]);
            a.commit == b.commit == 1 && |a.log| == |b.log| == 2 && a.log[1] != b.log[1]
  {
    var s := Late4();
    var t := CopyFirst(OnlyLeaders, s, 2, 1, B);
    assert Stored(t, 1, 1, [SENTINEL, A]);
    assert [SENTINEL, A][..2] == [SENTINEL, A];
    assert ChosenBy(t, 1, 1, {0, 1});
    run, actions :| RuledRun(OnlyLeaders, run, actions) && |run| == |actions| + 1 && run[|actions|] == t;
    assert forall i :: 0 <= i < |actions| ==> Obeys(OnlyLeaders, run[i], actions[i]);
  }

  // ---------------------------------------------------------------------
  // A call sent by a server that no longer leads

  /** Server 2 leads term 1 and copies its entry to server 0. */
  lemma Stray1() returns (t: Cluster)
    ensures Reached(OnlyInOrder, t) && t.appends == map[] && t.held == {Holding(0, 1, [SENTINEL, A])}
    ensures t.nodes == [Srv(0, Follower, 1, 2, [SENTINEL, A], 0, Three(1), Three(0), 0), Fresh(1),
                        Srv(2, Leader, 1, 2, [SENTINEL, A], 1, Three(2), Three(0)[0 := 1], 2)]
  {
    hide Reached, ToLeader, Made;
    StartIsReached(OnlyInOrder);
    FreshIsMade(0);
    FreshIsMade(1);
    FreshIsMade(2);
    WinnerIs(Fresh(2));
    var led := Election(OnlyInOrder, Start(), 2, 0);
    var told := Command(OnlyInOrder, led, 2, 10);
    assert [SENTINEL] + [A] == [SENTINEL, A];
    var probed := Probe(OnlyInOrder, told, 2, 0);
    t := CopyFirst(OnlyInOrder, probed, 2, 0, A);
  }

  /** Server 0 wins term 2, takes two commands, backs up for server 1 and deposes server 2. */
  lemma Stray2() returns (t: Cluster)
    ensures Reached(OnlyInOrder, t) && t.appends == map[] && t.held == {Holding(0, 1, [SENTINEL, A])}
    ensures t.nodes == [Srv(0, Leader, 2, 0, [SENTINEL, A, B, B], 0, Three(3)[1 := 1][2 := 2], Three(0), 2),
                        Srv(1, Follower, 2, 0, [SENTINEL], 0, Three(1), Three(0), 0),
                        Srv(2, Follower, 2, -1, [SENTINEL, A], 1, Three(2), Three(0)[0 := 1], 2)]
  {
    hide Reached, ToLeader;
    var s := Stray1();
    WinnerIs(s.nodes[0]);
    var led := Election(OnlyInOrder, s, 0, 1);
    var told := Command(OnlyInOrder, led, 0, 20);
    var twice := Command(OnlyInOrder, told, 0, 20);
    assert [SENTINEL, A] + [B] + [B] == [SENTINEL, A, B, B];
    var probed := Probe(OnlyInOrder, twice, 0, 1);
    t := Probe(OnlyInOrder, probed, 0, 2);
  }

  /** Server 2 wins term 3, its request deposes server 0, and it takes two commands and backs up for server 1. */
  lemma Stray3() returns (t: Cluster)
    ensures Reached(OnlyInOrder, t) && t.appends == map[] && t.held == {Holding(0, 1, [SENTINEL, A])}
    ensures t.nodes == [Srv(0, Follower, 3, -1, [SENTINEL, A, B, B], 0, Three(3)[1 := 1][2 := 2], Three(0), 2),
                        Srv(1, Follower, 3, 2, [SENTINEL], 0, Three(1), Three(0), 0),
                        Srv(2, Leader, 3, 2, [SENTINEL, A, C, C], 1, Three(3)[1 := 1], Three(0), 2)]
  {
    hide Reached, ToLeader;
    var s := Stray2();
    WinnerIs(s.nodes[2]);
    var led := Election(OnlyInOrder, s, 2, 1);
    var key := VoteKey(2, 3, 0);
    Step(OnlyInOrder, led, DeliverVote(key));
    var deposed := Do(led, DeliverVote(key));
    var told := Command(OnlyInOrder, deposed, 2, 30);
    var twice := Command(OnlyInOrder, told, 2, 30);
    assert [SENTINEL, A] + [C] + [C] == [SENTINEL, A, C, C];
    t := Probe(OnlyInOrder, twice, 2, 1);
  }

  lemma StrayStored()
    ensures Appended([SENTINEL], 0, [A, B, B]) == [SENTINEL, A, B, B]
    ensures Appended([SENTINEL, A, B, B], 0, [A, C, C]) == [SENTINEL, A, A, C, C]
  {
    assert FirstConflict([SENTINEL], 1, [A, B, B], 0) == -1;
    assert FirstConflict([SENTINEL, A, B, B], 1, [A, C, C], 1) == 1;
    assert FirstConflict([SENTINEL, A, B, B], 1, [A, C, C], 0) == 1;
  }

  /** Server 0 sends to server 1 in term 3, as a follower. */
  lemma Stray4() returns (t: Cluster)
    ensures Reached(OnlyInOrder, t) && t.appends == map[]
    ensures t.held == {Holding(0, 1, [SENTINEL, A]), Holding(1, 3, [SENTINEL, A, B, B])}
    ensures t.nodes == [Srv(0, Follower, 3, -1, [SENTINEL, A, B, B], 0, Three(3)[1 := 1][2 := 2], Three(0), 2),
                        Srv(1, Follower, 3, 2, [SENTINEL, A, B, B], 0, Three(1), Three(0), 0),
                        Srv(2, Leader, 3, 2, [SENTINEL, A, C, C], 1, Three(3)[1 := 1], Three(0), 2)]
  {
    hide Reached, Appended;
    var s := Stray3();
    assert [SENTINEL, A, B, B][1..] == [A, B, B];
    assert BuildAppend(s.nodes[0], 1, true) == AppendArgs(3, 0, 0, 0, [A, B, B], false, 0);
    StrayStored();
    t := Exchange(OnlyInOrder, s, 0, 1);
  }

  /** With calls accepted in order, one sent by a server that no longer leads breaks Log Matching. */
  lemma StraySenderBreaksMatching() returns (run: seq<Cluster>, actions: seq<Action>)
    ensures Run(3, run, actions) && forall i :: 0 <= i < |actions| ==> InOrder(run[i], actions[i])
    ensures |run[|actions|].nodes| == 3
    ensures var (a, b) := (run[|actions|].nodes[1].log, run[|actions|].nodes[2].log);
            |a| > 3 && |b| > 3 && a[3].term == b[3].term && a[..4] != b[..4]
  {
    var s := Stray4();
    assert [SENTINEL, A, C, C][1..] == [A, C, C];
    assert BuildAppend(s.nodes[2], 1, true) == AppendArgs(3, 2, 0, 0, [A, C, C], false, 1);
    StrayStored();
    var t := Exchange(OnlyInOrder, s, 2, 1);
    assert t.nodes[1].log == [SENTINEL, A, A, C, C];
    assert t.nodes[2].log == [SENTINEL, A, C, C];
    assert t.nodes[1].log[..4][2] != t.nodes[2].log[..4][2];
    run, actions :| RuledRun(OnlyInOrder, run, actions) && |run| == |actions| + 1 && run[|actions|] == t;
    assert forall i :: 0 <= i < |actions| ==> Obeys(OnlyInOrder, run[i], actions[i]);
  }
}
