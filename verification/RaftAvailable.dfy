/**
 What a majority can achieve: from every moment of a run in which only leaders
 send, servers that are a majority and can talk to each other can elect a leader
 among them, commit a new command and all learn that it is committed.
 */
module RaftAvailable {
  import opened FiniteSets
  import opened RaftState
  import opened RaftCluster
  import opened RaftElection
  import opened RaftLogs
  import opened RaftReplication
  import opened RaftOrder
  import opened RaftTheorems
  import opened RaftPaths
  import opened RaftCampaign
  import opened RaftCatchUp

  lemma FreshId(appends: map<nat, AppendCall>) returns (id: nat)
    ensures id !in appends
  {
    id := 0;
    if appends.Keys != {} {
      var last := Greatest(appends.Keys, (a: nat, b: nat) => a <= b);
      assert forall k :: k in appends ==> k in appends.Keys;
      id := last + 1;
    }
  }

  // ---------------------------------------------------------------------
  // The leader exchanges messages with many

  /** The leader keeps its log and term, forgets nothing it knows of servers outside `d`, and may commit more. */
  ghost predicate LearnsOfAll(a: Node, b: Node, d: set<nat>) {
    && a.role == b.role == Leader && b.term == a.term && b.log == a.log && b.me == a.me && b.peers == a.peers
    && |b.next| == |a.next| && |b.matched| == |a.matched| && b.commit >= a.commit
    && forall g: nat :: g < |a.matched| && g !in d ==> b.matched[g] == a.matched[g]
  }

  /** After exchanges of `l` with the servers in `d`. */
  ghost predicate AllCaughtUp(s: Cluster, t: Cluster, l: nat, d: set<nat>) {
    && l < |s.nodes| == |t.nodes| && t.appends == s.appends && LearnsOfAll(s.nodes[l], t.nodes[l], d)
    && (forall v: nat :: v < |s.nodes| && v != l && v !in d ==> t.nodes[v] == s.nodes[v])
    && (forall f :: f in d ==>
          && f < |t.nodes| && t.nodes[f].log == s.nodes[l].log && t.nodes[f].term == s.nodes[l].term
          && CommitsWith(s.nodes[l], t.nodes[f]))
  }

  /** The servers in `d` can be reached by leader `l`. */
  ghost predicate Behind(s: Cluster, l: nat, d: set<nat>) {
    && l < |s.nodes| && s.nodes[l].role == Leader && l !in d
    && forall f :: f in d ==> f < |s.nodes| && s.nodes[f].term <= s.nodes[l].term
  }

  lemma OneMoreCaughtUp(s: Cluster, t: Cluster, u: Cluster, l: nat, f: nat, d: set<nat>)
    requires Behind(s, l, d) && f in d && CaughtUp(s, t, l, f) && AllCaughtUp(t, u, l, d - {f})
    ensures AllCaughtUp(s, u, l, d)
  {
    hide CommitsAll, Lacks, LogShape;
  }

  lemma StillBehind(s: Cluster, t: Cluster, l: nat, f: nat, d: set<nat>)
    requires Behind(s, l, d) && f in d && CaughtUp(s, t, l, f)
    ensures Behind(t, l, d - {f})
  {
    hide CommitsAll, Lacks, LogShape;
  }

  lemma NobodyCaughtUp(s: Cluster, l: nat)
    requires Behind(s, l, {})
    ensures AllCaughtUp(s, s, l, {})
  {
  }

  /** All of `d` lack the last entry of the leader. */
  ghost predicate AllLack(s: Cluster, l: nat, d: set<nat>) {
    && l < |s.nodes| && LogShape(s.nodes[l].log)
    && forall f :: f in d ==>
         f < |s.nodes| && LogShape(s.nodes[f].log) && Lacks(s.nodes[l].log, s.nodes[f].log)
  }

  /** The leader knows that all of `d` have its log; unless there are none, it has committed all it may. */
  ghost predicate AllCredited(nd: Node, d: set<nat>) {
    && (forall f :: f in d ==> f < |nd.matched| && nd.matched[f] == |nd.log| - 1)
    && (d != {} ==> CommitsAll(nd))
  }

  lemma StillLack(s: Cluster, t: Cluster, l: nat, f: nat, d: set<nat>)
    requires Behind(s, l, d) && f in d && CaughtUp(s, t, l, f) && AllLack(s, l, d)
    ensures AllLack(t, l, d - {f}) && Credits(t.nodes[l], f)
  {
    hide CommitsAll, Lacks, LogShape;
  }

  lemma OneMoreCredited(t: Cluster, u: Cluster, l: nat, f: nat, d: set<nat>)
    requires l < |t.nodes| && f in d && Credits(t.nodes[l], f) && AllCaughtUp(t, u, l, d - {f})
    requires d - {f} == {} ==> u.nodes[l] == t.nodes[l]
    requires AllCredited(u.nodes[l], d - {f})
    ensures AllCredited(u.nodes[l], d)
  {
    hide CommitsAll, CommitsWith;
    assert f !in d - {f} && u.nodes[l].matched[f] == t.nodes[l].matched[f];
    forall g | g in d
      ensures g < |u.nodes[l].matched| && u.nodes[l].matched[g] == |u.nodes[l].log| - 1
    {
      assert g == f || g in d - {f};
    }
  }

  /** The leader brings all of `d` up to date. */
  lemma {:induction false} CatchUpAll(q: set<nat>, n: nat, s: Cluster, l: nat, d: set<nat>)
    returns (actions: seq<Action>, t: Cluster)
    requires Sound(n, s) && |s.nodes| == n && Behind(s, l, d) && l in q && d <= q
    ensures Follows(q, s, actions, t) && AllCaughtUp(s, t, l, d) && (d == {} ==> t == s)
    ensures AllLack(s, l, d) ==> AllCredited(t.nodes[l], d)
    decreases |d|
  {
    if d == {} {
      hide Follows, Sound;
      actions, t := [], s;
      StaysPut(q, s);
      NobodyCaughtUp(s, l);
    } else {
      var f :| f in d;
      assert f < n && f != l && s.nodes[f].term <= s.nodes[l].term;
      hide Follows, Sound, CaughtUp, AllCaughtUp, Behind, AllLack, Credits, AllCredited, Exchanges;
      var id := FreshId(s.appends);
      var next, r := CatchUp(q, n, s, l, f, id);
      PathIsSound(q, n, s, Exchanges(l, f, id, r + 1), next);
      StillBehind(s, next, l, f, d);
      SameSize(s, next, l, f);
      var rest;
      rest, t := CatchUpAll(q, n, next, l, d - {f});
      actions := Exchanges(l, f, id, r + 1) + rest;
      FollowsJoin(q, s, Exchanges(l, f, id, r + 1), next, rest, t);
      OneMoreCaughtUp(s, next, t, l, f, d);
      SameSizeAll(s, t, l, d);
      if AllLack(s, l, d) {
        StillLack(s, next, l, f, d);
        OneMoreCredited(next, t, l, f, d);
      }
    }
  }

  lemma SameSize(s: Cluster, t: Cluster, l: nat, f: nat)
    requires l < |s.nodes| && f < |s.nodes| && CaughtUp(s, t, l, f)
    ensures |t.nodes| == |s.nodes|
  {
  }

  lemma SameSizeAll(s: Cluster, t: Cluster, l: nat, d: set<nat>)
    requires AllCaughtUp(s, t, l, d)
    ensures l < |s.nodes| == |t.nodes|
  {
  }

  // ---------------------------------------------------------------------
  // A command

  /** A leader has just taken a command: nobody else has it. */
  lemma CommandIsNew(n: nat, s: Cluster, l: nat, command: Command, f: nat)
    requires Sound(n, s) && |s.nodes| == n && l < n && f < n && l != f && s.nodes[l].role == Leader
    ensures var log := s.nodes[l].log + [LogEntry(s.nodes[l].term, command)];
            LogShape(log) && LogShape(s.nodes[f].log) && Lacks(log, s.nodes[f].log)
  {
    hide ElectionInv, HeldOk, HistoryOk, BeliefOk, Genuine, ReceiverOk, Durable;
    assert NodeShape(n, l, s.nodes[l]) && NodeShape(n, f, s.nodes[f]);
    assert NodeOk(s, l) && NodeOk(s, f);
  }

  /** A leader takes a command. */
  lemma TakesCommand(q: set<nat>, s: Cluster, l: nat, command: Command) returns (t: Cluster)
    requires l in q && l < |s.nodes| && s.nodes[l].role == Leader
    ensures Follows(q, s, [ClientCommand(l, command)], t) && |t.nodes| == |s.nodes|
    ensures t.nodes[l].log == s.nodes[l].log + [LogEntry(s.nodes[l].term, command)]
    ensures t.nodes[l].role == Leader && t.nodes[l].term == s.nodes[l].term
    ensures forall v: nat :: v < |s.nodes| && v != l ==> t.nodes[v] == s.nodes[v]
  {
    t := Do(s, ClientCommand(l, command));
    FollowsOne(q, s, ClientCommand(l, command));
  }

  /** After which it is the only one that has it. */
  lemma AloneWithCommand(n: nat, s: Cluster, t: Cluster, l: nat, command: Command, d: set<nat>)
    requires Sound(n, s) && |s.nodes| == n && Behind(s, l, d) && Sound(n, t) && |t.nodes| == n
    requires t.nodes[l].log == s.nodes[l].log + [LogEntry(s.nodes[l].term, command)]
    requires forall v: nat :: v < |s.nodes| && v != l ==> t.nodes[v] == s.nodes[v]
    ensures AllLack(t, l, d)
  {
    hide Sound, LogShape, Lacks;
    LeaderShape(n, t, l);
    forall f | f in d
      ensures LogShape(t.nodes[l].log) && LogShape(t.nodes[f].log) && Lacks(t.nodes[l].log, t.nodes[f].log)
    {
      CommandIsNew(n, s, l, command, f);
    }
  }

  lemma Told(q: set<nat>, n: nat, s: Cluster, l: nat, command: Command, d: set<nat>) returns (t: Cluster)
    requires Sound(n, s) && |s.nodes| == n && Behind(s, l, d) && l in q
    ensures Follows(q, s, [ClientCommand(l, command)], t) && Sound(n, t) && |t.nodes| == n
    ensures t.nodes[l].log == s.nodes[l].log + [LogEntry(s.nodes[l].term, command)]
    ensures t.nodes[l].term == s.nodes[l].term && Behind(t, l, d) && AllLack(t, l, d)
  {
    hide Sound, Follows, AllLack;
    t := TakesCommand(q, s, l, command);
    PathIsSound(q, n, s, [ClientCommand(l, command)], t);
    AloneWithCommand(n, s, t, l, command, d);
  }

  lemma LeaderShape(n: nat, s: Cluster, l: nat)
    requires Sound(n, s) && l < n
    ensures |s.nodes| == n && LogShape(s.nodes[l].log) && s.nodes[l].log != []
    ensures s.nodes[l].me == l && s.nodes[l].peers == n == |s.nodes[l].matched|
  {
    assert NodeShape(n, l, s.nodes[l]);
  }

  /** A leader that knows a majority to have its log has committed its last entry, if that is of its term. */
  lemma MajorityCommits(n: nat, nd: Node, l: nat, q: set<nat>)
    requires nd.me == l && nd.peers == n == |nd.matched| && l in q && q <= Range(n) && 2 * |q| > n
    requires AllCredited(nd, q - {l}) && q - {l} != {} && |nd.log| > 0 && nd.log[|nd.log| - 1].term == nd.term
    ensures nd.commit >= |nd.log| - 1
  {
    var last := |nd.log| - 1;
    assert q - {l} <= MatchedBy(nd, last, n);
    SubsetCardinality(q - {l}, MatchedBy(nd, last, n));
  }

  /** All of `q` have `entry` at `index`, and have committed it. */
  ghost predicate AllCommitted(s: Cluster, q: set<nat>, index: nat, entry: LogEntry) {
    forall u :: u in q ==>
      u < |s.nodes| && index < |s.nodes[u].log| && s.nodes[u].log[index] == entry && s.nodes[u].commit >= index
  }

  lemma Spread(s: Cluster, t: Cluster, l: nat, q: set<nat>, entry: LogEntry)
    requires l in q && AllCaughtUp(s, t, l, q - {l}) && s.nodes[l].log != []
    requires s.nodes[l].log[|s.nodes[l].log| - 1] == entry && s.nodes[l].commit >= |s.nodes[l].log| - 1
    ensures AllCommitted(t, q, |s.nodes[l].log| - 1, entry)
  {
  }

  /** The leader knows of the members of `q` what it has to know, after the first round of exchanges. */
  lemma FirstRound(n: nat, s: Cluster, t: Cluster, l: nat, q: set<nat>)
    requires Sound(n, s) && l in q && l < n && n >= 2 && q <= Range(n) && 2 * |q| > n
    requires AllCaughtUp(s, t, l, q - {l}) && AllCredited(t.nodes[l], q - {l}) && s.nodes[l].log != []
    requires s.nodes[l].log[|s.nodes[l].log| - 1].term == s.nodes[l].term
    ensures t.nodes[l].log == s.nodes[l].log && t.nodes[l].commit >= |s.nodes[l].log| - 1
    ensures Behind(t, l, q - {l}) && |t.nodes| == n
  {
    LeaderShape(n, s, l);
    hide Sound, AllCredited;
    assert q - {l} != {} by {
      assert q == (q - {l}) + {l};
    }
    MajorityCommits(n, t.nodes[l], l, q);
  }

  /** A leader in the majority, ahead of whom nobody is, commits a command. */
  lemma CommandCommits(n: nat, s: Cluster, l: nat, q: set<nat>, command: Command)
    returns (actions: seq<Action>, t: Cluster, index: nat, entry: LogEntry)
    requires Sound(n, s) && |s.nodes| == n && n >= 2 && q <= Range(n) && 2 * |q| > n && Leads(s, l, q)
    ensures Follows(q, s, actions, t) && AllCommitted(t, q, index, entry) && entry.command == command && index >= 1
  {
    var d := q - {l};
    assert Behind(s, l, d);
    entry, index := LogEntry(s.nodes[l].term, command), |s.nodes[l].log|;
    hide Sound, Follows, Behind, AllLack, AllCaughtUp, AllCredited, AllCommitted, Leads, LogShape;
    assert index >= 1 by {
      LeaderShape(n, s, l);
    }
    var told := Told(q, n, s, l, command, d);
    var first, copied := CatchUpAll(q, n, told, l, d);
    SameSizeAll(told, copied, l, d);
    FirstRound(n, told, copied, l, q);
    PathIsSound(q, n, told, first, copied);
    var second;
    second, t := CatchUpAll(q, n, copied, l, d);
    Spread(copied, t, l, q, entry);
    FollowsJoin(q, s, [ClientCommand(l, command)], told, first, copied);
    FollowsJoin(q, s, [ClientCommand(l, command)] + first, copied, second, t);
    actions := [ClientCommand(l, command)] + first + second;
  }

  /**
   Every led run of two or more servers can go on, with steps of the given
   majority only, without loss or restart, until all of it have committed a new
   command at one index.  The run stays ordered if it was.
   */
  lemma CommandCanBeCommitted(n: nat, run: seq<Cluster>, actions: seq<Action>, q: set<nat>, command: Command)
    returns (longer: seq<Cluster>, more: seq<Action>, index: nat, entry: LogEntry)
    requires LedRun(n, run, actions) && |run| == |actions| + 1 && n >= 2 && q <= Range(n) && 2 * |q| > n
    ensures LedRun(n, longer, actions + more) && |longer| == |actions + more| + 1 && run <= longer
    ensures OrderedRun(n, run, actions) ==> OrderedRun(n, longer, actions + more)
    ensures OnlyAmong(q, longer, actions + more, |actions|)
    ensures AllCommitted(longer[|actions + more|], q, index, entry) && entry.command == command && index >= 1
  {
    RunIsSound(n, run, actions, |actions|);
    var s := run[|actions|];
    assert Shape(n, s) && |s.nodes| == n;
    hide Run, LeaderSends, OrderedRun, Sound, Shape, Follows, OnlyAmong, AllCommitted;
    var first, led, v := SomeoneCanLead(n, s, q);
    PathIsSound(q, n, s, first, led);
    SoundSize(n, led);
    var second, t;
    second, t, index, entry := CommandCommits(n, led, v, q, command);
    FollowsJoin(q, s, first, led, second, t);
    more := first + second;
    longer := RunGoesOn(q, n, run, actions, more, t);
  }

  lemma SoundSize(n: nat, s: Cluster)
    requires Sound(n, s)
    ensures |s.nodes| == n
  {
  }
}
