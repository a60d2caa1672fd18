/**
 Elections can succeed: from every reachable state, any majority of servers that
 can talk to each other can make one of its members leader.
 */
module RaftCampaign {
  import opened Options
  import opened FiniteSets
  import opened RaftState
  import opened RaftCluster
  import opened RaftElection
  import opened RaftLogs
  import opened RaftPaths

  // ---------------------------------------------------------------------
  // Whose log is up to date

  /** Of two servers, at least one would get the other's vote as far as logs go. */
  lemma UpToDateIsTotal(a: Node, b: Node)
    ensures UpToDate(VoteArgsOf(a), b.log) || UpToDate(VoteArgsOf(b), a.log)
  {
  }

  lemma UpToDateIsTransitive(a: Node, b: Node, c: Node)
    requires UpToDate(VoteArgsOf(b), a.log) && UpToDate(VoteArgsOf(c), b.log)
    ensures UpToDate(VoteArgsOf(c), a.log)
  {
  }

  /** In every nonempty set of servers there is one whose log every other finds up to date. */
  lemma SomeoneIsElectable(s: Cluster, q: set<nat>) returns (v: nat)
    requires q != {} && q <= Range(|s.nodes|)
    ensures v in q && forall u :: u in q ==> UpToDate(VoteArgsOf(s.nodes[v]), s.nodes[u].log)
  {
    hide UpToDate, VoteArgsOf;
    var leq := (u: nat, w: nat) =>
      u < |s.nodes| && w < |s.nodes| && UpToDate(VoteArgsOf(s.nodes[w]), s.nodes[u].log);
    forall a, b | a in q && b in q
      ensures leq(a, b) || leq(b, a)
    {
      UpToDateIsTotal(s.nodes[a], s.nodes[b]);
    }
    forall a, b, c | a in q && b in q && c in q && leq(a, b) && leq(b, c)
      ensures leq(a, c)
    {
      UpToDateIsTransitive(s.nodes[a], s.nodes[b], s.nodes[c]);
    }
    v := Greatest(q, leq);
  }

  lemma SomeoneIsLatest(s: Cluster, q: set<nat>) returns (v: nat)
    requires q != {} && q <= Range(|s.nodes|)
    ensures v in q && forall u :: u in q ==> s.nodes[u].term <= s.nodes[v].term
  {
    v := Greatest(q, (u: nat, w: nat) => u < |s.nodes| && w < |s.nodes| && s.nodes[u].term <= s.nodes[w].term);
  }

  /** A request of a later term is granted exactly when the log is up to date, and moves the server to that term. */
  lemma LaterTermVote(nd: Node, args: VoteArgs)
    requires args.term > nd.term
    ensures var (after, reply) := HandleVote(nd, args);
            && (reply.granted <==> UpToDate(args, nd.log)) && reply.term == nd.term
            && after.term == args.term && after.role == Follower && after.log == nd.log
            && after.me == nd.me && after.peers == nd.peers
  {
  }

  /** So every nonempty set of servers has a member whose request, in any term later than theirs, all of them grant. */
  lemma SomeoneIsGranted(s: Cluster, q: set<nat>, term: int) returns (v: nat)
    requires q != {} && q <= Range(|s.nodes|) && forall u :: u in q ==> s.nodes[u].term < term
    ensures v in q
    ensures forall u :: u in q ==> HandleVote(s.nodes[u], VoteArgsOf(s.nodes[v]).(term := term)).1.granted
  {
    v := SomeoneIsElectable(s, q);
    var args := VoteArgsOf(s.nodes[v]).(term := term);
    hide VoteArgsOf, HandleVote;
    forall u | u in q
      ensures HandleVote(s.nodes[u], args).1.granted
    {
      LaterTermVote(s.nodes[u], args);
    }
  }

  // ---------------------------------------------------------------------
  // A campaign

  /** The requests of candidate `c` in `term` have reached the servers `d`. */
  ghost predicate Asked(s: Cluster, t: Cluster, c: nat, term: int, args: VoteArgs, d: set<nat>) {
    && |t.nodes| == |s.nodes| && t.appends == s.appends
    && (forall u: nat :: u < |s.nodes| && u !in d ==> t.nodes[u] == s.nodes[u])
    && (forall u :: u in d ==>
          && u < |s.nodes| && t.nodes[u] == HandleVote(s.nodes[u], args).0
          && VoteKey(c, term, u) in t.ballots
          && t.ballots[VoteKey(c, term, u)] == VoteCall(args, Some(HandleVote(s.nodes[u], args).1)))
    && (forall k :: k in s.ballots && !(k.candidate == c && k.term == term && k.peer in d) ==>
          k in t.ballots && t.ballots[k] == s.ballots[k])
  }

  ghost predicate Pending(s: Cluster, c: nat, term: int, args: VoteArgs, d: set<nat>) {
    forall u :: u in d ==>
      u < |s.nodes| && VoteKey(c, term, u) in s.ballots && s.ballots[VoteKey(c, term, u)] == VoteCall(args, None)
  }

  lemma AskedNobody(s: Cluster, c: nat, term: int, args: VoteArgs)
    ensures Asked(s, s, c, term, args, {})
  {
  }

  lemma AskOne(q: set<nat>, s: Cluster, c: nat, term: int, args: VoteArgs, u: nat, d: set<nat>) returns (t: Cluster)
    requires Pending(s, c, term, args, d) && u in d && c in q && d <= q
    ensures Follows(q, s, [DeliverVote(VoteKey(c, term, u))], t)
    ensures Asked(s, t, c, term, args, {u}) && Pending(t, c, term, args, d - {u})
  {
    hide HandleVote;
    t := Do(s, DeliverVote(VoteKey(c, term, u)));
    FollowsOne(q, s, DeliverVote(VoteKey(c, term, u)));
    hide Follows;
  }

  lemma AskedBoth(
    s: Cluster, t: Cluster, u: Cluster, c: nat, term: int, args: VoteArgs, d: set<nat>, e: set<nat>)
    requires Asked(s, t, c, term, args, d) && Asked(t, u, c, term, args, e) && d !! e
    ensures Asked(s, u, c, term, args, d + e)
  {
    hide HandleVote;
  }

  lemma {:induction false} AskAll(q: set<nat>, s: Cluster, c: nat, term: int, args: VoteArgs, d: set<nat>)
    returns (actions: seq<Action>, t: Cluster)
    requires Pending(s, c, term, args, d) && c in q && d <= q
    ensures Follows(q, s, actions, t) && Asked(s, t, c, term, args, d)
    decreases |d|
  {
    hide Follows, Asked, Pending;
    if d == {} {
      actions, t := [], s;
      AskedNobody(s, c, term, args);
      StaysPut(q, s);
    } else {
      var u :| u in d;
      var next := AskOne(q, s, c, term, args, u, d);
      var rest;
      rest, t := AskAll(q, next, c, term, args, d - {u});
      actions := [DeliverVote(VoteKey(c, term, u))] + rest;
      FollowsJoin(q, s, [DeliverVote(VoteKey(c, term, u))], next, rest, t);
      AskedBoth(s, next, t, c, term, args, {u}, d - {u});
      assert {u} + (d - {u}) == d;
    }
  }

  /** `u` was asked by candidate `c` for its vote in the next term, and has answered. */
  ghost predicate Polled(s: Cluster, t: Cluster, c: nat, u: nat) {
    && c < |s.nodes| && u < |s.nodes| == |t.nodes|
    && var args := VoteArgsOf(Elect(s.nodes[c]));
       && t.nodes[u] == HandleVote(s.nodes[u], args).0
       && VoteKey(c, args.term, u) in t.ballots
       && t.ballots[VoteKey(c, args.term, u)] == VoteCall(args, Some(HandleVote(s.nodes[u], args).1))
  }

  /** `c` stands for election and asks the others in `q`. */
  lemma Campaign(n: nat, s: Cluster, c: nat, q: set<nat>) returns (actions: seq<Action>, t: Cluster)
    requires Shape(n, s) && c in q && q <= Range(n) && s.nodes[c].role != Leader
    ensures Follows(q, s, actions, t) && |t.nodes| == n && t.nodes[c] == Elect(s.nodes[c]) && t.appends == s.appends
    ensures forall u :: u in q && u != c ==> Polled(s, t, c, u)
  {
    var stood := Stand(q, n, s, c);
    var args := VoteArgsOf(Elect(s.nodes[c]));
    hide Follows, HandleVote, Elect, Shape, VoteArgsOf;
    var rest;
    rest, t := AskAll(q, stood, c, args.term, args, q - {c});
    actions := [Timeout(c)] + rest;
    FollowsJoin(q, s, [Timeout(c)], stood, rest, t);
  }

  lemma Stand(q: set<nat>, n: nat, s: Cluster, c: nat) returns (t: Cluster)
    requires Shape(n, s) && c < n && c in q && s.nodes[c].role != Leader
    ensures Follows(q, s, [Timeout(c)], t) && t.nodes == s.nodes[c := Elect(s.nodes[c])] && t.appends == s.appends
    ensures var args := VoteArgsOf(Elect(s.nodes[c])); Pending(t, c, args.term, args, Range(n) - {c})
  {
    assert NodeShape(n, c, s.nodes[c]);
    t := Do(s, Timeout(c));
    FollowsOne(q, s, Timeout(c));
    hide Follows;
  }

  // ---------------------------------------------------------------------
  // Counting the votes

  /** The servers `d` have granted the vote that `c` asked for in its present term. */
  ghost predicate Granted(s: Cluster, c: nat, term: int, d: set<nat>) {
    forall u :: u in d ==>
      && VoteKey(c, term, u) in s.ballots && s.ballots[VoteKey(c, term, u)].args.term == term
      && s.ballots[VoteKey(c, term, u)].reply.Some?
      && s.ballots[VoteKey(c, term, u)].reply.value.granted
      && s.ballots[VoteKey(c, term, u)].reply.value.term <= term
  }

  /** A candidate that has counted its votes, or a leader. */
  ghost predicate Standing(nd: Node, n: nat, term: int) {
    nd.peers == n && nd.term == term && (nd.role == Leader || (nd.role == Candidate && nd.votes <= n / 2))
  }

  lemma OneVote(nd: Node, n: nat, term: int, args: VoteArgs, reply: VoteReply)
    requires Standing(nd, n, term) && args.term == term && reply.granted && reply.term <= term
    ensures var after := HandleVoteReply(nd, args, reply);
            && Standing(after, n, term) && after.log == nd.log
            && (nd.role == Leader ==> after == nd)
            && (after.role == Candidate ==> nd.role == Candidate && after.votes == nd.votes + 1)
  {
  }

  lemma CountOne(q: set<nat>, n: nat, s: Cluster, c: nat, term: int, u: nat, d: set<nat>) returns (t: Cluster)
    requires c < |s.nodes| && Granted(s, c, term, d) && u in d && Standing(s.nodes[c], n, term) && c in q && d <= q
    ensures Follows(q, s, [ReturnVote(VoteKey(c, term, u))], t) && Granted(t, c, term, d - {u})
    ensures |t.nodes| == |s.nodes| && t.nodes == s.nodes[c := t.nodes[c]] && t.appends == s.appends
    ensures Standing(t.nodes[c], n, term) && t.nodes[c].log == s.nodes[c].log
    ensures t.nodes[c].role == Candidate ==>
              s.nodes[c].role == Candidate && t.nodes[c].votes == s.nodes[c].votes + 1
  {
    var k := VoteKey(c, term, u);
    OneVote(s.nodes[c], n, term, s.ballots[k].args, s.ballots[k].reply.value);
    hide HandleVoteReply, Standing;
    t := Do(s, ReturnVote(k));
    FollowsOne(q, s, ReturnVote(k));
    hide Follows;
  }

  lemma {:induction false} CountAll(q: set<nat>, n: nat, s: Cluster, c: nat, term: int, d: set<nat>)
    returns (actions: seq<Action>, t: Cluster)
    requires c < |s.nodes| && Granted(s, c, term, d) && Standing(s.nodes[c], n, term) && c in q && d <= q
    ensures Follows(q, s, actions, t) && |t.nodes| == |s.nodes| && t.nodes == s.nodes[c := t.nodes[c]]
    ensures t.appends == s.appends && Standing(t.nodes[c], n, term) && t.nodes[c].log == s.nodes[c].log
    ensures t.nodes[c].role == Candidate ==>
              s.nodes[c].role == Candidate && t.nodes[c].votes == s.nodes[c].votes + |d|
    decreases |d|
  {
    hide Follows, Granted, Standing;
    if d == {} {
      actions, t := [], s;
      StaysPut(q, s);
    } else {
      var u :| u in d;
      var next := CountOne(q, n, s, c, term, u, d);
      var rest;
      rest, t := CountAll(q, n, next, c, term, d - {u});
      actions := [ReturnVote(VoteKey(c, term, u))] + rest;
      FollowsJoin(q, s, [ReturnVote(VoteKey(c, term, u))], next, rest, t);
    }
  }

  // ---------------------------------------------------------------------
  // An election

  lemma VoteIsGranted(s: Cluster, t: Cluster, v: nat, u: nat)
    requires Polled(s, t, v, u) && s.nodes[u].term <= s.nodes[v].term
    requires UpToDate(VoteArgsOf(s.nodes[v]), s.nodes[u].log)
    ensures Granted(t, v, s.nodes[v].term + 1, {u})
    ensures t.nodes[u].term == s.nodes[v].term + 1 && t.nodes[u].log == s.nodes[u].log
  {
    hide HandleVote, UpToDate;
    SameLogs(s.nodes[v], s.nodes[u].log);
    LaterTermVote(s.nodes[u], VoteArgsOf(Elect(s.nodes[v])));
  }

  lemma AllGranted(s: Cluster, c: nat, term: int, d: set<nat>)
    requires forall u :: u in d ==> Granted(s, c, term, {u})
    ensures Granted(s, c, term, d)
  {
    forall u | u in d
      ensures u in {u} && Granted(s, c, term, {u})
    {
    }
  }

  /** A member that nobody in the majority is ahead of, in term or in log, gets all its votes. */
  lemma IsGranted(n: nat, s: Cluster, v: nat, q: set<nat>) returns (actions: seq<Action>, t: Cluster)
    requires Shape(n, s) && v in q && q <= Range(n) && s.nodes[v].role != Leader
    requires forall u :: u in q ==> s.nodes[u].term <= s.nodes[v].term
    requires forall u :: u in q ==> UpToDate(VoteArgsOf(s.nodes[v]), s.nodes[u].log)
    ensures Follows(q, s, actions, t) && |t.nodes| == n && t.appends == s.appends
    ensures t.nodes[v] == Elect(s.nodes[v]) && Granted(t, v, s.nodes[v].term + 1, q - {v})
    ensures forall u :: u in q && u != v ==>
              t.nodes[u].term == s.nodes[v].term + 1 && t.nodes[u].log == s.nodes[u].log
  {
    assert |s.nodes| == n;
    hide Follows, UpToDate, Shape, Granted, Polled, VoteArgsOf, Elect;
    actions, t := Campaign(n, s, v, q);
    forall u | u in q && u != v
      ensures t.nodes[u].term == s.nodes[v].term + 1 && t.nodes[u].log == s.nodes[u].log
      ensures Granted(t, v, s.nodes[v].term + 1, {u})
    {
      VoteIsGranted(s, t, v, u);
    }
    AllGranted(t, v, s.nodes[v].term + 1, q - {v});
  }

  lemma ElectStands(n: nat, s: Cluster, v: nat)
    requires Shape(n, s) && v < n && n >= 2
    ensures Standing(Elect(s.nodes[v]), n, s.nodes[v].term + 1) && Elect(s.nodes[v]).votes == 1
    ensures Elect(s.nodes[v]).role == Candidate && Elect(s.nodes[v]).log == s.nodes[v].log
  {
    assert NodeShape(n, v, s.nodes[v]);
  }

  /** It wins. */
  lemma Wins(n: nat, s: Cluster, v: nat, q: set<nat>) returns (actions: seq<Action>, t: Cluster)
    requires Shape(n, s) && n >= 2 && v in q && q <= Range(n) && 2 * |q| > n && s.nodes[v].role != Leader
    requires forall u :: u in q ==> s.nodes[u].term <= s.nodes[v].term
    requires forall u :: u in q ==> UpToDate(VoteArgsOf(s.nodes[v]), s.nodes[u].log)
    ensures Follows(q, s, actions, t) && |t.nodes| == n && t.nodes[v].role == Leader && t.appends == s.appends
    ensures forall u :: u in q ==> t.nodes[u].term == s.nodes[v].term + 1 && t.nodes[u].log == s.nodes[u].log
  {
    assert |s.nodes| == n;
    hide Follows, UpToDate, Shape, Granted, Elect, VoteArgsOf;
    var campaign, asked := IsGranted(n, s, v, q);
    ElectStands(n, s, v);
    var count;
    count, t := CountAll(q, n, asked, v, s.nodes[v].term + 1, q - {v});
    actions := campaign + count;
    FollowsJoin(q, s, campaign, asked, count, t);
  }

  lemma SameLogs(nd: Node, log: Log)
    requires UpToDate(VoteArgsOf(nd), log)
    ensures UpToDate(VoteArgsOf(Elect(nd)), log)
  {
  }

  /** A member of the latest term that does not lead makes all others in the majority followers of a later term. */
  lemma Unseats(n: nat, s: Cluster, m: nat, q: set<nat>) returns (actions: seq<Action>, t: Cluster)
    requires Shape(n, s) && m in q && q <= Range(n) && s.nodes[m].role != Leader
    requires forall u :: u in q ==> s.nodes[u].term <= s.nodes[m].term
    ensures Follows(q, s, actions, t) && |t.nodes| == n && t.appends == s.appends
    ensures forall u :: u in q ==>
              t.nodes[u].role != Leader && t.nodes[u].term == s.nodes[m].term + 1 && t.nodes[u].log == s.nodes[u].log
  {
    assert |s.nodes| == n;
    hide Follows, HandleVote, Shape;
    actions, t := Campaign(n, s, m, q);
    forall u | u in q
      ensures t.nodes[u].role != Leader && t.nodes[u].term == s.nodes[m].term + 1 && t.nodes[u].log == s.nodes[u].log
    {
      if u != m {
        LaterTermVote(s.nodes[u], VoteArgsOf(Elect(s.nodes[m])));
      }
    }
  }

  /** Some member of the majority leads, and no other member is ahead of it in term. */
  ghost predicate Leads(s: Cluster, v: nat, q: set<nat>) {
    && v in q && v < |s.nodes| && s.nodes[v].role == Leader
    && forall u :: u in q ==> u < |s.nodes| && s.nodes[u].term <= s.nodes[v].term
  }

  lemma SomeoneCanLead(n: nat, s: Cluster, q: set<nat>) returns (actions: seq<Action>, t: Cluster, v: nat)
    requires Shape(n, s) && n >= 2 && q <= Range(n) && 2 * |q| > n
    ensures Follows(q, s, actions, t) && Leads(t, v, q) && t.appends == s.appends
  {
    assert |s.nodes| == n;
    hide Follows, Shape;
    var m := SomeoneIsLatest(s, q);
    if s.nodes[m].role == Leader {
      actions, t, v := [], s, m;
      StaysPut(q, s);
    } else {
      var first, unseated := Unseats(n, s, m, q);
      PathIsShaped(q, n, s, first, unseated);
      v := SomeoneIsElectable(unseated, q);
      var second;
      second, t := Wins(n, unseated, v, q);
      actions := first + second;
      FollowsJoin(q, s, first, unseated, second, t);
    }
  }

  /**
   Every run of two or more servers can go on, without loss or restart and with
   steps of the given majority only, until one of it leads.
   */
  lemma ElectionIsPossible(n: nat, run: seq<Cluster>, actions: seq<Action>, q: set<nat>)
    returns (longer: seq<Cluster>, more: seq<Action>, v: nat)
    requires Run(n, run, actions) && |run| == |actions| + 1 && n >= 2 && q <= Range(n) && 2 * |q| > n
    ensures Run(n, longer, actions + more) && |longer| == |actions + more| + 1 && run <= longer
    ensures Leads(longer[|actions + more|], v, q) && OnlyAmong(q, longer, actions + more, |actions|)
    ensures LedRun(n, run, actions) ==> LedRun(n, longer, actions + more)
    ensures OrderedRun(n, run, actions) ==> OrderedRun(n, longer, actions + more)
  {
    hide Run, Follows, Shape, ElectionInv, Leads, OnlyAmong;
    EveryState(n, run, actions, |actions|);
    var t;
    more, t, v := SomeoneCanLead(n, run[|actions|], q);
    longer := RunGoesOn(q, n, run, actions, more, t);
  }

  // ---------------------------------------------------------------------
  // A server on its own

  ghost predicate Alone(s: Cluster) {
    |s.nodes| == 1 && s.ballots == map[] && s.appends == map[] && s.nodes[0].role != Leader
  }

  lemma StaysAlone(s: Cluster, a: Action)
    requires Shape(1, s) && Alone(s) && Enabled(s, a) && Safe(s, a)
    ensures Alone(Do(s, a))
  {
    assert NodeShape(1, 0, s.nodes[0]);
    hide Shape;
  }

  /** Votes are counted when a reply comes: a single server never gets one and never leads. */
  lemma {:induction false} LoneServerNeverLeads(run: seq<Cluster>, actions: seq<Action>, i: nat)
    requires Run(1, run, actions) && i < |run|
    ensures Alone(run[i]) && run[i].nodes[0].role != Leader
  {
    if i > 0 {
      hide Shape, ElectionInv, Enabled, Safe, Do, Init;
      LoneServerNeverLeads(run, actions, i - 1);
      EveryState(1, run, actions, i - 1);
      RunStep(1, run, actions, i - 1);
      StaysAlone(run[i - 1], actions[i - 1]);
    }
  }
}
