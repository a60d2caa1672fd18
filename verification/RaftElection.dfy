/**
 Election Safety (section 5.2 of the extended Raft paper): over every run of
 the cluster, at most one server ever is leader of a term.  Nothing is assumed
 of the network beyond "a call is answered at most once".
 */
module RaftElection {
  import opened RaftState
  import opened RaftCluster
  import opened FiniteSets

  /** The servers that voted for `c` in `term`. */
  ghost function Supporters(s: Cluster, c: nat, term: int): set<nat> {
    set v | v in Range(|s.nodes|) && (v, term) in s.cast && s.cast[(v, term)] == c
  }

  /** Those of them whose answer is no longer on its way. */
  ghost function Counted(s: Cluster, c: nat, term: int): set<nat> {
    set v | v in Supporters(s, c, term) && VoteKey(c, term, v) !in s.ballots
  }

  /** A server's memory agrees with the votes it has cast. */
  ghost predicate VoteMemory(s: Cluster, v: nat)
    requires v < |s.nodes|
  {
    var nd := s.nodes[v];
    && (forall term :: (v, term) in s.cast ==> term <= nd.term)
    && ((v, nd.term) in s.cast ==> nd.votedFor == s.cast[(v, nd.term)])
    && (nd.votedFor != -1 ==> (v, nd.term) in s.cast)
  }

  ghost predicate BallotOk(s: Cluster, k: VoteKey)
    requires k in s.ballots
  {
    var call := s.ballots[k];
    && k.candidate < |s.nodes| && k.peer < |s.nodes| && k.peer != k.candidate
    && call.args.term == k.term && call.args.candidate == k.candidate && k.term <= s.nodes[k.candidate].term
    && (call.reply.Some? && call.reply.value.granted ==>
          (k.peer, k.term) in s.cast && s.cast[(k.peer, k.term)] == k.candidate)
  }

  ghost predicate RoleOk(s: Cluster, v: nat)
    requires v < |s.nodes|
  {
    var nd := s.nodes[v];
    && (nd.role == Candidate ==> nd.votes <= |Counted(s, v, nd.term)|)
    && (nd.role == Leader ==> nd.term in s.leaders && s.leaders[nd.term] == v)
  }

  ghost predicate Elected(s: Cluster, term: int)
    requires term in s.leaders
  {
    |Supporters(s, s.leaders[term], term)| > |s.nodes| / 2
  }

  ghost predicate ElectionInv(s: Cluster) {
    && (forall v: nat :: v < |s.nodes| ==> s.nodes[v].me == v && s.nodes[v].peers == |s.nodes|)
    && (forall v: nat :: v < |s.nodes| ==> VoteMemory(s, v))
    && (forall v: nat :: v < |s.nodes| ==> RoleOk(s, v))
    && (forall k :: k in s.ballots ==> BallotOk(s, k))
    && (forall term :: term in s.leaders ==> Elected(s, term))
  }

  // ---------------------------------------------------------------------
  // Two majorities share a server

  lemma MajoritiesMeet(a: set<nat>, b: set<nat>, n: nat) returns (v: nat)
    requires a <= Range(n) && b <= Range(n) && |a| > n / 2 && |b| > n / 2
    ensures v in a && v in b
  {
    RangeCardinality(n);
    if a * b == {} {
      assert |a + b| == |a| + |b|;
      SubsetCardinality(a + b, Range(n));
    }
    v :| v in a * b;
  }

  /** Two servers cannot both have a majority of the votes of a term. */
  lemma OneMajority(s: Cluster, c: nat, d: nat, term: int)
    requires |Supporters(s, c, term)| > |s.nodes| / 2 && |Supporters(s, d, term)| > |s.nodes| / 2
    ensures c == d
  {
    var v := MajoritiesMeet(Supporters(s, c, term), Supporters(s, d, term), |s.nodes|);
  }

  // ---------------------------------------------------------------------
  // Steps that cast no vote and count none

  /** Term and vote stay, or the term grows and the vote is free again; no role is gained. */
  ghost predicate Quiet(nd: Node, after: Node) {
    && after.me == nd.me && after.peers == nd.peers
    && ( || (after.term == nd.term && after.votedFor == nd.votedFor
             && (after.role == Follower || (after.role == nd.role && after.votes == nd.votes)))
         || (after.term > nd.term && after.votedFor == -1 && after.role == Follower))
  }

  lemma AppendIsQuiet(nd: Node, args: AppendArgs)
    requires nd.log != [] && args.prevIndex >= -1
    ensures Quiet(nd, HandleAppend(nd, args).0)
  {
  }

  lemma AppendReplyIsQuiet(nd: Node, server: nat, args: AppendArgs, reply: AppendReply)
    requires nd.peers <= |nd.matched| && 0 <= nd.commit && nd.log != []
    requires server < |nd.next| && server < |nd.matched|
    ensures Quiet(nd, HandleAppendReply(nd, server, args, reply))
  {
  }

  lemma SubmitIsQuiet(nd: Node, command: Command)
    ensures Quiet(nd, Submit(nd, command))
  {
  }

  lemma RestartIsQuiet(n: nat, v: nat, nd: Node)
    requires NodeShape(n, v, nd)
    ensures Quiet(nd, Made(v, nd.peers, nd.saved))
  {
  }

  lemma CountedGrows(s: Cluster, t: Cluster, c: nat, term: int)
    requires |t.nodes| == |s.nodes|
    requires forall x :: x in s.cast ==> x in t.cast && t.cast[x] == s.cast[x]
    requires forall v: nat :: VoteKey(c, term, v) in t.ballots ==> VoteKey(c, term, v) in s.ballots
    ensures Supporters(s, c, term) <= Supporters(t, c, term)
    ensures |Supporters(s, c, term)| <= |Supporters(t, c, term)|
    ensures Counted(s, c, term) <= Counted(t, c, term)
    ensures |Counted(s, c, term)| <= |Counted(t, c, term)|
  {
    SubsetCardinality(Supporters(s, c, term), Supporters(t, c, term));
    SubsetCardinality(Counted(s, c, term), Counted(t, c, term));
  }

  /** Quiet changes of the servers, with calls lost but none added. */
  lemma QuietCluster(s: Cluster, t: Cluster)
    requires ElectionInv(s) && |s.nodes| == |t.nodes|
    requires forall u :: 0 <= u < |s.nodes| ==> Quiet(s.nodes[u], t.nodes[u])
    requires t.cast == s.cast && t.leaders == s.leaders
    requires forall k :: k in t.ballots ==> k in s.ballots && t.ballots[k] == s.ballots[k]
    ensures ElectionInv(t)
  {
    forall u: nat | u < |t.nodes|
      ensures VoteMemory(t, u) && RoleOk(t, u)
    {
      assert VoteMemory(s, u) && RoleOk(s, u) && Quiet(s.nodes[u], t.nodes[u]);
      CountedGrows(s, t, u, t.nodes[u].term);
    }
    forall k | k in t.ballots
      ensures BallotOk(t, k)
    {
      assert BallotOk(s, k) && Quiet(s.nodes[k.candidate], t.nodes[k.candidate]);
    }
    StillElected(s, t);
  }

  lemma QuietStep(s: Cluster, t: Cluster, v: nat)
    requires ElectionInv(s) && v < |s.nodes| == |t.nodes| && Quiet(s.nodes[v], t.nodes[v])
    requires forall u :: 0 <= u < |s.nodes| && u != v ==> t.nodes[u] == s.nodes[u]
    requires t.cast == s.cast && t.leaders == s.leaders
    requires forall k :: k in t.ballots ==> k in s.ballots && t.ballots[k] == s.ballots[k]
    ensures ElectionInv(t)
  {
    assert forall u :: 0 <= u < |s.nodes| && u != v ==> Quiet(s.nodes[u], t.nodes[u]);
    hide ElectionInv, Quiet;
    QuietCluster(s, t);
  }

  lemma SupportersGrow(s: Cluster, t: Cluster, c: nat, term: int)
    requires |t.nodes| == |s.nodes|
    requires forall x :: x in s.cast ==> x in t.cast && t.cast[x] == s.cast[x]
    ensures |Supporters(s, c, term)| <= |Supporters(t, c, term)|
  {
    assert Supporters(s, c, term) <= Supporters(t, c, term);
    SubsetCardinality(Supporters(s, c, term), Supporters(t, c, term));
  }

  lemma StillElected(s: Cluster, t: Cluster)
    requires ElectionInv(s) && |t.nodes| == |s.nodes| && t.leaders == s.leaders
    requires forall x :: x in s.cast ==> x in t.cast && t.cast[x] == s.cast[x]
    ensures forall term :: term in t.leaders ==> Elected(t, term)
  {
    forall term | term in t.leaders
      ensures Elected(t, term)
    {
      assert Elected(s, term);
      SupportersGrow(s, t, t.leaders[term], term);
    }
  }

  // ---------------------------------------------------------------------
  // Starting an election

  lemma OwnVoteCounts(t: Cluster, v: nat, term: int)
    requires v < |t.nodes| && (v, term) in t.cast && t.cast[(v, term)] == v && VoteKey(v, term, v) !in t.ballots
    ensures 1 <= |Counted(t, v, term)|
  {
    assert v in Range(|t.nodes|);
    assert {v} <= Counted(t, v, term);
    SubsetCardinality({v}, Counted(t, v, term));
  }

  lemma TimeoutStep(s: Cluster, v: nat)
    requires ElectionInv(s) && Enabled(s, Timeout(v))
    ensures ElectionInv(Do(s, Timeout(v)))
  {
    var t := Do(s, Timeout(v));
    var term := t.nodes[v].term;
    assert VoteMemory(s, v);
    assert (v, term) !in s.cast;
    assert forall k :: k in s.ballots ==> BallotOk(s, k) && k.peer != k.candidate;
    assert VoteKey(v, term, v) !in s.ballots;
    OwnVoteCounts(t, v, term);
    forall u: nat | u < |t.nodes|
      ensures VoteMemory(t, u) && RoleOk(t, u)
    {
      assert VoteMemory(s, u) && RoleOk(s, u);
      if u != v {
        CountedGrows(s, t, u, t.nodes[u].term);
      }
    }
    forall k | k in t.ballots
      ensures BallotOk(t, k)
    {
      assert k in s.ballots ==> BallotOk(s, k);
    }
    StillElected(s, t);
  }

  // ---------------------------------------------------------------------
  // Casting a vote

  lemma VoteCast(nd: Node, args: VoteArgs)
    ensures var (after, reply) := HandleVote(nd, args);
            && (!reply.granted ==> Quiet(nd, after))
            && (reply.granted ==> after.term == args.term >= nd.term && after.votedFor == args.candidate)
            && (reply.granted && args.term == nd.term ==> nd.votedFor == -1 || nd.votedFor == args.candidate)
            && after.me == nd.me && after.peers == nd.peers
            && (after.role == Follower || (after.role == nd.role && after.votes == nd.votes && after.term == nd.term))
  {
  }

  lemma CastOnce(s: Cluster, k: VoteKey)
    requires ElectionInv(s) && Enabled(s, DeliverVote(k)) && HandleVote(s.nodes[k.peer], s.ballots[k].args).1.granted
    ensures var x := (k.peer, k.term); x in s.cast ==> s.cast[x] == k.candidate
  {
    assert BallotOk(s, k) && VoteMemory(s, k.peer);
    VoteCast(s.nodes[k.peer], s.ballots[k].args);
  }

  lemma DeliverVoteNode(s: Cluster, t: Cluster, k: VoteKey, u: nat)
    requires ElectionInv(s) && Enabled(s, DeliverVote(k)) && t == Do(s, DeliverVote(k)) && u < |s.nodes|
    requires forall x :: x in s.cast ==> x in t.cast && t.cast[x] == s.cast[x]
    ensures VoteMemory(t, u) && RoleOk(t, u)
  {
    assert BallotOk(s, k) && VoteMemory(s, u) && RoleOk(s, u);
    VoteCast(s.nodes[k.peer], s.ballots[k].args);
    hide HandleVote, ElectionInv;
    CountedGrows(s, t, u, t.nodes[u].term);
  }

  lemma DeliverVoteStep(s: Cluster, k: VoteKey)
    requires ElectionInv(s) && Enabled(s, DeliverVote(k))
    ensures ElectionInv(Do(s, DeliverVote(k)))
  {
    var t := Do(s, DeliverVote(k));
    assert BallotOk(s, k);
    VoteCast(s.nodes[k.peer], s.ballots[k].args);
    if HandleVote(s.nodes[k.peer], s.ballots[k].args).1.granted {
      CastOnce(s, k);
    }
    hide HandleVote, VoteMemory, RoleOk, Elected;
    forall u: nat | u < |t.nodes|
      ensures VoteMemory(t, u) && RoleOk(t, u)
    {
      DeliverVoteNode(s, t, k, u);
    }
    forall l | l in t.ballots
      ensures BallotOk(t, l)
    {
      assert BallotOk(s, l);
    }
    StillElected(s, t);
  }

  // ---------------------------------------------------------------------
  // Counting a vote

  lemma OneMoreCounted(s: Cluster, t: Cluster, k: VoteKey)
    requires k in s.ballots && BallotOk(s, k) && s.ballots[k].reply.Some? && s.ballots[k].reply.value.granted
    requires |t.nodes| == |s.nodes| && t.cast == s.cast && t.ballots == s.ballots - {k}
    ensures |Counted(t, k.candidate, k.term)| == |Counted(s, k.candidate, k.term)| + 1
  {
    assert k.peer in Range(|s.nodes|);
    assert k == VoteKey(k.candidate, k.term, k.peer);
    assert Counted(t, k.candidate, k.term) == Counted(s, k.candidate, k.term) + {k.peer};
  }

  lemma VoteReplyCases(nd: Node, args: VoteArgs, reply: VoteReply)
    ensures var after := HandleVoteReply(nd, args, reply);
            || Quiet(nd, after)
            || (&& args.term == nd.term && nd.role == Candidate && reply.granted
                && after.votes == nd.votes + 1 && after.term == nd.term && after.votedFor == nd.votedFor
                && after.me == nd.me && after.peers == nd.peers
                && after.role == if after.votes > nd.peers / 2 then Leader else Candidate)
  {
  }

  /** The winner of an election: nobody else can be on record for the term. */
  lemma WinnerIsAlone(s: Cluster, t: Cluster, v: nat, term: int)
    requires ElectionInv(s) && |t.nodes| == |s.nodes| && t.cast == s.cast && v < |s.nodes|
    requires |Counted(t, v, term)| > |s.nodes| / 2
    ensures |Supporters(t, v, term)| > |t.nodes| / 2
    ensures term in s.leaders ==> s.leaders[term] == v
  {
    SubsetCardinality(Counted(t, v, term), Supporters(t, v, term));
    assert Supporters(t, v, term) == Supporters(s, v, term);
    if term in s.leaders {
      assert Elected(s, term);
      OneMajority(s, v, s.leaders[term], term);
    }
  }

  /** The candidate after a vote that counts. */
  lemma CountVoteNode(s: Cluster, t: Cluster, k: VoteKey)
    requires ElectionInv(s) && Enabled(s, ReturnVote(k)) && t == Do(s, ReturnVote(k))
    requires !Quiet(s.nodes[k.candidate], t.nodes[k.candidate])
    ensures var (v, nd, after) := (k.candidate, s.nodes[k.candidate], t.nodes[k.candidate]);
            && VoteMemory(t, v) && RoleOk(t, v) && nd.role == Candidate && after.term == nd.term
            && after.me == nd.me && after.peers == nd.peers && t.cast == s.cast
            && t.leaders == (if after.role == Leader then s.leaders[after.term := v] else s.leaders)
            && (after.role == Leader ==>
                  && |Supporters(t, v, after.term)| > |t.nodes| / 2
                  && (after.term in s.leaders ==> s.leaders[after.term] == v))
  {
    var v := k.candidate;
    assert BallotOk(s, k) && RoleOk(s, v) && VoteMemory(s, v);
    VoteReplyCases(s.nodes[v], s.ballots[k].args, s.ballots[k].reply.value);
    hide HandleVoteReply;
    OneMoreCounted(s, t, k);
    if t.nodes[v].role == Leader {
      WinnerIsAlone(s, t, v, t.nodes[v].term);
    }
  }

  lemma CountVoteStep(s: Cluster, t: Cluster, k: VoteKey)
    requires ElectionInv(s) && Enabled(s, ReturnVote(k)) && t == Do(s, ReturnVote(k))
    requires !Quiet(s.nodes[k.candidate], t.nodes[k.candidate])
    ensures ElectionInv(t)
    ensures forall term :: term in s.leaders ==> term in t.leaders && t.leaders[term] == s.leaders[term]
  {
    CountVoteNode(s, t, k);
    hide HandleVoteReply, Quiet;
    forall u: nat | u < |t.nodes|
      ensures VoteMemory(t, u) && RoleOk(t, u)
    {
      if u != k.candidate {
        assert VoteMemory(s, u) && RoleOk(s, u);
        CountedGrows(s, t, u, t.nodes[u].term);
      }
    }
    forall l | l in t.ballots
      ensures BallotOk(t, l)
    {
      assert BallotOk(s, l);
    }
    forall term | term in t.leaders
      ensures Elected(t, term)
    {
      if term in s.leaders {
        assert Elected(s, term);
        SupportersGrow(s, t, s.leaders[term], term);
      }
    }
  }

  lemma ReturnVoteStep(s: Cluster, k: VoteKey)
    requires ElectionInv(s) && Enabled(s, ReturnVote(k))
    ensures var t := Do(s, ReturnVote(k));
            ElectionInv(t) && forall term :: term in s.leaders ==>
              term in t.leaders && t.leaders[term] == s.leaders[term]
  {
    var t := Do(s, ReturnVote(k));
    if Quiet(s.nodes[k.candidate], t.nodes[k.candidate]) {
      QuietReturn(s, t, k);
    } else {
      CountVoteStep(s, t, k);
    }
  }

  lemma QuietReturn(s: Cluster, t: Cluster, k: VoteKey)
    requires ElectionInv(s) && Enabled(s, ReturnVote(k)) && t == Do(s, ReturnVote(k))
    requires Quiet(s.nodes[k.candidate], t.nodes[k.candidate])
    ensures ElectionInv(t) && t.leaders == s.leaders
  {
    hide HandleVoteReply, ElectionInv;
    assert t.leaders == s.leaders;
    QuietStep(s, t, k.candidate);
  }

  // ---------------------------------------------------------------------
  // Every run

  lemma NextElection(n: nat, s: Cluster, a: Action)
    requires Shape(n, s) && ElectionInv(s) && Enabled(s, a) && Safe(s, a)
    ensures var t := Do(s, a);
            ElectionInv(t) && forall term :: term in s.leaders ==>
              term in t.leaders && t.leaders[term] == s.leaders[term]
  {
    var t := Do(s, a);
    hide ElectionInv, Quiet, HandleVote, HandleVoteReply, HandleAppend, HandleAppendReply, Made, Submit;
    match a
    case Timeout(v) => TimeoutStep(s, v);
    case DeliverVote(k) => DeliverVoteStep(s, k);
    case ReturnVote(k) => ReturnVoteStep(s, k);
    case LoseVote(k) => LoseStep(s, t);
    case SendAppend(from, to, id, isHeartbeat) => LoseStep(s, t);
    case DeliverAppend(id) =>
      AppendIsQuiet(s.nodes[s.appends[id].to], s.appends[id].args);
      QuietStep(s, t, s.appends[id].to);
    case ReturnAppend(id) =>
      var call := s.appends[id];
      AppendReplyIsQuiet(s.nodes[call.from], call.to, call.args, call.reply.value);
      QuietStep(s, t, call.from);
    case LoseAppend(id) => LoseStep(s, t);
    case ClientCommand(v, command) =>
      SubmitIsQuiet(s.nodes[v], command);
      QuietStep(s, t, v);
    case Restart(v) =>
      RestartIsQuiet(n, v, s.nodes[v]);
      QuietStep(s, t, v);
  }

  lemma LoseStep(s: Cluster, t: Cluster)
    requires ElectionInv(s) && t.nodes == s.nodes && t.cast == s.cast && t.leaders == s.leaders
    requires forall k :: k in t.ballots ==> k in s.ballots && t.ballots[k] == s.ballots[k]
    ensures ElectionInv(t)
  {
    assert forall u :: 0 <= u < |s.nodes| ==> Quiet(s.nodes[u], t.nodes[u]);
    hide ElectionInv, Quiet;
    QuietCluster(s, t);
  }

  lemma InitOk(n: nat, s: Cluster)
    requires Init(n, s)
    ensures Shape(n, s) && ElectionInv(s)
  {
  }

  lemma RunStep(n: nat, run: seq<Cluster>, actions: seq<Action>, i: nat)
    requires Run(n, run, actions) && i < |actions|
    ensures Next(run[i], actions[i], run[i + 1])
  {
    assert StepAt(run, actions, i);
  }

  lemma {:induction false} EveryState(n: nat, run: seq<Cluster>, actions: seq<Action>, i: nat)
    requires Run(n, run, actions) && i < |run|
    ensures Shape(n, run[i]) && ElectionInv(run[i])
  {
    if i == 0 {
      InitOk(n, run[0]);
    } else {
      RunStep(n, run, actions, i - 1);
      hide Run, Shape, ElectionInv, Enabled, Safe, Do;
      EveryState(n, run, actions, i - 1);
      NextShape(n, run[i - 1], actions[i - 1]);
      NextElection(n, run[i - 1], actions[i - 1]);
    }
  }

  /** No handler panics: in every run, a step that is due is also safe. */
  lemma RunsNeverPanic(n: nat, run: seq<Cluster>, actions: seq<Action>, i: nat, a: Action)
    requires Run(n, run, actions) && i < |run| && Enabled(run[i], a)
    ensures Safe(run[i], a)
  {
    EveryState(n, run, actions, i);
    NextSafe(n, run[i], a);
  }

  /** What a crash at any moment would bring back is the term, the vote and the log the server has. */
  lemma NothingIsForgotten(n: nat, run: seq<Cluster>, actions: seq<Action>, i: nat, v: nat)
    requires Run(n, run, actions) && i < |run| && v < n
    ensures |run[i].nodes| == n
    ensures var nd := run[i].nodes[v];
            var restarted := Made(v, n, nd.saved);
            restarted.term == nd.term && restarted.votedFor == nd.votedFor && restarted.log == nd.log
  {
    EveryState(n, run, actions, i);
    assert NodeShape(n, v, run[i].nodes[v]);
  }

  lemma LeadersKept(n: nat, s: Cluster, a: Action, t: Cluster, term: int)
    requires Shape(n, s) && ElectionInv(s) && Next(s, a, t) && term in s.leaders
    ensures term in t.leaders && t.leaders[term] == s.leaders[term]
  {
    hide Shape, ElectionInv, Enabled, Safe, Do;
    NextElection(n, s, a);
  }

  lemma {:induction false} LeadersStay(n: nat, run: seq<Cluster>, actions: seq<Action>, i: nat, j: nat, term: int)
    requires Run(n, run, actions) && i <= j < |run| && term in run[i].leaders
    ensures term in run[j].leaders && run[j].leaders[term] == run[i].leaders[term]
  {
    if i < j {
      hide StepAt, Init, Shape, ElectionInv, Next;
      RunStep(n, run, actions, j - 1);
      LeadersStay(n, run, actions, i, j - 1, term);
      EveryState(n, run, actions, j - 1);
      LeadersKept(n, run[j - 1], actions[j - 1], run[j], term);
    }
  }

  /** Election Safety: two leaders of one term, at whatever moments of a run, are the same server. */
  lemma ElectionSafety(n: nat, run: seq<Cluster>, actions: seq<Action>, i: nat, j: nat, a: nat, b: nat)
    requires Run(n, run, actions) && i <= j < |run| && a < |run[i].nodes| && b < |run[j].nodes|
    requires run[i].nodes[a].role == Leader && run[j].nodes[b].role == Leader
    requires run[i].nodes[a].term == run[j].nodes[b].term
    ensures a == b
  {
    EveryState(n, run, actions, i);
    EveryState(n, run, actions, j);
    assert RoleOk(run[i], a) && RoleOk(run[j], b);
    LeadersStay(n, run, actions, i, j, run[i].nodes[a].term);
  }
}
