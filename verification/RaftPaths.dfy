/** How a run can go on: steps in which only leaders send and nothing is accepted out of order. */
module RaftPaths {
  import opened RaftState
  import opened RaftCluster
  import opened RaftElection
  import opened RaftLogs
  import opened RaftReplication
  import opened RaftMatching
  import opened RaftOrder

  /** A step of servers in `q` among themselves, without loss and without a restart. */
  ghost predicate Among(q: set<nat>, s: Cluster, a: Action) {
    match a
    case Timeout(v) => v in q
    case DeliverVote(k) => k.candidate in q && k.peer in q
    case ReturnVote(k) => k.candidate in q && k.peer in q
    case SendAppend(from, to, _, _) => from in q && to in q
    case DeliverAppend(id) => id in s.appends && s.appends[id].from in q && s.appends[id].to in q
    case ReturnAppend(id) => id in s.appends && s.appends[id].from in q && s.appends[id].to in q
    case ClientCommand(v, _) => v in q
    case _ => false
  }

  ghost predicate Allowed(q: set<nat>, s: Cluster, a: Action) {
    Among(q, s, a) && Enabled(s, a) && Safe(s, a) && LeaderSends(s, a) && InOrder(s, a)
  }

  /** From `s` the steps `actions` lead to `t`. */
  ghost predicate Follows(q: set<nat>, s: Cluster, actions: seq<Action>, t: Cluster)
    decreases |actions|
  {
    if actions == [] then t == s
    else Allowed(q, s, actions[0]) && Follows(q, Do(s, actions[0]), actions[1..], t)
  }

  lemma StaysPut(q: set<nat>, s: Cluster)
    ensures Follows(q, s, [], s)
  {
  }

  lemma FollowsOne(q: set<nat>, s: Cluster, a: Action)
    requires Allowed(q, s, a)
    ensures Follows(q, s, [a], Do(s, a))
  {
    hide Among, Enabled, Safe, LeaderSends, InOrder, Do;
    assert [a][1..] == [];
  }

  lemma {:induction false} FollowsJoin(q: set<nat>, s: Cluster, a: seq<Action>, t: Cluster, b: seq<Action>, u: Cluster)
    requires Follows(q, s, a, t) && Follows(q, t, b, u)
    ensures Follows(q, s, a + b, u)
    decreases |a|
  {
    hide Among, Enabled, Safe, LeaderSends, InOrder, Do;
    if a == [] {
      assert a + b == b;
    } else {
      FollowsJoin(q, Do(s, a[0]), a[1..], t, b, u);
      assert (a + b)[0] == a[0] && (a + b)[1..] == a[1..] + b;
    }
  }

  lemma {:induction false} FollowsMore(q: set<nat>, r: set<nat>, s: Cluster, actions: seq<Action>, t: Cluster)
    requires Follows(q, s, actions, t) && q <= r
    ensures Follows(r, s, actions, t)
    decreases |actions|
  {
    hide Enabled, Safe, LeaderSends, InOrder, Do;
    if actions != [] {
      FollowsMore(q, r, Do(s, actions[0]), actions[1..], t);
    }
  }

  /** From `from` on, only servers in `q` act. */
  ghost predicate OnlyAmong(q: set<nat>, run: seq<Cluster>, actions: seq<Action>, from: nat) {
    |run| == |actions| + 1 && forall i :: from <= i < |actions| ==> Among(q, run[i], actions[i])
  }

  lemma Extended(q: set<nat>, n: nat, run: seq<Cluster>, actions: seq<Action>, a: Action)
    requires Run(n, run, actions) && |run| == |actions| + 1 && Allowed(q, run[|actions|], a)
    ensures var (longer, more) := (run + [Do(run[|actions|], a)], actions + [a]);
            && Run(n, longer, more)
            && (LedRun(n, run, actions) ==> LedRun(n, longer, more))
            && (OrderedRun(n, run, actions) ==> OrderedRun(n, longer, more))
  {
    hide Among, Enabled, Safe, Do, Init, LeaderSends, InOrder;
    var (longer, more) := (run + [Do(run[|actions|], a)], actions + [a]);
    forall i: nat | i < |more|
      ensures StepAt(longer, more, i)
      ensures longer[i] == if i < |actions| then run[i] else run[|actions|]
    {
      if i < |actions| {
        assert StepAt(run, actions, i);
        assert longer[i] == run[i] && longer[i + 1] == run[i + 1];
      }
    }
  }

  /** A run goes on along such steps, and stays led or ordered if it was. */
  lemma {:induction false} RunGoesOn(
    q: set<nat>, n: nat, run: seq<Cluster>, actions: seq<Action>, more: seq<Action>, t: Cluster)
    returns (longer: seq<Cluster>)
    requires Run(n, run, actions) && |run| == |actions| + 1 && Follows(q, run[|actions|], more, t)
    ensures Run(n, longer, actions + more) && |longer| == |actions + more| + 1 && run <= longer
    ensures longer[|actions + more|] == t && OnlyAmong(q, longer, actions + more, |actions|)
    ensures LedRun(n, run, actions) ==> LedRun(n, longer, actions + more)
    ensures OrderedRun(n, run, actions) ==> OrderedRun(n, longer, actions + more)
    decreases |more|
  {
    hide Run, LedRun, OrderedRun, Among, Enabled, Safe, LeaderSends, InOrder, Do;
    if more == [] {
      longer := run;
      assert actions + more == actions;
    } else {
      Extended(q, n, run, actions, more[0]);
      longer := RunGoesOn(q, n, run + [Do(run[|actions|], more[0])], actions + [more[0]], more[1..], t);
      assert actions + more == actions + [more[0]] + more[1..];
      assert longer[|actions|] == run[|actions|];
    }
  }

  // ---------------------------------------------------------------------
  // What led runs keep

  ghost predicate Sound(n: nat, s: Cluster) {
    Shape(n, s) && ElectionInv(s) && LogInv(s) && HeldOk(s)
  }

  lemma StepIsSound(q: set<nat>, n: nat, s: Cluster, a: Action)
    requires Sound(n, s) && Allowed(q, s, a)
    ensures Sound(n, Do(s, a))
  {
    hide Shape, ElectionInv, LogInv, HeldOk, Among, Enabled, Safe, Do, LeaderSends, InOrder;
    NextShape(n, s, a);
    NextElection(n, s, a);
    NextLog(n, s, a);
    NextHeld(n, s, a);
  }

  lemma {:induction false} PathIsSound(q: set<nat>, n: nat, s: Cluster, actions: seq<Action>, t: Cluster)
    requires Sound(n, s) && Follows(q, s, actions, t)
    ensures Sound(n, t)
    decreases |actions|
  {
    hide Sound, Among, Enabled, Safe, LeaderSends, InOrder, Do;
    if actions != [] {
      StepIsSound(q, n, s, actions[0]);
      PathIsSound(q, n, Do(s, actions[0]), actions[1..], t);
    }
  }

  lemma {:induction false} PathIsShaped(q: set<nat>, n: nat, s: Cluster, actions: seq<Action>, t: Cluster)
    requires Shape(n, s) && Follows(q, s, actions, t)
    ensures Shape(n, t)
    decreases |actions|
  {
    hide Shape, Do, Among, Enabled, Safe, LeaderSends, InOrder;
    if actions != [] {
      NextShape(n, s, actions[0]);
      PathIsShaped(q, n, Do(s, actions[0]), actions[1..], t);
    }
  }

  lemma RunIsSound(n: nat, run: seq<Cluster>, actions: seq<Action>, i: nat)
    requires LedRun(n, run, actions) && i < |run|
    ensures Sound(n, run[i])
  {
    hide LedRun, Shape, ElectionInv, LogInv, HeldOk;
    EveryLog(n, run, actions, i);
    EveryHeld(n, run, actions, i);
  }
}
