/**
 What the services on top of the cluster receive.  The delivering goroutine of
 a server runs beside the cluster: whenever it takes the lock it sees the log
 and the commit index that the server has at that moment of the cluster's run.
 */
module RaftService {
  import opened RaftState
  import opened RaftCluster
  import opened RaftLogs
  import opened RaftOrder
  import opened RaftSafety
  import opened FiniteSets
  import opened RaftPaths
  import opened RaftAvailable
  import RaftApply

  /**
   One incarnation of server `v` delivers during `run`: the delivering goroutine
   sees the server as it is at the moments `at`, from a moment at which nothing
   was committed on, and the server does not restart meanwhile.
   */
  ghost predicate Delivers(
    run: seq<Cluster>, actions: seq<Action>, v: nat, at: seq<nat>, states: seq<RaftApply.Applier>,
    steps: seq<RaftApply.Action>)
  {
    && RaftApply.Run(states, steps) && |at| == |states| && |run| == |actions| + 1
    && (forall j :: 0 <= j < |at| ==> at[j] < |run| && v < |run[at[j]].nodes| && Sees(run[at[j]].nodes[v], states[j]))
    && (forall j :: 0 <= j < |steps| ==> at[j] <= at[j + 1] && NoRestart(actions, v, at[j], at[j + 1]))
  }

  ghost predicate Sees(nd: Node, s: RaftApply.Applier) {
    s.log == nd.log && s.commit == nd.commit
  }

  ghost predicate NoRestart(actions: seq<Action>, v: nat, i: nat, j: nat) {
    forall k :: i <= k < j && k < |actions| ==> actions[k] != Restart(v)
  }

  /** What is committed stays, for as long as the server does not restart. */
  ghost predicate Stays(nd: Node, after: Node) {
    && nd.commit <= after.commit && 0 <= nd.commit < |nd.log| && after.commit < |after.log|
    && after.log[..nd.commit + 1] == nd.log[..nd.commit + 1]
  }

  lemma StaysTrans(a: Node, b: Node, c: Node)
    requires Stays(a, b) && Stays(b, c)
    ensures Stays(a, c)
  {
    assert c.log[..a.commit + 1] == c.log[..b.commit + 1][..a.commit + 1];
    assert b.log[..a.commit + 1] == b.log[..b.commit + 1][..a.commit + 1];
  }

  lemma {:induction false} StaysAlong(n: nat, run: seq<Cluster>, actions: seq<Action>, i: nat, j: nat, v: nat)
    requires OrderedRun(n, run, actions) && i <= j < |run| && v < |run[i].nodes| && NoRestart(actions, v, i, j)
    ensures v < |run[j].nodes| && Stays(run[i].nodes[v], run[j].nodes[v])
  {
    hide LedRun, InOrder, Stays;
    if i == j {
      ItselfStays(n, run, actions, i, v);
    } else {
      StaysAlong(n, run, actions, i, j - 1, v);
      StepStays(n, run, actions, j - 1, v);
      StaysTrans(run[i].nodes[v], run[j - 1].nodes[v], run[j].nodes[v]);
    }
  }

  lemma ItselfStays(n: nat, run: seq<Cluster>, actions: seq<Action>, i: nat, v: nat)
    requires OrderedRun(n, run, actions) && i < |run| && v < |run[i].nodes|
    ensures Stays(run[i].nodes[v], run[i].nodes[v])
  {
    hide OrderedRun;
    CommitInside(n, run, actions, i, v);
  }

  lemma StepStays(n: nat, run: seq<Cluster>, actions: seq<Action>, i: nat, v: nat)
    requires OrderedRun(n, run, actions) && i + 1 < |run| && v < |run[i].nodes| && NoRestart(actions, v, i, i + 1)
    ensures v < |run[i + 1].nodes| && Stays(run[i].nodes[v], run[i + 1].nodes[v])
  {
    hide StepAt, Init, InOrder, LeaderSends;
    CommittedStays(n, run, actions, i, v);
  }

  lemma DeliveryIsStable(
    n: nat, run: seq<Cluster>, actions: seq<Action>, v: nat, at: seq<nat>, states: seq<RaftApply.Applier>,
    steps: seq<RaftApply.Action>, j: nat)
    requires OrderedRun(n, run, actions) && Delivers(run, actions, v, at, states, steps) && j < |steps|
    ensures RaftApply.Stable(states[j], steps[j])
  {
    hide OrderedRun, NoRestart, RaftApply.Init, RaftApply.Safe;
    StaysAlong(n, run, actions, at[j], at[j + 1], v);
    assert RaftApply.StepAt(states, steps, j);
  }

  /** The service of `v` receives the entries that `v` has committed, in order, each once. */
  lemma ReceivesCommitted(
    n: nat, run: seq<Cluster>, actions: seq<Action>, v: nat, at: seq<nat>, states: seq<RaftApply.Applier>,
    steps: seq<RaftApply.Action>, i: nat, k: nat)
    requires OrderedRun(n, run, actions) && Delivers(run, actions, v, at, states, steps)
    requires i < |states| && k < |states[i].out|
    ensures i < |at| && at[i] < |run| && v < |run[at[i]].nodes|
    ensures var nd := run[at[i]].nodes[v];
            && k + 1 <= nd.commit < |nd.log|
            && states[i].out[k] == RaftApply.ApplyMsg(nd.log[k + 1].command, k + 1)
  {
    hide OrderedRun, RaftApply.StepAt, RaftApply.Init, RaftApply.Stable, NoRestart;
    forall j | 0 <= j < |steps|
      ensures RaftApply.Stable(states[j], steps[j])
    {
      DeliveryIsStable(n, run, actions, v, at, states, steps, j);
    }
    RaftApply.AppliedIsCommitted(states, steps, i, k);
  }

  /**
   What two services receive at an index is the same message, whichever servers
   and moments: also for two incarnations of one server.
   */
  lemma ServicesAgree(
    n: nat, run: seq<Cluster>, actions: seq<Action>,
    v: nat, at: seq<nat>, states: seq<RaftApply.Applier>, steps: seq<RaftApply.Action>, i: nat,
    w: nat, when: seq<nat>, others: seq<RaftApply.Applier>, moves: seq<RaftApply.Action>, j: nat, k: nat)
    requires OrderedRun(n, run, actions)
    requires Delivers(run, actions, v, at, states, steps) && i < |states| && k < |states[i].out|
    requires Delivers(run, actions, w, when, others, moves) && j < |others| && k < |others[j].out|
    ensures states[i].out[k] == others[j].out[k]
  {
    hide OrderedRun, WholeRun, Delivers;
    OrderedIsWhole(n, run, actions);
    ReceivesCommitted(n, run, actions, v, at, states, steps, i, k);
    ReceivesCommitted(n, run, actions, w, when, others, moves, j, k);
    if at[i] <= when[j] {
      StateMachineSafety(n, run, actions, at[i], when[j], v, w, k + 1);
    } else {
      StateMachineSafety(n, run, actions, when[j], at[i], w, v, k + 1);
    }
  }

  // ---------------------------------------------------------------------
  // Nothing that is committed is withheld

  function Constant(m: nat, k: nat): seq<nat> {
    seq(k, _ => m)
  }

  /** The messages for all that the server has committed. */
  ghost function Committed(nd: Node): seq<RaftApply.ApplyMsg>
    requires 0 <= nd.commit < |nd.log|
  {
    seq(nd.commit, k requires 0 <= k < nd.commit => RaftApply.ApplyMsg(nd.log[k + 1].command, k + 1))
  }

  /** The goroutine takes the lock again, at a later moment. */
  lemma LooksAgain(
    n: nat, run: seq<Cluster>, actions: seq<Action>, v: nat, at: seq<nat>, states: seq<RaftApply.Applier>,
    steps: seq<RaftApply.Action>, m: nat)
    returns (look: RaftApply.Action, seen: RaftApply.Applier)
    requires OrderedRun(n, run, actions) && Delivers(run, actions, v, at, states, steps)
    requires at[|steps|] <= m < |run| && NoRestart(actions, v, at[|steps|], m)
    ensures Delivers(run, actions, v, at + [m], states + [seen], steps + [look])
  {
    StaysAlong(n, run, actions, at[|steps|], m, v);
    var nd := run[m].nodes[v];
    hide OrderedRun, NoRestart, RaftApply.StepAt, RaftApply.Init;
    look := RaftApply.Others(nd.log, nd.commit);
    seen := RaftApply.Do(states[|steps|], look);
    RaftApply.Extended(states, steps, look);
  }

  /** It goes on by itself, while the server does nothing. */
  lemma GoesOnAlone(
    run: seq<Cluster>, actions: seq<Action>, v: nat, at: seq<nat>, states: seq<RaftApply.Applier>,
    steps: seq<RaftApply.Action>, longer: seq<RaftApply.Applier>, more: seq<RaftApply.Action>)
    requires Delivers(run, actions, v, at, states, steps)
    requires RaftApply.Run(longer, steps + more) && states <= longer
    requires forall i :: |steps| <= i < |longer| ==> RaftApply.SameServer(states[|steps|], longer[i])
    ensures Delivers(run, actions, v, at + Constant(at[|steps|], |more|), longer, steps + more)
  {
    hide RaftApply.StepAt, RaftApply.Init, NoRestart;
    var all := at + Constant(at[|steps|], |more|);
    forall j: nat | j < |all|
      ensures all[j] < |run| && v < |run[all[j]].nodes| && Sees(run[all[j]].nodes[v], longer[j])
    {
      if j < |at| {
        assert all[j] == at[j] && longer[j] == states[j];
      }
    }
    forall j | 0 <= j < |steps + more|
      ensures all[j] <= all[j + 1] && NoRestart(actions, v, all[j], all[j + 1])
    {
      if j < |steps| {
        assert all[j] == at[j] && all[j + 1] == at[j + 1];
      } else {
        NoTimeNoRestart(actions, v, all[j]);
      }
    }
  }

  lemma NoTimeNoRestart(actions: seq<Action>, v: nat, i: nat)
    ensures NoRestart(actions, v, i, i)
  {
  }

  /**
   At any later moment, unless the server has restarted, the delivery can go on
   so that the service has received exactly what the server has committed.
   */
  lemma ReceivesAll(
    n: nat, run: seq<Cluster>, actions: seq<Action>, v: nat, at: seq<nat>, states: seq<RaftApply.Applier>,
    steps: seq<RaftApply.Action>, m: nat)
    returns (times: seq<nat>, longer: seq<RaftApply.Applier>, more: seq<RaftApply.Action>)
    requires OrderedRun(n, run, actions) && Delivers(run, actions, v, at, states, steps)
    requires at[|steps|] <= m < |run| && NoRestart(actions, v, at[|steps|], m)
    ensures Delivers(run, actions, v, times, longer, steps + more) && at <= times && states <= longer
    ensures times[|steps + more|] == m && v < |run[m].nodes|
    ensures var nd := run[m].nodes[v];
            0 <= nd.commit < |nd.log| && longer[|steps + more|].out == Committed(nd)
  {
    hide OrderedRun, NoRestart, RaftApply.StepAt, RaftApply.Init;
    var look, seen := LooksAgain(n, run, actions, v, at, states, steps, m);
    var rest;
    longer, rest := RaftApply.DeliversAll(states + [seen], steps + [look]);
    GoesOnAlone(run, actions, v, at + [m], states + [seen], steps + [look], longer, rest);
    more := [look] + rest;
    assert steps + more == steps + [look] + rest;
    times := at + [m] + Constant(m, |rest|);
    HasReceivedAll(n, run, actions, v, times, longer, steps + more);
  }

  /** A service that has received as many messages as its server has committed entries has received them all. */
  lemma HasReceivedAll(
    n: nat, run: seq<Cluster>, actions: seq<Action>, v: nat, at: seq<nat>, states: seq<RaftApply.Applier>,
    steps: seq<RaftApply.Action>)
    requires OrderedRun(n, run, actions) && Delivers(run, actions, v, at, states, steps)
    requires |states[|steps|].out| >= states[|steps|].commit
    ensures at[|steps|] < |run| && v < |run[at[|steps|]].nodes|
    ensures var nd := run[at[|steps|]].nodes[v];
            0 <= nd.commit < |nd.log| && states[|steps|].out == Committed(nd)
  {
    var nd := run[at[|steps|]].nodes[v];
    ItselfStays(n, run, actions, at[|steps|], v);
    forall k: nat | k < |states[|steps|].out|
      ensures k < nd.commit && states[|steps|].out[k] == RaftApply.ApplyMsg(nd.log[k + 1].command, k + 1)
    {
      ReceivesCommitted(n, run, actions, v, at, states, steps, |steps|, k);
    }
    hide OrderedRun, NoRestart, RaftApply.StepAt, RaftApply.Init;
    var out := states[|steps|].out;
    if out != [] {
      assert out[|out| - 1].index == |out|;
    }
  }

  lemma {:induction false} NobodyRestarts(
    q: set<nat>, longer: seq<Cluster>, actions: seq<Action>, more: seq<Action>, v: nat, from: nat)
    requires OnlyAmong(q, longer, actions + more, |actions|) && NoRestart(actions, v, from, |actions|)
    ensures NoRestart(actions + more, v, from, |actions + more|)
  {
    forall k | from <= k < |actions + more|
      ensures (actions + more)[k] != Restart(v)
    {
      if k >= |actions| {
        assert Among(q, longer[k], (actions + more)[k]);
      }
    }
  }

  lemma StillDelivers(
    run: seq<Cluster>, longer: seq<Cluster>, actions: seq<Action>, more: seq<Action>, v: nat, at: seq<nat>,
    states: seq<RaftApply.Applier>, steps: seq<RaftApply.Action>)
    requires Delivers(run, actions, v, at, states, steps) && run <= longer && |longer| == |actions + more| + 1
    ensures Delivers(longer, actions + more, v, at, states, steps)
  {
    hide RaftApply.StepAt, RaftApply.Init;
    forall j | 0 <= j < |steps|
      ensures at[j] <= at[j + 1] && NoRestart(actions + more, v, at[j], at[j + 1])
    {
      assert NoRestart(actions, v, at[j], at[j + 1]) && at[j + 1] < |run|;
    }
  }

  /**
   A command can be brought to a service: the run can go on with steps of the
   majority `q` only, at the end of which the service of a server in `q`, which
   has been up since `at[|steps|]`, receives the command.
   */
  lemma CommandReachesService(
    n: nat, run: seq<Cluster>, actions: seq<Action>, q: set<nat>, command: Command, v: nat, at: seq<nat>,
    states: seq<RaftApply.Applier>, steps: seq<RaftApply.Action>)
    returns (longer: seq<Cluster>, others: seq<Action>, times: seq<nat>, later: seq<RaftApply.Applier>,
             more: seq<RaftApply.Action>, index: nat)
    requires OrderedRun(n, run, actions) && |run| == |actions| + 1 && n >= 2 && q <= Range(n) && 2 * |q| > n && v in q
    requires Delivers(run, actions, v, at, states, steps) && NoRestart(actions, v, at[|steps|], |actions|)
    ensures OrderedRun(n, longer, actions + others) && run <= longer
    ensures OnlyAmong(q, longer, actions + others, |actions|)
    ensures Delivers(longer, actions + others, v, times, later, steps + more) && at <= times && states <= later
    ensures 1 <= index <= |later[|steps + more|].out|
    ensures later[|steps + more|].out[index - 1] == RaftApply.ApplyMsg(command, index)
  {
    hide LedRun, InOrder, NoRestart, OnlyAmong, Delivers;
    var entry;
    longer, others, index, entry := CommandCanBeCommitted(n, run, actions, q, command);
    var m := |actions + others|;
    DeliversWithin(run, actions, v, at, states, steps);
    NobodyRestarts(q, longer, actions, others, v, at[|steps|]);
    StillDelivers(run, longer, actions, others, v, at, states, steps);
    times, later, more := ReceivesAll(n, longer, actions + others, v, at, states, steps, m);
    DeliversWithin(longer, actions + others, v, times, later, steps + more);
  }

  lemma DeliversWithin(
    run: seq<Cluster>, actions: seq<Action>, v: nat, at: seq<nat>, states: seq<RaftApply.Applier>,
    steps: seq<RaftApply.Action>)
    requires Delivers(run, actions, v, at, states, steps)
    ensures |at| == |states| == |steps| + 1 && |run| == |actions| + 1 && at[|steps|] <= |actions|
  {
  }
}
