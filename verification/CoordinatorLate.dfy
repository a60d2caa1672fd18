/** Two runs in which a map task is reported after the change to the reduce phase. */
module CoordinatorLate {
  import opened Coordinator
  import opened CoordinatorRuns

  // ---------------------------------------------------------------------
  // One file, one reduce task

  function Start(): World {
    World(Made(["a"], 1), multiset{}, {}, {}, false)
  }

  /** The only map task was handed out at time 0 and at time 11 found to be late. */
  function TimedOutWorld(): World {
    var c := State([], 1, 0, 1, MapPhase, [Task("a", 0, 0, Doing)], [Task("a", 0, 11, Pending)]);
    World(c, multiset{(MapTask, 0)}, {}, {}, false)
  }

  /** It was handed out again. */
  function GivenTwice(): World {
    var c := State([], 1, 0, 1, MapPhase, [Task("a", 0, 12, Doing)], []);
    World(c, multiset{(MapTask, 0), (MapTask, 0)}, {}, {}, false)
  }

  /** One of the two workers reported it, and the reduce phase began; the other has yet to report. */
  function ReportedOnce(): World {
    World(State([], 1, 0, 1, ReducePhase, [], []), multiset{(MapTask, 0)}, {(MapTask, 0)}, {}, false)
  }

  /** The reduce task was handed out. */
  function Reducing(): World {
    var c := State([], 1, 1, 1, ReducePhase, [Task("", 0, 13, Doing)], []);
    World(c, multiset{(MapTask, 0), (ReduceTask, 0)}, {(MapTask, 0)}, {}, false)
  }

  /** The other worker reported the map task, and the job is finished. */
  function FinishedEarly(): World {
    var c := State([], 1, 1, 1, FinishPhase, [Task("", 0, 13, Completed)], []);
    World(c, multiset{(ReduceTask, 0)}, {(MapTask, 0)}, {0}, false)
  }

  lemma GivenSteps()
    ensures Enabled(Start(), AssignTask(0)) && Enabled(Do(Start(), AssignTask(0)), AssignTask(11))
    ensures Do(Do(Start(), AssignTask(0)), AssignTask(11)) == TimedOutWorld()
    ensures Enabled(TimedOutWorld(), AssignTask(12)) && Do(TimedOutWorld(), AssignTask(12)) == GivenTwice()
  {
    var slow := Do(Start(), AssignTask(0));
    assert slow.c == State([], 1, 0, 1, MapPhase, [Task("a", 0, 0, Doing)], []);
    assert FirstLate(slow.c.tasks, 11, 0) == 0;
  }

  lemma ReportSteps()
    ensures Enabled(GivenTwice(), Report(MapTask, 0)) && Enabled(Do(GivenTwice(), Report(MapTask, 0)), CheckPhase)
    ensures Do(Do(GivenTwice(), Report(MapTask, 0)), CheckPhase) == ReportedOnce()
  {
    var reported := Do(GivenTwice(), Report(MapTask, 0));
    assert reported.c.tasks == [Task("a", 0, 12, Completed)];
  }

  lemma LateSteps()
    ensures Enabled(ReportedOnce(), AssignTask(13)) && Do(ReportedOnce(), AssignTask(13)) == Reducing()
    ensures Enabled(Reducing(), Report(MapTask, 0)) && Enabled(Do(Reducing(), Report(MapTask, 0)), CheckPhase)
    ensures Do(Do(Reducing(), Report(MapTask, 0)), CheckPhase) == FinishedEarly()
  {
    var hit := Do(Reducing(), Report(MapTask, 0));
    assert hit.c.tasks == [Task("", 0, 13, Completed)];
  }

  // ---------------------------------------------------------------------
  // The runs

  ghost predicate Reached(w: World) {
    exists run, actions :: Run(["a"], 1, run, actions) && |run| == |actions| + 1 && run[|actions|] == w
  }

  lemma Extended(run: seq<World>, actions: seq<Action>, a: Action)
    requires Run(["a"], 1, run, actions) && Enabled(run[|actions|], a)
    ensures Run(["a"], 1, run + [Do(run[|actions|], a)], actions + [a])
  {
    hide Do, Enabled;
    var (longer, more) := (run + [Do(run[|actions|], a)], actions + [a]);
    forall i: nat | i < |more|
      ensures StepAt(longer, more, i)
    {
      if i < |actions| {
        assert StepAt(run, actions, i);
        assert longer[i] == run[i] && longer[i + 1] == run[i + 1];
      }
    }
  }

  lemma Step(w: World, a: Action)
    requires Reached(w) && Enabled(w, a)
    ensures Reached(Do(w, a))
  {
    hide Run, Do, Enabled;
    var run, actions :| Run(["a"], 1, run, actions) && |run| == |actions| + 1 && run[|actions|] == w;
    Extended(run, actions, a);
    assert (run + [Do(w, a)])[|actions + [a]|] == Do(w, a);
  }

  lemma StartIsReached()
    ensures Reached(Start())
  {
    assert Run(["a"], 1, [Start()], []) && [Start()][0] == Start();
  }

  lemma ReportedOnceIsReached()
    ensures Reached(ReportedOnce())
  {
    hide Reached, Do, Enabled;
    StartIsReached();
    GivenSteps();
    Step(Start(), AssignTask(0));
    Step(Do(Start(), AssignTask(0)), AssignTask(11));
    Step(TimedOutWorld(), AssignTask(12));
    ReportSteps();
    Step(GivenTwice(), Report(MapTask, 0));
    Step(Do(GivenTwice(), Report(MapTask, 0)), CheckPhase);
  }

  lemma RunTo(w: World) returns (run: seq<World>, actions: seq<Action>)
    requires Reached(w)
    ensures Run(["a"], 1, run, actions) && run[|actions|] == w
  {
    run, actions :| Run(["a"], 1, run, actions) && |run| == |actions| + 1 && run[|actions|] == w;
  }

  /** The second report of the map task finds no slot, and the coordinator crashes. */
  lemma LateReportCrashes() returns (run: seq<World>, actions: seq<Action>)
    ensures Run(["a"], 1, run, actions) && run[|actions|].crashed
  {
    hide Reached, Run;
    ReportedOnceIsReached();
    Step(ReportedOnce(), Report(MapTask, 0));
    run, actions := RunTo(Do(ReportedOnce(), Report(MapTask, 0)));
  }

  /**
   After the reduce task is handed out, that report completes the slot of the
   reduce task: the job finishes while it is owed and not reported.
   */
  lemma LateReportFinishesTooEarly() returns (run: seq<World>, actions: seq<Action>)
    ensures Run(["a"], 1, run, actions)
    ensures var w := run[|actions|];
            w.c.phase == FinishPhase && !w.crashed && (ReduceTask, 0) in w.owed && (ReduceTask, 0) !in w.reported
  {
    hide Reached, Run, Do, Enabled;
    ReportedOnceIsReached();
    LateSteps();
    Step(ReportedOnce(), AssignTask(13));
    Step(Reducing(), Report(MapTask, 0));
    Step(Do(Reducing(), Report(MapTask, 0)), CheckPhase);
    run, actions := RunTo(FinishedEarly());
  }
}
