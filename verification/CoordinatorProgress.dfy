/**
 The coordinator does not depend on any one worker: a task that takes too long
 is given to another worker, and from every moment before a crash, workers that
 do what they are given at once can finish the job.
 */
module CoordinatorProgress {
  import opened Coordinator
  import opened CoordinatorRuns

  // ---------------------------------------------------------------------
  // A late task is handed out again

  function KindOf(phase: Phase): Kind {
    match phase
    case MapPhase => MapTask
    case ReducePhase => ReduceTask
    case FinishPhase => Finished
  }

  /** Every task of the phase was handed out, and none waits to be handed out again. */
  ghost predicate AllGiven(c: State) {
    && c.rePending == []
    && match c.phase
       case MapPhase => c.files == []
       case ReducePhase => c.assignedReduce == c.nReduce
       case FinishPhase => false
  }

  /**
   In every reachable state in which all was handed out: when a task has been
   worked on for more than the time allowed, two requests hand out such a task.
   */
  lemma LateTaskIsRepeated(
    input: seq<string>, nReduce: nat, run: seq<World>, actions: seq<Action>, i: nat, k: nat, now: int, later: int)
    requires Run(input, nReduce, run, actions) && i < |run| && AllGiven(run[i].c)
    requires k < |run[i].c.tasks| && run[i].c.tasks[k].status == Doing && now - run[i].c.tasks[k].start > 10
    ensures AgainOk(run[i].c)
    ensures var c := AssignChecked(run[i].c, now).0;
            && AgainOk(c)
            && var reply := AssignChecked(c, later).1;
               && reply.kind == KindOf(run[i].c.phase) && 0 <= reply.task.id < |run[i].c.tasks|
               && run[i].c.tasks[reply.task.id].status == Doing && now - run[i].c.tasks[reply.task.id].start > 10
  {
    EverySlots(input, nReduce, run, actions, i);
    hide SlotsExact, Names;
    var late := FirstLate(run[i].c.tasks, now, 0);
    assert !(0 <= k < late);
  }

  /**
   What a worker is told, in every reachable state: which file to map and into how
   many parts, which part to reduce, to wait only when all was handed out, and to
   stop exactly when the job is finished, with nothing left to hand out again.
   */
  lemma ToldWhatToDo(input: seq<string>, nReduce: nat, run: seq<World>, actions: seq<Action>, i: nat, now: int)
    requires Run(input, nReduce, run, actions) && i < |run|
    ensures AgainOk(run[i].c)
    ensures var (c, reply) := (run[i].c, AssignChecked(run[i].c, now).1);
            var id := reply.task.id;
            match reply.kind
            case MapTask =>
              && c.phase == MapPhase && 0 <= id < |input| && reply.task == Task(input[id], id, now, Doing)
              && reply.nReduce == nReduce
            case ReduceTask =>
              c.phase == ReducePhase && 0 <= id < nReduce && reply.task == Task(reply.task.fileName, id, now, Doing)
            case WaitTask => AllGiven(c)
            case Finished => c.phase == FinishPhase && |c.tasks| == nReduce && c.rePending == []
  {
    EverySlots(input, nReduce, run, actions, i);
    hide SlotsExact, FirstLate;
    var c := run[i].c;
    assert c.phase == MapPhase ==>
      forall k :: 0 <= k < |c.tasks| ==> (Names(c.tasks) + c.files)[k] == c.tasks[k].fileName;
    assert c.phase == MapPhase && c.files != [] ==> (Names(c.tasks) + c.files)[|c.tasks|] == c.files[0];
  }

  // ---------------------------------------------------------------------
  // What is left to do

  /** Tasks on the list are worked on or completed, only copies of them wait, and all were started by `clock`. */
  ghost predicate Started(c: State, clock: int) {
    forall i :: 0 <= i < |c.tasks| ==> c.tasks[i].status != Pending && c.tasks[i].start <= clock
  }

  ghost predicate NoneWaits(c: State) {
    forall i :: 0 <= i < |c.tasks| ==> c.tasks[i].status != Pending
  }

  lemma {:induction false} EveryTaskRuns(
    input: seq<string>, nReduce: nat, run: seq<World>, actions: seq<Action>, i: nat)
    requires Run(input, nReduce, run, actions) && i < |run|
    ensures NoneWaits(run[i].c)
  {
    if i > 0 {
      hide Inv, SlotsExact, NoneWaits, Do, Enabled, Init;
      EveryTaskRuns(input, nReduce, run, actions, i - 1);
      EverySlots(input, nReduce, run, actions, i - 1);
      assert StepAt(run, actions, i - 1);
      NextTaskRuns(input, nReduce, run[i - 1], actions[i - 1]);
    }
  }

  lemma NextTaskRuns(input: seq<string>, nReduce: nat, w: World, a: Action)
    requires Inv(input, nReduce, w) && NoneWaits(w.c)
    ensures NoneWaits(Do(w, a).c)
  {
    TaskWaitsOnList(w.c);
    if a.AssignTask? {
      AssignCases(w.c, a.now);
    }
    hide Inv, AssignChecked, TasksOk, CountOk, Names;
  }

  ghost function Rank(c: State): nat {
    match c.phase
    case MapPhase => 2
    case ReducePhase => 1
    case FinishPhase => 0
  }

  /** Tasks of the phase that were never handed out. */
  ghost function NotGiven(c: State): nat {
    match c.phase
    case MapPhase => |c.files|
    case ReducePhase => if c.assignedReduce <= c.nReduce then c.nReduce - c.assignedReduce else 0
    case FinishPhase => 0
  }

  ghost function Unfinished(tasks: seq<Task>): nat {
    if tasks == [] then 0
    else Unfinished(tasks[..|tasks| - 1]) + if tasks[|tasks| - 1].status == Completed then 0 else 1
  }

  lemma {:induction false} UnfinishedAfter(tasks: seq<Task>, id: nat, task: Task)
    requires id < |tasks| && task.status == Completed
    ensures Unfinished(tasks[id := task]) == Unfinished(tasks) - if tasks[id].status == Completed then 0 else 1
    ensures tasks[id].status != Completed ==> Unfinished(tasks) > 0
  {
    var (front, last) := (tasks[..|tasks| - 1], |tasks| - 1);
    var after := tasks[id := task];
    if id == last {
      assert after[..last] == front;
    } else {
      UnfinishedAfter(front, id, task);
      assert after[..last] == front[id := task];
    }
  }

  lemma {:induction false} SomeUnfinished(tasks: seq<Task>) returns (k: nat)
    requires Unfinished(tasks) > 0
    ensures k < |tasks| && tasks[k].status != Completed
  {
    k := |tasks| - 1;
    if tasks[k].status == Completed {
      k := SomeUnfinished(tasks[..k]);
    }
  }

  lemma {:induction false} NoneUnfinished(tasks: seq<Task>)
    requires Unfinished(tasks) == 0
    ensures forall k :: 0 <= k < |tasks| ==> tasks[k].status == Completed
  {
    if tasks != [] {
      NoneUnfinished(tasks[..|tasks| - 1]);
    }
  }

  // ---------------------------------------------------------------------
  // What new workers can do

  ghost predicate Sound(input: seq<string>, nReduce: nat, w: World, clock: int) {
    Inv(input, nReduce, w) && SlotsExact(w) && !w.crashed && Started(w.c, clock)
  }

  /** A request that hands out a task, and its report. */
  ghost predicate Works(w: World, now: int, t: World) {
    && Enabled(w, AssignTask(now)) && Safe(w, AssignTask(now))
    && var reply := AssignChecked(w.c, now).1;
       var (given, report) := (Do(w, AssignTask(now)), Report(reply.kind, reply.task.id));
       Enabled(given, report) && Safe(given, report) && t == Do(given, report)
  }

  /** The task is handed out, reported and completed. */
  ghost function Worked(c: State, now: int): State
    requires AgainOk(c) && var (after, reply) := AssignChecked(c, now); 0 <= reply.task.id < |after.tasks|
  {
    var (after, reply) := AssignChecked(c, now);
    Marked(after, reply.task.id)
  }

  lemma WorkStep(w: World, now: int) returns (t: World)
    requires !w.crashed && AgainOk(w.c)
    requires var (after, reply) := AssignChecked(w.c, now);
             reply.kind in {MapTask, ReduceTask} && 0 <= reply.task.id < |after.tasks|
    ensures Works(w, now, t) && t.c == Worked(w.c, now) && !t.crashed
  {
    hide AssignChecked, AgainOk;
    var reply := AssignChecked(w.c, now).1;
    var given := Do(w, AssignTask(now));
    assert (reply.kind, reply.task.id) in given.owed;
    t := Do(given, Report(reply.kind, reply.task.id));
  }

  lemma WorksSound(input: seq<string>, nReduce: nat, w: World, now: int, t: World)
    requires Inv(input, nReduce, w) && SlotsExact(w) && Works(w, now, t)
    ensures Inv(input, nReduce, t) && SlotsExact(t)
  {
    hide Inv, SlotsExact, Do, Enabled, AssignChecked;
    var reply := AssignChecked(w.c, now).1;
    var given := Do(w, AssignTask(now));
    NextSlots(input, nReduce, w, AssignTask(now));
    NextSlots(input, nReduce, given, Report(reply.kind, reply.task.id));
  }

  /** A task that was never handed out is done. */
  lemma WorkOnNew(input: seq<string>, nReduce: nat, w: World, clock: int) returns (t: World)
    requires Sound(input, nReduce, w, clock) && NotGiven(w.c) > 0
    ensures Works(w, clock, t) && Sound(input, nReduce, t, clock)
    ensures Rank(t.c) == Rank(w.c) && NotGiven(t.c) == NotGiven(w.c) - 1
  {
    TaskWaitsOnList(w.c);
    hide SlotsExact, Names, TasksOk;
    NewIsWorked(w.c, clock);
    t := WorkStep(w, clock);
    hide Works, Inv, Worked;
    WorksSound(input, nReduce, w, clock, t);
  }

  lemma NewIsWorked(c: State, clock: int)
    requires AgainOk(c) && NotGiven(c) > 0 && Started(c, clock)
    requires c.phase == MapPhase ==> c.assignedMap == |c.tasks|
    requires c.phase == ReducePhase ==> c.assignedReduce == |c.tasks|
    ensures var (after, reply) := AssignChecked(c, clock);
            reply.kind in {MapTask, ReduceTask} && 0 <= reply.task.id < |after.tasks|
    ensures var t := Worked(c, clock);
            Rank(t) == Rank(c) && NotGiven(t) == NotGiven(c) - 1 && Started(t, clock)
  {
  }

  /** The waiting task is done again. */
  lemma WorkAgain(input: seq<string>, nReduce: nat, w: World, clock: int) returns (t: World)
    requires Sound(input, nReduce, w, clock) && NotGiven(w.c) == 0 && w.c.rePending != [] && w.c.phase != FinishPhase
    ensures Works(w, clock, t) && Sound(input, nReduce, t, clock)
    ensures Rank(t.c) == Rank(w.c) && NotGiven(t.c) == 0 && t.c.rePending == []
    ensures 0 <= w.c.rePending[0].id < |w.c.tasks|
    ensures Unfinished(t.c.tasks) ==
              Unfinished(w.c.tasks) - if w.c.tasks[w.c.rePending[0].id].status == Completed then 0 else 1
  {
    TaskWaitsOnList(w.c);
    assert |w.c.rePending| == 1;
    hide SlotsExact, Names, TasksOk;
    AgainIsWorked(w.c, clock);
    t := WorkStep(w, clock);
    hide Works, Inv, Worked, Unfinished;
    WorksSound(input, nReduce, w, clock, t);
  }

  lemma AgainIsWorked(c: State, clock: int)
    requires AgainOk(c) && NotGiven(c) == 0 && |c.rePending| == 1 && c.phase != FinishPhase && Started(c, clock)
    requires c.phase == ReducePhase ==> c.assignedReduce <= c.nReduce
    ensures var (after, reply) := AssignChecked(c, clock);
            reply.kind in {MapTask, ReduceTask} && 0 <= reply.task.id < |after.tasks|
    ensures var t := Worked(c, clock);
            && Rank(t) == Rank(c) && NotGiven(t) == 0 && t.rePending == [] && Started(t, clock)
            && Unfinished(t.tasks) ==
               Unfinished(c.tasks) - if c.tasks[c.rePending[0].id].status == Completed then 0 else 1
  {
    var (id, t) := (c.rePending[0].id, Worked(c, clock));
    assert t.tasks == c.tasks[id := t.tasks[id]];
    UnfinishedAfter(c.tasks, id, t.tasks[id]);
    hide Unfinished;
  }

  /** With nothing to hand out, a request after the time allowed makes the first unfinished task wait. */
  lemma Queue(input: seq<string>, nReduce: nat, w: World, clock: int, now: int) returns (t: World)
    requires Sound(input, nReduce, w, clock) && NotGiven(w.c) == 0 && w.c.rePending == [] && w.c.phase != FinishPhase
    requires Unfinished(w.c.tasks) > 0 && now > clock + 10
    ensures Enabled(w, AssignTask(now)) && Safe(w, AssignTask(now)) && t == Do(w, AssignTask(now))
    ensures Sound(input, nReduce, t, now) && Rank(t.c) == Rank(w.c) && NotGiven(t.c) == 0 && t.c.rePending != []
    ensures t.c.tasks == w.c.tasks && 0 <= t.c.rePending[0].id < |w.c.tasks|
    ensures w.c.tasks[t.c.rePending[0].id].status != Completed
  {
    var k := SomeUnfinished(w.c.tasks);
    t := Do(w, AssignTask(now));
    NextSlots(input, nReduce, w, AssignTask(now));
    hide SlotsExact, Names, Unfinished;
    var late := FirstLate(w.c.tasks, now, 0);
    assert !(0 <= k < late);
  }

  /** With all done, a check begins the next phase. */
  lemma Proceed(input: seq<string>, nReduce: nat, w: World, clock: int) returns (t: World)
    requires Sound(input, nReduce, w, clock) && NotGiven(w.c) == 0 && w.c.rePending == [] && w.c.phase != FinishPhase
    requires Unfinished(w.c.tasks) == 0 && input != [] && nReduce > 0
    ensures Enabled(w, CheckPhase) && t == Do(w, CheckPhase)
    ensures Sound(input, nReduce, t, clock) && Rank(t.c) == Rank(w.c) - 1
  {
    NoneUnfinished(w.c.tasks);
    t := Do(w, CheckPhase);
    NextSlots(input, nReduce, w, CheckPhase);
    hide SlotsExact, Unfinished;
  }

  // ---------------------------------------------------------------------
  // The job can always be finished

  /** From `from` on, whoever reports was handed the task by the step before. */
  ghost predicate NewWorkersOnly(run: seq<World>, actions: seq<Action>, from: nat) {
    forall j :: from <= j < |actions| < |run| && actions[j].Report? ==>
      && j > from && actions[j - 1].AssignTask? && AgainOk(run[j - 1].c)
      && var reply := AssignChecked(run[j - 1].c, actions[j - 1].now).1;
         actions[j] == Report(reply.kind, reply.task.id)
  }

  /** From `from` on, the clock starts at `clock` and does not go back. */
  ghost predicate ClockGoesOn(actions: seq<Action>, from: nat, clock: int) {
    && (forall j :: from <= j < |actions| && actions[j].AssignTask? ==> actions[j].now >= clock)
    && forall j, k :: from <= j < k < |actions| && actions[j].AssignTask? && actions[k].AssignTask? ==>
         actions[j].now <= actions[k].now
  }

  lemma Extended(input: seq<string>, nReduce: nat, run: seq<World>, actions: seq<Action>, a: Action)
    requires Run(input, nReduce, run, actions) && |run| == |actions| + 1 && Enabled(run[|actions|], a)
    ensures Run(input, nReduce, run + [Do(run[|actions|], a)], actions + [a])
  {
    hide Do, Enabled, Init;
    var (longer, more) := (run + [Do(run[|actions|], a)], actions + [a]);
    forall i: nat | i < |more|
      ensures StepAt(longer, more, i)
    {
      if i < |actions| {
        assert StepAt(run, actions, i);
        assert longer[i] == run[i] && longer[i + 1] == run[i + 1];
      }
    }
  }

  lemma WorkExtends(input: seq<string>, nReduce: nat, run: seq<World>, actions: seq<Action>, now: int, t: World)
    returns (longer: seq<World>, more: seq<Action>)
    requires Run(input, nReduce, run, actions) && |run| == |actions| + 1 && Works(run[|actions|], now, t)
    ensures Run(input, nReduce, longer, actions + more) && |longer| == |actions + more| + 1 && run <= longer
    ensures |more| == 2 && more[0] == AssignTask(now) && longer[|actions| + 2] == t && AgainOk(run[|actions|].c)
    ensures var reply := AssignChecked(run[|actions|].c, now).1; more[1] == Report(reply.kind, reply.task.id)
  {
    hide Run, Do, Enabled, AssignChecked;
    var w := run[|actions|];
    var reply := AssignChecked(w.c, now).1;
    var report := Report(reply.kind, reply.task.id);
    Extended(input, nReduce, run, actions, AssignTask(now));
    var given := Do(w, AssignTask(now));
    Extended(input, nReduce, run + [given], actions + [AssignTask(now)], report);
    more := [AssignTask(now), report];
    longer := run + [given] + [Do(given, report)];
    assert actions + more == actions + [AssignTask(now)] + [report];
  }

  /** What is proved of a continuation, for one that starts with `more` and goes on with `rest`. */
  lemma Joined(
    run: seq<World>, actions: seq<Action>, more: seq<Action>, rest: seq<Action>, longer: seq<World>, clock: int,
    now: int)
    requires run <= longer && |run| == |actions + more| + 1 && |longer| == |actions + more + rest| + 1
    requires NewWorkersOnly(run, actions + more, |actions|)
    requires ClockGoesOn(actions + more, |actions|, clock) && clock <= now
    requires forall j :: 0 <= j < |more| && more[j].AssignTask? ==> more[j].now <= now
    requires NewWorkersOnly(longer, actions + more + rest, |actions + more|)
    requires ClockGoesOn(actions + more + rest, |actions + more|, now)
    ensures NewWorkersOnly(longer, actions + (more + rest), |actions|)
    ensures ClockGoesOn(actions + (more + rest), |actions|, clock)
  {
    var (all, head) := (actions + (more + rest), actions + more);
    assert all == head + rest;
    assert forall j :: 0 <= j < |head| ==> all[j] == head[j] && longer[j] == run[j];
    assert forall j :: |actions| <= j < |head| ==> head[j] == more[j - |actions|];
    hide AssignChecked, AgainOk;
  }

  /** The steps of a block have these properties. */
  lemma BlockIsNew(run: seq<World>, actions: seq<Action>, more: seq<Action>, clock: int, now: int)
    requires |run| == |actions + more| + 1 && clock <= now
    requires || (|more| == 1 && (more[0] == AssignTask(now) || more[0] == CheckPhase))
             || (&& |more| == 2 && more[0] == AssignTask(now) && AgainOk(run[|actions|].c)
                 && var reply := AssignChecked(run[|actions|].c, now).1; more[1] == Report(reply.kind, reply.task.id))
    ensures NewWorkersOnly(run, actions + more, |actions|) && ClockGoesOn(actions + more, |actions|, clock)
    ensures forall j :: 0 <= j < |more| && more[j].AssignTask? ==> more[j].now <= now
  {
    hide AssignChecked, AgainOk;
    assert forall j :: |actions| <= j < |actions + more| ==> (actions + more)[j] == more[j - |actions|];
  }

  /** The next steps of new workers, after which less is left to do. */
  lemma Progress(
    input: seq<string>, nReduce: nat, run: seq<World>, actions: seq<Action>, clock: int)
    returns (longer: seq<World>, more: seq<Action>, now: int)
    requires Run(input, nReduce, run, actions) && |run| == |actions| + 1 && input != [] && nReduce > 0
    requires Sound(input, nReduce, run[|actions|], clock) && run[|actions|].c.phase != FinishPhase
    ensures Run(input, nReduce, longer, actions + more) && |longer| == |actions + more| + 1 && run <= longer
    ensures clock <= now && Sound(input, nReduce, longer[|actions + more|], now)
    ensures NewWorkersOnly(longer, actions + more, |actions|) && ClockGoesOn(actions + more, |actions|, clock)
    ensures forall j :: 0 <= j < |more| && more[j].AssignTask? ==> more[j].now <= now
    ensures Less(longer[|actions + more|].c, run[|actions|].c)
  {
    hide Run, Sound, Works, Unfinished, Do, Enabled, NewWorkersOnly, ClockGoesOn, AssignChecked, Safe;
    var w := run[|actions|];
    now := clock;
    if NotGiven(w.c) > 0 {
      var t := WorkOnNew(input, nReduce, w, clock);
      longer, more := WorkExtends(input, nReduce, run, actions, clock, t);
    } else if w.c.rePending != [] {
      var t := WorkAgain(input, nReduce, w, clock);
      longer, more := WorkExtends(input, nReduce, run, actions, clock, t);
    } else if Unfinished(w.c.tasks) > 0 {
      now := clock + 11;
      var t := Queue(input, nReduce, w, clock, now);
      Extended(input, nReduce, run, actions, AssignTask(now));
      longer, more := run + [t], [AssignTask(now)];
    } else {
      var t := Proceed(input, nReduce, w, clock);
      Extended(input, nReduce, run, actions, CheckPhase);
      longer, more := run + [t], [CheckPhase];
    }
    BlockIsNew(longer, actions, more, clock, now);
  }

  /** A waiting copy of an unfinished task is worth half a task. */
  ghost function Weight(c: State): nat {
    2 * Unfinished(c.tasks)
      + if c.rePending == [] then 1
        else if 0 <= c.rePending[0].id < |c.tasks| && c.tasks[c.rePending[0].id].status != Completed then 0
        else 2
  }

  ghost predicate Less(a: State, b: State) {
    || Rank(a) < Rank(b)
    || (Rank(a) == Rank(b) && NotGiven(a) < NotGiven(b))
    || (Rank(a) == Rank(b) && NotGiven(a) == NotGiven(b) && Weight(a) < Weight(b))
  }

  /**
   From every moment at which the coordinator has not crashed, new workers that
   report what they were just given can finish the job, whatever became of the
   others, provided there are files and reduce tasks.
   */
  lemma {:induction false} JobCanFinish(
    input: seq<string>, nReduce: nat, run: seq<World>, actions: seq<Action>, clock: int)
    returns (longer: seq<World>, more: seq<Action>)
    requires Run(input, nReduce, run, actions) && |run| == |actions| + 1 && input != [] && nReduce > 0
    requires Sound(input, nReduce, run[|actions|], clock)
    ensures Run(input, nReduce, longer, actions + more) && |longer| == |actions + more| + 1 && run <= longer
    ensures longer[|actions + more|].c.phase == FinishPhase && !longer[|actions + more|].crashed
    ensures NewWorkersOnly(longer, actions + more, |actions|) && ClockGoesOn(actions + more, |actions|, clock)
    decreases Rank(run[|actions|].c), NotGiven(run[|actions|].c), Weight(run[|actions|].c)
  {
    if run[|actions|].c.phase == FinishPhase {
      longer, more := run, [];
      assert actions + more == actions;
    } else {
      hide Run, Inv, SlotsExact, Started, NewWorkersOnly, ClockGoesOn, Weight, Rank, NotGiven;
      var next, head, now := Progress(input, nReduce, run, actions, clock);
      var rest;
      longer, rest := JobCanFinish(input, nReduce, next, actions + head, now);
      more := head + rest;
      assert actions + more == actions + head + rest;
      Joined(next, actions, head, rest, longer, clock, now);
    }
  }

  /** The job can be finished from every moment of every run before a crash. */
  lemma FinishIsPossible(input: seq<string>, nReduce: nat, run: seq<World>, actions: seq<Action>)
    returns (longer: seq<World>, more: seq<Action>)
    requires Run(input, nReduce, run, actions) && |run| == |actions| + 1 && !run[|actions|].crashed
    requires input != [] && nReduce > 0
    ensures Run(input, nReduce, longer, actions + more) && |longer| == |actions + more| + 1 && run <= longer
    ensures longer[|actions + more|].c.phase == FinishPhase && !longer[|actions + more|].crashed
    ensures NewWorkersOnly(longer, actions + more, |actions|)
  {
    hide Run, Inv, SlotsExact, NewWorkersOnly, ClockGoesOn;
    EverySlots(input, nReduce, run, actions, |actions|);
    EveryTaskRuns(input, nReduce, run, actions, |actions|);
    var clock := LatestStart(run[|actions|].c.tasks);
    longer, more := JobCanFinish(input, nReduce, run, actions, clock);
  }

  lemma {:induction false} LatestStart(tasks: seq<Task>) returns (clock: int)
    ensures forall i :: 0 <= i < |tasks| ==> tasks[i].start <= clock
  {
    clock := 0;
    if tasks != [] {
      var (front, last) := (tasks[..|tasks| - 1], tasks[|tasks| - 1]);
      var before := LatestStart(front);
      clock := if before < last.start then last.start else before;
      assert forall i :: 0 <= i < |front| ==> tasks[i] == front[i];
    }
  }

  /** Without files or without reduce tasks it never finishes. */
  lemma {:induction false} NothingToDoNeverFinishes(
    input: seq<string>, nReduce: nat, run: seq<World>, actions: seq<Action>, i: nat)
    requires Run(input, nReduce, run, actions) && i < |run| && (input == [] || nReduce == 0)
    ensures run[i].c.phase != FinishPhase && (input == [] ==> run[i].c.phase == MapPhase)
  {
    if i > 0 {
      hide Inv, SlotsExact, Do, Enabled, Init;
      NothingToDoNeverFinishes(input, nReduce, run, actions, i - 1);
      EverySlots(input, nReduce, run, actions, i - 1);
      assert StepAt(run, actions, i - 1);
      NothingToDo(input, nReduce, run[i - 1], actions[i - 1]);
    }
  }

  lemma NothingToDo(input: seq<string>, nReduce: nat, w: World, a: Action)
    requires Inv(input, nReduce, w) && (input == [] || nReduce == 0)
    requires w.c.phase != FinishPhase && (input == [] ==> w.c.phase == MapPhase)
    ensures Do(w, a).c.phase != FinishPhase && (input == [] ==> Do(w, a).c.phase == MapPhase)
  {
    assert w.c.phase == ReducePhase && nReduce == 0 ==> w.c.tasks == [];
    assert input == [] ==> w.c.tasks == [] by {
      assert |Names(w.c.tasks)| == |w.c.tasks|;
    }
    hide Inv;
    match a
    case CheckPhase =>
    case AssignTask(now) =>
      if AgainOk(w.c) {
        AssignKeepsPhase(w.c, now);
      }
    case Report(_, _) =>
  }

  lemma AssignKeepsPhase(c: State, now: int)
    requires AgainOk(c)
    ensures AssignChecked(c, now).0.phase == c.phase
  {
  }
}
