/**
 Every run of the coordinator with its workers.  The two locked sections of a
 request, the check and the assignment, are separate steps, so requests
 interleave; a worker reports a task it was given at most once, or never.  A
 report carries only a number: one that crosses the change to the reduce phase
 hits the slot of a reduce task, or no slot at all, and then the process ends.
 */
module CoordinatorRuns {
  import opened Coordinator

  /**
   `owed` are the assignments not reported yet, `reported` those that were, and
   `late` the slots that the report of a map task hit in the reduce phase.
   */
  datatype World = World(
    c: State, owed: multiset<(Kind, int)>, reported: set<(Kind, int)>, late: set<int>, crashed: bool)

  datatype Action = CheckPhase | AssignTask(now: int) | Report(kind: Kind, id: int)

  ghost predicate Init(input: seq<string>, nReduce: nat, w: World) {
    w == World(Made(input, nReduce), multiset{}, {}, {}, false)
  }

  ghost predicate Enabled(w: World, a: Action) {
    !w.crashed && (a.Report? ==> (a.kind, a.id) in w.owed)
  }

  /** The step does not index out of range. */
  ghost predicate Safe(w: World, a: Action) {
    match a
    case CheckPhase => true
    case AssignTask(_) => AgainOk(w.c)
    case Report(_, id) => 0 <= id < |w.c.tasks|
  }

  ghost function Do(w: World, a: Action): World {
    if !Safe(w, a) then w.(crashed := true)
    else
      match a
      case CheckPhase => w.(c := Checked(w.c))
      case AssignTask(now) =>
        var (c, reply) := AssignChecked(w.c, now);
        var given := if reply.kind in {MapTask, ReduceTask} then multiset{(reply.kind, reply.task.id)} else multiset{};
        w.(c := c, owed := w.owed + given)
      case Report(kind, id) =>
        w.(c := Marked(w.c, id), owed := w.owed - multiset{(kind, id)}, reported := w.reported + {(kind, id)},
           late := if kind == MapTask && w.c.phase == ReducePhase then w.late + {id} else w.late)
  }

  ghost predicate StepAt(run: seq<World>, actions: seq<Action>, i: nat)
    requires i + 1 < |run| && i < |actions|
  {
    Enabled(run[i], actions[i]) && run[i + 1] == Do(run[i], actions[i])
  }

  ghost predicate Run(input: seq<string>, nReduce: nat, run: seq<World>, actions: seq<Action>) {
    && |run| == |actions| + 1 && Init(input, nReduce, run[0])
    && forall i: nat :: i < |actions| ==> StepAt(run, actions, i)
  }

  // ---------------------------------------------------------------------
  // What every run keeps

  ghost function Names(tasks: seq<Task>): (r: seq<string>)
    ensures |r| == |tasks| && forall i :: 0 <= i < |tasks| ==> r[i] == tasks[i].fileName
  {
    if tasks == [] then [] else Names(tasks[..|tasks| - 1]) + [tasks[|tasks| - 1].fileName]
  }

  /** Tasks are numbered by position, and at most one waits to be handed out again. */
  ghost predicate TasksOk(c: State) {
    && (forall i :: 0 <= i < |c.tasks| ==> c.tasks[i].id == i)
    && |c.rePending| <= 1
    && (c.rePending != [] ==>
          && 0 <= c.rePending[0].id < |c.tasks| && c.rePending[0].fileName == c.tasks[c.rePending[0].id].fileName)
  }

  ghost predicate AllReported(w: World, kind: Kind, n: nat) {
    forall i :: 0 <= i < n ==> (kind, i) in w.reported
  }

  ghost predicate CompletedReported(w: World, kind: Kind) {
    forall i :: 0 <= i < |w.c.tasks| && w.c.tasks[i].status == Completed ==> (kind, i) in w.reported
  }

  ghost predicate OwedOk(w: World, kind: Kind, n: nat) {
    forall id :: (kind, id) in w.owed ==> 0 <= id < n
  }

  ghost predicate Inv(input: seq<string>, nReduce: nat, w: World) {
    var c := w.c;
    && TasksOk(c) && c.nReduce == nReduce && c.assignedReduce <= nReduce && OwedOk(w, MapTask, |input|)
    && (forall x :: x in w.owed ==> x.0 in {MapTask, ReduceTask})
    && match c.phase
       case MapPhase =>
         && Names(c.tasks) + c.files == input && c.assignedMap == |c.tasks| && c.assignedReduce == 0
         && CompletedReported(w, MapTask) && OwedOk(w, MapTask, |c.tasks|) && OwedOk(w, ReduceTask, 0)
         && (forall x :: x in w.owed ==> x.0 == MapTask)
       case ReducePhase =>
         c.assignedReduce == |c.tasks| && AllReported(w, MapTask, |input|) && OwedOk(w, ReduceTask, |c.tasks|)
       case FinishPhase =>
         && c.assignedReduce == |c.tasks| == nReduce && AllReported(w, MapTask, |input|)
         && OwedOk(w, ReduceTask, |c.tasks|) && c.rePending == []
  }

  lemma CheckInv(input: seq<string>, nReduce: nat, w: World)
    requires Inv(input, nReduce, w)
    ensures Inv(input, nReduce, w.(c := Checked(w.c)))
  {
    if w.c.phase == MapPhase && AllDone(w.c.tasks) && w.c.files == [] && w.c.rePending == [] {
      assert |Names(w.c.tasks)| == |input|;
    }
  }

  lemma NamesExtend(tasks: seq<Task>, task: Task)
    ensures Names(tasks + [task]) == Names(tasks) + [task.fileName]
  {
    assert (tasks + [task])[..|tasks|] == tasks;
  }

  lemma SameNames(a: seq<Task>, b: seq<Task>)
    requires |a| == |b| && forall i :: 0 <= i < |a| ==> a[i].fileName == b[i].fileName
    ensures Names(a) == Names(b)
  {
  }

  /** The counter of the phase says how many tasks there are. */
  ghost predicate CountOk(c: State) {
    && (c.phase == MapPhase ==> c.assignedMap == |c.tasks|)
    && (c.phase == ReducePhase ==> c.assignedReduce == |c.tasks| <= c.nReduce)
  }

  /** Assigning keeps the tasks there are, except for start times, and may add one. */
  ghost predicate Grown(c: State, after: State) {
    && TasksOk(after) && CountOk(after) && after.phase == c.phase && after.nReduce == c.nReduce
    && |after.tasks| >= |c.tasks|
    && (forall i :: 0 <= i < |c.tasks| ==>
          after.tasks[i].fileName == c.tasks[i].fileName && after.tasks[i].status == c.tasks[i].status)
    && (forall i :: |c.tasks| <= i < |after.tasks| ==> after.tasks[i].status == Doing)
    && (c.phase == MapPhase ==>
          after.assignedReduce == c.assignedReduce && Names(after.tasks) + after.files == Names(c.tasks) + c.files)
    && (c.phase == FinishPhase ==> after == c)
  }

  /** What is handed out is a task of the present phase that is on the list. */
  ghost predicate HandedOut(c: State, after: State, reply: Assignment) {
    && (reply.kind == MapTask ==> c.phase == MapPhase) && (reply.kind == ReduceTask ==> c.phase == ReducePhase)
    && (reply.kind in {MapTask, ReduceTask} ==>
          0 <= reply.task.id < |after.tasks| && reply.task.fileName == after.tasks[reply.task.id].fileName)
  }

  lemma AgainGrows(c: State, now: int)
    requires TasksOk(c) && CountOk(c) && c.rePending != [] && c.phase != FinishPhase
    ensures Grown(c, Again(c, now).0)
    ensures var (after, task) := Again(c, now);
            0 <= task.id < |after.tasks| && task.fileName == after.tasks[task.id].fileName
  {
    SameNames(c.tasks, Again(c, now).0.tasks);
  }

  lemma TimedOutGrows(c: State, now: int)
    requires TasksOk(c) && CountOk(c) && c.rePending == []
    ensures Grown(c, TimedOut(c, now))
  {
  }

  lemma NewGrows(c: State, task: Task, after: State)
    requires TasksOk(c) && CountOk(c) && task.id == |c.tasks| && task.status == Doing && after.tasks == c.tasks + [task]
    requires || (c.phase == MapPhase && c.files != [] && task.fileName == c.files[0]
                 && after == c.(tasks := after.tasks, files := c.files[1..], assignedMap := c.assignedMap + 1))
             || (c.phase == ReducePhase && c.assignedReduce != c.nReduce
                 && after == c.(tasks := after.tasks, assignedReduce := c.assignedReduce + 1))
    ensures Grown(c, after)
  {
    NamesExtend(c.tasks, task);
    if c.phase == MapPhase {
      assert [c.files[0]] + c.files[1..] == c.files;
    }
  }

  lemma AssignCases(c: State, now: int)
    requires TasksOk(c) && CountOk(c) && AgainOk(c)
    ensures var (after, reply) := AssignChecked(c, now); Grown(c, after) && HandedOut(c, after, reply)
  {
    hide TasksOk, CountOk, Grown, Again, TimedOut;
    var (after, reply) := AssignChecked(c, now);
    if c.phase == FinishPhase {
      FinishGrows(c);
    } else if (c.phase == MapPhase && c.files != []) || (c.phase == ReducePhase && c.assignedReduce != c.nReduce) {
      CountIs(c);
      NewGrows(c, reply.task, after);
    } else if c.rePending != [] {
      AgainGrows(c, now);
    } else {
      TimedOutGrows(c, now);
    }
  }

  lemma CountIs(c: State)
    requires CountOk(c)
    ensures (c.phase == MapPhase ==> c.assignedMap == |c.tasks|)
    ensures (c.phase == ReducePhase ==> c.assignedReduce == |c.tasks|)
  {
  }

  lemma FinishGrows(c: State)
    requires TasksOk(c) && CountOk(c) && c.phase == FinishPhase
    ensures Grown(c, c)
  {
  }

  lemma TaskWaitsOnList(c: State)
    requires TasksOk(c)
    ensures AgainOk(c)
  {
  }

  lemma AssignInv(input: seq<string>, nReduce: nat, w: World, now: int)
    requires Inv(input, nReduce, w)
    ensures Inv(input, nReduce, Do(w, AssignTask(now)))
  {
    hide AssignChecked, TasksOk, Names;
    TaskWaitsOnList(w.c);
    AssignCases(w.c, now);
    var (after, reply) := AssignChecked(w.c, now);
    var t := Do(w, AssignTask(now));
    assert t.c == after && t.reported == w.reported;
    forall x | x in t.owed
      ensures x in w.owed || (x == (reply.kind, reply.task.id) && reply.kind in {MapTask, ReduceTask})
    {
    }
    hide Do;
    assert w.c.phase == MapPhase ==> |Names(after.tasks)| <= |input|;
  }

  lemma ReportInv(input: seq<string>, nReduce: nat, w: World, kind: Kind, id: int)
    requires Inv(input, nReduce, w) && Enabled(w, Report(kind, id))
    ensures Inv(input, nReduce, Do(w, Report(kind, id)))
  {
    if Safe(w, Report(kind, id)) {
      SameNames(w.c.tasks, Marked(w.c, id).tasks);
    }
  }

  /** The run invariant, in the words of the coordinator. */
  lemma CoordinatorInvariant(input: seq<string>, nReduce: nat, run: seq<World>, actions: seq<Action>, i: nat)
    requires Run(input, nReduce, run, actions) && i < |run|
    ensures var c := run[i].c;
            && (c.phase == MapPhase ==> Names(c.tasks) + c.files == input)
            && (forall k :: 0 <= k < |c.tasks| ==> c.tasks[k].id == k) && |c.rePending| <= 1
            && (c.phase != MapPhase ==> AllReported(run[i], MapTask, |input|))
  {
    EverySlots(input, nReduce, run, actions, i);
  }

  /** What a worker is told to map is the input file with the number of the task. */
  lemma HandedOutIsInput(input: seq<string>, nReduce: nat, w: World, now: int)
    requires Inv(input, nReduce, w)
    ensures AgainOk(w.c)
    ensures var reply := AssignChecked(w.c, now).1;
            && (reply.kind == MapTask ==> 0 <= reply.task.id < |input| && reply.task.fileName == input[reply.task.id])
            && (reply.kind == ReduceTask ==> 0 <= reply.task.id < nReduce)
  {
    hide AssignChecked, Names;
    AssignCases(w.c, now);
    var (after, reply) := AssignChecked(w.c, now);
    if reply.kind == MapTask {
      var id := reply.task.id;
      assert (Names(after.tasks) + after.files)[id] == Names(after.tasks)[id];
    }
  }

  // ---------------------------------------------------------------------
  // Reports that cross the phase change

  /** A map task is reported when its number is no slot of a reduce task yet. */
  ghost predicate BeyondSlots(w: World, a: Action) {
    a.Report? && a.kind == MapTask && w.c.phase != MapPhase && a.id >= w.c.assignedReduce
  }

  /** The only step that indexes out of range is such a report. */
  lemma SafeExactly(input: seq<string>, nReduce: nat, w: World, a: Action)
    requires Inv(input, nReduce, w) && Enabled(w, a)
    ensures Safe(w, a) <==> !BeyondSlots(w, a)
  {
  }

  lemma CrashStep(input: seq<string>, nReduce: nat, w: World, a: Action)
    requires Inv(input, nReduce, w) && Enabled(w, a)
    ensures Do(w, a).crashed <==> w.crashed || BeyondSlots(w, a)
  {
    hide Inv, BeyondSlots;
    SafeExactly(input, nReduce, w, a);
  }

  ghost predicate CrossedBefore(run: seq<World>, actions: seq<Action>, i: nat)
    requires i <= |actions| <= |run|
  {
    exists j :: 0 <= j < i && BeyondSlots(run[j], actions[j])
  }

  lemma CrossedNext(run: seq<World>, actions: seq<Action>, i: nat)
    requires i < |actions| <= |run|
    ensures CrossedBefore(run, actions, i + 1) <==> CrossedBefore(run, actions, i) || BeyondSlots(run[i], actions[i])
  {
    hide BeyondSlots;
  }

  /** The coordinator crashes in a run if and only if a map task was reported beyond the slots. */
  lemma {:induction false} CrashExactly(input: seq<string>, nReduce: nat, run: seq<World>, actions: seq<Action>, i: nat)
    requires Run(input, nReduce, run, actions) && i < |run|
    ensures i <= |actions| && (run[i].crashed <==> CrossedBefore(run, actions, i))
  {
    if i > 0 {
      hide Inv, SlotsExact, BeyondSlots, Enabled, Do, Init, CrossedBefore;
      CrashExactly(input, nReduce, run, actions, i - 1);
      EverySlots(input, nReduce, run, actions, i - 1);
      assert StepAt(run, actions, i - 1);
      CrashStep(input, nReduce, run[i - 1], actions[i - 1]);
      CrossedNext(run, actions, i - 1);
    }
  }

  /** A slot of a reduce task is completed exactly by the report of that task or of a map task with its number. */
  ghost predicate SlotsExact(w: World) {
    if w.c.phase == MapPhase then w.late == {} && forall k :: (ReduceTask, k) !in w.reported
    else
      && (forall k :: k in w.late || (ReduceTask, k) in w.reported ==> 0 <= k < |w.c.tasks|)
      && (forall k :: 0 <= k < |w.c.tasks| ==>
            (w.c.tasks[k].status == Completed <==> k in w.late || (ReduceTask, k) in w.reported))
      && (w.c.phase == FinishPhase ==> forall k :: 0 <= k < |w.c.tasks| ==> w.c.tasks[k].status == Completed)
  }

  lemma ReportSlots(input: seq<string>, nReduce: nat, w: World, kind: Kind, id: int)
    requires Inv(input, nReduce, w) && SlotsExact(w) && Enabled(w, Report(kind, id))
    ensures SlotsExact(Do(w, Report(kind, id)))
  {
  }

  lemma AssignSlots(input: seq<string>, nReduce: nat, w: World, now: int)
    requires Inv(input, nReduce, w) && SlotsExact(w)
    ensures SlotsExact(Do(w, AssignTask(now)))
  {
    AssignCases(w.c, now);
    hide AssignChecked, TasksOk, Names;
  }

  lemma NextSlots(input: seq<string>, nReduce: nat, w: World, a: Action)
    requires Inv(input, nReduce, w) && SlotsExact(w) && Enabled(w, a)
    ensures Inv(input, nReduce, Do(w, a)) && SlotsExact(Do(w, a))
  {
    match a
    case CheckPhase => CheckInv(input, nReduce, w);
    case AssignTask(now) =>
      hide Inv, SlotsExact, Do;
      AssignInv(input, nReduce, w, now);
      AssignSlots(input, nReduce, w, now);
    case Report(kind, id) =>
      hide Inv, SlotsExact, Do;
      ReportInv(input, nReduce, w, kind, id);
      ReportSlots(input, nReduce, w, kind, id);
  }

  lemma InitSlots(input: seq<string>, nReduce: nat, w: World)
    requires Init(input, nReduce, w)
    ensures Inv(input, nReduce, w) && SlotsExact(w)
  {
  }

  lemma {:induction false} EverySlots(input: seq<string>, nReduce: nat, run: seq<World>, actions: seq<Action>, i: nat)
    requires Run(input, nReduce, run, actions) && i < |run|
    ensures Inv(input, nReduce, run[i]) && SlotsExact(run[i])
  {
    hide Inv, SlotsExact, Do, Enabled, Init;
    if i == 0 {
      InitSlots(input, nReduce, run[0]);
    } else {
      EverySlots(input, nReduce, run, actions, i - 1);
      assert StepAt(run, actions, i - 1);
      NextSlots(input, nReduce, run[i - 1], actions[i - 1]);
    }
  }

  /** Which slots are hit late, in terms of the steps of the run. */
  lemma {:induction false} LateExactly(
    input: seq<string>, nReduce: nat, run: seq<World>, actions: seq<Action>, i: nat, k: int)
    requires Run(input, nReduce, run, actions) && i < |run|
    ensures k in run[i].late <==>
              exists j :: 0 <= j < i && actions[j] == Report(MapTask, k) && run[j].c.phase == ReducePhase
                && Safe(run[j], actions[j])
  {
    if i > 0 {
      LateExactly(input, nReduce, run, actions, i - 1, k);
      assert StepAt(run, actions, i - 1);
      hide Safe;
      LateStep(run[i - 1], actions[i - 1], k);
    }
  }

  lemma LateStep(w: World, a: Action, k: int)
    ensures k in Do(w, a).late <==> k in w.late || (a == Report(MapTask, k) && w.c.phase == ReducePhase && Safe(w, a))
  {
  }

  /**
   When the job is finished, every map task was reported, and every reduce task
   was reported or had its slot hit by a map task reported late.
   */
  lemma FinishMeansReported(input: seq<string>, nReduce: nat, run: seq<World>, actions: seq<Action>, i: nat, k: nat)
    requires Run(input, nReduce, run, actions) && i < |run| && run[i].c.phase == FinishPhase && k < nReduce
    ensures AllReported(run[i], MapTask, |input|)
    ensures || (ReduceTask, k) in run[i].reported
            || exists j :: 0 <= j < i && actions[j] == Report(MapTask, k) && run[j].c.phase == ReducePhase
  {
    EverySlots(input, nReduce, run, actions, i);
    if (ReduceTask, k) !in run[i].reported {
      assert k in run[i].late;
      LateExactly(input, nReduce, run, actions, i, k);
    }
  }
}
