/**
 The MapReduce coordinator: it hands out map tasks, then reduce tasks, hands a
 task out again when it takes longer than ten seconds, and moves to the next
 phase when every task of the present one is marked completed.
 */
module Coordinator {

  datatype Phase = MapPhase | ReducePhase | FinishPhase
  datatype Status = Doing | Completed | Pending
  datatype Task = Task(fileName: string, id: int, start: int, status: Status)
  datatype Kind = MapTask | ReduceTask | WaitTask | Finished

  /** What a worker is told to do. */
  datatype Assignment = Assignment(kind: Kind, task: Task, nReduce: int)

  datatype State = State(
    files: seq<string>, nReduce: nat, assignedReduce: nat, assignedMap: nat, phase: Phase, tasks: seq<Task>,
    rePending: seq<Task>)

  const OUT_TIME: int := 10
  const NO_TASK: Task := Task("", 0, 0, Pending)

  function Made(files: seq<string>, nReduce: nat): State {
    State(files, nReduce, 0, 0, MapPhase, [], [])
  }

  predicate AllDone(tasks: seq<Task>) {
    tasks != [] && forall i :: 0 <= i < |tasks| ==> tasks[i].status == Completed
  }

  function Checked(c: State): State {
    match c.phase
    case MapPhase =>
      if AllDone(c.tasks) && c.files == [] && c.rePending == [] then c.(phase := ReducePhase, tasks := []) else c
    case ReducePhase =>
      if AllDone(c.tasks) && c.assignedReduce == c.nReduce && c.rePending == [] then c.(phase := FinishPhase) else c
    case FinishPhase => c
  }

  predicate IsLate(task: Task, now: int) {
    task.status == Doing && now - task.start > OUT_TIME
  }

  /** The first late task from index `i` on, or the number of tasks. */
  function FirstLate(tasks: seq<Task>, now: int, i: nat): (k: nat)
    requires i <= |tasks|
    ensures i <= k <= |tasks| && (k < |tasks| ==> IsLate(tasks[k], now))
    ensures forall j :: i <= j < k ==> !IsLate(tasks[j], now)
    decreases |tasks| - i
  {
    if i == |tasks| || IsLate(tasks[i], now) then i else FirstLate(tasks, now, i + 1)
  }

  function TimedOut(c: State, now: int): State {
    if c.phase == FinishPhase then c
    else
      var k := FirstLate(c.tasks, now, 0);
      if k == |c.tasks| then c else c.(rePending := c.rePending + [c.tasks[k].(start := now, status := Pending)])
  }

  /** A task handed out again. */
  function Again(c: State, now: int): (State, Task)
    requires c.rePending != [] && 0 <= c.rePending[0].id < |c.tasks|
  {
    var task := c.rePending[0];
    (c.(tasks := c.tasks[task.id := c.tasks[task.id].(start := now)], rePending := c.rePending[1..]),
     task.(start := now, status := Doing))
  }

  /** A re-pending task is in the list of tasks. */
  predicate AgainOk(c: State) {
    c.rePending != [] ==> 0 <= c.rePending[0].id < |c.tasks|
  }

  function AssignChecked(c: State, now: int): (State, Assignment)
    requires AgainOk(c)
  {
    match c.phase
    case MapPhase =>
      if c.files != [] then
        var task := Task(c.files[0], c.assignedMap, now, Doing);
        (c.(tasks := c.tasks + [task], files := c.files[1..], assignedMap := c.assignedMap + 1),
         Assignment(MapTask, task, c.nReduce))
      else if c.rePending != [] then
        var (after, task) := Again(c, now);
        (after, Assignment(MapTask, task, c.nReduce))
      else (TimedOut(c, now), Assignment(WaitTask, NO_TASK, 0))
    case ReducePhase =>
      if c.assignedReduce != c.nReduce then
        var task := Task("", c.assignedReduce, now, Doing);
        (c.(tasks := c.tasks + [task], assignedReduce := c.assignedReduce + 1), Assignment(ReduceTask, task, 0))
      else if c.rePending != [] then
        var (after, task) := Again(c, now);
        (after, Assignment(ReduceTask, task, 0))
      else (TimedOut(c, now), Assignment(WaitTask, NO_TASK, 0))
    case FinishPhase => (c, Assignment(Finished, NO_TASK, 0))
  }

  function Assign(c: State, now: int): (State, Assignment)
    requires AgainOk(Checked(c))
  {
    AssignChecked(Checked(c), now)
  }

  /** A completion carries only a task number; it indexes the tasks of whatever phase it arrives in. */
  function Marked(c: State, id: int): State
    requires 0 <= id < |c.tasks|
  {
    c.(tasks := c.tasks[id := c.tasks[id].(status := Completed)])
  }

  class Server {
    var files: seq<string>
    const nReduce: nat
    var assignedReduce: nat
    var assignedMap: nat
    var phase: Phase
    var tasks: seq<Task>
    var rePending: seq<Task>

    ghost function View(): State
      reads this
    {
      State(files, nReduce, assignedReduce, assignedMap, phase, tasks, rePending)
    }

    constructor MakeCoordinator(files: seq<string>, nReduce: nat)
      ensures View() == Made(files, nReduce)
    {
      this.files, this.nReduce := files, nReduce;
      assignedReduce, assignedMap, phase, tasks, rePending := 0, 0, MapPhase, [], [];
    }

    method AllTaskDone() returns (done: bool)
      ensures done == AllDone(tasks)
    {
      if |tasks| == 0 {
        return false;
      }
      for i := 0 to |tasks|
        invariant forall j :: 0 <= j < i ==> tasks[j].status == Completed
      {
        if tasks[i].status != Completed {
          return false;
        }
      }
      return true;
    }

    method Check()
      modifies this
      ensures View() == Checked(old(View()))
    {
      match phase
      case MapPhase =>
        var done := AllTaskDone();
        if done && |files| == 0 {
          if |rePending| == 0 {
            phase := ReducePhase;
            tasks := [];
          }
        }
      case ReducePhase =>
        var done := AllTaskDone();
        if done && assignedReduce == nReduce {
          if |rePending| == 0 {
            phase := FinishPhase;
          }
        }
      case FinishPhase =>
    }

    method HandleTimeOutTask(now: int)
      modifies this
      ensures View() == TimedOut(old(View()), now)
    {
      if phase == FinishPhase {
        return;
      }
      var i := 0;
      while i < |tasks|
        invariant 0 <= i <= |tasks| && View() == old(View())
        invariant FirstLate(tasks, now, i) == FirstLate(tasks, now, 0)
      {
        var task := tasks[i];
        if task.status == Doing && now - task.start > OUT_TIME {
          rePending := rePending + [task.(start := now, status := Pending)];
          return;
        }
        i := i + 1;
      }
    }

    method TakeRePending(now: int) returns (task: Task)
      requires rePending != [] && 0 <= rePending[0].id < |tasks|
      modifies this
      ensures (View(), task) == Again(old(View()), now)
    {
      task := rePending[0];
      tasks := tasks[task.id := tasks[task.id].(start := now)];
      task := task.(start := now, status := Doing);
      rePending := rePending[1..];
    }

    method AssignedTask(now: int) returns (reply: Assignment)
      requires AgainOk(Checked(View()))
      modifies this
      ensures (View(), reply) == Assign(old(View()), now)
    {
      Check();
      match phase
      case MapPhase =>
        if |files| != 0 {
          reply := Assignment(MapTask, Task(files[0], assignedMap, now, Doing), nReduce);
          tasks := tasks + [reply.task];
          files := files[1..];
          assignedMap := assignedMap + 1;
        } else if |rePending| > 0 {
          var task := TakeRePending(now);
          reply := Assignment(MapTask, task, nReduce);
        } else {
          HandleTimeOutTask(now);
          reply := Assignment(WaitTask, NO_TASK, 0);
        }
      case ReducePhase =>
        if assignedReduce != nReduce {
          reply := Assignment(ReduceTask, Task("", assignedReduce, now, Doing), 0);
          assignedReduce := assignedReduce + 1;
          tasks := tasks + [reply.task];
        } else if |rePending| > 0 {
          var task := TakeRePending(now);
          reply := Assignment(ReduceTask, task, 0);
        } else {
          HandleTimeOutTask(now);
          reply := Assignment(WaitTask, NO_TASK, 0);
        }
      case FinishPhase =>
        reply := Assignment(Finished, NO_TASK, 0);
    }

    /** `panics` when the number is not on the present list: the code indexes out of range and the process ends. */
    method MarkTaskDone(id: int) returns (panics: bool)
      modifies this
      ensures panics <==> !(0 <= id < |old(tasks)|)
      ensures View() == if panics then old(View()) else Marked(old(View()), id)
    {
      panics := !(0 <= id < |tasks|);
      if !panics {
        tasks := tasks[id := tasks[id].(status := Completed)];
      }
    }

    method Done() returns (done: bool)
      ensures done <==> phase == FinishPhase
    {
      done := phase == FinishPhase;
    }
  }
}
