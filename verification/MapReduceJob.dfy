/**
 A whole distributed job: the coordinator, and workers that read and write files
 while they owe a task and report it when all its files are there.  Tasks are given
 out again, executed several times and reported late, in any interleaving.
 */
module MapReduceJob {
  import opened MapReduce
  import opened MapReduceEquivalence
  import opened Coordinator
  import opened CoordinatorRuns

  datatype Setup = Setup(
    mapf: Mapper, reducef: Reducer, files: seq<(string, string)>, hash: string -> nat, nReduce: nat)

  /** What a reduce task of partition `r` found in the file of map task `m`. */
  datatype Read = Read(r: nat, m: nat, part: seq<Intermediate>)

  /** `seen` is what reduce tasks have read so far, and `outs` are their output files. */
  datatype Job = Job(w: World, fs: Files, seen: set<Read>, outs: map<nat, seq<Line>>)

  datatype Event =
    | Coordinate(a: Action)
    | WriteFile(task: nat, r: nat, part: seq<Intermediate>)
    | ReadFile(r: nat, m: nat)
    | WriteOutput(r: nat, column: seq<seq<Intermediate>>, inputs: seq<seq<Intermediate>>, lines: seq<Line>)

  function FileNames(files: seq<(string, string)>): (names: seq<string>)
    ensures |names| == |files| && forall i :: 0 <= i < |files| ==> names[i] == files[i].0
  {
    seq(|files|, i requires 0 <= i < |files| => files[i].0)
  }

  ghost predicate JobInit(p: Setup, j: Job) {
    CoordinatorRuns.Init(FileNames(p.files), p.nReduce, j.w) && j.fs == map[] && j.seen == {} && j.outs == map[]
  }

  predicate AllWritten(fs: Files, task: nat, n: nat) {
    forall r: nat :: r < n ==> (task, r) in fs
  }

  /** A worker reports a task after it has renamed the files of the task to their final names. */
  ghost predicate Finishes(p: Setup, j: Job, a: Action) {
    && (a.Report? && a.kind == MapTask ==> a.id >= 0 && AllWritten(j.fs, a.id, p.nReduce))
    && (a.Report? && a.kind == ReduceTask ==> a.id >= 0 && a.id in j.outs)
  }

  ghost predicate JobNext(p: Setup, j: Job, e: Event, k: Job)
    requires p.nReduce > 0
  {
    match e
    case Coordinate(a) =>
      CoordinatorRuns.Enabled(j.w, a) && Finishes(p, j, a) && k == j.(w := CoordinatorRuns.Do(j.w, a))
    case WriteFile(m, r, part) =>
      && (MapTask, m) in j.w.owed && m < |p.files| && r < p.nReduce
      && PartOk(part, p.mapf(p.files[m].0, p.files[m].1), p.hash, p.nReduce, r) && k == j.(fs := j.fs[(m, r) := part])
    case ReadFile(r, m) =>
      && (ReduceTask, r) in j.w.owed && r < p.nReduce && m < |p.files|
      && k == j.(seen := j.seen + {Read(r, m, FileAt(j.fs, m, r))})
    case WriteOutput(r, column, inputs, lines) =>
      && (ReduceTask, r) in j.w.owed && r < p.nReduce && HasRead(p, j, r, column)
      && multiset(inputs) == multiset(column) && ReduceOk(lines, inputs, p.reducef)
      && k == j.(outs := j.outs[r := lines])
  }

  /** One file per map task, each read at some moment. */
  ghost predicate HasRead(p: Setup, j: Job, r: nat, column: seq<seq<Intermediate>>) {
    |column| == |p.files| && forall m: nat :: m < |column| ==> Read(r, m, column[m]) in j.seen
  }

  ghost predicate JobStepAt(p: Setup, run: seq<Job>, events: seq<Event>, i: nat)
    requires p.nReduce > 0 && i + 1 < |run| && i < |events|
  {
    JobNext(p, run[i], events[i], run[i + 1])
  }

  ghost predicate JobRun(p: Setup, run: seq<Job>, events: seq<Event>) {
    && p.nReduce > 0 && OrderInsensitive(p.reducef) && |run| == |events| + 1 && JobInit(p, run[0])
    && forall i: nat :: i < |events| ==> JobStepAt(p, run, events, i)
  }

  // ---------------------------------------------------------------------
  // What the directory holds

  ghost predicate FilesOk(p: Setup, j: Job)
    requires p.nReduce > 0
  {
    && (forall m: nat, r: nat :: (m, r) in j.fs && m < |p.files| && r < p.nReduce ==>
          FileOk(p.mapf, p.files, p.hash, p.nReduce, j.fs, m, r))
    && (forall m: nat, r: nat :: (MapTask, m) in j.w.reported && r < p.nReduce ==> (m, r) in j.fs)
  }

  /** An output file has exactly the lines of the keys of its partition. */
  ghost predicate LinesOk(p: Setup, r: nat, lines: seq<Line>)
    requires p.nReduce > 0
  {
    forall k, o :: (k, o) in lines <==> p.hash(k) % p.nReduce == r && IsLine(AllPairs(p.mapf, p.files), p.reducef, k, o)
  }

  ghost predicate OutputsOk(p: Setup, j: Job)
    requires p.nReduce > 0
  {
    && (forall r: nat :: r in j.outs && r < p.nReduce ==> LinesOk(p, r, j.outs[r]))
    && (forall r: nat :: (ReduceTask, r) in j.w.reported ==> r in j.outs)
  }

  /** Whatever was read is the work of the map task, although the file may have been replaced since. */
  ghost predicate ReadsOk(p: Setup, j: Job)
    requires p.nReduce > 0
  {
    forall x :: x in j.seen ==> x.r < p.nReduce && x.m < |p.files| && ReadOk(p, x)
  }

  ghost predicate ReadOk(p: Setup, x: Read)
    requires p.nReduce > 0 && x.m < |p.files|
  {
    PartOk(x.part, p.mapf(p.files[x.m].0, p.files[x.m].1), p.hash, p.nReduce, x.r)
  }

  ghost predicate CoordinatorOk(p: Setup, w: World) {
    Inv(FileNames(p.files), p.nReduce, w) && SlotsExact(w)
  }

  ghost predicate JobInv(p: Setup, j: Job) {
    p.nReduce > 0 && CoordinatorOk(p, j.w) && FilesOk(p, j) && ReadsOk(p, j) && OutputsOk(p, j)
  }

  lemma CoordinatorStep(p: Setup, w: World, a: Action)
    requires CoordinatorOk(p, w) && CoordinatorRuns.Enabled(w, a)
    ensures CoordinatorOk(p, CoordinatorRuns.Do(w, a))
  {
    hide Inv, SlotsExact, CoordinatorRuns.Do;
    NextSlots(FileNames(p.files), p.nReduce, w, a);
  }

  lemma ReportedBy(w: World, a: Action, x: (Kind, int))
    requires x in CoordinatorRuns.Do(w, a).reported
    ensures x in w.reported || a == Report(x.0, x.1)
  {
  }

  lemma CoordinateInv(p: Setup, j: Job, a: Action)
    requires JobInv(p, j) && CoordinatorRuns.Enabled(j.w, a) && Finishes(p, j, a)
    ensures JobInv(p, j.(w := CoordinatorRuns.Do(j.w, a)))
  {
    hide CoordinatorOk, FileOk, ReadOk, LinesOk, CoordinatorRuns.Do;
    CoordinatorStep(p, j.w, a);
    var w := CoordinatorRuns.Do(j.w, a);
    forall x | x in w.reported
      ensures x in j.w.reported || a == Report(x.0, x.1)
    {
      ReportedBy(j.w, a, x);
    }
  }

  lemma WriteFileInv(p: Setup, j: Job, m: nat, r: nat, part: seq<Intermediate>)
    requires JobInv(p, j) && m < |p.files| && r < p.nReduce
    requires PartOk(part, p.mapf(p.files[m].0, p.files[m].1), p.hash, p.nReduce, r)
    ensures JobInv(p, j.(fs := j.fs[(m, r) := part]))
  {
    hide CoordinatorOk, OutputsOk, ReadOk, PartOk;
    var k := j.(fs := j.fs[(m, r) := part]);
    forall l: nat, q: nat | (l, q) in k.fs && l < |p.files| && q < p.nReduce
      ensures FileOk(p.mapf, p.files, p.hash, p.nReduce, k.fs, l, q)
    {
      assert (l, q) in j.fs ==> FileOk(p.mapf, p.files, p.hash, p.nReduce, j.fs, l, q);
    }
    SameOutputs(p, j, k);
  }

  lemma SameOutputs(p: Setup, j: Job, k: Job)
    requires p.nReduce > 0 && OutputsOk(p, j) && k.w == j.w && k.outs == j.outs
    ensures OutputsOk(p, k)
  {
    hide LinesOk;
  }

  /** While a reduce task is owed, every map task has been reported. */
  lemma MapsAreReported(p: Setup, w: World, r: nat)
    requires CoordinatorOk(p, w) && (ReduceTask, r) in w.owed
    ensures AllReported(w, MapTask, |p.files|)
  {
    hide TasksOk, Names, SlotsExact;
  }

  lemma ReadFileInv(p: Setup, j: Job, r: nat, m: nat)
    requires JobInv(p, j) && (ReduceTask, r) in j.w.owed && r < p.nReduce && m < |p.files|
    ensures JobInv(p, j.(seen := j.seen + {Read(r, m, FileAt(j.fs, m, r))}))
  {
    hide CoordinatorOk, OutputsOk, PartOk;
    MapsAreReported(p, j.w, r);
    assert (MapTask, m) in j.w.reported;
    assert FileOk(p.mapf, p.files, p.hash, p.nReduce, j.fs, m, r);
    assert ReadOk(p, Read(r, m, j.fs[(m, r)]));
    hide ReadOk;
    SameOutputs(p, j, j.(seen := j.seen + {Read(r, m, FileAt(j.fs, m, r))}));
  }

  /** A directory with just the files that were read. */
  ghost function DirectoryOf(column: seq<seq<Intermediate>>, r: nat): Files {
    map m: nat | m < |column| :: (m, r) := column[m]
  }

  lemma {:induction false} DirectoryHolds(column: seq<seq<Intermediate>>, r: nat, n: nat)
    requires n <= |column|
    ensures PartitionFiles(DirectoryOf(column, r), n, r) == column[..n]
  {
    if n > 0 {
      DirectoryHolds(column, r, n - 1);
      assert (n - 1, r) in DirectoryOf(column, r);
      assert column[..n] == column[..n - 1] + [column[n - 1]];
    }
  }

  lemma WrittenLines(
    p: Setup, j: Job, r: nat, column: seq<seq<Intermediate>>, inputs: seq<seq<Intermediate>>, lines: seq<Line>)
    requires p.nReduce > 0 && ReadsOk(p, j) && OrderInsensitive(p.reducef) && HasRead(p, j, r, column)
    requires multiset(inputs) == multiset(column) && ReduceOk(lines, inputs, p.reducef)
    ensures LinesOk(p, r, lines)
  {
    hide PartOk, IsLine, AllPairs, OrderInsensitive, ReduceOk, PartitionFiles;
    var fs := DirectoryOf(column, r);
    DirectoryHolds(column, r, |column|);
    assert column[..|column|] == column;
    forall m: nat | m < |p.files|
      ensures FileOk(p.mapf, p.files, p.hash, p.nReduce, fs, m, r)
    {
      assert Read(r, m, column[m]) in j.seen;
      assert ReadOk(p, Read(r, m, column[m]));
      assert (m, r) in fs && fs[(m, r)] == column[m];
    }
    ReducedNow(fs, |p.files|, r, inputs, p.reducef, lines);
    hide Reduced, FileOk, DirectoryOf;
    forall k, o
      ensures (k, o) in lines <==> p.hash(k) % p.nReduce == r && IsLine(AllPairs(p.mapf, p.files), p.reducef, k, o)
    {
      ReduceLine(p.mapf, p.reducef, p.files, p.hash, p.nReduce, fs, r, inputs, lines, k, o);
    }
  }

  lemma WriteOutputInv(
    p: Setup, j: Job, r: nat, column: seq<seq<Intermediate>>, inputs: seq<seq<Intermediate>>, lines: seq<Line>)
    requires JobInv(p, j) && OrderInsensitive(p.reducef) && HasRead(p, j, r, column)
    requires multiset(inputs) == multiset(column) && ReduceOk(lines, inputs, p.reducef)
    ensures JobInv(p, j.(outs := j.outs[r := lines]))
  {
    hide CoordinatorOk, FileOk, ReadOk, LinesOk, HasRead, ReduceOk, OrderInsensitive;
    WrittenLines(p, j, r, column, inputs, lines);
  }

  lemma InitJob(p: Setup, j: Job)
    requires p.nReduce > 0 && JobInit(p, j)
    ensures JobInv(p, j)
  {
    hide Inv, SlotsExact;
    InitSlots(FileNames(p.files), p.nReduce, j.w);
  }

  lemma {:induction false} EveryJob(p: Setup, run: seq<Job>, events: seq<Event>, i: nat)
    requires JobRun(p, run, events) && i < |run|
    ensures JobInv(p, run[i])
  {
    hide JobInv, Finishes, OrderInsensitive, JobInit;
    if i == 0 {
      InitJob(p, run[0]);
    } else {
      EveryJob(p, run, events, i - 1);
      assert JobStepAt(p, run, events, i - 1);
      match events[i - 1]
      case Coordinate(a) => CoordinateInv(p, run[i - 1], a);
      case WriteFile(m, r, part) => WriteFileInv(p, run[i - 1], m, r, part);
      case ReadFile(r, m) => ReadFileInv(p, run[i - 1], r, m);
      case WriteOutput(r, column, inputs, lines) => WriteOutputInv(p, run[i - 1], r, column, inputs, lines);
    }
  }

  // ---------------------------------------------------------------------
  // The output files

  /**
   At every moment of every run: the lines in output files are exactly the lines
   of the sequential program whose partition has its file.
   */
  lemma OutputsAreExact(
    p: Setup, run: seq<Job>, events: seq<Event>, i: nat, sorted: seq<KeyValue>, out: seq<Line>, k: string, o: string)
    requires JobRun(p, run, events) && i < |run|
    requires SequentialOk(out, sorted, p.reducef) && multiset(sorted) == multiset(AllPairs(p.mapf, p.files))
    ensures (exists r: nat :: r < p.nReduce && r in run[i].outs && (k, o) in run[i].outs[r]) <==>
              (k, o) in out && p.hash(k) % p.nReduce in run[i].outs
  {
    hide JobStepAt, JobInit, SequentialOk, IsLine, OrderInsensitive, CoordinatorOk, FilesOk, ReadsOk;
    EveryJob(p, run, events, i);
    SequentialLine(p.mapf, p.reducef, p.files, sorted, out, k, o);
    var home: nat := p.hash(k) % p.nReduce;
    if home in run[i].outs {
      assert LinesOk(p, home, run[i].outs[home]);
    }
    forall r: nat | r < p.nReduce && r in run[i].outs && (k, o) in run[i].outs[r]
      ensures r == home && (k, o) in out
    {
      assert LinesOk(p, r, run[i].outs[r]);
    }
  }

  /**
   When the job is finished, a file is missing only where a map task hit the slot
   late and the reduce task has not been reported.
   */
  lemma MissingOutput(p: Setup, run: seq<Job>, events: seq<Event>, i: nat, r: nat)
    requires JobRun(p, run, events) && i < |run| && run[i].w.c.phase == FinishPhase && r < p.nReduce
    ensures r !in run[i].outs ==> r in run[i].w.late && (ReduceTask, r) !in run[i].w.reported
  {
    hide JobRun, LinesOk, FilesOk, ReadsOk, TasksOk;
    EveryJob(p, run, events, i);
  }

  /**
   A finished job leaves the lines of the sequential program if and only if every
   slot that was hit late and has a line of that program has its file as well.
   */
  lemma FinishedJobIsSequential(
    p: Setup, run: seq<Job>, events: seq<Event>, i: nat, sorted: seq<KeyValue>, out: seq<Line>)
    requires JobRun(p, run, events) && i < |run| && run[i].w.c.phase == FinishPhase
    requires SequentialOk(out, sorted, p.reducef) && multiset(sorted) == multiset(AllPairs(p.mapf, p.files))
    ensures (forall k, o :: (k, o) in out <==> Printed(p, run[i], k, o)) <==>
              forall k, o :: (k, o) in out && p.hash(k) % p.nReduce in run[i].w.late ==>
                p.hash(k) % p.nReduce in run[i].outs
  {
    hide JobRun, SequentialOk;
    assert p.nReduce > 0 by {
      SetupIsSound(p, run, events);
    }
    forall k, o
      ensures Printed(p, run[i], k, o) <==> (k, o) in out && p.hash(k) % p.nReduce in run[i].outs
      ensures p.hash(k) % p.nReduce !in run[i].outs ==> p.hash(k) % p.nReduce in run[i].w.late
    {
      OutputsAreExact(p, run, events, i, sorted, out, k, o);
      MissingOutput(p, run, events, i, p.hash(k) % p.nReduce);
    }
    hide Printed;
  }

  /** The line is in some output file. */
  ghost predicate Printed(p: Setup, j: Job, k: string, o: string) {
    exists r: nat :: r < p.nReduce && r in j.outs && (k, o) in j.outs[r]
  }

  lemma SetupIsSound(p: Setup, run: seq<Job>, events: seq<Event>)
    requires JobRun(p, run, events)
    ensures p.nReduce > 0
  {
  }

  /** A job whose reduce tasks were all reported leaves the lines of the sequential program. */
  lemma ReportedJobIsSequential(
    p: Setup, run: seq<Job>, events: seq<Event>, i: nat, sorted: seq<KeyValue>, out: seq<Line>, k: string, o: string)
    requires JobRun(p, run, events) && i < |run| && AllReported(run[i].w, ReduceTask, p.nReduce)
    requires SequentialOk(out, sorted, p.reducef) && multiset(sorted) == multiset(AllPairs(p.mapf, p.files))
    ensures (k, o) in out <==> Printed(p, run[i], k, o)
  {
    hide JobStepAt, JobInit, SequentialOk, OrderInsensitive, CoordinatorOk, FilesOk, ReadsOk, LinesOk;
    EveryJob(p, run, events, i);
    var home: nat := p.hash(k) % p.nReduce;
    assert (ReduceTask, home) in run[i].w.reported;
    OutputsAreExact(p, run, events, i, sorted, out, k, o);
  }
}
