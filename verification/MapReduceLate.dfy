/** A whole job that finishes without an output file, because a map task was reported late. */
module MapReduceLate {
  import opened MapReduce
  import opened MapReduceEquivalence
  import opened Coordinator
  import opened CoordinatorRuns
  import opened CoordinatorLate
  import opened MapReduceJob

  /** Every file has the one pair ("k", "v"). */
  function OnePair(): Setup {
    Setup((name, content) => [KeyValue("k", "v")], (key, values) => "v", [("a", "")], key => 0, 1)
  }

  const PART: seq<Intermediate> := [Intermediate("k", ["v"])]

  lemma PartIsOk()
    ensures PartOk(PART, [KeyValue("k", "v")], OnePair().hash, 1, 0)
  {
    assert [KeyValue("k", "v")][..0] == [];
    assert ValuesOf([KeyValue("k", "v")], "k") == ["v"];
    assert HasKey([KeyValue("k", "v")], "k") by {
      assert [KeyValue("k", "v")][0].key == "k";
    }
    assert HoldsKey(PART, "k") by {
      assert PART[0].key == "k";
    }
  }

  ghost predicate JobReached(j: Job) {
    exists run, events :: JobRun(OnePair(), run, events) && |run| == |events| + 1 && run[|events|] == j
  }

  lemma JobExtended(run: seq<Job>, events: seq<Event>, e: Event, k: Job)
    requires JobRun(OnePair(), run, events) && JobNext(OnePair(), run[|events|], e, k)
    ensures JobRun(OnePair(), run + [k], events + [e])
  {
    hide JobNext, JobInit;
    var (longer, more) := (run + [k], events + [e]);
    forall i: nat | i < |more|
      ensures JobStepAt(OnePair(), longer, more, i)
    {
      if i < |events| {
        assert JobStepAt(OnePair(), run, events, i);
        assert longer[i] == run[i] && longer[i + 1] == run[i + 1];
      }
    }
  }

  lemma JobStep(j: Job, e: Event, k: Job)
    requires JobReached(j) && JobNext(OnePair(), j, e, k)
    ensures JobReached(k)
  {
    hide JobRun, JobNext;
    var run, events :| JobRun(OnePair(), run, events) && |run| == |events| + 1 && run[|events|] == j;
    JobExtended(run, events, e, k);
    assert (run + [k])[|events + [e]|] == k;
  }

  /** A step of the coordinator in which a map task is reported at most after its file was written. */
  lemma CoordinatorStep(j: Job, a: Action) returns (k: Job)
    requires JobReached(j) && CoordinatorRuns.Enabled(j.w, a)
    requires a.Report? ==> a == Report(MapTask, 0) && (0, 0) in j.fs
    ensures JobReached(k) && k == j.(w := CoordinatorRuns.Do(j.w, a))
  {
    hide JobReached, CoordinatorRuns.Do;
    k := j.(w := CoordinatorRuns.Do(j.w, a));
    JobStep(j, Coordinate(a), k);
  }

  lemma JobStarts() returns (j: Job)
    ensures JobReached(j) && j == Job(Start(), map[], {}, map[])
  {
    j := Job(Start(), map[], {}, map[]);
    assert FileNames([("a", "")]) == ["a"];
    assert JobRun(OnePair(), [j], []) && [j][0] == j;
  }

  /** The map task was given to two workers, and one of them has written its file. */
  lemma FileWritten() returns (j: Job)
    ensures JobReached(j) && j == Job(GivenTwice(), map[(0, 0) := PART], {}, map[])
  {
    hide JobReached, CoordinatorRuns.Do, CoordinatorRuns.Enabled, PartOk;
    GivenSteps();
    var start := JobStarts();
    var slow := CoordinatorStep(start, AssignTask(0));
    var late := CoordinatorStep(slow, AssignTask(11));
    var given := CoordinatorStep(late, AssignTask(12));
    j := given.(fs := map[(0, 0) := PART]);
    PartIsOk();
    JobStep(given, WriteFile(0, 0, PART), j);
  }

  lemma OneLine()
    ensures IsLine(AllPairs(OnePair().mapf, OnePair().files), OnePair().reducef, "k", "v")
  {
    var (p, kva) := (OnePair(), [KeyValue("k", "v")]);
    assert p.files[..0] == [] && p.files[|p.files| - 1] == ("a", "");
    assert AllPairs(p.mapf, p.files) == kva;
    assert kva[0].key == "k";
  }

  /** The job finishes with no output file at all, although the sequential program prints a line. */
  lemma LateReportLosesOutput(sorted: seq<KeyValue>, out: seq<Line>) returns (run: seq<Job>, events: seq<Event>)
    requires SequentialOk(out, sorted, OnePair().reducef)
    requires multiset(sorted) == multiset(AllPairs(OnePair().mapf, OnePair().files))
    ensures JobRun(OnePair(), run, events)
    ensures run[|events|].w.c.phase == FinishPhase && run[|events|].outs == map[] && ("k", "v") in out
  {
    assert OrderInsensitive(OnePair().reducef);
    OneLine();
    hide CoordinatorRuns.Do, CoordinatorRuns.Enabled, JobRun, SequentialOk, IsLine, OrderInsensitive;
    SequentialLine(OnePair().mapf, OnePair().reducef, OnePair().files, sorted, out, "k", "v");
    var written := FileWritten();
    ReportSteps();
    var once := CoordinatorStep(written, Report(MapTask, 0));
    var reduce := CoordinatorStep(once, CheckPhase);
    LateSteps();
    var handed := CoordinatorStep(reduce, AssignTask(13));
    var hit := CoordinatorStep(handed, Report(MapTask, 0));
    var j := CoordinatorStep(hit, CheckPhase);
    run, events :| JobRun(OnePair(), run, events) && |run| == |events| + 1 && run[|events|] == j;
  }
}
