/**
 How `checkParallel` combines the partitions: one goroutine per partition sends
 its answer on a channel, the collector receives answers until it knows enough
 or the timer fires, and a kill flag makes the remaining searches give up.
 Every interleaving of the goroutines, the channel and the timer is a run of
 the state machine below.
 */
module Verdict {
  import opened FiniteSets
  import opened Linearizability

  /** `linearizable[i]` is the true answer for partition `i`. */
  datatype Job = Job(linearizable: seq<bool>, computeInfo: bool, timeout: bool)

  datatype CheckResult = Unknown | Ok | Illegal
  datatype Answer = Pending | Answered(ok: bool)
  datatype Phase = Collecting | Leaving | Finished(result: CheckResult)

  /**
   `answers` are what the goroutines have sent, `channel` the partitions whose
   answer is still in the channel and `counted` those received by the loop.
   */
  datatype State = State(
    answers: seq<Answer>, channel: seq<nat>, counted: seq<nat>, count: nat,
    ok: bool, timedOut: bool, kill: bool, phase: Phase)

  ghost predicate Init(job: Job, s: State) {
    && |s.answers| == |job.linearizable| && (forall i :: 0 <= i < |s.answers| ==> s.answers[i] == Pending)
    && s == State(s.answers, [], [], 0, true, false, false, Collecting)
  }

  /**
   Goroutine `i` sends what a search of its partition promises: true only of a
   linearizable partition, and false only of another one unless the kill flag,
   which is never cleared, has been set.
   */
  ghost predicate Sends(job: Job, s: State, t: State, i: nat, ok: bool) {
    && i < |s.answers| == |job.linearizable| && s.answers[i] == Pending
    && (ok ==> job.linearizable[i]) && (!ok ==> s.kill || !job.linearizable[i])
    && t == Sent(s, i, ok)
  }

  ghost predicate AnswerReady(s: State) {
    s.channel != [] && s.channel[0] < |s.answers| && s.answers[s.channel[0]].Answered?
  }

  ghost predicate Receives(job: Job, s: State, t: State) {
    && s.phase == Collecting && AnswerReady(s)
    && var i := s.channel[0];
       var ok := s.ok && s.answers[i].ok;
       var next := s.(channel := s.channel[1..], counted := s.counted + [i], count := s.count + 1, ok := ok);
       t == if !ok && !job.computeInfo then next.(kill := true, phase := Leaving)
            else if next.count >= |job.linearizable| then next.(phase := Leaving)
            else next
  }

  ghost predicate TimesOut(job: Job, s: State, t: State) {
    s.phase == Collecting && job.timeout && t == s.(timedOut := true, kill := true, phase := Leaving)
  }

  /** With `computeInfo` the remaining answers are awaited and dropped. */
  ghost predicate Drains(job: Job, s: State, t: State) {
    && s.phase == Leaving && job.computeInfo && s.count < |job.linearizable| && AnswerReady(s)
    && t == s.(channel := s.channel[1..], count := s.count + 1)
  }

  ghost predicate Finishes(job: Job, s: State, t: State) {
    && s.phase == Leaving && (job.computeInfo ==> s.count >= |job.linearizable|)
    && t == s.(phase := Finished(if !s.ok then Illegal else if s.timedOut then Unknown else Ok))
  }

  ghost predicate Next(job: Job, s: State, t: State) {
    || (exists i, ok :: Sends(job, s, t, i, ok))
    || Receives(job, s, t) || TimesOut(job, s, t) || Drains(job, s, t) || Finishes(job, s, t)
  }

  ghost predicate StepAt(job: Job, run: seq<State>, i: nat)
    requires i + 1 < |run|
  {
    Next(job, run[i], run[i + 1])
  }

  ghost predicate Run(job: Job, run: seq<State>) {
    && run != [] && Init(job, run[0])
    && forall i: nat :: i + 1 < |run| ==> StepAt(job, run, i)
  }

  /** The kill flag is never cleared. */
  lemma {:induction false} KillStays(job: Job, run: seq<State>, i: nat, j: nat)
    requires Run(job, run) && i <= j < |run| && run[i].kill
    ensures run[j].kill
  {
    if i < j {
      KillStays(job, run, i, j - 1);
      assert StepAt(job, run, j - 1);
    }
  }

  /** The state after goroutine `i` has sent its answer. */
  function Sent(s: State, i: nat, ok: bool): State
    requires i < |s.answers|
  {
    s.(answers := s.answers[i := Answered(ok)], channel := s.channel + [i])
  }

  ghost function PendingCount(answers: seq<Answer>): nat {
    if answers == [] then 0
    else PendingCount(answers[..|answers| - 1]) + if answers[|answers| - 1] == Pending then 1 else 0
  }

  lemma {:induction false} OneLessPending(answers: seq<Answer>, i: nat, ok: bool)
    requires i < |answers| && answers[i] == Pending
    ensures PendingCount(answers[i := Answered(ok)]) == PendingCount(answers) - 1
  {
    var front, last := answers[..|answers| - 1], |answers| - 1;
    var after := answers[i := Answered(ok)];
    if i == last {
      assert after[..last] == front;
    } else {
      OneLessPending(front, i, ok);
      assert after[..last] == front[i := Answered(ok)];
    }
  }

  lemma {:induction false} AllPending(answers: seq<Answer>)
    requires forall i :: 0 <= i < |answers| ==> answers[i] == Pending
    ensures PendingCount(answers) == |answers|
  {
    if answers != [] {
      AllPending(answers[..|answers| - 1]);
    }
  }

  lemma {:induction false} SomePending(answers: seq<Answer>) returns (i: nat)
    requires PendingCount(answers) > 0
    ensures i < |answers| && answers[i] == Pending
  {
    i := |answers| - 1;
    if answers[i] != Pending {
      i := SomePending(answers[..i]);
    }
  }

  // ---------------------------------------------------------------------
  // The invariant of every run

  /** Every answered partition is in exactly one of the channel and the counted ones, until draining starts. */
  ghost predicate Accounted(job: Job, s: State) {
    && |s.answers| == |job.linearizable|
    && Distinct(s.channel) && InRange(s.channel, |s.answers|)
    && (forall i :: 0 <= i < |s.channel| ==> s.answers[s.channel[i]].Answered?)
    && Distinct(s.counted) && InRange(s.counted, |s.answers|)
    && (forall i :: 0 <= i < |s.counted| ==> s.answers[s.counted[i]].Answered?)
    && (forall i :: i in s.channel ==> i !in s.counted)
  }

  ghost predicate Truthful(job: Job, s: State) {
    && |s.answers| == |job.linearizable|
    && (!s.kill ==> forall i :: 0 <= i < |s.answers| && s.answers[i].Answered? ==>
          s.answers[i].ok == job.linearizable[i])
    && (s.ok <==> forall i :: i in s.counted && i < |job.linearizable| ==> job.linearizable[i])
  }

  ghost predicate Inv(job: Job, s: State) {
    && Accounted(job, s) && Truthful(job, s)
    && PendingCount(s.answers) + |s.channel| + s.count == |job.linearizable|
    && (s.phase == Collecting ==>
          && !s.kill && !s.timedOut && s.count == |s.counted|
          && (job.linearizable == [] || s.count < |job.linearizable|))
    && (s.timedOut ==> job.timeout)
    && (s.phase == Leaving && s.ok && !s.timedOut ==> |s.counted| == |job.linearizable|)
    && (s.phase.Finished? ==>
          && s.phase.result == (if !s.ok then Illegal else if s.timedOut then Unknown else Ok)
          && (s.ok && !s.timedOut ==> |s.counted| == |job.linearizable|))
  }

  lemma SendsInv(job: Job, s: State, t: State, i: nat, ok: bool)
    requires Inv(job, s) && Sends(job, s, t, i, ok)
    ensures Inv(job, t)
  {
    OneLessPending(s.answers, i, ok);
  }

  lemma ReceivesAccounted(job: Job, s: State, t: State)
    requires Accounted(job, s) && Receives(job, s, t)
    ensures Accounted(job, t)
  {
    assert s.channel[0] in s.channel;
    assert s.channel == [s.channel[0]] + t.channel;
  }

  lemma ReceivesTruthful(job: Job, s: State, t: State)
    requires Truthful(job, s) && !s.kill && Receives(job, s, t)
    ensures Truthful(job, t)
  {
    assert t.counted == s.counted + [s.channel[0]];
  }

  lemma ReceivesInv(job: Job, s: State, t: State)
    requires Inv(job, s) && Receives(job, s, t)
    ensures Inv(job, t)
  {
    ReceivesAccounted(job, s, t);
    ReceivesTruthful(job, s, t);
    assert Distinct(t.counted) && InRange(t.counted, |s.answers|) && |s.answers| == |job.linearizable|;
    hide PendingCount, Accounted, Truthful, Distinct, InRange;
    CountedBound(t.counted, |s.answers|);
  }

  lemma CountedBound(counted: seq<nat>, n: nat)
    requires Distinct(counted) && InRange(counted, n)
    ensures |counted| <= n
  {
    DistinctCardinality(counted);
    RangeCardinality(n);
    SubsetCardinality(Ids(counted), Range(n));
  }

  lemma DrainsInv(job: Job, s: State, t: State)
    requires Inv(job, s) && Drains(job, s, t)
    ensures Inv(job, t)
  {
    hide PendingCount;
    assert forall i :: i in t.channel ==> i in s.channel;
  }

  lemma LeavesInv(job: Job, s: State, t: State)
    requires Inv(job, s) && (TimesOut(job, s, t) || Finishes(job, s, t))
    ensures Inv(job, t)
  {
    hide PendingCount, Accounted;
    assert Accounted(job, t) by {
      assert t.answers == s.answers && t.channel == s.channel && t.counted == s.counted;
      SameAccounts(job, s, t);
    }
  }

  lemma SameAccounts(job: Job, s: State, t: State)
    requires Accounted(job, s) && t.answers == s.answers && t.channel == s.channel && t.counted == s.counted
    ensures Accounted(job, t)
  {
  }

  lemma NextInv(job: Job, s: State, t: State)
    requires Inv(job, s) && Next(job, s, t)
    ensures Inv(job, t)
  {
    hide Inv, Sends, Receives, TimesOut, Drains, Finishes;
    if i, ok :| Sends(job, s, t, i, ok) {
      SendsInv(job, s, t, i, ok);
    } else if Receives(job, s, t) {
      ReceivesInv(job, s, t);
    } else if Drains(job, s, t) {
      DrainsInv(job, s, t);
    } else {
      LeavesInv(job, s, t);
    }
  }

  lemma InitInv(job: Job, s: State)
    requires Init(job, s)
    ensures Inv(job, s)
  {
    AllPending(s.answers);
  }

  lemma {:induction false} EveryStateInv(job: Job, run: seq<State>, i: nat)
    requires Run(job, run) && i < |run|
    ensures Inv(job, run[i])
  {
    if i == 0 {
      InitInv(job, run[0]);
    } else {
      EveryStateInv(job, run, i - 1);
      assert StepAt(job, run, i - 1);
      NextInv(job, run[i - 1], run[i]);
    }
  }

  // ---------------------------------------------------------------------
  // What the verdict means

  ghost predicate AllLinearizable(job: Job) {
    forall i :: 0 <= i < |job.linearizable| ==> job.linearizable[i]
  }

  /**
   Whatever the order of answers and the moment of the timeout, the verdict is right,
   and without a timeout it is given.
   */
  lemma VerdictIsRight(job: Job, run: seq<State>, i: nat)
    requires Run(job, run) && i < |run| && run[i].phase.Finished?
    ensures run[i].phase.result == Ok ==> AllLinearizable(job)
    ensures run[i].phase.result == Illegal ==> !AllLinearizable(job)
    ensures run[i].phase.result == Illegal <==>
              exists j :: j in run[i].counted && j < |job.linearizable| && !job.linearizable[j]
    ensures run[i].phase.result == Unknown ==> job.timeout && run[i].timedOut
    ensures run[i].timedOut ==> run[i].phase.result != Ok
  {
    EveryStateInv(job, run, i);
    var s := run[i];
    if s.phase.result == Ok {
      DistinctCardinality(s.counted);
      RangeCardinality(|s.answers|);
      SubsetCardinality(Ids(s.counted), Range(|s.answers|));
      forall j | 0 <= j < |job.linearizable|
        ensures job.linearizable[j]
      {
        assert j in Range(|s.answers|);
        assert j in s.counted;
      }
    }
  }

  /** No answer of a killed search is ever counted: what the loop received is what an undisturbed search answers. */
  lemma CountedAnswersAreTrue(job: Job, run: seq<State>, i: nat)
    requires Run(job, run) && i < |run| && run[i].phase == Collecting
    ensures !run[i].kill
    ensures forall j :: j in run[i].counted + run[i].channel ==>
              j < |job.linearizable| == |run[i].answers| && run[i].answers[j] == Answered(job.linearizable[j])
  {
    EveryStateInv(job, run, i);
  }

  // ---------------------------------------------------------------------
  // What becomes of the searches

  ghost predicate Orderly(job: Job, s: State) {
    && (s.phase != Collecting && |s.counted| < |job.linearizable| ==> s.kill)
    && (s.kill ==> s.timedOut || (!s.ok && !job.computeInfo))
    && (s.phase.Finished? && job.computeInfo ==> s.count >= |job.linearizable|)
  }

  lemma {:induction false} EveryStateOrderly(job: Job, run: seq<State>, i: nat)
    requires Run(job, run) && i < |run|
    ensures Orderly(job, run[i])
  {
    if i > 0 {
      EveryStateOrderly(job, run, i - 1);
      EveryStateInv(job, run, i - 1);
      assert StepAt(job, run, i - 1);
      hide Orderly, Inv, Next;
      StepIsOrderly(job, run[i - 1], run[i]);
    }
  }

  lemma StepIsOrderly(job: Job, s: State, t: State)
    requires Inv(job, s) && Orderly(job, s) && Next(job, s, t)
    ensures Orderly(job, t)
  {
    hide Accounted, Truthful, PendingCount;
  }

  /** Once the loop has ended, every search whose answer it did not count has been told to give up. */
  lemma NobodySearchesInVain(job: Job, run: seq<State>, i: nat, j: nat)
    requires Run(job, run) && i < |run| && run[i].phase != Collecting
    requires j < |job.linearizable| && j !in run[i].counted
    ensures run[i].kill
  {
    EveryStateOrderly(job, run, i);
    EveryStateInv(job, run, i);
    var s := run[i];
    assert j in Range(|s.answers|) && j !in Ids(s.counted);
    DistinctCardinality(s.counted);
    RangeCardinality(|s.answers|);
    SubsetCardinality(Ids(s.counted), Range(|s.answers|));
  }

  /**
   When the linearizations are wanted, no search is disturbed unless the timer
   fires, and at the end every search has answered, so none still writes its result.
   */
  lemma InfoIsComplete(job: Job, run: seq<State>, i: nat)
    requires Run(job, run) && i < |run| && job.computeInfo
    ensures run[i].kill ==> run[i].timedOut
    ensures run[i].phase.Finished? ==> forall j :: 0 <= j < |run[i].answers| ==> run[i].answers[j].Answered?
    ensures run[i].phase.Finished? && !run[i].timedOut ==>
              |run[i].answers| == |job.linearizable|
              && forall j :: 0 <= j < |run[i].answers| ==> run[i].answers[j] == Answered(job.linearizable[j])
  {
    EveryStateOrderly(job, run, i);
    EveryStateInv(job, run, i);
    if run[i].phase.Finished? {
      NonePending(run[i].answers);
    }
  }

  lemma {:induction false} NonePending(answers: seq<Answer>)
    requires PendingCount(answers) == 0
    ensures forall i :: 0 <= i < |answers| ==> answers[i].Answered?
  {
    if answers != [] {
      NonePending(answers[..|answers| - 1]);
    }
  }

  // ---------------------------------------------------------------------
  // Every run ends, and only one kind of job gets stuck

  ghost function Measure(s: State): nat {
    2 * PendingCount(s.answers) + |s.channel| + match s.phase case Collecting => 2 case Leaving =>
      1 case Finished(_) => 0
  }

  lemma NextDecreases(job: Job, s: State, t: State)
    requires Inv(job, s) && Next(job, s, t)
    ensures Measure(t) < Measure(s)
  {
    if i, ok :| Sends(job, s, t, i, ok) {
      OneLessPending(s.answers, i, ok);
    }
  }

  /** No run has more than two steps per partition and two more. */
  lemma {:induction false} RunsAreBounded(job: Job, run: seq<State>, i: nat)
    requires Run(job, run) && i < |run|
    ensures i + Measure(run[i]) <= 2 * |job.linearizable| + 2
  {
    if i == 0 {
      AllPending(run[0].answers);
    } else {
      RunsAreBounded(job, run, i - 1);
      EveryStateInv(job, run, i - 1);
      assert StepAt(job, run, i - 1);
      hide Inv, Next, Measure;
      NextDecreases(job, run[i - 1], run[i]);
    }
  }

  ghost predicate Stuck(job: Job, s: State) {
    forall t :: !Next(job, s, t)
  }

  /** Without partitions and without a timer there is nothing to wait for and no way out of the loop. */
  predicate WaitsForNothing(job: Job) {
    job.linearizable == [] && !job.timeout
  }

  /** A run that cannot go on has a verdict, except for a job that waits for nothing, which never starts to move. */
  lemma StuckMeansFinished(job: Job, run: seq<State>, i: nat)
    requires Run(job, run) && i < |run|
    ensures WaitsForNothing(job) ==> Stuck(job, run[i]) && run[i].phase == Collecting
    ensures !WaitsForNothing(job) && Stuck(job, run[i]) ==> run[i].phase.Finished?
  {
    if WaitsForNothing(job) {
      NothingMoves(job, run, i);
    } else if !run[i].phase.Finished? {
      EveryStateInv(job, run, i);
      var t := SomeStep(job, run[i]);
    }
  }

  lemma {:induction false} NothingMoves(job: Job, run: seq<State>, i: nat)
    requires Run(job, run) && i < |run| && WaitsForNothing(job)
    ensures run[i] == run[0] && Stuck(job, run[i])
  {
    if i > 0 {
      NothingMoves(job, run, i - 1);
      assert StepAt(job, run, i - 1);
    }
  }

  lemma SomeStep(job: Job, s: State) returns (t: State)
    requires Inv(job, s) && !s.phase.Finished? && !WaitsForNothing(job)
    ensures Next(job, s, t)
  {
    t := s;
    if s.channel == [] && PendingCount(s.answers) > 0 {
      var i := SomePending(s.answers);
      t := s.(answers := s.answers[i := Answered(job.linearizable[i])], channel := s.channel + [i]);
      assert Sends(job, s, t, i, job.linearizable[i]);
    } else if s.phase == Leaving && (job.computeInfo ==> s.count >= |job.linearizable|) {
      t := s.(phase := Finished(if !s.ok then Illegal else if s.timedOut then Unknown else Ok));
      assert Finishes(job, s, t);
    } else if s.phase == Leaving {
      t := s.(channel := s.channel[1..], count := s.count + 1);
      assert Drains(job, s, t);
    } else if s.channel == [] {
      t := s.(timedOut := true, kill := true, phase := Leaving);
      assert TimesOut(job, s, t);
    } else {
      var ok := s.ok && s.answers[s.channel[0]].ok;
      var next := s.(channel := s.channel[1..], counted := s.counted + [s.channel[0]], count := s.count + 1, ok := ok);
      t := if !ok && !job.computeInfo then next.(kill := true, phase := Leaving)
           else if next.count >= |job.linearizable| then next.(phase := Leaving)
           else next;
      assert Receives(job, s, t);
    }
  }
}
