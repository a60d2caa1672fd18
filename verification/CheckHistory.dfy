/**
 The whole check: partition a history, search every part, combine the answers,
 and draw what was found.
 */
module CheckHistory {
  import opened Options
  import opened Linearizability
  import opened SearchSpec
  import opened Entries
  import opened KvModel
  import Sorting
  import MakeEntries
  import Checker
  import Events
  import Locality
  import Verdict
  import Visualization

  // ---------------------------------------------------------------------
  // One partition

  /** The search of one partition; `killed` says that it gave up because `kill` was seen set. */
  method CheckPartition<S(!new), I(!new), O(!new)>(
    m: Model<S, I, O>, history: seq<Operation<I, O>>, computeInfo: bool, kill: nat -> bool)
    returns (ok: bool, longest: Longest, entries: seq<Entry<I, O>>, ghost killed: bool)
    requires WellTimed(history) && EqualIsCongruence(m)
    ensures WellFormed(entries) && LongestValid(m, OpsOf(entries), longest)
    ensures killed ==> exists i: nat :: kill(i)
    ensures ok ==> Linearizable(m, history)
    ensures !ok && !killed ==> !Linearizable(m, history)
    ensures !ok && !killed && computeInfo ==> LongestIsBest(m, OpsOf(entries), longest)
  {
    ghost var source: seq<nat>;
    entries, source := MakeEntries.Make(history);
    MakeEntries.EntriesAreFaithful(m, history, entries, source);
    hide WellFormed, MakeEntries.EntriesFor, OpsOf, Linearizable, LongestValid, LongestIsBest;
    ok, longest, killed := Checker.CheckSingle(m, entries, computeInfo, kill);
  }

  /** The same for a partition given as events. */
  method CheckEvents<S(!new), I(!new), O(!new)>(
    m: Model<S, I, O>, events: seq<Events.Event<I, O>>, computeInfo: bool, kill: nat -> bool)
    returns (ok: bool, longest: Longest, entries: seq<Entry<I, O>>, ghost killed: bool)
    requires Events.Paired(events) && EqualIsCongruence(m)
    ensures WellFormed(entries) && LongestValid(m, OpsOf(entries), longest)
    ensures forall p, q :: 0 <= p < q < |events| && events[p].id == events[q].id ==>
              Operation(events[p].clientId, events[p].input, p, events[q].output, q) in OpsOf(entries)
    ensures |events| == 2 * |OpsOf(entries)|
    ensures killed ==> exists i: nat :: kill(i)
    ensures ok ==> Linearizable(m, OpsOf(entries))
    ensures !ok && !killed ==> !Linearizable(m, OpsOf(entries))
    ensures !ok && !killed && computeInfo ==> LongestIsBest(m, OpsOf(entries), longest)
  {
    var e, n := Events.Renumber(events);
    entries := Events.ConvertEntries(e);
    Events.EventsAreWellFormed(events, e, n, entries);
    forall p, q | 0 <= p < q < |events| && events[p].id == events[q].id
      ensures events[p].CallEvent? && events[q].ReturnEvent?
      ensures Operation(events[p].clientId, events[p].input, p, events[q].output, q) in OpsOf(entries)
    {
      Events.OperationsOfEvents(events, e, n, entries, p, q);
    }
    hide WellFormed, OpsOf, Linearizable, LongestValid, LongestIsBest;
    ok, longest, killed := Checker.CheckSingle(m, entries, computeInfo, kill);
  }

  // ---------------------------------------------------------------------
  // The drawing of one partition

  /** The distinct partial linearizations among the longest ones. */
  method UniquePartials(longest: Longest) returns (partials: seq<seq<nat>>)
    ensures Distinct(partials)
    ensures forall p :: p in partials <==> Some(p) in longest
  {
    partials := [];
    for i := 0 to |longest|
      invariant Distinct(partials)
      invariant forall p :: p in partials <==> Some(p) in longest[..i]
    {
      assert longest[..i + 1] == longest[..i] + [longest[i]];
      if longest[i].Some? && longest[i].value !in partials {
        partials := partials + [longest[i].value];
      }
    }
    assert longest[..|longest|] == longest;
  }

  ghost predicate AllLegal<S, I, O>(m: Model<S, I, O>, ops: seq<Operation<I, O>>, partials: seq<seq<nat>>) {
    forall p :: p in partials ==> InRange(p, |ops|) && Legal(m, ops, p)
  }

  lemma LongestAreLegal<S, I, O>(
    m: Model<S, I, O>, ops: seq<Operation<I, O>>, longest: Longest, partials: seq<seq<nat>>)
    requires LongestValid(m, ops, longest) && forall p :: p in partials ==> Some(p) in longest
    ensures AllLegal(m, ops, partials)
  {
    forall p | p in partials
      ensures InRange(p, |ops|) && Legal(m, ops, p)
    {
      assert Some(p) in longest;
      var id :| 0 <= id < |longest| && longest[id] == Some(p);
      assert PartialLinearization(m, ops, longest[id].value);
    }
  }

  lemma SortedKeepsElements<T>(s: seq<T>, r: seq<T>, source: seq<nat>, x: T)
    requires Sorting.Rearranged(s, r, source)
    ensures x in r <==> x in s
  {
    PermutationCovers(source, |s|);
    if x in s {
      var i :| 0 <= i < |s| && s[i] == x;
      assert i in source;
      var j :| 0 <= j < |source| && source[j] == i;
      assert r[j] == x;
    }
  }

  /** The replay of what a search found never meets a rejected step, whatever the search answered. */
  method VisualizePartition<S(!new), I, O>(m: Model<S, I, O>, entries: seq<Entry<I, O>>, longest: Longest)
    returns (partials: seq<seq<nat>>, states: seq<seq<S>>, largest: map<nat, nat>, panicked: bool)
    requires WellFormed(entries) && LongestValid(m, OpsOf(entries), longest)
    ensures !panicked
    ensures forall p :: p in partials <==> Some(p) in longest
    ensures |states| == |partials|
    ensures AllLegal(m, OpsOf(entries), partials)
    ensures forall i :: 0 <= i < |partials| ==>
              |states[i]| == |partials[i]| && Visualization.Traced(m, OpsOf(entries), partials[i], states[i])
    ensures forall id :: Visualization.LargestIs(partials, largest, id)
  {
    ghost var ops := OpsOf(entries);
    hide WellFormed, OpsOf, LongestValid, Legal, Run, Visualization.Values, Visualization.Traced;
    var callValue, returnValue := Visualization.ReadValues(entries);
    var unsorted := UniquePartials(longest);
    var longerFirst := (a: seq<nat>, b: seq<nat>) => |a| >= |b|;
    ghost var source;
    partials, source := Sorting.Sort(unsorted, longerFirst);
    forall p
      ensures p in partials <==> Some(p) in longest
    {
      SortedKeepsElements(unsorted, partials, source, p);
    }
    LongestAreLegal(m, ops, longest, partials);
    states, panicked := [], false;
    for i := 0 to |partials|
      invariant |states| == i && !panicked
      invariant forall k :: 0 <= k < i ==>
                |states[k]| == |partials[k]| && Visualization.Traced(m, ops, partials[k], states[k])
    {
      assert partials[i] in partials;
      var trace, rejected := Visualization.Replay(m, callValue, returnValue, partials[i], ops);
      states, panicked := states + [trace], panicked || rejected;
    }
    largest := Visualization.Largest(partials);
  }

  // ---------------------------------------------------------------------
  // The verdict on a key/value history

  /** The job of checking `parts`: the answers it should get are whether each part is linearizable. */
  ghost function JobFor<S, I, O>(
    m: Model<S, I, O>, parts: seq<seq<Operation<I, O>>>, computeInfo: bool, timeout: bool): (job: Verdict.Job)
    ensures |job.linearizable| == |parts| && job.computeInfo == computeInfo && job.timeout == timeout
    ensures forall i :: 0 <= i < |parts| ==> (job.linearizable[i] <==> Linearizable(m, parts[i]))
  {
    Verdict.Job(seq(|parts|, i requires 0 <= i < |parts| => Linearizable(m, parts[i])), computeInfo, timeout)
  }

  /**
   The goroutine of part `i` within a run of the collector: it loads the kill
   flag at moments `at` of the run, and at moment `n` sends its answer.  The
   answer is one that the collector expects of it.
   */
  method SearchPart<S(!new), I(!new), O(!new)>(
    m: Model<S, I, O>, parts: seq<seq<Operation<I, O>>>, computeInfo: bool, timeout: bool, run: seq<Verdict.State>,
    at: nat -> nat, n: nat, i: nat)
    returns (ok: bool)
    requires i < |parts| && WellTimed(parts[i]) && EqualIsCongruence(m) && n < |run| && forall l :: at(l) <= n
    requires Verdict.Run(JobFor(m, parts, computeInfo, timeout), run)
    requires i < |run[n].answers| && run[n].answers[i] == Verdict.Pending
    ensures Verdict.Next(JobFor(m, parts, computeInfo, timeout), run[n], Verdict.Sent(run[n], i, ok))
  {
    hide Linearizable, WellTimed, EqualIsCongruence;
    var answer, longest, entries, killed :=
      CheckPartition(m, parts[i], computeInfo, (l: nat) => at(l) < |run| && run[at(l)].kill);
    ok := answer;
    ghost var job := JobFor(m, parts, computeInfo, timeout);
    if killed {
      ghost var l: nat :| at(l) < |run| && run[at(l)].kill;
      Verdict.KillStays(job, run, at(l), n);
    }
    Verdict.EveryStateInv(job, run, n);
    assert Verdict.Sends(job, run[n], Verdict.Sent(run[n], i, ok), i, ok);
  }

  lemma PartsAreWellTimed(history: seq<KvOp>, k: string)
    requires WellTimed(history)
    ensures WellTimed(Locality.Part(history, k))
  {
    var part, idx := Locality.Part(history, k), Locality.Indices(history, k);
    forall j | 0 <= j < |part|
      ensures part[j].call <= part[j].ret
    {
      assert part[j] == history[idx[j]];
    }
  }

  /** The answers of searches that nobody kills: all true exactly when the whole history is linearizable. */
  method CheckKvHistory(history: seq<KvOp>) returns (answers: seq<bool>)
    requires WellTimed(history)
    ensures (forall i :: 0 <= i < |answers| ==> answers[i]) <==> Linearizable(WHOLE_STORE, history)
  {
    var partitions, keys := Locality.Partition(history);
    OneKeyIsCongruent();
    hide Linearizable, WellTimed, EqualIsCongruence, Locality.Part, Locality.KeysOf;
    answers := [];
    for i := 0 to |partitions|
      invariant |answers| == i
      invariant forall j :: 0 <= j < i ==> (answers[j] <==> Linearizable(ONE_KEY, partitions[j]))
    {
      PartsAreWellTimed(history, keys[i]);
      var ok, longest, entries, killed := CheckPartition(ONE_KEY, partitions[i], false, (n: nat) => false);
      answers := answers + [ok];
    }
  }

  /**
   Over every run of the collector on the parts of a key/value history: Ok and
   Illegal tell the truth about the whole history, and Unknown needs a timer.
   */
  lemma KvVerdictIsRight(
    history: seq<KvOp>, keys: seq<string>, parts: seq<seq<KvOp>>, computeInfo: bool, timeout: bool,
    run: seq<Verdict.State>,
    i: nat)
    requires WellTimed(history) && Locality.KeysOf(history, keys) && |parts| == |keys|
    requires forall j :: 0 <= j < |parts| ==> parts[j] == Locality.Part(history, keys[j])
    requires Verdict.Run(JobFor(ONE_KEY, parts, computeInfo, timeout), run) && i < |run| && run[i].phase.Finished?
    ensures run[i].phase.result == Verdict.Ok ==> Linearizable(WHOLE_STORE, history)
    ensures run[i].phase.result == Verdict.Illegal ==> !Linearizable(WHOLE_STORE, history)
    ensures run[i].phase.result == Verdict.Unknown ==> timeout
  {
    hide Linearizable, Locality.Part, WellTimed, Verdict.Run;
    var job := JobFor(ONE_KEY, parts, computeInfo, timeout);
    Verdict.VerdictIsRight(job, run, i);
    Locality.PartitionIsExact(history, keys, parts);
  }

  /**
   An empty history has no parts: without a timer its check never answers, and every
   other check answers in the end.
   */
  lemma KvCheckAnswers(
    history: seq<KvOp>, keys: seq<string>, parts: seq<seq<KvOp>>, computeInfo: bool, timeout: bool,
    run: seq<Verdict.State>,
    i: nat)
    requires Locality.KeysOf(history, keys) && |parts| == |keys|
    requires Verdict.Run(JobFor(ONE_KEY, parts, computeInfo, timeout), run) && i < |run|
    ensures history == [] && !timeout ==> !run[i].phase.Finished?
    ensures (history != [] || timeout) && Verdict.Stuck(JobFor(ONE_KEY, parts, computeInfo, timeout), run[i]) ==>
              run[i].phase.Finished?
  {
    assert keys == [] || Locality.KeyUsed(history, keys[0]);
    assert history != [] ==> Locality.KeyUsed(history, history[0].input.key);
    Verdict.StuckMeansFinished(JobFor(ONE_KEY, parts, computeInfo, timeout), run, i);
  }
}
