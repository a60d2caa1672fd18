/**
 The goroutine that delivers committed entries.  It collects a batch under the
 lock, sends it without the lock, and then records how far it came; meanwhile
 other goroutines may change the log and the commit index.
 */
module RaftApply {
  import opened RaftState

  datatype ApplyMsg = ApplyMsg(command: Command, index: int)

  /** Between batches, or sending the entries from index `start` on, `sent` of them done. */
  datatype Phase = Waiting | Sending(start: int, end: int, entries: Log, sent: nat)

  datatype Applier = Applier(log: Log, commit: int, applied: int, phase: Phase, out: seq<ApplyMsg>)

  datatype Action = Others(log: Log, commit: int) | Collect | Send | Record

  ghost predicate Init(s: Applier) {
    s.log != [] && s.commit == 0 && s.applied == 0 && s.phase == Waiting && s.out == []
  }

  ghost predicate Enabled(s: Applier, a: Action) {
    match a
    case Others(log, commit) => 0 <= commit < |log|
    case Collect => s.phase == Waiting && s.applied < s.commit
    case Send => s.phase.Sending? && s.phase.sent < |s.phase.entries|
    case Record => s.phase.Sending? && s.phase.sent == |s.phase.entries|
  }

  /** Collecting slices the log, which must hold the range. */
  ghost predicate Safe(s: Applier, a: Action) {
    a == Collect ==> 0 <= s.applied + 1 <= s.commit + 1 <= |s.log|
  }

  ghost function Do(s: Applier, a: Action): Applier
    requires Enabled(s, a) && Safe(s, a)
  {
    match a
    case Others(log, commit) => s.(log := log, commit := commit)
    case Collect => s.(phase := Sending(s.applied + 1, s.commit, s.log[s.applied + 1..s.commit + 1], 0))
    case Send =>
      var i := s.phase.sent;
      s.(out := s.out + [ApplyMsg(s.phase.entries[i].command, s.phase.start + i)], phase := s.phase.(sent := i + 1))
    case Record => s.(applied := if s.phase.end > s.applied then s.phase.end else s.applied, phase := Waiting)
  }

  ghost predicate StepAt(run: seq<Applier>, actions: seq<Action>, i: nat)
    requires i + 1 < |run| && i < |actions|
  {
    Enabled(run[i], actions[i]) && Safe(run[i], actions[i]) && run[i + 1] == Do(run[i], actions[i])
  }

  ghost predicate Run(run: seq<Applier>, actions: seq<Action>) {
    |run| == |actions| + 1 && Init(run[0]) && forall i: nat :: i < |actions| ==> StepAt(run, actions, i)
  }

  /** The messages so far carry 1, 2, 3, ... and the batch at hand continues them. */
  ghost predicate Inv(s: Applier) {
    && 0 <= s.commit < |s.log|
    && (forall k :: 0 <= k < |s.out| ==> s.out[k].index == k + 1)
    && match s.phase
       case Waiting => |s.out| == s.applied
       case Sending(start, end, entries, sent) =>
         start == s.applied + 1 && |entries| == end - s.applied > 0 && sent <= |entries| && |s.out| == s.applied + sent
  }

  lemma {:induction false} EveryState(run: seq<Applier>, actions: seq<Action>, i: nat)
    requires Run(run, actions) && i < |run|
    ensures Inv(run[i])
  {
    if i > 0 {
      EveryState(run, actions, i - 1);
      assert StepAt(run, actions, i - 1);
    }
  }

  /** The service receives indices 1, 2, 3, ... without gap or repeat, and collecting never slices out of range. */
  lemma AppliedInOrder(run: seq<Applier>, actions: seq<Action>, i: nat, k: nat, a: Action)
    requires Run(run, actions) && i < |run| && k < |run[i].out|
    ensures run[i].out[k].index == k + 1
    ensures Enabled(run[i], a) ==> Safe(run[i], a)
  {
    EveryState(run, actions, i);
  }

  // ---------------------------------------------------------------------
  // Nobody touches committed entries

  ghost predicate Stable(s: Applier, a: Action) {
    a.Others? ==>
      && s.commit <= a.commit && 0 <= s.commit < |s.log| && |a.log| > s.commit
      && a.log[..s.commit + 1] == s.log[..s.commit + 1]
  }

  ghost predicate Faithful(s: Applier) {
    && |s.out| <= s.commit < |s.log|
    && (forall k :: 0 <= k < |s.out| ==> s.out[k].command == s.log[k + 1].command)
    && (s.phase.Sending? ==>
          && 0 < s.phase.start <= s.phase.end <= s.commit
          && s.phase.entries == s.log[s.phase.start..s.phase.end + 1])
  }

  lemma OthersFaithful(s: Applier, log: Log, commit: int)
    requires Inv(s) && Faithful(s) && Enabled(s, Others(log, commit)) && Stable(s, Others(log, commit))
    ensures Faithful(s.(log := log, commit := commit))
  {
    assert forall k :: 0 <= k <= s.commit ==> log[k] == log[..s.commit + 1][k] == s.log[..s.commit + 1][k] == s.log[k];
  }

  lemma OwnFaithful(s: Applier, a: Action)
    requires Inv(s) && Faithful(s) && Enabled(s, a) && Safe(s, a) && !a.Others? && Inv(Do(s, a))
    ensures Faithful(Do(s, a))
  {
  }

  lemma {:induction false} EveryFaithful(run: seq<Applier>, actions: seq<Action>, i: nat)
    requires Run(run, actions) && i < |run| && forall j :: 0 <= j < |actions| ==> Stable(run[j], actions[j])
    ensures Faithful(run[i])
  {
    if i > 0 {
      EveryFaithful(run, actions, i - 1);
      EveryState(run, actions, i - 1);
      EveryState(run, actions, i);
      assert StepAt(run, actions, i - 1);
      assert Stable(run[i - 1], actions[i - 1]);
      hide Inv, Faithful, Stable;
      if actions[i - 1].Others? {
        OthersFaithful(run[i - 1], actions[i - 1].log, actions[i - 1].commit);
      } else {
        OwnFaithful(run[i - 1], actions[i - 1]);
      }
    }
  }

  /** When committed entries stay, the service receives exactly the committed log, in order. */
  lemma AppliedIsCommitted(run: seq<Applier>, actions: seq<Action>, i: nat, k: nat)
    requires Run(run, actions) && i < |run| && k < |run[i].out|
    requires forall j :: 0 <= j < |actions| ==> Stable(run[j], actions[j])
    ensures k + 1 <= run[i].commit < |run[i].log|
    ensures run[i].out[k] == ApplyMsg(run[i].log[k + 1].command, k + 1)
  {
    EveryState(run, actions, i);
    EveryFaithful(run, actions, i);
  }

  // ---------------------------------------------------------------------
  // Nothing committed is withheld

  lemma {:induction false} BatchGoesOn(run: seq<Applier>, actions: seq<Action>, i: nat, j: nat)
    requires Run(run, actions) && i < j < |run| && i < |actions| && actions[i] == Collect
    requires forall k :: i < k < j ==> actions[k] != Record
    ensures run[j].phase.Sending? && run[j].phase.end == run[i].commit
  {
    assert StepAt(run, actions, j - 1);
    if i + 1 < j {
      BatchGoesOn(run, actions, i, j - 1);
    }
  }

  /** A batch delivers all that was committed when it was collected. */
  lemma BatchIsComplete(run: seq<Applier>, actions: seq<Action>, i: nat, j: nat)
    requires Run(run, actions) && i < j < |actions| && actions[i] == Collect && actions[j] == Record
    requires forall k :: i < k < j ==> actions[k] != Record
    ensures j + 1 < |run| && |run[j + 1].out| == run[i].commit == run[j + 1].applied
  {
    BatchGoesOn(run, actions, i, j);
    EveryState(run, actions, j);
    assert StepAt(run, actions, j);
  }

  /** When the delivering goroutine has nothing to do, all that is committed was delivered. */
  lemma IdleMeansDelivered(run: seq<Applier>, actions: seq<Action>, i: nat)
    requires Run(run, actions) && i < |run|
    requires !Enabled(run[i], Collect) && !Enabled(run[i], Send) && !Enabled(run[i], Record)
    ensures |run[i].out| >= run[i].commit
  {
    EveryState(run, actions, i);
  }

  lemma Extended(run: seq<Applier>, actions: seq<Action>, a: Action)
    requires Run(run, actions) && Enabled(run[|actions|], a) && Safe(run[|actions|], a)
    ensures Run(run + [Do(run[|actions|], a)], actions + [a])
  {
    hide Do, Enabled, Safe, Init;
    var (longer, more) := (run + [Do(run[|actions|], a)], actions + [a]);
    forall i: nat | i < |more|
      ensures StepAt(longer, more, i)
    {
      if i < |actions| {
        assert StepAt(run, actions, i);
        assert longer[i] == run[i] && longer[i + 1] == run[i + 1];
      }
    }
  }

  /** The rest of the batch at hand, and whether one more is needed. */
  ghost function Remaining(s: Applier): int {
    match s.phase
    case Waiting => if s.applied < s.commit then s.commit - s.applied + 2 else 0
    case Sending(start, end, entries, sent) =>
      |entries| - sent + 1 + if end < s.commit then s.commit - end + 2 else 0
  }

  ghost predicate SameServer(s: Applier, t: Applier) {
    t.log == s.log && t.commit == s.commit
  }

  /** From every moment, the goroutine's own steps deliver all that is committed. */
  lemma {:induction false} DeliversAll(run: seq<Applier>, actions: seq<Action>)
    returns (longer: seq<Applier>, more: seq<Action>)
    requires Run(run, actions) && |run| == |actions| + 1
    ensures Run(longer, actions + more) && |longer| == |actions + more| + 1 && run <= longer
    ensures forall i :: 0 <= i < |more| ==> !more[i].Others?
    ensures forall i :: |actions| <= i < |longer| ==> SameServer(run[|actions|], longer[i])
    ensures var t := longer[|actions + more|]; |t.out| >= t.commit
    decreases Remaining(run[|actions|])
  {
    var s := run[|actions|];
    EveryState(run, actions, |actions|);
    if s.phase == Waiting && s.applied >= s.commit {
      longer, more := run, [];
      assert actions + [] == actions;
    } else {
      var a := if s.phase == Waiting then Collect else if s.phase.sent < |s.phase.entries| then Send else Record;
      Extended(run, actions, a);
      var next := run + [Do(s, a)];
      EveryState(next, actions + [a], |actions + [a]|);
      assert next[|actions + [a]|] == Do(s, a);
      var rest;
      longer, rest := DeliversAll(next, actions + [a]);
      more := [a] + rest;
      assert actions + more == actions + [a] + rest;
    }
  }
}
