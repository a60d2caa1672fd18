/**
 The replay behind the visualizer: it runs the model along every partial
 linearization and would panic on a rejected step.
 */
module Visualization {
  import opened Linearizability
  import opened Entries

  ghost predicate Values<I, O>(ops: seq<Operation<I, O>>, callValue: map<int, I>, returnValue: map<int, O>) {
    && (forall id :: 0 <= id < |ops| ==> id in callValue && callValue[id] == ops[id].input)
    && (forall id :: 0 <= id < |ops| ==> id in returnValue && returnValue[id] == ops[id].output)
  }

  /** The values of the calls and returns among the first `n` entries have been read. */
  ghost predicate ValuesUpTo<I, O>(
    ops: seq<Operation<I, O>>, n: int, callValue: map<int, I>, returnValue: map<int, O>) {
    && (forall id :: 0 <= id < |ops| && ops[id].call < n ==> id in callValue && callValue[id] == ops[id].input)
    && (forall id :: 0 <= id < |ops| && ops[id].ret < n ==> id in returnValue && returnValue[id] == ops[id].output)
  }

  lemma EntryValue<I, O>(h: seq<Entry<I, O>>, i: nat)
    requires WellFormed(h) && i < |h|
    ensures 0 <= h[i].id < |OpsOf(h)|
    ensures forall id :: 0 <= id < |OpsOf(h)| ==>
              && (OpsOf(h)[id].call == i ==> h[i].Call? && h[i].id == id && h[i].input == OpsOf(h)[id].input)
              && (OpsOf(h)[id].ret == i ==> h[i].Return? && h[i].id == id && h[i].output == OpsOf(h)[id].output)
    ensures h[i].Call? ==> OpsOf(h)[h[i].id].input == h[i].input
    ensures h[i].Return? ==> OpsOf(h)[h[i].id].output == h[i].output
  {
    OpsOfFacts(h);
  }

  method ReadValues<I, O>(h: seq<Entry<I, O>>) returns (callValue: map<int, I>, returnValue: map<int, O>)
    requires WellFormed(h)
    ensures Values(OpsOf(h), callValue, returnValue)
  {
    callValue, returnValue := map[], map[];
    ghost var ops := OpsOf(h);
    OpsOfFacts(h);
    assert forall id :: 0 <= id < |ops| ==> 0 <= ops[id].call < |h| && 0 <= ops[id].ret < |h|;
    hide WellFormed, OpsOf, CallAt, ReturnAt;
    for i := 0 to |h|
      invariant ValuesUpTo(ops, i, callValue, returnValue)
    {
      EntryValue(h, i);
      match h[i]
      case Call(id, _, _, input) => callValue := callValue[id := input];
      case Return(id, _, _, output) => returnValue := returnValue[id := output];
    }
  }

  /** The states the model goes through; `panicked` when a step is rejected. */
  method Replay<S, I, O>(
    m: Model<S, I, O>, callValue: map<int, I>, returnValue: map<int, O>, partial: seq<nat>,
    ghost ops: seq<Operation<I, O>>)
    returns (states: seq<S>, panicked: bool)
    requires Values(ops, callValue, returnValue) && InRange(partial, |ops|)
    ensures panicked <==> !Legal(m, ops, partial)
    ensures !panicked ==> Traced(m, ops, partial, states) && |states| == |partial|
  {
    var state := m.init;
    states := [];
    assert partial[..0] == [];
    for j := 0 to |partial|
      invariant state == Run(m, ops, partial[..j])
      invariant Legal(m, ops, partial[..j])
      invariant |states| == j && Traced(m, ops, partial, states)
    {
      var histId := partial[j];
      LegalTake(m, ops, partial, j);
      assert InRange(partial[..j], |ops|) && InRange(partial[..j + 1], |ops|);
      assert Accepts(m, state, ops[histId]) == Step(m, state, callValue[histId], returnValue[histId]).0;
      hide Run, Legal;
      var (ok, next) := Step(m, state, callValue[histId], returnValue[histId]);
      if !ok {
        return states, true;
      }
      state := next;
      states := states + [state];
    }
    assert partial[..|partial|] == partial;
    panicked := false;
  }

  /** The state after each operation of `partial`, for as many operations as there are states. */
  ghost predicate Traced<S, I, O>(m: Model<S, I, O>, ops: seq<Operation<I, O>>, partial: seq<nat>, states: seq<S>)
    requires InRange(partial, |ops|)
  {
    |states| <= |partial| && forall j :: 0 <= j < |states| ==> states[j] == Run(m, ops, partial[..j + 1])
  }

  lemma LegalTake<S, I, O>(m: Model<S, I, O>, ops: seq<Operation<I, O>>, partial: seq<nat>, j: nat)
    requires InRange(partial, |ops|) && j < |partial|
    ensures Run(m, ops, partial[..j + 1]) == After(m, Run(m, ops, partial[..j]), ops[partial[j]])
    ensures Legal(m, ops, partial[..j + 1]) <==>
              Legal(m, ops, partial[..j]) && Accepts(m, Run(m, ops, partial[..j]), ops[partial[j]])
    ensures Legal(m, ops, partial) ==> Accepts(m, Run(m, ops, partial[..j]), ops[partial[j]])
  {
    hide Run;
    assert partial[..j + 1] == partial[..j] + [partial[j]];
    assert InRange(partial[..j], |ops|);
    RunExtend(m, ops, partial[..j], partial[j]);
    LegalExtend(m, ops, partial[..j], partial[j]);
  }

  // ---------------------------------------------------------------------
  // The largest partial linearization of every operation

  /** `id` occurs in partial `q`, as far as the partials before `i` and the first `j` elements of `i` go. */
  ghost predicate Seen(partials: seq<seq<nat>>, i: nat, j: nat, q: nat, id: nat)
    requires i < |partials| && j <= |partials[i]|
  {
    (q < i && id in partials[q]) || (q == i && id in partials[i][..j])
  }

  ghost predicate LargestSoFar(
    partials: seq<seq<nat>>, i: nat, j: nat, index: map<nat, nat>, size: map<nat, nat>, id: nat)
    requires i < |partials| && j <= |partials[i]|
  {
    && (id in index <==> id in size)
    && (id in index ==>
          index[id] <= i && Seen(partials, i, j, index[id], id) && |partials[index[id]]| == size[id])
    && (forall q :: 0 <= q <= i && Seen(partials, i, j, q, id) ==> id in size && |partials[q]| <= size[id])
  }

  /** `index` names, for every operation in some partial, one of the longest partials that contain it. */
  ghost predicate LargestIs(partials: seq<seq<nat>>, index: map<nat, nat>, id: nat) {
    && (id in index ==> index[id] < |partials| && id in partials[index[id]])
    && (forall q :: 0 <= q < |partials| && id in partials[q] ==>
          id in index && index[id] < |partials| && |partials[q]| <= |partials[index[id]]|)
  }

  method UpdateLargest(partials: seq<seq<nat>>, i: nat, index0: map<nat, nat>, size0: map<nat, nat>)
    returns (index: map<nat, nat>, size: map<nat, nat>)
    requires i < |partials| && forall id :: LargestSoFar(partials, i, 0, index0, size0, id)
    ensures forall id :: LargestSoFar(partials, i, |partials[i]|, index, size, id)
  {
    index, size := index0, size0;
    var partial := partials[i];
    for j := 0 to |partial|
      invariant forall id :: LargestSoFar(partials, i, j, index, size, id)
    {
      var histId := partial[j];
      ghost var index1, size1, next := index, size, j + 1;
      if (if histId in size then size[histId] else 0) < |partial| {
        size := size[histId := |partial|];
        index := index[histId := i];
      }
      forall id
        ensures LargestSoFar(partials, i, next, index, size, id)
      {
        assert LargestSoFar(partials, i, j, index1, size1, id);
        assert partial[..next] == partial[..j] + [histId];
      }
    }
  }

  method Largest(partials: seq<seq<nat>>) returns (index: map<nat, nat>)
    ensures forall id :: LargestIs(partials, index, id)
  {
    index := map[];
    var size: map<nat, nat> := map[];
    for i := 0 to |partials|
      invariant i < |partials| ==> forall id :: LargestSoFar(partials, i, 0, index, size, id)
      invariant i == |partials| ==> forall id :: LargestIs(partials, index, id)
    {
      ghost var next := i + 1;
      index, size := UpdateLargest(partials, i, index, size);
      forall id
        ensures next < |partials| ==> LargestSoFar(partials, next, 0, index, size, id)
        ensures next == |partials| ==> LargestIs(partials, index, id)
      {
        NextPartial(partials, i, index, size, id);
      }
    }
  }

  lemma NextPartial(partials: seq<seq<nat>>, i: nat, index: map<nat, nat>, size: map<nat, nat>, id: nat)
    requires i < |partials| && LargestSoFar(partials, i, |partials[i]|, index, size, id)
    ensures i + 1 < |partials| ==> LargestSoFar(partials, i + 1, 0, index, size, id)
    ensures i + 1 == |partials| ==> LargestIs(partials, index, id)
  {
    assert partials[i][..|partials[i]|] == partials[i];
    assert forall q :: 0 <= q <= i ==> (Seen(partials, i, |partials[i]|, q, id) <==> id in partials[q]);
  }
}
