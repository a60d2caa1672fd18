/**
 Histories as the checker sees them: one sequence of call and return entries in
 real-time order, in which each operation is named by a number.
 */
module Entries {
  import opened Linearizability

  datatype Entry<+I, +O> =
    | Call(id: int, time: int, clientId: int, input: I)
    | Return(id: int, time: int, clientId: int, output: O)

  /** The position of the first call (return) of `id` at or after `p`, or the length. */
  function FirstCall<I, O>(h: seq<Entry<I, O>>, id: int, p: nat): (q: nat)
    requires p <= |h|
    ensures p <= q <= |h|
    ensures q < |h| ==> h[q].Call? && h[q].id == id
    decreases |h| - p
  {
    if p == |h| || (h[p].Call? && h[p].id == id) then p else FirstCall(h, id, p + 1)
  }

  function FirstReturn<I, O>(h: seq<Entry<I, O>>, id: int, p: nat): (q: nat)
    requires p <= |h|
    ensures p <= q <= |h|
    ensures q < |h| ==> h[q].Return? && h[q].id == id
    decreases |h| - p
  {
    if p == |h| || (h[p].Return? && h[p].id == id) then p else FirstReturn(h, id, p + 1)
  }

  lemma {:induction false} FirstSkipsOthers<I, O>(h: seq<Entry<I, O>>, id: int, p: nat)
    requires p <= |h|
    ensures forall j :: p <= j < FirstCall(h, id, p) ==> !(h[j].Call? && h[j].id == id)
    ensures forall j :: p <= j < FirstReturn(h, id, p) ==> !(h[j].Return? && h[j].id == id)
    decreases |h| - p
  {
    if p < |h| {
      FirstSkipsOthers(h, id, p + 1);
    }
  }

  function CallAt<I, O>(h: seq<Entry<I, O>>, id: int): nat {
    FirstCall(h, id, 0)
  }

  function ReturnAt<I, O>(h: seq<Entry<I, O>>, id: int): nat {
    FirstReturn(h, id, 0)
  }

  ghost predicate HasBoth<I, O>(h: seq<Entry<I, O>>, id: int) {
    CallAt(h, id) < |h| && ReturnAt(h, id) < |h|
  }

  /** The ids are 0, 1, ..., and each has exactly one call and, later, exactly one return. */
  ghost predicate WellFormed<I, O>(h: seq<Entry<I, O>>) {
    && |h| % 2 == 0
    && (forall p :: 0 <= p < |h| ==> 0 <= h[p].id < |h| / 2)
    && (forall p, q :: 0 <= p < q < |h| && h[p].id == h[q].id ==> h[p].Call? && h[q].Return?)
    && (forall id :: 0 <= id < |h| / 2 ==> HasBoth(h, id))
  }

  lemma IdsInRange<I, O>(h: seq<Entry<I, O>>)
    requires WellFormed(h)
    ensures forall p :: 0 <= p < |h| ==> 0 <= h[p].id < |h| / 2
    ensures forall id :: 0 <= id < |h| / 2 ==> HasBoth(h, id)
  {
  }

  lemma PositionsAreUnique<I, O>(h: seq<Entry<I, O>>)
    requires WellFormed(h)
    ensures forall p :: 0 <= p < |h| ==> p == if h[p].Call? then CallAt(h, h[p].id) else ReturnAt(h, h[p].id)
    ensures forall id :: 0 <= id < |h| / 2 ==> CallAt(h, id) < ReturnAt(h, id) < |h|
  {
    forall p | 0 <= p < |h|
      ensures p == if h[p].Call? then CallAt(h, h[p].id) else ReturnAt(h, h[p].id)
    {
      assert HasBoth(h, h[p].id);
      FirstSkipsOthers(h, h[p].id, 0);
    }
    forall id | 0 <= id < |h| / 2
      ensures CallAt(h, id) < ReturnAt(h, id) < |h|
    {
      assert HasBoth(h, id);
    }
  }

  /** The operation named `id`; its times are its positions in the entry sequence. */
  ghost function OpAt<I, O>(h: seq<Entry<I, O>>, id: int): Operation<I, O>
    requires HasBoth(h, id)
  {
    var c, r := CallAt(h, id), ReturnAt(h, id);
    Operation(h[c].clientId, h[c].input, c, h[r].output, r)
  }

  ghost function OpsOf<I, O>(h: seq<Entry<I, O>>): (ops: seq<Operation<I, O>>)
    requires WellFormed(h)
    ensures |ops| == |h| / 2
    ensures forall id :: 0 <= id < |ops| ==> ops[id] == OpAt(h, id)
  {
    seq(|h| / 2, id requires 0 <= id < |h| / 2 => OpAt(h, id))
  }

  lemma OpsOfFacts<I, O>(h: seq<Entry<I, O>>)
    requires WellFormed(h)
    ensures WellTimed(OpsOf(h))
    ensures forall id :: 0 <= id < |h| / 2 ==>
              0 <= OpsOf(h)[id].call == CallAt(h, id) < OpsOf(h)[id].ret == ReturnAt(h, id) < |h|
    ensures forall p :: 0 <= p < |h| && h[p].Call? ==>
              OpsOf(h)[h[p].id].call == p && OpsOf(h)[h[p].id].input == h[p].input
    ensures forall p :: 0 <= p < |h| && h[p].Return? ==>
              OpsOf(h)[h[p].id].ret == p && OpsOf(h)[h[p].id].output == h[p].output
  {
    PositionsAreUnique(h);
    forall id | 0 <= id < |h| / 2
      ensures OpsOf(h)[id].call == CallAt(h, id) && OpsOf(h)[id].ret == ReturnAt(h, id)
    {
      assert HasBoth(h, id);
    }
  }
}
