/**
 The list of entries together with the stack of calls: what `checkSingle` takes
 out of the list when it linearizes an operation, and puts back when it backtracks.
 */
module EntryStack {
  import opened Linearizability
  import opened Entries
  import opened LinkedEntries

  datatype CallsEntry<!S, !I, !O> = CallsEntry(entry: Node<I, O>, state: S)

  /** Is list position `q` (the sentinel is 0) an entry of an operation in `order`? */
  ghost predicate IsGone<I, O>(h: seq<Entry<I, O>>, order: seq<nat>, q: nat) {
    1 <= q <= |h| && h[q - 1].id in order
  }

  ghost function Gone<I, O>(h: seq<Entry<I, O>>, order: seq<nat>): (gone: set<nat>)
    ensures forall q: nat :: q in gone <==> IsGone(h, order, q)
  {
    set q: nat | 0 <= q <= |h| && IsGone(h, order, q)
  }

  /** The nodes, headed by a sentinel, are those made for the entries. */
  ghost predicate NodesFor<I, O>(h: seq<Entry<I, O>>, all: seq<Node<I, O>>) {
    && |all| == |h| + 1
    && forall p :: 0 <= p < |h| ==> NodeFor(h, all[1..], 0, p)
  }

  /** Frame `k` of the calls stack holds what is needed to undo the step that linearized `order[k]`. */
  ghost predicate FrameOk<S, I, O>(
    m: Model<S, I, O>, h: seq<Entry<I, O>>, all: seq<Node<I, O>>, links: seq<Links<I, O>>,
    frame: CallsEntry<S, I, O>, order: seq<nat>, k: nat)
    requires WellFormed(h) && InRange(order, |h| / 2) && k < |order|
  {
    var c, r := CallAt(h, order[k]) + 1, ReturnAt(h, order[k]) + 1;
    && c < |all|
    && frame == CallsEntry(all[c], Run(m, OpsOf(h), order[..k]))
    && Restorable(all, links, Gone(h, order[..k]), c, r)
  }

  ghost predicate StackOk<S, I, O>(
    m: Model<S, I, O>, h: seq<Entry<I, O>>, all: seq<Node<I, O>>, links: seq<Links<I, O>>,
    calls: seq<CallsEntry<S, I, O>>, order: seq<nat>)
    requires WellFormed(h)
  {
    && InRange(order, |h| / 2)
    && |calls| == |order|
    && forall k :: 0 <= k < |order| ==> FrameOk(m, h, all, links, calls[k], order, k)
  }

  /** The list is the history, in order, without the operations on the stack, and each of those can be put back. */
  ghost predicate ListOk<S, I, O>(
    m: Model<S, I, O>, h: seq<Entry<I, O>>, all: seq<Node<I, O>>, calls: seq<CallsEntry<S, I, O>>, order: seq<nat>)
    requires WellFormed(h)
    reads all
  {
    && NodesFor(h, all)
    && Linked(all, Gone(h, order))
    && StackOk(m, h, all, AllLinks(all), calls, order)
  }

  /** The entries of operation `id` are in the list as long as it is not on the stack. */
  lemma OperationIsInside<I, O>(h: seq<Entry<I, O>>, all: seq<Node<I, O>>, order: seq<nat>, id: nat)
    requires WellFormed(h) && NodesFor(h, all) && id < |h| / 2 && id !in order
    ensures CallAt(h, id) < ReturnAt(h, id) < |h|
    ensures Inside(all, Gone(h, order), CallAt(h, id) + 1) && Inside(all, Gone(h, order), ReturnAt(h, id) + 1)
  {
    hide WellFormed;
    PositionsAreUnique(h);
    assert !IsGone(h, order, 0) && !IsGone(h, order, CallAt(h, id) + 1) && !IsGone(h, order, ReturnAt(h, id) + 1);
  }

  /** What the node of the entry at `pos` holds. */
  lemma NodeHolds<I, O>(h: seq<Entry<I, O>>, all: seq<Node<I, O>>, pos: nat, id: int)
    requires WellFormed(h) && NodesFor(h, all) && pos < |h| && id == h[pos].id
    ensures all[pos + 1].id == id && 0 <= id < |h| / 2
    ensures h[pos].Call? ==>
              && pos == CallAt(h, id) < ReturnAt(h, id) < |h|
              && all[pos + 1].match_ == all[ReturnAt(h, id) + 1]
              && all[pos + 1].value == Input(OpsOf(h)[id].input)
              && all[ReturnAt(h, id) + 1].value == Output(OpsOf(h)[id].output)
    ensures h[pos].Return? ==> all[pos + 1].match_ == null
  {
    hide WellFormed;
    IdsInRange(h);
    PositionsAreUnique(h);
    assert NodeFor(h, all[1..], 0, pos);
    if h[pos].Call? {
      assert NodeFor(h, all[1..], 0, ReturnAt(h, id));
      assert FirstReturn(h, id, pos) == ReturnAt(h, id) by {
        FirstSkipsOthers(h, id, pos);
        FirstSkipsOthers(h, id, 0);
      }
    }
  }

  lemma GoneExtended<I, O>(h: seq<Entry<I, O>>, order: seq<nat>, id: nat)
    requires WellFormed(h) && id < |h| / 2
    ensures Gone(h, order + [id]) == Gone(h, order) + {CallAt(h, id) + 1} + {ReturnAt(h, id) + 1}
  {
    hide WellFormed;
    PositionsAreUnique(h);
    IdsInRange(h);
    forall q: nat
      ensures IsGone(h, order + [id], q) <==> IsGone(h, order, q) || q == CallAt(h, id) + 1 || q == ReturnAt(h, id) + 1
    {
    }
  }

  /** Rewiring nodes that are left does not disturb the frames of lifted ones. */
  lemma FramesKept<S, I, O>(
    m: Model<S, I, O>, h: seq<Entry<I, O>>, all: seq<Node<I, O>>, links: seq<Links<I, O>>, links': seq<Links<I, O>>,
    calls: seq<CallsEntry<S, I, O>>, order: seq<nat>)
    requires WellFormed(h) && StackOk(m, h, all, links, calls, order)
    requires SameOn(Gone(h, order), links', links)
    ensures StackOk(m, h, all, links', calls, order)
  {
    hide WellFormed, Run, OpsOf, LinksAt;
    IdsInRange(h);
    forall k | 0 <= k < |order|
      ensures FrameOk(m, h, all, links', calls[k], order, k)
    {
      assert FrameOk(m, h, all, links, calls[k], order, k);
      assert HasBoth(h, order[k]) && order[k] in order;
      assert IsGone(h, order, CallAt(h, order[k]) + 1) && IsGone(h, order, ReturnAt(h, order[k]) + 1);
    }
  }

  lemma StackPushed<S, I, O>(
    m: Model<S, I, O>, h: seq<Entry<I, O>>, all: seq<Node<I, O>>, links: seq<Links<I, O>>,
    calls: seq<CallsEntry<S, I, O>>, order: seq<nat>, id: nat, frame: CallsEntry<S, I, O>)
    requires WellFormed(h) && id < |h| / 2 && CallAt(h, id) + 1 < |all|
    requires StackOk(m, h, all, links, calls, order)
    requires frame == CallsEntry(all[CallAt(h, id) + 1], Run(m, OpsOf(h), order))
    requires Restorable(all, links, Gone(h, order), CallAt(h, id) + 1, ReturnAt(h, id) + 1)
    ensures StackOk(m, h, all, links, calls + [frame], order + [id])
  {
    hide WellFormed, Run, OpsOf, Restorable, Gone, CallAt, ReturnAt;
    var order', calls' := order + [id], calls + [frame];
    forall k | 0 <= k < |order'|
      ensures FrameOk(m, h, all, links, calls'[k], order', k)
    {
      assert order'[..k] == order[..k];
      if k < |order| {
        assert FrameOk(m, h, all, links, calls[k], order, k);
        assert order'[k] == order[k];
      } else {
        assert order'[..k] == order;
      }
    }
  }

  lemma StackPopped<S, I, O>(
    m: Model<S, I, O>, h: seq<Entry<I, O>>, all: seq<Node<I, O>>, links: seq<Links<I, O>>,
    calls: seq<CallsEntry<S, I, O>>, order: seq<nat>)
    requires WellFormed(h) && StackOk(m, h, all, links, calls, order) && order != []
    ensures StackOk(m, h, all, links, calls[..|calls| - 1], order[..|order| - 1])
    ensures FrameOk(m, h, all, links, calls[|calls| - 1], order, |order| - 1)
  {
    hide WellFormed, Run, OpsOf, Restorable, Gone, CallAt, ReturnAt;
    var front := order[..|order| - 1];
    forall k | 0 <= k < |front|
      ensures FrameOk(m, h, all, links, calls[k], front, k)
    {
      assert FrameOk(m, h, all, links, calls[k], order, k);
      assert front[..k] == order[..k] && front[k] == order[k];
    }
  }

  lemma ListParts<S, I, O>(
    m: Model<S, I, O>, h: seq<Entry<I, O>>, all: seq<Node<I, O>>, calls: seq<CallsEntry<S, I, O>>, order: seq<nat>)
    requires WellFormed(h)
    ensures ListOk(m, h, all, calls, order) <==>
              && NodesFor(h, all)
              && Linked(all, Gone(h, order))
              && StackOk(m, h, all, AllLinks(all), calls, order)
    ensures NodesFor(h, all) ==> |all| == |h| + 1
    ensures StackOk(m, h, all, AllLinks(all), calls, order) ==> InRange(order, |h| / 2) && |calls| == |order|
  {
    hide WellFormed, Linked, Run, OpsOf;
  }

  /** Pushes an operation on the calls stack and lifts its entries out of the list. */
  method TakeOut<S, I, O>(
    m: Model<S, I, O>, ghost h: seq<Entry<I, O>>, entry: Node<I, O>, state: S, calls: seq<CallsEntry<S, I, O>>,
    ghost all: seq<Node<I, O>>, ghost order: seq<nat>, ghost pos: nat, ghost id: nat)
    returns (calls': seq<CallsEntry<S, I, O>>)
    requires WellFormed(h) && ListOk(m, h, all, calls, order) && InRange(order, |h| / 2)
    requires pos < |h| && h[pos].Call? && h[pos].id == id < |h| / 2 && id !in order
    requires pos + 1 < |all| && entry == all[pos + 1] && state == Run(m, OpsOf(h), order)
    modifies all`next, all`prev
    ensures ListOk(m, h, all, calls', order + [id])
  {
    hide *;
    ListParts(m, h, all, calls, order);
    NodeHolds(h, all, pos, id);
    OperationIsInside(h, all, order, id);
    ghost var links := AllLinks(all);
    calls' := calls + [CallsEntry(entry, state)];
    Lift(entry, all, Gone(h, order), pos + 1, ReturnAt(h, id) + 1);
    FramesKept(m, h, all, links, AllLinks(all), calls, order);
    StackPushed(m, h, all, AllLinks(all), calls, order, id, CallsEntry(entry, state));
    GoneExtended(h, order, id);
    ListParts(m, h, all, calls', order + [id]);
  }

  lemma TopFrame<S, I, O>(
    m: Model<S, I, O>, h: seq<Entry<I, O>>, all: seq<Node<I, O>>, links: seq<Links<I, O>>,
    calls: seq<CallsEntry<S, I, O>>, order: seq<nat>, front: seq<nat>, id: nat)
    requires WellFormed(h) && NodesFor(h, all) && StackOk(m, h, all, links, calls, order) && Distinct(order)
    requires order == front + [id]
    ensures id < |h| / 2 && InRange(front, |h| / 2) && id !in front && |calls| == |order|
    ensures CallAt(h, id) + 1 < |all|
    ensures calls[|calls| - 1] == CallsEntry(all[CallAt(h, id) + 1], Run(m, OpsOf(h), front))
    ensures all[CallAt(h, id) + 1].id == id && all[CallAt(h, id) + 1].match_ == NodeAt(all, ReturnAt(h, id) + 1)
    ensures Restorable(all, links, Gone(h, front), CallAt(h, id) + 1, ReturnAt(h, id) + 1)
    ensures StackOk(m, h, all, links, calls[..|calls| - 1], front)
  {
    hide WellFormed, Run, OpsOf, Restorable, Gone, CallAt, ReturnAt, Restorable, NodesFor;
    StackPopped(m, h, all, links, calls, order);
    assert front == order[..|order| - 1];
    IdsInRange(h);
    NodeFacts(h, all, id);
  }

  lemma NodeFacts<I, O>(h: seq<Entry<I, O>>, all: seq<Node<I, O>>, id: nat)
    requires WellFormed(h) && NodesFor(h, all) && id < |h| / 2
    ensures CallAt(h, id) + 1 < |all| && ReturnAt(h, id) + 1 < |all|
    ensures all[CallAt(h, id) + 1].id == id && all[CallAt(h, id) + 1].match_ == all[ReturnAt(h, id) + 1]
  {
    hide WellFormed;
    IdsInRange(h);
    assert HasBoth(h, id);
    NodeHolds(h, all, CallAt(h, id), id);
  }

  /** Pops the top of the calls stack and puts its entries back into the list. */
  method PutBack<S, I, O>(
    m: Model<S, I, O>, ghost h: seq<Entry<I, O>>, calls: seq<CallsEntry<S, I, O>>,
    ghost all: seq<Node<I, O>>, ghost order: seq<nat>, ghost front: seq<nat>, ghost id: nat)
    returns (entry: Node<I, O>, state: S, calls': seq<CallsEntry<S, I, O>>)
    requires WellFormed(h) && ListOk(m, h, all, calls, order) && Distinct(order)
    requires order == front + [id]
    modifies all`next, all`prev
    ensures ListOk(m, h, all, calls', front)
    ensures InRange(front, |h| / 2) && state == Run(m, OpsOf(h), front)
    ensures entry == NodeAt(all, CallAt(h, id) + 1) && entry.id == id
  {
    hide *;
    ghost var links := AllLinks(all);
    ListParts(m, h, all, calls, order);
    TopFrame(m, h, all, links, calls, order, front, id);
    NodeFacts(h, all, id);
    OperationIsInside(h, all, front, id);
    GoneExtended(h, front, id);
    var callsTop := calls[|calls| - 1];
    entry := callsTop.entry;
    state := callsTop.state;
    calls' := calls[..|calls| - 1];
    Unlift(entry, all, Gone(h, front), CallAt(h, id) + 1, ReturnAt(h, id) + 1);
    FramesKept(m, h, all, links, AllLinks(all), calls', front);
    ListParts(m, h, all, calls', front);
    NodeAtIs(all, CallAt(h, id) + 1);
  }

  lemma NodeAtIs<I, O>(all: seq<Node<I, O>>, q: nat)
    requires q < |all|
    ensures NodeAt(all, q) == all[q]
  {
  }
}
