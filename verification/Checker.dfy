/**
 `checkSingle`: the depth-first search for a linearization of one history, on
 its real data structures (the node list rewired in place, the bitset, the hash
 buckets and the stack of calls).
 */
module Checker {
  import opened Options
  import opened FiniteSets
  import opened Linearizability
  import opened Entries
  import opened SearchSpec
  import opened LinkedEntries
  import opened EntryStack
  import Bitset
  import opened Cache

  /** The cursor is on an entry that is left, and only calls are left before it. */
  ghost predicate CursorOk<I, O>(h: seq<Entry<I, O>>, order: seq<nat>, pos: nat) {
    && pos <= |h|
    && (pos < |h| ==> h[pos].id !in order)
    && (forall p :: 0 <= p < pos && h[p].id !in order ==> h[p].Call?)
  }

  // ---------------------------------------------------------------------
  // The cursor

  /** A call that is left is followed by an entry that is left, since its return is. */
  lemma CallIsFollowed<I, O>(h: seq<Entry<I, O>>, order: seq<nat>, p: nat)
    requires WellFormed(h) && p < |h| && h[p].Call? && h[p].id !in order
    ensures p + 1 < NextIndex(Gone(h, order), p + 1, |h| + 1) <= |h|
  {
    hide NextIndex, WellFormed;
    IdsInRange(h);
    PositionsAreUnique(h);
    AfterIsFirst(Gone(h, order), p + 1, |h| + 1);
    assert !IsGone(h, order, ReturnAt(h, h[p].id) + 1);
  }

  /** Moving on from list position `p` lands on the next entry that is left. */
  lemma NextIsLeft<I, O>(h: seq<Entry<I, O>>, order: seq<nat>, p: nat, next: nat)
    requires p <= |h| && next + 1 == NextIndex(Gone(h, order), p, |h| + 1)
    requires forall q :: 0 <= q < p && h[q].id !in order ==> h[q].Call?
    ensures p <= next && CursorOk(h, order, next)
  {
    hide NextIndex;
    AfterIsFirst(Gone(h, order), p, |h| + 1);
    forall q | 0 <= q < next && h[q].id !in order
      ensures h[q].Call?
    {
      assert !IsGone(h, order, q + 1);
    }
    assert next < |h| ==> !IsGone(h, order, next + 1);
  }

  /** No call that is left is skipped. */
  lemma NextIsFirst<I, O>(h: seq<Entry<I, O>>, order: seq<nat>, p: nat, next: nat)
    requires WellFormed(h) && p <= |h| && next + 1 == NextIndex(Gone(h, order), p, |h| + 1)
    ensures forall j :: 0 <= j < |h| / 2 && j !in order && p <= OpsOf(h)[j].call ==> next <= OpsOf(h)[j].call
  {
    hide NextIndex, WellFormed;
    IdsInRange(h);
    AfterIsFirst(Gone(h, order), p, |h| + 1);
    forall j | 0 <= j < |h| / 2 && j !in order && p <= OpsOf(h)[j].call
      ensures next <= OpsOf(h)[j].call
    {
      assert !IsGone(h, order, CallAt(h, j) + 1);
    }
  }

  /** The call under the cursor is a possible next operation. */
  lemma CursorIsEnabled<I, O>(h: seq<Entry<I, O>>, order: seq<nat>, pos: nat, id: nat)
    requires WellFormed(h) && CursorOk(h, order, pos) && pos < |h| && h[pos].Call? && h[pos].id == id < |h| / 2
    ensures Enabled(OpsOf(h), Ids(order), id)
  {
    hide WellFormed;
    OpsOfFacts(h);
    forall j | 0 <= j < |h| / 2 && j !in Ids(order)
      ensures OpsOf(h)[id].call <= OpsOf(h)[j].ret
    {
      var r := ReturnAt(h, j);
      assert h[r].Return? && h[r].id == j;
    }
  }

  // ---------------------------------------------------------------------
  // The search

  ghost predicate SearchOk<S(!new), I, O>(
    m: Model<S, I, O>, h: seq<Entry<I, O>>, order: seq<nat>, pos: nat, configs: set<Config<S>>)
    requires WellFormed(h)
  {
    && CursorOk(h, order, pos)
    && SearchInv(m, OpsOf(h), order, pos, configs)
    && configs <= Universe(m, OpsOf(h))
  }

  lemma SearchStarts<S(!new), I, O>(m: Model<S, I, O>, h: seq<Entry<I, O>>)
    requires WellFormed(h)
    ensures SearchOk(m, h, [], 0, {})
    ensures Gone(h, []) == {}
  {
    OpsOfFacts(h);
    InitInv(m, OpsOf(h));
  }

  /** Skipping the call under the cursor. */
  lemma SearchAdvances<S(!new), I, O>(
    m: Model<S, I, O>, h: seq<Entry<I, O>>, order: seq<nat>, pos: nat, id: nat, state: S, configs: set<Config<S>>,
    next: nat)
    requires WellFormed(h) && SearchOk(m, h, order, pos, configs)
    requires pos < |h| && h[pos].Call? && h[pos].id == id < |h| / 2
    requires state == Run(m, OpsOf(h), order)
    requires Accepts(m, state, OpsOf(h)[id]) ==>
               Covered(m, configs, Ids(order) + {id}, Linearizability.After(m, state, OpsOf(h)[id]))
    requires next + 1 == NextIndex(Gone(h, order), pos + 1, |h| + 1)
    ensures SearchOk(m, h, order, next, configs)
    ensures pos < next < |h|
  {
    hide Run, NextIndex, Universe, WellFormed, Gone;
    CallIsFollowed(h, order, pos);
    NextIsLeft(h, order, pos + 1, next);
    NextIsFirst(h, order, pos + 1, next);
    OpsOfFacts(h);
    AdvanceInv(m, OpsOf(h), order, pos, id, next, configs);
  }

  /** Linearizing the operation whose call is under the cursor. */
  lemma SearchPushes<S(!new), I(!new), O(!new)>(
    m: Model<S, I, O>, h: seq<Entry<I, O>>, order: seq<nat>, pos: nat, id: nat, state: S, configs: set<Config<S>>,
    first: nat)
    requires WellFormed(h) && SearchOk(m, h, order, pos, configs)
    requires EqualIsCongruence(m)
    requires pos < |h| && h[pos].Call? && h[pos].id == id < |h| / 2
    requires state == Run(m, OpsOf(h), order)
    requires Accepts(m, state, OpsOf(h)[id])
    requires !Covered(m, configs, Ids(order) + {id}, Linearizability.After(m, state, OpsOf(h)[id]))
    requires first + 1 == NextIndex(Gone(h, order + [id]), 0, |h| + 1)
    ensures InRange(order + [id], |OpsOf(h)|)
    ensures var added := (Ids(order) + {id}, Linearizability.After(m, state, OpsOf(h)[id]));
            && added == ConfigOf(m, OpsOf(h), order + [id])
            && added !in configs
            && SearchOk(m, h, order + [id], first, configs + {added})
  {
    hide Run, NextIndex, Universe, StackTried, Closed, FullIsTop, Tried, WellFormed, Gone;
    NextIsLeft(h, order + [id], 0, first);
    NextIsFirst(h, order + [id], 0, first);
    CursorIsEnabled(h, order, pos, id);
    OpsOfFacts(h);
    PushInv(m, OpsOf(h), order, pos, id, first, configs);
    RunExtend(m, OpsOf(h), order, id);
    PartialIsInUniverse(m, OpsOf(h), order + [id]);
  }

  /** Backtracking, once the cursor has reached a return. */
  lemma SearchPops<S(!new), I(!new), O(!new)>(
    m: Model<S, I, O>, h: seq<Entry<I, O>>, order: seq<nat>, pos: nat, pending: nat, configs: set<Config<S>>, next: nat)
    requires WellFormed(h) && SearchOk(m, h, order, pos, configs) && order != []
    requires EqualIsCongruence(m)
    requires pos < |h| && h[pos].Return? && h[pos].id == pending < |h| / 2
    requires next + 1 == NextIndex(Gone(h, order[..|order| - 1]), CallAt(h, order[|order| - 1]) + 1, |h| + 1)
    ensures SearchOk(m, h, order[..|order| - 1], next, configs)
    ensures next < |h|
  {
    hide NextIndex, Run, WellFormed, Gone, StackTried, Closed, FullIsTop, Tried, Universe, PartialLinearization,
      EqualIsCongruence;
    var ops, front, id := OpsOf(h), order[..|order| - 1], order[|order| - 1];
    PartialDistinct(m, ops, order);
    PopCursor(m, h, order, next);
    OpsOfFacts(h);
    IdsInRange(h);
    NextIsFirst(h, front, CallAt(h, id) + 1, next);
    TopExpanded(m, ops, order, pos, pending, configs);
    assert pending in Range(|ops|);
    hide CursorOk;
    PopInv(m, ops, order, pos, next, configs);
  }

  /** After the call that is put back, the search resumes at the next entry that is left. */
  lemma PopCursor<S, I, O>(m: Model<S, I, O>, h: seq<Entry<I, O>>, order: seq<nat>, next: nat)
    requires WellFormed(h) && PartialLinearization(m, OpsOf(h), order) && order != []
    requires next + 1 == NextIndex(Gone(h, order[..|order| - 1]), CallAt(h, order[|order| - 1]) + 1, |h| + 1)
    ensures CursorOk(h, order[..|order| - 1], next) && next < |h|
  {
    hide NextIndex, Run, PartialLinearization, WellFormed, Gone;
    var front, id := order[..|order| - 1], order[|order| - 1];
    PartialUnextend(m, OpsOf(h), order);
    OpsOfFacts(h);
    IdsInRange(h);
    var c := CallAt(h, id);
    forall p | 0 <= p < c && h[p].id !in front
      ensures h[p].Call?
    {
      assert OpsOf(h)[id].call <= OpsOf(h)[h[p].id].ret;
    }
    CallIsFollowed(h, front, c);
    NextIsLeft(h, front, c + 1, next);
  }

  // ---------------------------------------------------------------------
  // The longest partial linearizations

  method RecordLongest<S, I, O>(
    longest: Longest, calls: seq<CallsEntry<S, I, O>>, ghost order: seq<nat>) returns (r: Longest)
    requires |calls| == |order| && InRange(order, |longest|)
    requires forall k :: 0 <= k < |calls| ==> calls[k].entry.id == order[k]
    ensures r == Updated(longest, order)
  {
    var callsLen := |calls|;
    var ids: Option<seq<nat>> := None;
    r := longest;
    for i := 0 to |calls|
      invariant |r| == |longest|
      invariant ids == None || ids == Some(order)
      invariant forall id :: 0 <= id < |r| ==>
        r[id] == if id in order[..i] then Updated(longest, order)[id] else longest[id]
    {
      var id := calls[i].entry.id;
      assert id == order[i];
      if r[id].None? || callsLen > |r[id].value| {
        if ids == None {
          var all: seq<nat> := [];
          for j := 0 to |calls|
            invariant all == order[..j]
          {
            all := all + [calls[j].entry.id];
          }
          assert order[..|calls|] == order;
          ids := Some(all);
        }
        r := r[id := ids];
      }
      assert order[..i + 1] == order[..i] + [order[i]];
    }
    assert order[..|calls|] == order;
  }

  // ---------------------------------------------------------------------
  // checkSingle

  method Length<I, O>(root: Node?<I, O>, ghost nodes: seq<Node<I, O>>) returns (l: nat)
    requires Chain(nodes) && root == NodeAt(nodes, 0)
    ensures l == |nodes|
  {
    var n := root;
    l := 0;
    while n != null
      invariant l <= |nodes| && n == NodeAt(nodes, l)
      decreases |nodes| - l
    {
      assert ChainedAt(nodes, l);
      n := n.next;
      l := l + 1;
    }
  }

  /** Builds the list and heads it with a sentinel; nothing is on the stack yet. */
  method Prepare<S, I, O>(ghost m: Model<S, I, O>, history: seq<Entry<I, O>>)
    returns (headEntry: Node<I, O>, entry: Node?<I, O>, n: nat, ghost all: seq<Node<I, O>>)
    requires WellFormed(history)
    ensures n == |history| / 2 && |all| == |history| + 1 && headEntry == all[0] && entry == NodeAt(all, 1)
    ensures forall q :: 0 <= q < |all| ==> fresh(all[q])
    ensures ListOk(m, history, all, [], [])
  {
    var root, nodes := MakeLinkedEntries(history);
    var length := Length(root, nodes);
    n := length / 2;
    var head := new Node(Nil, null, -1);
    headEntry := Prepend(head, root, nodes);
    entry := root;
    all := [headEntry] + nodes;
    ChainIsLinked(all);
    assert all[1..] == nodes;
    assert Gone(history, []) == {};
    hide Linked, Chain, WellFormed;
  }

  /** Where the links of the node under the cursor, and of the sentinel, lead. */
  lemma CursorLinks<S, I, O>(
    m: Model<S, I, O>, h: seq<Entry<I, O>>, all: seq<Node<I, O>>, calls: seq<CallsEntry<S, I, O>>, order: seq<nat>,
    p: nat)
    requires WellFormed(h) && ListOk(m, h, all, calls, order)
    requires p <= |h| && (p > 0 ==> h[p - 1].id !in order)
    ensures |all| == |h| + 1
    ensures p < NextIndex(Gone(h, order), p, |h| + 1) <= |h| + 1
    ensures all[p].next == NodeAt(all, NextIndex(Gone(h, order), p, |h| + 1))
    ensures all[p].next == null <==> NextIndex(Gone(h, order), p, |h| + 1) == |h| + 1
  {
    hide WellFormed, StackOk, NextIndex;
    assert !IsGone(h, order, p);
    assert LinkedAt(all, Gone(h, order), p);
    AfterIsFirst(Gone(h, order), p, |h| + 1);
  }

  lemma SearchParts<S(!new), I, O>(
    m: Model<S, I, O>, h: seq<Entry<I, O>>, order: seq<nat>, pos: nat, configs: set<Config<S>>)
    requires WellFormed(h) && SearchOk(m, h, order, pos, configs)
    ensures PartialLinearization(m, OpsOf(h), order) && Distinct(order) && InRange(order, |h| / 2)
    ensures pos < |h| ==> h[pos].id !in order
    ensures |configs| <= |Universe(m, OpsOf(h))|
  {
    SubsetCardinality(configs, Universe(m, OpsOf(h)));
  }

  lemma NothingLeft<I, O>(h: seq<Entry<I, O>>, order: seq<nat>)
    requires WellFormed(h) && NextIndex(Gone(h, order), 0, |h| + 1) == |h| + 1
    ensures forall id: nat :: id < |h| / 2 ==> id in order
  {
    hide WellFormed, NextIndex;
    AfterIsFirst(Gone(h, order), 0, |h| + 1);
    IdsInRange(h);
    forall id: nat | id < |h| / 2
      ensures id in order
    {
      assert HasBoth(h, id) && IsGone(h, order, CallAt(h, id) + 1);
    }
  }

  /** When nothing is left in the list, the stack holds a linearization. */
  lemma EmptyListMeansDone<S(!new), I, O>(
    m: Model<S, I, O>, h: seq<Entry<I, O>>, order: seq<nat>, pos: nat, configs: set<Config<S>>)
    requires WellFormed(h) && SearchOk(m, h, order, pos, configs)
    requires NextIndex(Gone(h, order), 0, |h| + 1) == |h| + 1
    ensures Linearization(m, OpsOf(h), order)
  {
    SearchParts(m, h, order, pos, configs);
    NothingLeft(h, order);
    assert Ids(order) == Range(|h| / 2);
    hide *;
    OpsOfFacts(h);
    PartialLength(m, OpsOf(h), order);
    FullPartialIsLinearization(m, OpsOf(h), order);
  }

  /** When a return is reached with an empty stack, there is no linearization. */
  lemma EmptyStackMeansNone<S(!new), I(!new), O(!new)>(
    m: Model<S, I, O>, h: seq<Entry<I, O>>, pos: nat, configs: set<Config<S>>)
    requires WellFormed(h) && SearchOk(m, h, [], pos, configs) && EqualIsCongruence(m)
    requires pos < |h| && h[pos].Return?
    ensures !Linearizable(m, OpsOf(h))
    ensures Closed(m, OpsOf(h), [], configs) && Expanded(m, OpsOf(h), configs, ({}, m.init))
  {
    hide WellFormed, Universe, Closed, StackTried, Tried, FullIsTop;
    IdsInRange(h);
    OpsOfFacts(h);
    ExhaustedMeansNotLinearizable(m, OpsOf(h), pos, h[pos].id, configs);
  }

  lemma StepIs<S, I, O>(m: Model<S, I, O>, s: S, op: Operation<I, O>)
    ensures Step(m, s, op.input, op.output) == (Accepts(m, s, op), Linearizability.After(m, s, op))
  {
  }

  /** The node under the cursor: a call with its return at hand, or a return. */
  lemma CursorNode<S, I, O>(
    m: Model<S, I, O>, h: seq<Entry<I, O>>, all: seq<Node<I, O>>, calls: seq<CallsEntry<S, I, O>>, order: seq<nat>,
    pos: nat)
    requires WellFormed(h) && ListOk(m, h, all, calls, order) && pos < |h|
    ensures |all| == |h| + 1 && NodeAt(all, pos + 1) == all[pos + 1]
    ensures 0 <= h[pos].id < |h| / 2 && all[pos + 1].id == h[pos].id
    ensures all[pos + 1].match_ != null <==> h[pos].Call?
    ensures h[pos].Call? ==>
              && all[pos + 1].value == Input(OpsOf(h)[h[pos].id].input)
              && all[pos + 1].match_.value == Output(OpsOf(h)[h[pos].id].output)
  {
    hide WellFormed, StackOk, Linked;
    NodeHolds(h, all, pos, h[pos].id);
  }

  /** The cache cannot refer to a bitset that does not exist yet. */
  lemma StoredIsAllocated<S>(cache: Buckets<S>)
    ensures forall a :: a in Stored(cache) ==> allocated(a)
  {
  }

  method Candidate<S(!new), I, O>(
    m: Model<S, I, O>, linearized: array<Bitset.Word>, id: nat, newState: S, cache: Buckets<S>,
    ghost configs: set<Config<S>>)
    returns (e: CacheEntry<S>, contained: bool)
    requires id / Bitset.WORD_BITS < linearized.Length
    requires Represents(cache, linearized.Length, configs)
    ensures fresh(e.linearized) && e.linearized.Length == linearized.Length && e.state == newState
    ensures e.linearized !in Stored(cache)
    ensures Bitset.Members(e.linearized[..]) == Bitset.Members(linearized[..]) + {id}
    ensures contained <==> Covered(m, configs, Bitset.Members(linearized[..]) + {id}, newState)
  {
    hide *;
    StoredIsAllocated(cache);
    var newLinearized := Bitset.Clone(linearized);
    assert newLinearized.Length == |newLinearized[..]| == |linearized[..]|;
    Bitset.Set(newLinearized, id);
    e := CacheEntry(newLinearized, newState);
    contained := CacheContains(m, cache, e, linearized.Length, configs);
  }

  method File<S>(cache: Buckets<S>, e: CacheEntry<S>, ghost len: nat, ghost configs: set<Config<S>>)
    returns (cache': Buckets<S>)
    requires Represents(cache, len, configs) && e.linearized.Length == len
    ensures Represents(cache', len, configs + {(Bitset.Members(e.linearized[..]), e.state)})
    ensures Stored(cache') == Stored(cache) + {e.linearized}
  {
    var hash := Bitset.Hash(e.linearized);
    AppendedRepresents(cache, len, configs, hash, e);
    AppendedStored(cache, hash, e);
    assert ConfigIn(e) == (Bitset.Members(e.linearized[..]), e.state);
    hide *;
    cache' := cache[hash := Bucket(cache, hash) + [e]];
  }

  lemma EmptyCache<S>(len: nat, cache: Buckets<S>)
    requires cache == map[]
    ensures Represents(cache, len, {}) && Stored(cache) == {}
  {
  }

  lemma InitialState<S, I, O>(m: Model<S, I, O>, ops: seq<Operation<I, O>>)
    ensures InRange([], |ops|) && Run(m, ops, []) == m.init && Ids([]) == {}
  {
  }

  /** The invariant of the loop, over its variables. */
  ghost predicate LoopInv<S(!new), I, O>(
    m: Model<S, I, O>, history: seq<Entry<I, O>>, all: seq<Node<I, O>>, entry: Node?<I, O>, state: S,
    linearized: array<Bitset.Word>, cache: Buckets<S>, calls: seq<CallsEntry<S, I, O>>,
    order: seq<nat>, pos: nat, configs: set<Config<S>>)
    requires WellFormed(history)
    reads all, linearized, Stored(cache)
  {
    && |all| == |history| + 1
    && ListOk(m, history, all, calls, order)
    && SearchOk(m, history, order, pos, configs)
    && entry == NodeAt(all, pos + 1) && (all[0].next != null ==> pos < |history|)
    && InRange(order, |OpsOf(history)|) && state == Run(m, OpsOf(history), order)
    && (forall id: nat :: id < |history| / 2 ==> id / Bitset.WORD_BITS < linearized.Length)
    && linearized !in Stored(cache)
    && Bitset.Members(linearized[..]) == Ids(order)
    && Represents(cache, linearized.Length, configs)
  }

  lemma LoopParts<S(!new), I, O>(
    m: Model<S, I, O>, history: seq<Entry<I, O>>, all: seq<Node<I, O>>, entry: Node?<I, O>, state: S,
    linearized: array<Bitset.Word>, cache: Buckets<S>, calls: seq<CallsEntry<S, I, O>>,
    order: seq<nat>, pos: nat, configs: set<Config<S>>)
    requires WellFormed(history)
    ensures LoopInv(m, history, all, entry, state, linearized, cache, calls, order, pos, configs) <==>
              && |all| == |history| + 1
              && ListOk(m, history, all, calls, order)
              && SearchOk(m, history, order, pos, configs)
              && entry == NodeAt(all, pos + 1) && (all[0].next != null ==> pos < |history|)
              && InRange(order, |OpsOf(history)|) && state == Run(m, OpsOf(history), order)
              && (forall id: nat :: id < |history| / 2 ==> id / Bitset.WORD_BITS < linearized.Length)
              && linearized !in Stored(cache)
              && Bitset.Members(linearized[..]) == Ids(order)
              && Represents(cache, linearized.Length, configs)
  {
    hide ListOk, SearchOk, NodeAt, WellFormed, InRange, Run, OpsOf, Stored, Ids, Represents;
  }

  lemma LoopStarts<S(!new), I, O>(
    m: Model<S, I, O>, history: seq<Entry<I, O>>, all: seq<Node<I, O>>, entry: Node?<I, O>,
    linearized: array<Bitset.Word>, cache: Buckets<S>)
    requires WellFormed(history) && |all| == |history| + 1 && ListOk(m, history, all, [], [])
    requires entry == NodeAt(all, 1) && cache == map[]
    requires Bitset.Members(linearized[..]) == {}
    requires forall id: nat :: id < |history| / 2 ==> id / Bitset.WORD_BITS < linearized.Length
    ensures LoopInv(m, history, all, entry, m.init, linearized, cache, [], [], 0, {})
  {
    hide *;
    SearchStarts(m, history);
    EmptyCache(linearized.Length, cache);
    InitialState(m, OpsOf(history));
    CursorLinks(m, history, all, [], [], 0);
    LoopParts(m, history, all, entry, m.init, linearized, cache, [], [], 0, {});
  }

  /** Everything the loop body needs to know about the entry under the cursor. */
  lemma LoopFacts<S(!new), I, O>(
    m: Model<S, I, O>, history: seq<Entry<I, O>>, all: seq<Node<I, O>>, entry: Node?<I, O>, state: S,
    linearized: array<Bitset.Word>, cache: Buckets<S>, calls: seq<CallsEntry<S, I, O>>,
    order: seq<nat>, pos: nat, configs: set<Config<S>>)
    requires WellFormed(history) && all != [] && all[0].next != null
    requires LoopInv(m, history, all, entry, state, linearized, cache, calls, order, pos, configs)
    ensures pos < |history| && entry != null && |all| == |history| + 1
    ensures 0 <= history[pos].id < |history| / 2 && entry.id == history[pos].id
    ensures entry.id / Bitset.WORD_BITS < linearized.Length
    ensures entry.match_ != null <==> history[pos].Call?
    ensures history[pos].Call? ==>
              && entry.value == Input(OpsOf(history)[entry.id].input)
              && entry.match_.value == Output(OpsOf(history)[entry.id].output)
    ensures Bitset.Members(linearized[..]) == Ids(order) && Represents(cache, linearized.Length, configs)
    ensures |calls| == |order| && InRange(order, |history| / 2) && PartialLinearization(m, OpsOf(history), order)
    ensures forall k :: 0 <= k < |calls| ==> calls[k].entry.id == order[k]
    ensures |configs| <= |Universe(m, OpsOf(history))|
  {
    hide *;
    LoopParts(m, history, all, entry, state, linearized, cache, calls, order, pos, configs);
    CursorNode(m, history, all, calls, order, pos);
    StackIds(m, history, all, entry, state, linearized, cache, calls, order, pos, configs);
  }

  lemma LoopEnds<S(!new), I, O>(
    m: Model<S, I, O>, history: seq<Entry<I, O>>, all: seq<Node<I, O>>, entry: Node?<I, O>, state: S,
    linearized: array<Bitset.Word>, cache: Buckets<S>, calls: seq<CallsEntry<S, I, O>>,
    order: seq<nat>, pos: nat, configs: set<Config<S>>)
    requires WellFormed(history) && all != [] && all[0].next == null
    requires LoopInv(m, history, all, entry, state, linearized, cache, calls, order, pos, configs)
    ensures Linearization(m, OpsOf(history), order) && WellTimed(OpsOf(history)) && |order| == |OpsOf(history)|
    ensures |calls| == |order| && forall k :: 0 <= k < |calls| ==> calls[k].entry.id == order[k]
  {
    hide *;
    LoopParts(m, history, all, entry, state, linearized, cache, calls, order, pos, configs);
    CursorLinks(m, history, all, calls, order, 0);
    EmptyListMeansDone(m, history, order, pos, configs);
    StackIds(m, history, all, entry, state, linearized, cache, calls, order, pos, configs);
    OpsOfFacts(history);
    HasAll(m, OpsOf(history), order);
  }

  lemma HasAll<S, I, O>(m: Model<S, I, O>, ops: seq<Operation<I, O>>, order: seq<nat>)
    requires Linearization(m, ops, order)
    ensures |order| == |ops|
  {
  }

  lemma GiveUp<S(!new), I(!new), O(!new)>(
    m: Model<S, I, O>, history: seq<Entry<I, O>>, all: seq<Node<I, O>>, entry: Node?<I, O>, state: S,
    linearized: array<Bitset.Word>, cache: Buckets<S>, calls: seq<CallsEntry<S, I, O>>,
    order: seq<nat>, pos: nat, configs: set<Config<S>>, computePartial: bool, longest: Longest)
    requires WellFormed(history) && EqualIsCongruence(m)
    requires LoopInv(m, history, all, entry, state, linearized, cache, calls, order, pos, configs)
    requires pos < |history| && history[pos].Return? && order == []
    requires LongestOk(m, OpsOf(history), computePartial, order, configs, longest)
    ensures !Linearizable(m, OpsOf(history))
    ensures LongestResult(m, OpsOf(history), false, computePartial, false, longest)
  {
    hide *;
    LoopParts(m, history, all, entry, state, linearized, cache, calls, order, pos, configs);
    EmptyStackMeansNone(m, history, pos, configs);
    if computePartial {
      LongestAtTheEnd(m, history, pos, configs, longest);
    }
    GivenUp(m, OpsOf(history), computePartial, false, order, configs, longest);
  }

  /** Moves the cursor past a call that is rejected or whose configuration is cached. */
  method Advance<S(!new), I, O>(
    m: Model<S, I, O>, ghost history: seq<Entry<I, O>>, ghost all: seq<Node<I, O>>, entry: Node<I, O>, state: S,
    linearized: array<Bitset.Word>, cache: Buckets<S>, calls: seq<CallsEntry<S, I, O>>,
    ghost order: seq<nat>, ghost pos: nat, ghost configs: set<Config<S>>, ghost id: nat)
    returns (entry': Node?<I, O>, ghost pos': nat)
    requires WellFormed(history)
    requires LoopInv(m, history, all, entry, state, linearized, cache, calls, order, pos, configs)
    requires pos < |history| && history[pos].Call? && history[pos].id == id < |history| / 2
    requires Accepts(m, state, OpsOf(history)[id]) ==>
               Covered(m, configs, Ids(order) + {id}, Linearizability.After(m, state, OpsOf(history)[id]))
    ensures LoopInv(m, history, all, entry', state, linearized, cache, calls, order, pos', configs)
    ensures pos < pos' <= |history|
  {
    hide *;
    LoopParts(m, history, all, entry, state, linearized, cache, calls, order, pos, configs);
    SearchParts(m, history, order, pos, configs);
    CursorNode(m, history, all, calls, order, pos);
    CursorLinks(m, history, all, calls, order, pos + 1);
    pos' := NextIndex(Gone(history, order), pos + 1, |history| + 1) - 1;
    SearchAdvances(m, history, order, pos, id, state, configs, pos');
    entry' := entry.next;
    LoopParts(m, history, all, entry', state, linearized, cache, calls, order, pos', configs);
  }

  /** Linearizes the operation whose call is under the cursor. */
  method Linearize<S(!new), I(!new), O(!new)>(
    m: Model<S, I, O>, ghost history: seq<Entry<I, O>>, headEntry: Node<I, O>, ghost all: seq<Node<I, O>>,
    entry: Node<I, O>, state: S, linearized: array<Bitset.Word>, cache: Buckets<S>, calls: seq<CallsEntry<S, I, O>>,
    e: CacheEntry<S>, id: nat, ghost order: seq<nat>, ghost pos: nat, ghost configs: set<Config<S>>)
    returns (entry': Node?<I, O>, cache': Buckets<S>, calls': seq<CallsEntry<S, I, O>>, ghost pos': nat)
    requires WellFormed(history) && EqualIsCongruence(m) && all != [] && headEntry == all[0]
    requires LoopInv(m, history, all, entry, state, linearized, cache, calls, order, pos, configs)
    requires pos < |history| && history[pos].Call? && history[pos].id == id < |history| / 2
    requires Accepts(m, state, OpsOf(history)[id]) && e.state == Linearizability.After(m, state, OpsOf(history)[id])
    requires e.linearized != linearized && e.linearized.Length == linearized.Length
    requires Bitset.Members(e.linearized[..]) == Ids(order) + {id}
    requires !Covered(m, configs, Ids(order) + {id}, e.state)
    modifies linearized, all`next, all`prev
    ensures (Ids(order) + {id}, e.state) !in configs && id !in order && InRange(order + [id], |OpsOf(history)|)
    ensures ConfigOf(m, OpsOf(history), order + [id]) == (Ids(order) + {id}, e.state)
    ensures LoopInv(m, history, all, entry', e.state, linearized, cache', calls', order + [id], pos',
                    configs + {(Ids(order) + {id}, e.state)})
  {
    hide *;
    LoopParts(m, history, all, entry, state, linearized, cache, calls, order, pos, configs);
    SearchParts(m, history, order, pos, configs);
    CursorNode(m, history, all, calls, order, pos);
    cache' := File(cache, e, linearized.Length, configs);
    StoredIsAllocated(cache');
    calls' := TakeOut(m, history, entry, state, calls, all, order, pos, id);
    Bitset.Set(linearized, id);
    CursorLinks(m, history, all, calls', order + [id], 0);
    pos' := NextIndex(Gone(history, order + [id]), 0, |history| + 1) - 1;
    SearchPushes(m, history, order, pos, id, state, configs, pos');
    RunExtend(m, OpsOf(history), order, id);
    RunIs(m, history, order, id, state);
    entry' := headEntry.next;
    LoopParts(m, history, all, entry', e.state, linearized, cache', calls', order + [id], pos',
              configs + {(Ids(order) + {id}, e.state)});
  }

  lemma RunIs<S, I, O>(m: Model<S, I, O>, history: seq<Entry<I, O>>, order: seq<nat>, id: nat, state: S)
    requires WellFormed(history) && InRange(order, |OpsOf(history)|) && id < |history| / 2
    requires state == Run(m, OpsOf(history), order)
    ensures InRange(order + [id], |OpsOf(history)|)
    ensures Run(m, OpsOf(history), order + [id]) == Linearizability.After(m, state, OpsOf(history)[id])
    ensures Ids(order + [id]) == Ids(order) + {id}
  {
    RunExtend(m, OpsOf(history), order, id);
  }

  /** Undoes the last linearized operation and moves the cursor past its call. */
  method Backtrack<S(!new), I(!new), O(!new)>(
    m: Model<S, I, O>, ghost history: seq<Entry<I, O>>, ghost all: seq<Node<I, O>>,
    ghost entry: Node<I, O>, ghost state: S, linearized: array<Bitset.Word>, cache: Buckets<S>,
    calls: seq<CallsEntry<S, I, O>>, ghost order: seq<nat>, ghost front: seq<nat>, ghost id: nat, ghost pos: nat,
    ghost configs: set<Config<S>>)
    returns (entry': Node?<I, O>, state': S, calls': seq<CallsEntry<S, I, O>>, ghost pos': nat)
    requires WellFormed(history) && EqualIsCongruence(m)
    requires LoopInv(m, history, all, entry, state, linearized, cache, calls, order, pos, configs)
    requires pos < |history| && history[pos].Return? && order == front + [id]
    modifies linearized, all`next, all`prev
    ensures LoopInv(m, history, all, entry', state', linearized, cache, calls', front, pos', configs)
  {
    hide *;
    LoopParts(m, history, all, entry, state, linearized, cache, calls, order, pos, configs);
    SearchParts(m, history, order, pos, configs);
    CursorNode(m, history, all, calls, order, pos);
    StoredIsAllocated(cache);
    PoppedIds(history, front, id);
    var top: Node<I, O>;
    top, state', calls' := PutBack(m, history, calls, all, order, front, id);
    Bitset.Clear(linearized, top.id);
    CursorLinks(m, history, all, calls', front, CallAt(history, id) + 1);
    pos' := NextIndex(Gone(history, front), CallAt(history, id) + 1, |history| + 1) - 1;
    SearchPops(m, history, order, pos, history[pos].id, configs, pos');
    NodeAtIs(all, CallAt(history, id) + 1);
    entry' := top.next;
    LoopParts(m, history, all, entry', state', linearized, cache, calls', front, pos', configs);
  }

  lemma PoppedIds<I, O>(h: seq<Entry<I, O>>, front: seq<nat>, id: nat)
    requires WellFormed(h) && Distinct(front + [id]) && InRange(front + [id], |h| / 2)
    ensures (front + [id])[..|front|] == front && (front + [id])[|front|] == id && |front + [id]| == |front| + 1
    ensures Ids(front) == Ids(front + [id]) - {id} && id !in front && id < |h| / 2
    ensures CallAt(h, id) < |h| && h[CallAt(h, id)].id == id
  {
    hide WellFormed;
    IdsInRange(h);
    var order := front + [id];
    assert order[..|front|] == front && order[|front|] == id;
    assert HasBoth(h, id);
    assert forall x :: x in order <==> x in front || x == id;
    assert id !in front;
  }

  // The partial linearizations kept along the way

  ghost predicate LongestOk<S(!new), I, O>(
    m: Model<S, I, O>, ops: seq<Operation<I, O>>, computePartial: bool, order: seq<nat>, configs: set<Config<S>>,
    longest: Longest)
  {
    && LongestValid(m, ops, longest)
    && InRange(order, |ops|)
    && (computePartial ==> LongestCovers(m, ops, order, configs, longest))
    && (!computePartial ==> forall id :: 0 <= id < |longest| ==> longest[id] == None)
  }

  lemma LongestStarts<S(!new), I, O>(
    m: Model<S, I, O>, ops: seq<Operation<I, O>>, computePartial: bool, longest: Longest)
    requires |longest| == |ops| && forall id :: 0 <= id < |longest| ==> longest[id] == None
    ensures LongestOk(m, ops, computePartial, [], {}, longest)
  {
  }

  lemma LongestPushed<S(!new), I, O>(
    m: Model<S, I, O>, ops: seq<Operation<I, O>>, computePartial: bool, order: seq<nat>, id: nat,
    configs: set<Config<S>>, longest: Longest)
    requires LongestOk(m, ops, computePartial, order, configs, longest) && id < |ops| && InRange(order, |ops|)
    ensures InRange(order + [id], |ops|)
    ensures LongestOk(m, ops, computePartial, order + [id], configs + {ConfigOf(m, ops, order + [id])}, longest)
  {
    hide Run, LongestValid, LongestCovers, ConfigOf;
    if computePartial {
      PushedCovers(m, ops, order, id, configs, longest);
    }
  }

  lemma LongestPopped<S(!new), I, O>(
    m: Model<S, I, O>, ops: seq<Operation<I, O>>, computePartial: bool, order: seq<nat>, front: seq<nat>,
    configs: set<Config<S>>, longest: Longest)
    requires LongestOk(m, ops, computePartial, order, configs, longest) && PartialLinearization(m, ops, order)
    requires order != [] && front == order[..|order| - 1]
    ensures LongestOk(
              m, ops, computePartial, front, configs, if computePartial then Updated(longest, order) else longest)
    ensures InRange(order, |longest|)
  {
    hide Run, Updated, LongestCovers, PartialLinearization;
    if computePartial {
      assert |longest| == |ops|;
      UpdatedIsValid(m, ops, longest, order);
      UpdatedCovers(m, ops, order, configs, longest);
    }
  }

  /** With the stack empty and a return reached, nothing longer can exist. */
  lemma LongestAtTheEnd<S(!new), I(!new), O(!new)>(
    m: Model<S, I, O>, h: seq<Entry<I, O>>, pos: nat, configs: set<Config<S>>, longest: Longest)
    requires WellFormed(h) && SearchOk(m, h, [], pos, configs) && EqualIsCongruence(m)
    requires pos < |h| && h[pos].Return?
    requires LongestOk(m, OpsOf(h), true, [], configs, longest)
    ensures LongestIsBest(m, OpsOf(h), longest)
  {
    hide SearchOk, WellFormed, Closed, Expanded, LongestCovers, PartialLinearization, EqualIsCongruence, Run;
    EmptyStackMeansNone(m, h, pos, configs);
    var ops := OpsOf(h);
    forall id, order: seq<nat> | 0 <= id < |ops| && PartialLinearization(m, ops, order) && id in order
      ensures AtLeast(longest, id, |order|)
    {
      LongestIsMaximal(m, ops, configs, longest, order, id);
    }
  }

  lemma StackIds<S(!new), I, O>(
    m: Model<S, I, O>, history: seq<Entry<I, O>>, all: seq<Node<I, O>>, entry: Node?<I, O>, state: S,
    linearized: array<Bitset.Word>, cache: Buckets<S>, calls: seq<CallsEntry<S, I, O>>,
    order: seq<nat>, pos: nat, configs: set<Config<S>>)
    requires WellFormed(history)
    requires LoopInv(m, history, all, entry, state, linearized, cache, calls, order, pos, configs)
    ensures |calls| == |order| && InRange(order, |history| / 2) && PartialLinearization(m, OpsOf(history), order)
    ensures forall k :: 0 <= k < |calls| ==> calls[k].entry.id == order[k]
    ensures configs <= Universe(m, OpsOf(history)) && |configs| <= |Universe(m, OpsOf(history))|
  {
    hide WellFormed, Linked, Represents, Run, OpsOf, Restorable, Gone, Universe, Tried, Closed, StackTried, FullIsTop,
      PartialLinearization, Bitset.Members;
    SubsetCardinality(configs, Universe(m, OpsOf(history)));
    hide SearchInv, SearchOk;
    forall k | 0 <= k < |calls|
      ensures calls[k].entry.id == order[k]
    {
      assert FrameOk(m, history, all, AllLinks(all), calls[k], order, k);
      NodeFacts(history, all, order[k]);
    }
  }

  /** What `checkSingle` promises about the list of longest partial linearizations. */
  ghost predicate LongestResult<S(!new), I(!new), O(!new)>(
    m: Model<S, I, O>, ops: seq<Operation<I, O>>, ok: bool, computePartial: bool, killed: bool, longest: Longest)
  {
    && LongestValid(m, ops, longest)
    && (ok ==> exists order ::
          Linearization(m, ops, order) && forall id :: 0 <= id < |ops| ==> longest[id] == Some(order))
    && (!ok && computePartial && !killed ==> LongestIsBest(m, ops, longest))
    && (!ok && !computePartial ==> forall id :: 0 <= id < |ops| ==> longest[id] == None)
  }

  lemma CompleteLongest<S(!new), I(!new), O(!new)>(
    m: Model<S, I, O>, ops: seq<Operation<I, O>>, order: seq<nat>, longest: Longest, computePartial: bool, killed: bool)
    requires WellTimed(ops) && Linearization(m, ops, order)
    requires |longest| == |ops| && forall id :: 0 <= id < |ops| ==> longest[id] == Some(order)
    ensures LongestResult(m, ops, true, computePartial, killed, longest)
    ensures Linearizable(m, ops)
  {
    FullPartialIsLinearization(m, ops, order);
    PermutationCovers(order, |ops|);
    hide Linearization, PartialLinearization;
  }

  lemma GivenUp<S(!new), I(!new), O(!new)>(
    m: Model<S, I, O>, ops: seq<Operation<I, O>>, computePartial: bool, killed: bool, order: seq<nat>,
    configs: set<Config<S>>, longest: Longest)
    requires LongestOk(m, ops, computePartial, order, configs, longest)
    requires computePartial && !killed ==> LongestIsBest(m, ops, longest)
    ensures LongestResult(m, ops, false, computePartial, killed, longest)
  {
    hide LongestValid, LongestIsBest, LongestCovers;
    assert LongestValid(m, ops, longest);
    LongestLength(m, ops, longest);
  }

  lemma LongestLength<S, I, O>(m: Model<S, I, O>, ops: seq<Operation<I, O>>, longest: Longest)
    requires LongestValid(m, ops, longest)
    ensures |longest| == |ops|
  {
  }

  /** The loop body for a call: linearize the operation, unless that is rejected or leads nowhere new. */
  method VisitCall<S(!new), I(!new), O(!new)>(
    m: Model<S, I, O>, ghost history: seq<Entry<I, O>>, headEntry: Node<I, O>, ghost all: seq<Node<I, O>>,
    entry: Node<I, O>, state: S, linearized: array<Bitset.Word>, cache: Buckets<S>, calls: seq<CallsEntry<S, I, O>>,
    ghost order: seq<nat>, ghost pos: nat, ghost configs: set<Config<S>>, ghost computePartial: bool,
    ghost longest: Longest)
    returns (entry': Node?<I, O>, state': S, cache': Buckets<S>, calls': seq<CallsEntry<S, I, O>>,
             ghost order': seq<nat>, ghost pos': nat, ghost configs': set<Config<S>>)
    requires WellFormed(history) && EqualIsCongruence(m) && all != [] && headEntry == all[0] && all[0].next != null
    requires LoopInv(m, history, all, entry, state, linearized, cache, calls, order, pos, configs)
    requires LongestOk(m, OpsOf(history), computePartial, order, configs, longest)
    requires entry.match_ != null
    modifies linearized, all`next, all`prev
    ensures LoopInv(m, history, all, entry', state', linearized, cache', calls', order', pos', configs')
    ensures LongestOk(m, OpsOf(history), computePartial, order', configs', longest)
    ensures || |configs| < |configs'| <= |Universe(m, OpsOf(history))|
            || (configs' == configs && order' == order && pos < pos' <= |history|)
    ensures |order'| <= |order| + 1
  {
    hide *;
    ghost var ops := OpsOf(history);
    LoopFacts(m, history, all, entry, state, linearized, cache, calls, order, pos, configs);
    var matching, id := entry.match_, entry.id;
    state', cache', calls', order', configs' := state, cache, calls, order, configs;
    var (accepted, newState) := Step(m, state, entry.value.input, matching.value.output);
    StepIs(m, state, ops[id]);
    if accepted {
      StoredIsAllocated(cache);
      var newCacheEntry, contained := Candidate(m, linearized, id, newState, cache, configs);
      if !contained {
        LongestPushed(m, ops, computePartial, order, id, configs, longest);
        entry', cache', calls', pos' :=
          Linearize(m, history, headEntry, all, entry, state, linearized, cache, calls, newCacheEntry, id, order,
            pos, configs);
        configs' := configs + {(Ids(order) + {id}, newState)};
        state', order' := newState, order + [id];
        StackIds(m, history, all, entry', state', linearized, cache', calls', order', pos', configs');
        return;
      }
    }
    entry', pos' := Advance(m, history, all, entry, state, linearized, cache, calls, order, pos, configs, id);
  }

  /**
   The flag is read at least once if there is anything to search, and at least once
   per operation before the search succeeds: one seen set ends it.
   */
  ghost predicate GaveUpWhenTold(n: nat, kill: nat -> bool, ok: bool, killed: bool) {
    !killed ==> forall i: nat :: i < n && (ok || i == 0) ==> !kill(i)
  }

  lemma HeedsFlag(n: nat, kill: nat -> bool, ok: bool, killed: bool, loads: nat)
    requires !killed ==> (forall i: nat :: i < loads ==> !kill(i)) && loads >= if ok then n else 1
    ensures GaveUpWhenTold(n, kill, ok, killed)
  {
  }

  /**
   Decides whether the history is linearizable.  `kill(i)` is what the i-th load
   of the shared flag reads: a search that has been told to stop answers `false`
   without having decided anything.
   */
  method CheckSingle<S(!new), I(!new), O(!new)>(
    m: Model<S, I, O>, history: seq<Entry<I, O>>, computePartial: bool, kill: nat -> bool)
    returns (ok: bool, longest: Longest, ghost killed: bool)
    requires WellFormed(history) && EqualIsCongruence(m)
    ensures killed ==> !ok && exists i: nat :: kill(i)
    ensures GaveUpWhenTold(|OpsOf(history)|, kill, ok, killed)
    ensures ok ==> Linearizable(m, OpsOf(history))
    ensures !ok && !killed ==> !Linearizable(m, OpsOf(history))
    ensures LongestResult(m, OpsOf(history), ok, computePartial, killed, longest)
  {
    hide *;
    ghost var ops := OpsOf(history);
    var headEntry, entry, n, all := Prepare(m, history);
    var linearized := Bitset.New(n);
    var cache: Buckets<S> := map[];
    var calls: seq<CallsEntry<S, I, O>> := [];
    longest := seq(n, _ => None);
    var state := m.init;
    killed := false;

    ghost var order: seq<nat> := [];
    ghost var pos: nat := 0;
    ghost var configs: set<Config<S>> := {};
    LoopStarts(m, history, all, entry, linearized, cache);
    LongestStarts(m, ops, computePartial, longest);
    var loads := 0;
    while headEntry.next != null
      invariant |all| == |history| + 1 && headEntry == all[0] && forall q :: 0 <= q < |all| ==> fresh(all[q])
      invariant fresh(linearized)
      invariant LoopInv(m, history, all, entry, state, linearized, cache, calls, order, pos, configs)
      invariant LongestOk(m, ops, computePartial, order, configs, longest)
      invariant !killed && loads >= |order| && forall i: nat :: i < loads ==> !kill(i)
      invariant |configs| <= |Universe(m, ops)|
      decreases |Universe(m, ops)| - |configs|, |order|, |history| - pos
    {
      LoopFacts(m, history, all, entry, state, linearized, cache, calls, order, pos, configs);
      if kill(loads) {
        killed := true;
        GivenUp(m, ops, computePartial, killed, order, configs, longest);
        HeedsFlag(|ops|, kill, false, killed, loads);
        return false, longest, killed;
      }
      loads := loads + 1;
      if entry.match_ != null {
        entry, state, cache, calls, order, pos, configs :=
          VisitCall(m, history, headEntry, all, entry, state, linearized, cache, calls, order, pos, configs,
                    computePartial, longest);
      } else {
        if |calls| == 0 {
          GiveUp(m, history, all, entry, state, linearized, cache, calls, order, pos, configs, computePartial, longest);
          HeedsFlag(|ops|, kill, false, killed, loads);
          return false, longest, killed;
        }
        ghost var front, id := order[..|order| - 1], order[|order| - 1];
        assert order == front + [id];
        LongestPopped(m, ops, computePartial, order, front, configs, longest);
        if computePartial {
          StoredIsAllocated(cache);
          longest := RecordLongest(longest, calls, order);
        }
        entry, state, calls, pos :=
          Backtrack(m, history, all, entry, state, linearized, cache, calls, order, front, id, pos, configs);
        order := front;
      }
    }
    ok := true;
    LoopEnds(m, history, all, entry, state, linearized, cache, calls, order, pos, configs);
    HeedsFlag(|ops|, kill, ok, killed, loads);
    longest := Complete(n, calls, order);
    CompleteLongest(m, ops, order, longest, computePartial, killed);
  }

  /** The complete linearization goes with every operation. */
  method Complete<S, I, O>(n: nat, calls: seq<CallsEntry<S, I, O>>, ghost order: seq<nat>) returns (longest: Longest)
    requires |calls| == |order| && forall k :: 0 <= k < |calls| ==> calls[k].entry.id == order[k]
    ensures |longest| == n && forall id :: 0 <= id < n ==> longest[id] == Some(order)
  {
    var ids: seq<nat> := [];
    for i := 0 to |calls|
      invariant ids == order[..i]
    {
      ids := ids + [calls[i].entry.id];
    }
    assert order[..|calls|] == order;
    longest := [];
    for i := 0 to n
      invariant |longest| == i && forall id :: 0 <= id < i ==> longest[id] == Some(order)
    {
      longest := longest + [Some(ids)];
    }
  }
}
