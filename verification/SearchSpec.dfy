/**
 The depth-first search of `checkSingle`, seen without its data structures.

 The whole search state is a partial linearization `order` (the ids on the
 calls stack), the position `pos` of the cursor in the entry list and the set
 `cache` of (linearized ids, state) pairs inserted so far.  The module states
 the invariant that makes pruning with the cache sound, and shows that each of
 the three moves of the loop (push, advance, pop) keeps it.
 */
module SearchSpec {
  import opened Options
  import opened FiniteSets
  import opened Linearizability

  /** A cached configuration: which operations are linearized, and the state they lead to. */
  type Config<S> = (set<nat>, S)

  ghost function ConfigOf<S, I, O>(m: Model<S, I, O>, ops: seq<Operation<I, O>>, order: seq<nat>): Config<S>
    requires InRange(order, |ops|)
  {
    (Ids(order), Run(m, ops, order))
  }

  /** What `cacheContains` answers for the configuration (done, s). */
  ghost predicate Covered<S(!new), I, O>(m: Model<S, I, O>, cache: set<Config<S>>, done: set<nat>, s: S) {
    exists t: S :: (done, t) in cache && Same(m, s, t)
  }

  /** Every acceptable call before `pos` that is not linearized has been followed, or pruned. */
  ghost predicate Tried<S(!new), I, O>(
    m: Model<S, I, O>, ops: seq<Operation<I, O>>, cache: set<Config<S>>, done: set<nat>, s: S, pos: int)
  {
    forall id :: 0 <= id < |ops| && id !in done && ops[id].call < pos && Accepts(m, s, ops[id]) ==>
      Covered(m, cache, done + {id}, After(m, s, ops[id]))
  }

  /** Every possible continuation of the configuration has been followed, or pruned. */
  ghost predicate Expanded<S(!new), I, O>(
    m: Model<S, I, O>, ops: seq<Operation<I, O>>, cache: set<Config<S>>, c: Config<S>)
  {
    forall id :: 0 <= id < |ops| && id !in c.0 && Enabled(ops, c.0, id) && Accepts(m, c.1, ops[id]) ==>
      Covered(m, cache, c.0 + {id}, After(m, c.1, ops[id]))
  }

  ghost predicate OnStack<S, I, O>(m: Model<S, I, O>, ops: seq<Operation<I, O>>, order: seq<nat>, c: Config<S>)
    requires InRange(order, |ops|)
  {
    exists k :: 0 <= k <= |order| && c == ConfigOf(m, ops, order[..k])
  }

  /** Frame `k` of the stack: everything before the branch that was taken is covered, and the branch is cached. */
  ghost predicate FrameTried<S(!new), I, O>(
    m: Model<S, I, O>, ops: seq<Operation<I, O>>, order: seq<nat>, cache: set<Config<S>>, k: nat)
    requires InRange(order, |ops|) && k < |order|
  {
    && Tried(m, ops, cache, Ids(order[..k]), Run(m, ops, order[..k]), ops[order[k]].call)
    && ConfigOf(m, ops, order[..k + 1]) in cache
  }

  ghost predicate StackTried<S(!new), I, O>(
    m: Model<S, I, O>, ops: seq<Operation<I, O>>, order: seq<nat>, cache: set<Config<S>>)
    requires InRange(order, |ops|)
  {
    forall k :: 0 <= k < |order| ==> FrameTried(m, ops, order, cache, k)
  }

  /** Whatever is cached, and the root, is still being explored or has been explored completely. */
  ghost predicate Closed<S(!new), I, O>(
    m: Model<S, I, O>, ops: seq<Operation<I, O>>, order: seq<nat>, cache: set<Config<S>>)
    requires InRange(order, |ops|)
  {
    forall c: Config<S> :: c in cache || c == ({}, m.init) ==>
      OnStack(m, ops, order, c) || Expanded(m, ops, cache, c)
  }

  /** A configuration that linearizes everything is only ever the top of the stack. */
  ghost predicate FullIsTop<S, I, O>(
    m: Model<S, I, O>, ops: seq<Operation<I, O>>, order: seq<nat>, cache: set<Config<S>>)
    requires InRange(order, |ops|)
  {
    forall c :: c in cache && c.0 == Range(|ops|) ==> c == ConfigOf(m, ops, order)
  }

  /** The invariant of the search loop. */
  ghost predicate SearchInv<S(!new), I, O>(
    m: Model<S, I, O>, ops: seq<Operation<I, O>>, order: seq<nat>, pos: int, cache: set<Config<S>>)
  {
    && PartialLinearization(m, ops, order)
    && StackTried(m, ops, order, cache)
    && Tried(m, ops, cache, Ids(order), Run(m, ops, order), pos)
    && Closed(m, ops, order, cache)
    && FullIsTop(m, ops, order, cache)
  }

  // ---------------------------------------------------------------------
  // Only finitely many configurations can ever be reached

  ghost function Successor<S, I, O>(m: Model<S, I, O>, ops: seq<Operation<I, O>>, c: Config<S>, id: nat): Config<S>
    requires id < |ops|
  {
    (c.0 + {id}, After(m, c.1, ops[id]))
  }

  /** `c` and what at most `depth` operations lead to from it, the first of them one of the first `width`. */
  ghost function Below<S, I, O>(
    m: Model<S, I, O>, ops: seq<Operation<I, O>>, c: Config<S>, depth: nat, width: nat): set<Config<S>>
    requires width <= |ops|
    decreases depth, width
  {
    if depth == 0 || width == 0 then {c}
    else Below(m, ops, c, depth, width - 1) + Below(m, ops, Successor(m, ops, c, width - 1), depth - 1, |ops|)
  }

  ghost function Universe<S, I, O>(m: Model<S, I, O>, ops: seq<Operation<I, O>>): set<Config<S>> {
    Below(m, ops, ({}, m.init), |ops|, |ops|)
  }

  lemma {:induction false} BelowSelf<S, I, O>(
    m: Model<S, I, O>, ops: seq<Operation<I, O>>, c: Config<S>, depth: nat, width: nat)
    requires width <= |ops|
    ensures c in Below(m, ops, c, depth, width)
  {
    if depth != 0 && width != 0 {
      BelowSelf(m, ops, c, depth, width - 1);
    }
  }

  lemma {:induction false} BelowSuccessor<S, I, O>(
    m: Model<S, I, O>, ops: seq<Operation<I, O>>, c: Config<S>, depth: nat, width: nat, id: nat, x: Config<S>)
    requires 0 < depth && id < width <= |ops|
    requires x in Below(m, ops, Successor(m, ops, c, id), depth - 1, |ops|)
    ensures x in Below(m, ops, c, depth, width)
  {
    if id < width - 1 {
      BelowSuccessor(m, ops, c, depth, width - 1, id, x);
    }
  }

  lemma {:induction false} RunIsBelow<S, I, O>(
    m: Model<S, I, O>, ops: seq<Operation<I, O>>, order: seq<nat>, k: nat, depth: nat)
    requires InRange(order, |ops|) && k <= |order| <= k + depth
    ensures ConfigOf(m, ops, order) in Below(m, ops, ConfigOf(m, ops, order[..k]), depth, |ops|)
    decreases |order| - k
  {
    if k == |order| {
      assert order[..k] == order;
      BelowSelf(m, ops, ConfigOf(m, ops, order), depth, |ops|);
    } else {
      RunIsBelow(m, ops, order, k + 1, depth - 1);
      assert order[..k + 1] == order[..k] + [order[k]];
      RunExtend(m, ops, order[..k], order[k]);
      BelowSuccessor(m, ops, ConfigOf(m, ops, order[..k]), depth, |ops|, order[k], ConfigOf(m, ops, order));
    }
  }

  /** Whatever the search can insert into its cache comes from a finite set fixed before it starts. */
  lemma PartialIsInUniverse<S, I, O>(m: Model<S, I, O>, ops: seq<Operation<I, O>>, order: seq<nat>)
    requires PartialLinearization(m, ops, order)
    ensures ConfigOf(m, ops, order) in Universe(m, ops)
  {
    PartialLength(m, ops, order);
    RunIsBelow(m, ops, order, 0, |ops|);
    assert order[..0] == [] && Ids([]) == {};
  }

  // ---------------------------------------------------------------------
  // The moves of the loop

  lemma InitInv<S(!new), I, O>(m: Model<S, I, O>, ops: seq<Operation<I, O>>)
    requires forall id :: 0 <= id < |ops| ==> ops[id].call >= 0
    ensures SearchInv(m, ops, [], 0, {})
  {
    var root: Config<S> := ({}, m.init);
    var empty: seq<nat> := [];
    assert empty[..0] == empty && Ids(empty) == {};
    assert root == ConfigOf(m, ops, empty[..0]);
  }

  lemma CoveredGrows<S(!new), I, O>(
    m: Model<S, I, O>, ops: seq<Operation<I, O>>, order: seq<nat>, cache: set<Config<S>>,
    bigger: set<Config<S>>)
    requires InRange(order, |ops|) && cache <= bigger
    ensures forall done: set<nat>, s: S :: Covered(m, cache, done, s) ==> Covered(m, bigger, done, s)
    ensures StackTried(m, ops, order, cache) ==> StackTried(m, ops, order, bigger)
    ensures forall c: Config<S> :: Expanded(m, ops, cache, c) ==> Expanded(m, ops, bigger, c)
  {
    if StackTried(m, ops, order, cache) {
      forall k | 0 <= k < |order|
        ensures FrameTried(m, ops, order, bigger, k)
      {
        assert FrameTried(m, ops, order, cache, k);
      }
    }
  }

  /** Skipping a call that is linearized, rejected or pruned. */
  lemma AdvanceInv<S(!new), I, O>(
    m: Model<S, I, O>, ops: seq<Operation<I, O>>, order: seq<nat>, pos: int, id: nat, next: int, cache: set<Config<S>>)
    requires SearchInv(m, ops, order, pos, cache)
    requires id < |ops| && ops[id].call == pos
    requires Accepts(m, Run(m, ops, order), ops[id]) ==>
               Covered(m, cache, Ids(order) + {id}, After(m, Run(m, ops, order), ops[id]))
    requires forall j :: 0 <= j < |ops| && j !in order && pos < ops[j].call ==> next <= ops[j].call
    requires forall j :: 0 <= j < |ops| && ops[j].call == pos ==> j == id
    ensures SearchInv(m, ops, order, next, cache)
  {
  }

  /** Following the call of `id` from the configuration on top of the stack. */
  lemma PushInv<S(!new), I(!new), O(!new)>(
    m: Model<S, I, O>, ops: seq<Operation<I, O>>, order: seq<nat>, pos: int, id: nat, first: int, cache: set<Config<S>>)
    requires SearchInv(m, ops, order, pos, cache)
    requires Extends(m, ops, order, id) && ops[id].call == pos
    requires !Covered(m, cache, Ids(order) + {id}, After(m, Run(m, ops, order), ops[id]))
    requires EqualIsCongruence(m)
    requires forall j :: 0 <= j < |ops| && j !in order + [id] ==> first <= ops[j].call
    ensures ConfigOf(m, ops, order + [id]) !in cache
    ensures SearchInv(m, ops, order + [id], first, cache + {ConfigOf(m, ops, order + [id])})
  {
    PartialExtend(m, ops, order, id);
    RunExtend(m, ops, order, id);
    PushStackTried(m, ops, order, pos, id, cache);
    PushClosed(m, ops, order, id, cache);
  }

  lemma PushStackTried<S(!new), I, O>(
    m: Model<S, I, O>, ops: seq<Operation<I, O>>, order: seq<nat>, pos: int, id: nat, cache: set<Config<S>>)
    requires InRange(order, |ops|) && id < |ops| && ops[id].call == pos
    requires StackTried(m, ops, order, cache)
    requires Tried(m, ops, cache, Ids(order), Run(m, ops, order), pos)
    ensures InRange(order + [id], |ops|)
    ensures StackTried(m, ops, order + [id], cache + {ConfigOf(m, ops, order + [id])})
  {
    var next := order + [id];
    var bigger := cache + {ConfigOf(m, ops, next)};
    CoveredGrows(m, ops, order, cache, bigger);
    forall k | 0 <= k < |next|
      ensures FrameTried(m, ops, next, bigger, k)
    {
      assert next[..k] == order[..k];
      if k < |order| {
        assert FrameTried(m, ops, order, bigger, k);
        assert next[..k + 1] == order[..k + 1];
      } else {
        assert next[..k] == order && next[..k + 1] == next;
      }
    }
  }

  lemma PushClosed<S(!new), I, O>(
    m: Model<S, I, O>, ops: seq<Operation<I, O>>, order: seq<nat>, id: nat, cache: set<Config<S>>)
    requires InRange(order, |ops|) && id < |ops|
    requires Closed(m, ops, order, cache)
    ensures InRange(order + [id], |ops|)
    ensures Closed(m, ops, order + [id], cache + {ConfigOf(m, ops, order + [id])})
  {
    var next := order + [id];
    var bigger := cache + {ConfigOf(m, ops, next)};
    CoveredGrows(m, ops, order, cache, bigger);
    forall c: Config<S> | c in bigger || c == ({}, m.init)
      ensures OnStack(m, ops, next, c) || Expanded(m, ops, bigger, c)
    {
      if c == ConfigOf(m, ops, next) {
        assert next[..|next|] == next;
      } else if OnStack(m, ops, order, c) {
        var k :| 0 <= k <= |order| && c == ConfigOf(m, ops, order[..k]);
        assert next[..k] == order[..k];
      }
    }
  }

  /** Reaching a return: everything that could follow the top of the stack has been tried. */
  lemma TopExpanded<S(!new), I, O>(
    m: Model<S, I, O>, ops: seq<Operation<I, O>>, order: seq<nat>, pos: int, pending: nat, cache: set<Config<S>>)
    requires SearchInv(m, ops, order, pos, cache)
    requires pending < |ops| && pending !in order && ops[pending].ret == pos
    requires forall j :: 0 <= j < |ops| ==> ops[j].call != pos
    ensures Expanded(m, ops, cache, ConfigOf(m, ops, order))
  {
    var c := ConfigOf(m, ops, order);
    forall id | 0 <= id < |ops| && id !in c.0 && Enabled(ops, c.0, id) && Accepts(m, c.1, ops[id])
      ensures Covered(m, cache, c.0 + {id}, After(m, c.1, ops[id]))
    {
      assert ops[id].call <= ops[pending].ret;
    }
  }

  /** Backtracking over the top of the stack and moving on to the entry after it. */
  lemma PopInv<S(!new), I(!new), O(!new)>(
    m: Model<S, I, O>, ops: seq<Operation<I, O>>, order: seq<nat>, pos: int, next: int, cache: set<Config<S>>)
    requires SearchInv(m, ops, order, pos, cache) && order != []
    requires Expanded(m, ops, cache, ConfigOf(m, ops, order))
    requires Ids(order) != Range(|ops|)
    requires EqualIsCongruence(m)
    requires var id := order[|order| - 1];
             && (forall j :: 0 <= j < |ops| && j !in order && ops[id].call < ops[j].call ==> next <= ops[j].call)
             && (forall j :: 0 <= j < |ops| && ops[j].call == ops[id].call ==> j == id)
    ensures SearchInv(m, ops, order[..|order| - 1], next, cache)
  {
    var front, id := order[..|order| - 1], order[|order| - 1];
    hide Run;
    PartialUnextend(m, ops, order);
    PopStackTried(m, ops, order, cache);
    PopClosed(m, ops, order, cache);
    var s := Run(m, ops, front);
    forall j | 0 <= j < |ops| && j !in Ids(front) && ops[j].call < next && Accepts(m, s, ops[j])
      ensures Covered(m, cache, Ids(front) + {j}, After(m, s, ops[j]))
    {
      assert j != id ==> j !in order;
    }
  }

  lemma PopStackTried<S(!new), I(!new), O(!new)>(
    m: Model<S, I, O>, ops: seq<Operation<I, O>>, order: seq<nat>, cache: set<Config<S>>)
    requires InRange(order, |ops|) && order != []
    requires StackTried(m, ops, order, cache)
    requires EqualIsCongruence(m)
    ensures var front, id := order[..|order| - 1], order[|order| - 1];
            && StackTried(m, ops, front, cache)
            && Tried(m, ops, cache, Ids(front), Run(m, ops, front), ops[id].call)
            && Covered(m, cache, Ids(front) + {id}, After(m, Run(m, ops, front), ops[id]))
  {
    hide Tried, Run;
    var front, id := order[..|order| - 1], order[|order| - 1];
    forall k | 0 <= k < |front|
      ensures FrameTried(m, ops, front, cache, k)
    {
      assert FrameTried(m, ops, order, cache, k);
      assert front[..k] == order[..k] && front[..k + 1] == order[..k + 1];
    }
    assert FrameTried(m, ops, order, cache, |front|);
    assert order == front + [id] && order[..|order|] == order;
    RunExtend(m, ops, front, id);
  }

  lemma PopClosed<S(!new), I, O>(
    m: Model<S, I, O>, ops: seq<Operation<I, O>>, order: seq<nat>, cache: set<Config<S>>)
    requires InRange(order, |ops|) && order != []
    requires Closed(m, ops, order, cache)
    requires Expanded(m, ops, cache, ConfigOf(m, ops, order))
    ensures Closed(m, ops, order[..|order| - 1], cache)
  {
    var front := order[..|order| - 1];
    forall c: Config<S> | c in cache || c == ({}, m.init)
      ensures OnStack(m, ops, front, c) || Expanded(m, ops, cache, c)
    {
      if OnStack(m, ops, order, c) {
        var k :| 0 <= k <= |order| && c == ConfigOf(m, ops, order[..k]);
        if k < |order| {
          assert front[..k] == order[..k];
        } else {
          assert order[..k] == order;
        }
      }
    }
  }

  // ---------------------------------------------------------------------
  // What the search has established when it gives up

  /**
   Once the root is expanded with nothing left on the stack, every partial
   linearization is represented in the cache, however much was pruned.
   */
  lemma {:induction false} EveryPartialIsCached<S(!new), I(!new), O(!new)>(
    m: Model<S, I, O>, ops: seq<Operation<I, O>>, cache: set<Config<S>>, order: seq<nat>)
    requires EqualIsCongruence(m)
    requires Closed(m, ops, [], cache) && Expanded(m, ops, cache, ({}, m.init))
    requires PartialLinearization(m, ops, order)
    ensures Covered(m, cache + {({}, m.init)}, Ids(order), Run(m, ops, order))
  {
    if order == [] {
      assert Ids(order) == {};
    } else {
      var front, id := order[..|order| - 1], order[|order| - 1];
      assert order == front + [id];
      PartialUnextend(m, ops, order);
      EveryPartialIsCached(m, ops, cache, front);
      RunExtend(m, ops, front, id);
      var s, root := Run(m, ops, front), ({}, m.init);
      var t: S :| (Ids(front), t) in cache + {root} && Same(m, s, t);
      assert Accepts(m, t, ops[id]) && Same(m, After(m, s, ops[id]), After(m, t, ops[id]));
      assert Expanded(m, ops, cache, (Ids(front), t)) by {
        ClosedRootless(m, ops, cache, (Ids(front), t));
      }
      var u: S :| (Ids(front) + {id}, u) in cache && Same(m, After(m, t, ops[id]), u);
      assert Same(m, After(m, s, ops[id]), u);
    }
  }

  lemma ClosedRootless<S(!new), I, O>(m: Model<S, I, O>, ops: seq<Operation<I, O>>, cache: set<Config<S>>, c: Config<S>)
    requires Closed(m, ops, [], cache) && Expanded(m, ops, cache, ({}, m.init))
    requires c in cache + {({}, m.init)}
    ensures Expanded(m, ops, cache, c)
  {
    if OnStack(m, ops, [], c) {
      var empty: seq<nat> := [];
      var k :| 0 <= k <= |empty| && c == ConfigOf(m, ops, empty[..k]);
      assert empty[..k] == empty && Ids(empty) == {};
    }
  }

  lemma LinearizationIsCached<S(!new), I(!new), O(!new)>(
    m: Model<S, I, O>, ops: seq<Operation<I, O>>, cache: set<Config<S>>, order: seq<nat>)
    requires EqualIsCongruence(m) && WellTimed(ops) && ops != []
    requires Closed(m, ops, [], cache) && Expanded(m, ops, cache, ({}, m.init))
    requires Linearization(m, ops, order)
    ensures exists c :: c in cache && c.0 == Range(|ops|)
  {
    FullPartialIsLinearization(m, ops, order);
    PartialLength(m, ops, order);
    EveryPartialIsCached(m, ops, cache, order);
    assert order[0] in Ids(order);
  }

  /** An exhausted search proves that there is no linearization. */
  lemma ExhaustedMeansNotLinearizable<S(!new), I(!new), O(!new)>(
    m: Model<S, I, O>, ops: seq<Operation<I, O>>, pos: int, pending: nat, cache: set<Config<S>>)
    requires EqualIsCongruence(m) && WellTimed(ops)
    requires SearchInv(m, ops, [], pos, cache)
    requires pending < |ops| && ops[pending].ret == pos
    requires forall j :: 0 <= j < |ops| ==> ops[j].call != pos
    ensures !Linearizable(m, ops)
    ensures Closed(m, ops, [], cache) && Expanded(m, ops, cache, ({}, m.init))
  {
    TopExpanded(m, ops, [], pos, pending, cache);
    assert Ids([]) == {};
    assert pending in Range(|ops|);
    hide PartialLinearization, Linearization, Tried;
    forall order | Linearization(m, ops, order)
      ensures false
    {
      LinearizationIsCached(m, ops, cache, order);
    }
  }

  // ---------------------------------------------------------------------
  // The longest partial linearizations

  /** For each operation, a partial linearization that contains it. */
  type Longest = seq<Option<seq<nat>>>

  ghost predicate LongestValid<S, I, O>(m: Model<S, I, O>, ops: seq<Operation<I, O>>, longest: Longest) {
    && |longest| == |ops|
    && forall id :: 0 <= id < |longest| && longest[id].Some? ==>
         PartialLinearization(m, ops, longest[id].value) && id in longest[id].value
  }

  /** Configurations that have left the stack are reflected in `longest`. */
  ghost predicate LongestCovers<S(!new), I, O>(
    m: Model<S, I, O>, ops: seq<Operation<I, O>>, order: seq<nat>, cache: set<Config<S>>, longest: Longest)
    requires InRange(order, |ops|)
  {
    forall c, id :: c in cache && 0 <= id < |longest| && id in c.0 ==>
      OnStack(m, ops, order, c) || AtLeast(longest, id, |c.0|)
  }

  predicate AtLeast(longest: Longest, id: nat, length: nat)
    requires id < |longest|
  {
    longest[id].Some? && length <= |longest[id].value|
  }

  /** What the backtracking step makes of `longest` while `order` is on the stack. */
  function Updated(longest: Longest, order: seq<nat>): (r: Longest)
    ensures |r| == |longest|
  {
    seq(|longest|, id requires 0 <= id < |longest| =>
      if id in order && !AtLeast(longest, id, |order|) then Some(order) else longest[id])
  }

  lemma UpdatedIsValid<S, I, O>(m: Model<S, I, O>, ops: seq<Operation<I, O>>, longest: Longest, order: seq<nat>)
    requires LongestValid(m, ops, longest) && PartialLinearization(m, ops, order)
    ensures LongestValid(m, ops, Updated(longest, order))
  {
  }

  lemma UpdatedCovers<S(!new), I, O>(
    m: Model<S, I, O>, ops: seq<Operation<I, O>>, order: seq<nat>, cache: set<Config<S>>, longest: Longest)
    requires PartialLinearization(m, ops, order) && order != []
    requires |longest| == |ops| && LongestCovers(m, ops, order, cache, longest)
    ensures LongestCovers(m, ops, order[..|order| - 1], cache, Updated(longest, order))
  {
    hide PartialLinearization, Run;
    var front, after := order[..|order| - 1], Updated(longest, order);
    PartialDistinct(m, ops, order);
    DistinctCardinality(order);
    forall c, id | c in cache && 0 <= id < |after| && id in c.0
      ensures OnStack(m, ops, front, c) || AtLeast(after, id, |c.0|)
    {
      if OnStack(m, ops, order, c) {
        var k :| 0 <= k <= |order| && c == ConfigOf(m, ops, order[..k]);
        if k < |order| {
          assert front[..k] == order[..k];
        } else {
          assert order[..k] == order;
        }
      }
    }
  }

  lemma PushedCovers<S(!new), I, O>(
    m: Model<S, I, O>, ops: seq<Operation<I, O>>, order: seq<nat>, id: nat, cache: set<Config<S>>, longest: Longest)
    requires InRange(order, |ops|) && id < |ops|
    requires LongestCovers(m, ops, order, cache, longest)
    ensures InRange(order + [id], |ops|)
    ensures LongestCovers(m, ops, order + [id], cache + {ConfigOf(m, ops, order + [id])}, longest)
  {
    hide Run;
    var next := order + [id];
    forall c, j | c in cache + {ConfigOf(m, ops, next)} && 0 <= j < |longest| && j in c.0
      ensures OnStack(m, ops, next, c) || AtLeast(longest, j, |c.0|)
    {
      if c == ConfigOf(m, ops, next) {
        assert next[..|next|] == next;
      } else if OnStack(m, ops, order, c) {
        var k :| 0 <= k <= |order| && c == ConfigOf(m, ops, order[..k]);
        assert next[..k] == order[..k];
      }
    }
  }

  lemma PartialDistinct<S, I, O>(m: Model<S, I, O>, ops: seq<Operation<I, O>>, order: seq<nat>)
    requires PartialLinearization(m, ops, order)
    ensures Distinct(order) && InRange(order, |ops|)
  {
  }

  /** When the search has given up, no partial linearization through `id` is longer than `longest[id]`. */
  lemma LongestIsMaximal<S(!new), I(!new), O(!new)>(
    m: Model<S, I, O>, ops: seq<Operation<I, O>>, cache: set<Config<S>>, longest: Longest, order: seq<nat>, id: nat)
    requires EqualIsCongruence(m)
    requires Closed(m, ops, [], cache) && Expanded(m, ops, cache, ({}, m.init))
    requires |longest| == |ops| && LongestCovers(m, ops, [], cache, longest)
    requires PartialLinearization(m, ops, order) && id in order
    ensures id < |longest| && AtLeast(longest, id, |order|)
  {
    hide PartialLinearization, Closed, Expanded;
    PartialDistinct(m, ops, order);
    DistinctCardinality(order);
    EveryPartialIsCached(m, ops, cache, order);
    var t: S :| (Ids(order), t) in cache + {({}, m.init)} && Same(m, Run(m, ops, order), t);
    assert id in Ids(order);
    var c := (Ids(order), t);
    var empty: seq<nat> := [];
    assert forall k :: 0 <= k <= |empty| ==> id !in Ids(empty[..k]);
  }

  /** Each operation's entry is a partial linearization through it, and there is none that is longer. */
  ghost predicate LongestIsBest<S(!new), I(!new), O(!new)>(
    m: Model<S, I, O>, ops: seq<Operation<I, O>>, longest: Longest) {
    && LongestValid(m, ops, longest)
    && forall id, order: seq<nat> :: 0 <= id < |ops| && PartialLinearization(m, ops, order) && id in order ==>
         AtLeast(longest, id, |order|)
  }
}
