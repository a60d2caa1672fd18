/**
 The doubly linked list of call and return nodes that the search walks, with
 `lift` and `unlift` taking an operation out and putting it back in place.

 `all` is the list as it was built, headed by a sentinel at index 0; `gone`
 holds the indices of the nodes currently taken out.
 */
module LinkedEntries {
  import opened Entries
  import Linearizability

  datatype Value<+I, +O> = Nil | Input(input: I) | Output(output: O)

  class Node<I, O> {
    const value: Value<I, O>
    const match_: Node?<I, O>  // a call's return; null for a return
    const id: int
    var next: Node?<I, O>
    var prev: Node?<I, O>

    constructor (value: Value<I, O>, match_: Node?<I, O>, id: int)
      ensures this.value == value && this.match_ == match_ && this.id == id
      ensures next == null && prev == null
    {
      this.value, this.match_, this.id := value, match_, id;
      next, prev := null, null;
    }
  }

  // ---------------------------------------------------------------------
  // Neighbours in the list that remains

  /** The first index after `p` that is not gone, or `n`. */
  function NextIndex(gone: set<nat>, p: nat, n: nat): nat
    decreases n - p
  {
    if p + 1 >= n then n else if p + 1 !in gone then p + 1 else NextIndex(gone, p + 1, n)
  }

  /** The last index before `p` that is not gone, or the sentinel. */
  function PrevIndex(gone: set<nat>, p: nat): nat {
    if p <= 1 then 0 else if p - 1 !in gone then p - 1 else PrevIndex(gone, p - 1)
  }

  lemma {:induction false} AfterIsFirst(gone: set<nat>, p: nat, n: nat)
    requires p < n
    ensures p < NextIndex(gone, p, n) <= n
    ensures NextIndex(gone, p, n) < n ==> NextIndex(gone, p, n) !in gone
    ensures forall q :: p < q < NextIndex(gone, p, n) ==> q in gone
    decreases n - p
  {
    if p + 1 < n && p + 1 in gone {
      AfterIsFirst(gone, p + 1, n);
    }
  }

  lemma {:induction false} BeforeIsLast(gone: set<nat>, p: nat)
    requires 0 < p && 0 !in gone
    ensures PrevIndex(gone, p) < p && PrevIndex(gone, p) !in gone
    ensures forall q :: PrevIndex(gone, p) < q < p ==> q in gone
  {
    if p > 1 && p - 1 in gone {
      BeforeIsLast(gone, p - 1);
    }
  }

  lemma AfterUnique(gone: set<nat>, p: nat, n: nat, q: nat)
    requires p < q <= n
    requires q < n ==> q !in gone
    requires forall j :: p < j < q ==> j in gone
    ensures NextIndex(gone, p, n) == q
  {
    AfterIsFirst(gone, p, n);
  }

  lemma BeforeUnique(gone: set<nat>, p: nat, q: nat)
    requires q < p && 0 !in gone && q !in gone
    requires forall j :: q < j < p ==> j in gone
    ensures PrevIndex(gone, p) == q
  {
    BeforeIsLast(gone, p);
  }

  /** Taking `c` out redirects exactly its two neighbours. */
  lemma AfterWithout(gone: set<nat>, c: nat, p: nat, n: nat)
    requires p < n && c < n && 0 !in gone && c != 0 && c !in gone && p !in gone && p != c
    ensures NextIndex(gone + {c}, p, n) ==
              if p == PrevIndex(gone, c) then NextIndex(gone, c, n) else NextIndex(gone, p, n)
    ensures p != PrevIndex(gone, c) ==> NextIndex(gone, p, n) != c
    ensures p == PrevIndex(gone, c) ==> NextIndex(gone, p, n) == c
  {
    AfterIsFirst(gone, p, n);
    AfterIsFirst(gone, c, n);
    BeforeIsLast(gone, c);
    if p == PrevIndex(gone, c) {
      AfterUnique(gone, p, n, c);
      AfterUnique(gone + {c}, p, n, NextIndex(gone, c, n));
    } else {
      AfterUnique(gone + {c}, p, n, NextIndex(gone, p, n));
    }
  }

  lemma BeforeWithout(gone: set<nat>, c: nat, p: nat, n: nat)
    requires 0 < p < n && c < n && 0 !in gone && c != 0 && c !in gone && p !in gone && p != c
    ensures PrevIndex(gone + {c}, p) == if p == NextIndex(gone, c, n) then PrevIndex(gone, c) else PrevIndex(gone, p)
    ensures p == NextIndex(gone, c, n) ==> PrevIndex(gone, p) == c
  {
    BeforeIsLast(gone, p);
    BeforeIsLast(gone, c);
    AfterIsFirst(gone, c, n);
    if p == NextIndex(gone, c, n) {
      BeforeUnique(gone, p, c);
      BeforeUnique(gone + {c}, p, PrevIndex(gone, c));
    } else {
      BeforeUnique(gone + {c}, p, PrevIndex(gone, p));
    }
  }

  // ---------------------------------------------------------------------
  // The list in the heap

  ghost function NodeAt<I, O>(all: seq<Node<I, O>>, q: nat): Node?<I, O> {
    if q < |all| then all[q] else null
  }

  /** The two links of one node. */
  datatype Links<!I, !O> = Links(next: Node?<I, O>, prev: Node?<I, O>)

  ghost function LinksOf<I, O>(n: Node<I, O>): Links<I, O>
    reads n
  {
    Links(n.next, n.prev)
  }

  ghost function AllLinks<I, O>(all: seq<Node<I, O>>): (links: seq<Links<I, O>>)
    reads all
    ensures |links| == |all| && forall p {:trigger links[p]} :: 0 <= p < |all| ==> links[p] == LinksOf(all[p])
  {
    seq(|all|, p requires 0 <= p < |all| reads all => LinksOf(all[p]))
  }

  /** The links that the node at `p` has in the list without `gone`. */
  ghost function LinksAt<I, O>(all: seq<Node<I, O>>, gone: set<nat>, p: nat): Links<I, O> {
    Links(NodeAt(all, NextIndex(gone, p, |all|)), if p == 0 then null else NodeAt(all, PrevIndex(gone, p)))
  }

  ghost predicate LinkedAt<I, O>(all: seq<Node<I, O>>, gone: set<nat>, p: nat)
    requires p < |all|
    reads all[p]
  {
    LinksOf(all[p]) == LinksAt(all, gone, p)
  }

  /** What remains is exactly the original sequence, in order, minus `gone`. */
  ghost predicate Linked<I, O>(all: seq<Node<I, O>>, gone: set<nat>)
    reads all
  {
    && |all| > 0 && 0 !in gone && Linearizability.Distinct(all)
    && forall p :: 0 <= p < |all| && p !in gone ==> LinkedAt(all, gone, p)
  }

  /** The nodes at `c` and `r`, taken out of the list without `gone`, still point to where they belong. */
  ghost predicate Restorable<I, O>(all: seq<Node<I, O>>, links: seq<Links<I, O>>, gone: set<nat>, c: nat, r: nat) {
    && c < |links| && r < |links|
    && links[c] == LinksAt(all, gone, c)
    && links[r] == LinksAt(all, gone + {c}, r)
  }

  ghost predicate SameOn<I, O>(gone: set<nat>, links: seq<Links<I, O>>, links': seq<Links<I, O>>) {
    |links| == |links'| && forall p :: 0 <= p < |links| && p in gone ==> links[p] == links'[p]
  }

  ghost predicate Inside<I, O>(all: seq<Node<I, O>>, gone: set<nat>, c: nat) {
    0 < c < |all| && 0 !in gone && c !in gone
  }

  /** `links` with the forward link of the node before `c` and the backward link of the one after it replaced. */
  ghost function Rewired<I, O>(
    all: seq<Node<I, O>>, gone: set<nat>, c: nat, links: seq<Links<I, O>>, forward: Node?<I, O>, backward: Node?<I, O>,
    p: nat): Links<I, O>
    requires p < |links|
  {
    Links(if p == PrevIndex(gone, c) then forward else links[p].next,
          if p == NextIndex(gone, c, |all|) then backward else links[p].prev)
  }

  lemma RewiredWithout<I, O>(all: seq<Node<I, O>>, gone: set<nat>, c: nat, links: seq<Links<I, O>>, p: nat)
    requires Inside(all, gone, c) && |links| == |all| && p < |all| && p !in gone && p != c
    requires links[p] == LinksAt(all, gone, p) && links[c] == LinksAt(all, gone, c)
    ensures Rewired(all, gone, c, links, links[c].next, links[c].prev, p) == LinksAt(all, gone + {c}, p)
  {
    AfterIsFirst(gone, c, |all|);
    AfterWithout(gone, c, p, |all|);
    if p > 0 {
      BeforeWithout(gone, c, p, |all|);
    }
  }

  lemma RewiredBack<I, O>(all: seq<Node<I, O>>, gone: set<nat>, c: nat, links: seq<Links<I, O>>, p: nat)
    requires Inside(all, gone, c) && |links| == |all| && p < |all| && p !in gone
    requires p != c ==> links[p] == LinksAt(all, gone + {c}, p)
    requires links[c] == LinksAt(all, gone, c)
    ensures Rewired(all, gone, c, links, all[c], all[c], p) == LinksAt(all, gone, p)
  {
    AfterIsFirst(gone, c, |all|);
    BeforeIsLast(gone, c);
    if p != c {
      AfterWithout(gone, c, p, |all|);
      if p > 0 {
        BeforeWithout(gone, c, p, |all|);
      }
    }
  }

  /** `links` are the links of the nodes that are left in the list without `gone`. */
  ghost predicate LinksFit<I, O>(all: seq<Node<I, O>>, gone: set<nat>, links: seq<Links<I, O>>) {
    && |links| == |all|
    && forall p {:trigger links[p]} :: 0 <= p < |all| && p !in gone ==> links[p] == LinksAt(all, gone, p)
  }

  ghost predicate RewiredHeap<I, O>(
    all: seq<Node<I, O>>, gone: set<nat>, c: nat, links: seq<Links<I, O>>, forward: Node?<I, O>, backward: Node?<I, O>)
    requires |links| == |all|
    reads all
  {
    forall p {:trigger links[p]} :: 0 <= p < |all| ==>
      LinksOf(all[p]) == Rewired(all, gone, c, links, forward, backward, p)
  }

  lemma SnapshotFits<I, O>(all: seq<Node<I, O>>, gone: set<nat>)
    requires Linked(all, gone)
    ensures LinksFit(all, gone, AllLinks(all))
  {
    var links := AllLinks(all);
    forall p | 0 <= p < |all| && p !in gone
      ensures links[p] == LinksAt(all, gone, p)
    {
      assert LinkedAt(all, gone, p);
    }
  }

  lemma NeighboursAreInside<I, O>(all: seq<Node<I, O>>, gone: set<nat>, c: nat)
    requires Inside(all, gone, c)
    ensures PrevIndex(gone, c) < c < NextIndex(gone, c, |all|) <= |all|
  {
    AfterIsFirst(gone, c, |all|);
    BeforeIsLast(gone, c);
  }

  /** One half of `lift`.  The test for the end of the list never fails for a call, which its return follows. */
  method Unlink<I, O>(n: Node<I, O>, ghost all: seq<Node<I, O>>, ghost gone: set<nat>, ghost c: nat)
    requires Linked(all, gone) && Inside(all, gone, c) && n == all[c]
    modifies all`next, all`prev
    ensures Linked(all, gone + {c}) && LinkedAt(all, gone, c)
    ensures SameOn(gone + {c}, AllLinks(all), old(AllLinks(all)))
  {
    hide NextIndex, PrevIndex;
    NeighboursAreInside(all, gone, c);
    ghost var b := PrevIndex(gone, c);
    ghost var links := AllLinks(all);
    SnapshotFits(all, gone);
    assert links[c] == LinksOf(n);
    n.prev.next := n.next;
    if n.next != null {
      n.next.prev := n.prev;
    }
    forall p | 0 <= p < |all|
      ensures LinksOf(all[p]) == Rewired(all, gone, c, links, links[c].next, links[c].prev, p)
    {
      assert links[p] == old(LinksOf(all[p]));
      assert p != b ==> all[p] != all[b];
    }
    UnlinkedIsLinked(all, gone, c, links);
  }

  lemma UnlinkedIsLinked<I, O>(all: seq<Node<I, O>>, gone: set<nat>, c: nat, links: seq<Links<I, O>>)
    requires Linearizability.Distinct(all) && Inside(all, gone, c) && LinksFit(all, gone, links)
    requires RewiredHeap(all, gone, c, links, links[c].next, links[c].prev)
    ensures Linked(all, gone + {c}) && LinkedAt(all, gone, c)
    ensures forall p :: 0 <= p < |all| && p in gone + {c} ==> LinksOf(all[p]) == links[p]
  {
    forall p | 0 <= p < |all| && p !in gone + {c}
      ensures LinkedAt(all, gone + {c}, p)
    {
      RewiredWithout(all, gone, c, links, p);
    }
    AfterIsFirst(gone, c, |all|);
    BeforeIsLast(gone, c);
    assert links[c] == LinksAt(all, gone, c);
    forall p | 0 <= p < |all| && p in gone + {c}
      ensures LinksOf(all[p]) == links[p]
    {
      assert Rewired(all, gone, c, links, links[c].next, links[c].prev, p) == links[p];
    }
  }

  /** One half of `unlift`. */
  method Relink<I, O>(n: Node<I, O>, ghost all: seq<Node<I, O>>, ghost gone: set<nat>, ghost c: nat)
    requires Linked(all, gone + {c}) && Inside(all, gone, c) && n == all[c]
    requires LinkedAt(all, gone, c)
    modifies all`next, all`prev
    ensures Linked(all, gone)
    ensures SameOn(gone, AllLinks(all), old(AllLinks(all)))
  {
    hide NextIndex, PrevIndex;
    NeighboursAreInside(all, gone, c);
    ghost var b := PrevIndex(gone, c);
    ghost var links := AllLinks(all);
    SnapshotFits(all, gone + {c});
    assert links[c] == LinksOf(n);
    n.prev.next := n;
    if n.next != null {
      n.next.prev := n;
    }
    forall p | 0 <= p < |all|
      ensures LinksOf(all[p]) == Rewired(all, gone, c, links, n, n, p)
    {
      assert links[p] == old(LinksOf(all[p]));
      assert p != b ==> all[p] != all[b];
    }
    RelinkedIsLinked(all, gone, c, links);
  }

  lemma RelinkedIsLinked<I, O>(all: seq<Node<I, O>>, gone: set<nat>, c: nat, links: seq<Links<I, O>>)
    requires Linearizability.Distinct(all) && Inside(all, gone, c) && LinksFit(all, gone + {c}, links)
    requires links[c] == LinksAt(all, gone, c)
    requires RewiredHeap(all, gone, c, links, all[c], all[c])
    ensures Linked(all, gone)
    ensures forall p :: 0 <= p < |all| && p in gone ==> LinksOf(all[p]) == links[p]
  {
    forall p | 0 <= p < |all| && p !in gone
      ensures LinkedAt(all, gone, p)
    {
      RewiredBack(all, gone, c, links, p);
    }
    AfterIsFirst(gone, c, |all|);
    BeforeIsLast(gone, c);
    forall p | 0 <= p < |all| && p in gone
      ensures LinksOf(all[p]) == links[p]
    {
      assert Rewired(all, gone, c, links, all[c], all[c], p) == links[p];
    }
  }

  /** Takes a call and its return out of the list. */
  method Lift<I, O>(entry: Node<I, O>, ghost all: seq<Node<I, O>>, ghost gone: set<nat>, ghost c: nat, ghost r: nat)
    requires Linked(all, gone) && Inside(all, gone, c) && Inside(all, gone, r) && c < r
    requires entry == all[c] && entry.match_ == all[r]
    modifies all`next, all`prev
    ensures Linked(all, gone + {c} + {r})
    ensures Restorable(all, AllLinks(all), gone, c, r)
    ensures SameOn(gone, AllLinks(all), old(AllLinks(all)))
  {
    Unlink(entry, all, gone, c);
    Unlink(entry.match_, all, gone + {c}, r);
  }

  /** Puts the operation lifted last back where it was. */
  method Unlift<I, O>(entry: Node<I, O>, ghost all: seq<Node<I, O>>, ghost gone: set<nat>, ghost c: nat, ghost r: nat)
    requires Linked(all, gone + {c} + {r}) && Inside(all, gone, c) && Inside(all, gone, r) && c < r
    requires entry == all[c] && entry.match_ == all[r]
    requires Restorable(all, AllLinks(all), gone, c, r)
    modifies all`next, all`prev
    ensures Linked(all, gone)
    ensures SameOn(gone, AllLinks(all), old(AllLinks(all)))
  {
    Relink(entry.match_, all, gone + {c}, r);
    Relink(entry, all, gone, c);
  }

  // ---------------------------------------------------------------------
  // Building the list

  ghost function ChainLinks<I, O>(nodes: seq<Node<I, O>>, p: nat): Links<I, O>
    requires p < |nodes|
  {
    Links(NodeAt(nodes, p + 1), if p == 0 then null else nodes[p - 1])
  }

  ghost predicate ChainedAt<I, O>(nodes: seq<Node<I, O>>, p: nat)
    requires p < |nodes|
    reads nodes[p]
  {
    LinksOf(nodes[p]) == ChainLinks(nodes, p)
  }

  /** A list from which nothing has been taken yet. */
  ghost predicate Chain<I, O>(nodes: seq<Node<I, O>>)
    reads nodes
  {
    Linearizability.Distinct(nodes) && forall p :: 0 <= p < |nodes| ==> ChainedAt(nodes, p)
  }

  lemma ChainIsLinked<I, O>(all: seq<Node<I, O>>)
    requires Chain(all) && all != []
    ensures Linked(all, {})
  {
    forall p | 0 <= p < |all|
      ensures LinkedAt(all, {}, p)
    {
      assert ChainedAt(all, p);
      AfterIsFirst({}, p, |all|);
    }
  }

  function PrevOf<I, O>(mark: Node?<I, O>): Node?<I, O>
    reads mark
  {
    if mark == null then null else mark.prev
  }

  /** Splices `n` into the list that `mark` is part of, right before it. */
  method InsertBefore<I, O>(n: Node<I, O>, mark: Node?<I, O>) returns (inserted: Node<I, O>)
    requires mark != null ==> n != mark && n != mark.prev && mark.prev != mark
    modifies n, mark, PrevOf(mark)
    ensures inserted == n
    ensures mark == null ==> LinksOf(n) == old(LinksOf(n))
    ensures mark != null ==> LinksOf(mark) == old(LinksOf(mark)).(prev := n)
    ensures mark != null && old(mark.prev) == null ==> LinksOf(n) == old(LinksOf(n)).(next := mark)
    ensures mark != null && old(mark.prev) != null ==>
              LinksOf(n) == Links(mark, old(mark.prev))
              && LinksOf(old(mark.prev)) == old(LinksOf(mark.prev)).(next := n)
  {
    if mark != null {
      var beforeMark := mark.prev;
      mark.prev := n;
      n.next := mark;
      if beforeMark != null {
        n.prev := beforeMark;
        beforeMark.next := n;
      }
    }
    inserted := n;
  }

  /** Inserting before the first node of a chain makes a chain that is longer by one. */
  method Prepend<I, O>(n: Node<I, O>, root: Node?<I, O>, ghost nodes: seq<Node<I, O>>) returns (inserted: Node<I, O>)
    requires Chain(nodes) && n !in nodes && LinksOf(n) == Links(null, null)
    requires root == NodeAt(nodes, 0)
    modifies n, nodes
    ensures inserted == n
    ensures Chain([n] + nodes)
  {
    hide ChainLinks;
    ghost var links := AllLinks(nodes);
    assert forall p {:trigger links[p]} :: 0 <= p < |nodes| ==> links[p] == ChainLinks(nodes, p) by {
      assert forall p {:trigger links[p]} :: 0 <= p < |nodes| ==> ChainedAt(nodes, p) && links[p] == LinksOf(nodes[p]);
    }
    FirstHasNoPrev(nodes);
    inserted := InsertBefore(n, root);
    assert forall p {:trigger links[p]} :: 0 <= p < |nodes| ==>
      LinksOf(nodes[p]) == if p == 0 then links[p].(prev := n) else links[p];
    PrependedIsChain(n, nodes, links);
  }

  lemma FirstHasNoPrev<I, O>(nodes: seq<Node<I, O>>)
    requires Chain(nodes)
    ensures nodes != [] ==> nodes[0].prev == null
  {
    assert nodes != [] ==> ChainedAt(nodes, 0);
  }

  lemma PrependedIsChain<I, O>(n: Node<I, O>, nodes: seq<Node<I, O>>, links: seq<Links<I, O>>)
    requires Linearizability.Distinct(nodes) && n !in nodes && |links| == |nodes|
    requires forall p {:trigger links[p]} :: 0 <= p < |nodes| ==> links[p] == ChainLinks(nodes, p)
    requires forall p {:trigger links[p]} :: 0 <= p < |nodes| ==>
               LinksOf(nodes[p]) == if p == 0 then links[p].(prev := n) else links[p]
    requires LinksOf(n) == Links(NodeAt(nodes, 0), null)
    ensures Chain([n] + nodes)
  {
    var after := [n] + nodes;
    forall p | 0 <= p < |after|
      ensures ChainedAt(after, p)
    {
      if p > 0 {
        assert after[p] == nodes[p - 1] && links[p - 1] == ChainLinks(nodes, p - 1);
      }
    }
  }

  /** The node made for the entry at `q`: its id and value, and for a call the node of its return. */
  ghost predicate NodeFor<I, O>(h: seq<Entry<I, O>>, nodes: seq<Node<I, O>>, p: nat, q: nat)
    requires p <= q < |h| && |nodes| == |h| - p
  {
    var n := nodes[q - p];
    && n.id == h[q].id
    && n.value == (if h[q].Call? then Input(h[q].input) else Output(h[q].output))
    && n.match_ == if h[q].Call? then NodeAt(nodes, FirstReturn(h, h[q].id, q) - p) else null
  }

  /** `table` knows the return of every id among the entries from `p` on. */
  ghost predicate KnowsReturns<I, O>(h: seq<Entry<I, O>>, nodes: seq<Node<I, O>>, p: nat, table: map<int, Node<I, O>>)
    requires p <= |h| && |nodes| == |h| - p
  {
    forall id :: Lookup(table, id) == NodeAt(nodes, FirstReturn(h, id, p) - p)
  }

  function Lookup<I, O>(table: map<int, Node<I, O>>, id: int): Node?<I, O> {
    if id in table then table[id] else null
  }

  lemma NodesWithOneMore<I, O>(
    h: seq<Entry<I, O>>, n: Node<I, O>, nodes: seq<Node<I, O>>, p: nat, from: nat, table: map<int, Node<I, O>>,
    table': map<int, Node<I, O>>)
    requires p < |h| && from == p + 1 && |nodes| == |h| - from
    requires KnowsReturns(h, nodes, from, table)
    requires forall q :: from <= q < |h| ==> NodeFor(h, nodes, from, q)
    requires n.id == h[p].id
    requires h[p].Call? ==> n.value == Input(h[p].input) && n.match_ == Lookup(table, h[p].id) && table' == table
    requires h[p].Return? ==> n.value == Output(h[p].output) && n.match_ == null && table' == table[h[p].id := n]
    ensures KnowsReturns(h, [n] + nodes, p, table')
    ensures forall q :: p <= q < |h| ==> NodeFor(h, [n] + nodes, p, q)
  {
    forall id
      ensures Lookup(table', id) == NodeAt([n] + nodes, FirstReturn(h, id, p) - p)
    {
      assert Lookup(table, id) == NodeAt(nodes, FirstReturn(h, id, from) - from);
    }
    NodesShifted(h, n, nodes, p, from, table);
  }

  lemma NodesShifted<I, O>(
    h: seq<Entry<I, O>>, n: Node<I, O>, nodes: seq<Node<I, O>>, p: nat, from: nat, table: map<int, Node<I, O>>)
    requires p < |h| && from == p + 1 && |nodes| == |h| - from
    requires KnowsReturns(h, nodes, from, table)
    requires forall q :: from <= q < |h| ==> NodeFor(h, nodes, from, q)
    requires n.id == h[p].id
    requires h[p].Call? ==> n.value == Input(h[p].input) && n.match_ == Lookup(table, h[p].id)
    requires h[p].Return? ==> n.value == Output(h[p].output) && n.match_ == null
    ensures forall q :: p <= q < |h| ==> NodeFor(h, [n] + nodes, p, q)
  {
    forall q | p <= q < |h|
      ensures NodeFor(h, [n] + nodes, p, q)
    {
      if q > p {
        assert NodeFor(h, nodes, from, q);
      } else {
        assert Lookup(table, h[p].id) == NodeAt(nodes, FirstReturn(h, h[p].id, from) - from);
      }
    }
  }

  method MakeLinkedEntries<I, O>(entries: seq<Entry<I, O>>) returns (root: Node?<I, O>, ghost nodes: seq<Node<I, O>>)
    ensures |nodes| == |entries| && root == NodeAt(nodes, 0)
    ensures Chain(nodes)
    ensures forall p :: 0 <= p < |nodes| ==> fresh(nodes[p])
    ensures forall q :: 0 <= q < |entries| ==> NodeFor(entries, nodes, 0, q)
  {
    root, nodes := null, [];
    var match_: map<int, Node<I, O>> := map[];
    for i := |entries| downto 0
      invariant |nodes| == |entries| - i && root == NodeAt(nodes, 0)
      invariant Chain(nodes)
      invariant forall p :: 0 <= p < |nodes| ==> fresh(nodes[p])
      invariant forall q :: i <= q < |entries| ==> NodeFor(entries, nodes, i, q)
      invariant KnowsReturns(entries, nodes, i, match_)
    {
      hide NodeFor, KnowsReturns;
      var elem := entries[i];
      var entry: Node<I, O>;
      ghost var before := match_;
      if elem.Return? {
        entry := new Node(Output(elem.output), null, elem.id);
        match_ := match_[elem.id := entry];
      } else {
        entry := new Node(Input(elem.input), Lookup(match_, elem.id), elem.id);
      }
      root := Prepend(entry, root, nodes);
      NodesWithOneMore(entries, entry, nodes, i, i + 1, before, match_);
      nodes := [entry] + nodes;
    }
  }
}
