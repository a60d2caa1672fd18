/**
 From recorded operations (or events) to the entry sequence of one search, and
 why nothing is lost: the entry sequence orders a return before a call exactly
 when the recorded times do.
 */
module MakeEntries {
  import opened Linearizability
  import opened Entries
  import Sorting

  /** Earlier time first; a call before a return with the same time. */
  predicate ByTimeLess<I, O>(a: Entry<I, O>, b: Entry<I, O>) {
    if a.time != b.time then a.time < b.time else a.Call? && b.Return?
  }

  predicate NotAfter<I, O>(a: Entry<I, O>, b: Entry<I, O>) {
    !ByTimeLess(b, a)
  }

  function CallOf<I, O>(op: Operation<I, O>, id: nat): Entry<I, O> {
    Call(id, op.call, op.clientId, op.input)
  }

  function ReturnOf<I, O>(op: Operation<I, O>, id: nat): Entry<I, O> {
    Return(id, op.ret, op.clientId, op.output)
  }

  /** The entries as they are made, before sorting: operation k gives entries 2k and 2k+1. */
  ghost predicate RawEntries<I, O>(history: seq<Operation<I, O>>, raw: seq<Entry<I, O>>) {
    && |raw| == 2 * |history|
    && forall k :: 0 <= k < |history| ==>
      raw[2 * k] == CallOf(history[k], k) && raw[2 * k + 1] == ReturnOf(history[k], k)
  }

  /** What `makeEntries` may return: the raw entries in some order that is sorted by time. */
  ghost predicate EntriesFor<I(!new), O(!new)>(
    history: seq<Operation<I, O>>, entries: seq<Entry<I, O>>, source: seq<nat>) {
    && |entries| == 2 * |history| && Permutation(source, |entries|)
    && Sorting.Sorted(entries, (a, b) => NotAfter(a, b))
    && forall i :: 0 <= i < |entries| ==>
         entries[i] == if source[i] % 2 == 0 then CallOf(history[source[i] / 2], source[i] / 2)
                       else ReturnOf(history[source[i] / 2], source[i] / 2)
  }

  method Make<I(!new), O(!new)>(
    history: seq<Operation<I, O>>) returns (entries: seq<Entry<I, O>>, ghost source: seq<nat>)
    ensures EntriesFor(history, entries, source)
    ensures |entries| == 2 * |history| && forall i, j :: 0 <= i < j < |entries| ==> NotAfter(entries[i], entries[j])
  {
    var raw: seq<Entry<I, O>> := [];
    for id := 0 to |history|
      invariant RawEntries(history[..id], raw)
    {
      raw := raw + [CallOf(history[id], id)];
      raw := raw + [ReturnOf(history[id], id)];
    }
    assert history[..|history|] == history;
    entries, source := Sorting.Sort(raw, (a, b) => NotAfter(a, b));
    forall i | 0 <= i < |entries|
      ensures entries[i] == if source[i] % 2 == 0 then CallOf(history[source[i] / 2], source[i] / 2)
                            else ReturnOf(history[source[i] / 2], source[i] / 2)
    {
      var k := source[i] / 2;
      assert raw[2 * k] == CallOf(history[k], k) && raw[2 * k + 1] == ReturnOf(history[k], k);
    }
  }

  /** Where the call and the return of `id` ended up. */
  lemma PositionOf<I(!new), O(!new)>(
    history: seq<Operation<I, O>>, entries: seq<Entry<I, O>>, source: seq<nat>, id: nat) returns (c: nat, r: nat)
    requires EntriesFor(history, entries, source) && id < |history|
    ensures c < |entries| && r < |entries| && source[c] == 2 * id && source[r] == 2 * id + 1
    ensures entries[c] == CallOf(history[id], id) && entries[r] == ReturnOf(history[id], id)
  {
    PermutationCovers(source, |entries|);
    assert 2 * id in source && 2 * id + 1 in source;
    c :| 0 <= c < |source| && source[c] == 2 * id;
    r :| 0 <= r < |source| && source[r] == 2 * id + 1;
  }

  lemma SortedPair<I(!new), O(!new)>(entries: seq<Entry<I, O>>, i: nat, j: nat)
    requires Sorting.Sorted(entries, (a, b) => NotAfter(a, b)) && i < j < |entries|
    ensures !ByTimeLess(entries[j], entries[i])
  {
  }

  /** Every sorted order of the raw entries is a well-formed entry sequence. */
  lemma EntriesAreWellFormed<I(!new), O(!new)>(
    history: seq<Operation<I, O>>, entries: seq<Entry<I, O>>, source: seq<nat>)
    requires EntriesFor(history, entries, source) && WellTimed(history)
    ensures WellFormed(entries)
  {
    forall p, q | 0 <= p < q < |entries| && entries[p].id == entries[q].id
      ensures entries[p].Call? && entries[q].Return?
    {
      assert source[p] != source[q];
      SortedPair(entries, p, q);
    }
    forall id | 0 <= id < |entries| / 2
      ensures HasBoth(entries, id)
    {
      var c, r := PositionOf(history, entries, source, id);
      FirstSkipsOthers(entries, id, 0);
    }
  }

  /** The operations read off the entries: the recorded inputs and outputs, with positions for times. */
  lemma SameOperations<I(!new), O(!new)>(
    history: seq<Operation<I, O>>, entries: seq<Entry<I, O>>, source: seq<nat>, id: nat)
    requires EntriesFor(history, entries, source) && WellFormed(entries) && id < |history|
    ensures |OpsOf(entries)| == |history|
    ensures var op := OpsOf(entries)[id];
            && op.input == history[id].input && op.output == history[id].output
            && 0 <= op.call < |entries| && 0 <= op.ret < |entries|
            && entries[op.call] == CallOf(history[id], id) && entries[op.ret] == ReturnOf(history[id], id)
  {
    OpsOfFacts(entries);
    var c, r := PositionOf(history, entries, source, id);
    assert entries[c].Call? && entries[c].id == id && entries[r].Return? && entries[r].id == id;
  }

  /** One operation returned before another was called, by position, exactly when it did so by time. */
  lemma SameRealTimeOrder<I(!new), O(!new)>(
    history: seq<Operation<I, O>>, entries: seq<Entry<I, O>>, source: seq<nat>, a: nat, b: nat)
    requires EntriesFor(history, entries, source) && WellFormed(entries) && a < |history| && b < |history|
    ensures |OpsOf(entries)| == |history|
    ensures OpsOf(entries)[a].ret < OpsOf(entries)[b].call <==> history[a].ret < history[b].call
  {
    SameOperations(history, entries, source, a);
    SameOperations(history, entries, source, b);
    var r, c := OpsOf(entries)[a].ret, OpsOf(entries)[b].call;
    hide WellFormed, EntriesFor, OpsOf;
    if r < c {
      SortedPairOf(history, entries, source, r, c);
    } else {
      SortedPairOf(history, entries, source, c, r);
    }
  }

  lemma SortedPairOf<I(!new), O(!new)>(
    history: seq<Operation<I, O>>, entries: seq<Entry<I, O>>, source: seq<nat>, i: nat, j: nat)
    requires EntriesFor(history, entries, source) && i <= j < |entries|
    ensures i < j ==> !ByTimeLess(entries[j], entries[i])
  {
  }

  /** Searching the entries answers for the recorded history: a linearization of one is one of the other. */
  lemma EntriesAreFaithful<S, I(!new), O(!new)>(
    m: Model<S, I, O>, history: seq<Operation<I, O>>, entries: seq<Entry<I, O>>, source: seq<nat>)
    requires EntriesFor(history, entries, source) && WellTimed(history)
    ensures WellFormed(entries)
    ensures Linearizable(m, OpsOf(entries)) <==> Linearizable(m, history)
  {
    EntriesAreWellFormed(history, entries, source);
    var ops := OpsOf(entries);
    hide WellFormed, EntriesFor, OpsOf, Linearizable;
    forall i | 0 <= i < |history|
      ensures |ops| == |history| && ops[i].input == history[i].input && ops[i].output == history[i].output
    {
      SameOperations(history, entries, source, i);
    }
    assert |ops| == |history| by {
      LengthsAgree(history, entries, source);
    }
    forall i, j | 0 <= i < |history| && 0 <= j < |history|
      ensures ops[i].call <= ops[j].ret <==> history[i].call <= history[j].ret
    {
      SameRealTimeOrder(history, entries, source, j, i);
    }
    SameLinearizability(m, ops, history);
  }

  lemma LengthsAgree<I(!new), O(!new)>(history: seq<Operation<I, O>>, entries: seq<Entry<I, O>>, source: seq<nat>)
    requires EntriesFor(history, entries, source) && WellFormed(entries)
    ensures |OpsOf(entries)| == |history|
  {
  }
}
