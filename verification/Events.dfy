/**
 Histories given as events: `renumber` makes their ids dense and
 `convertEntries` turns them into the entry sequence of one search.
 */
module Events {
  import opened FiniteSets
  import opened Linearizability
  import opened Entries

  datatype Event<+I, +O> =
    | CallEvent(clientId: int, input: I, id: int)
    | ReturnEvent(clientId: int, output: O, id: int)

  /** What callers owe: every id has one call event and, later, one return event. */
  ghost predicate Paired<I, O>(events: seq<Event<I, O>>) {
    && (forall p, q :: 0 <= p < q < |events| && events[p].id == events[q].id ==>
          events[p].CallEvent? && events[q].ReturnEvent?)
    && (forall p :: 0 <= p < |events| ==> HasPartner(events, p))
  }

  ghost predicate HasPartner<I, O>(events: seq<Event<I, O>>, p: nat)
    requires p < |events|
  {
    exists q :: 0 <= q < |events| && q != p && events[q].id == events[p].id
  }

  /** `e` is `events` with other ids: the same two events share an id, and nothing else changes. */
  ghost predicate Renamed<I, O>(events: seq<Event<I, O>>, e: seq<Event<I, O>>) {
    && |e| == |events|
    && (forall p :: 0 <= p < |e| ==> e[p] == events[p].(id := e[p].id))
    && (forall p, q :: 0 <= p < |e| && 0 <= q < |e| ==> (e[p].id == e[q].id <==> events[p].id == events[q].id))
  }

  /** The ids in use are exactly 0, ..., n - 1. */
  ghost predicate Dense<I, O>(e: seq<Event<I, O>>, n: nat) {
    && (forall p :: 0 <= p < |e| ==> 0 <= e[p].id < n)
    && (forall id :: 0 <= id < n ==> UsesId(e, id))
  }

  ghost predicate UsesId<I, O>(e: seq<Event<I, O>>, id: int) {
    exists p :: 0 <= p < |e| && e[p].id == id
  }

  /** `m` holds the new id of every old id seen so far. */
  ghost predicate Numbering<I, O>(events: seq<Event<I, O>>, e: seq<Event<I, O>>, m: map<int, int>, n: nat) {
    && |e| <= |events|
    && (forall p :: 0 <= p < |e| ==> events[p].id in m && e[p] == events[p].(id := m[events[p].id]))
    && (forall x :: x in m ==> 0 <= m[x] < n)
    && (forall x, y :: x in m && y in m && m[x] == m[y] ==> x == y)
    && (forall id :: 0 <= id < n ==> UsesId(e, id))
  }

  lemma UsesIdExtend<I, O>(e: seq<Event<I, O>>, x: Event<I, O>, id: int)
    ensures UsesId(e + [x], id) <==> UsesId(e, id) || x.id == id
  {
    var next := e + [x];
    if UsesId(e, id) {
      var p :| 0 <= p < |e| && e[p].id == id;
      assert next[p].id == id;
    }
    assert next[|e|] == x;
  }

  method Renumber<I, O>(events: seq<Event<I, O>>) returns (e: seq<Event<I, O>>, ghost n: nat)
    ensures Renamed(events, e) && Dense(e, n)
  {
    e := [];
    var m: map<int, int> := map[];
    var id := 0;
    for i := 0 to |events|
      invariant |e| == i && id >= 0 && Numbering(events, e, m, id)
    {
      var v := events[i];
      ghost var before := e;
      if v.id in m {
        e := e + [v.(id := m[v.id])];
      } else {
        e := e + [v.(id := id)];
        m := m[v.id := id];
        id := id + 1;
      }
      forall k | 0 <= k < id
        ensures UsesId(e, k)
      {
        UsesIdExtend(before, e[i], k);
      }
    }
    n := id;
  }

  method ConvertEntries<I, O>(events: seq<Event<I, O>>) returns (entries: seq<Entry<I, O>>)
    ensures Converted(events, entries)
  {
    entries := [];
    for i := 0 to |events|
      invariant Converted(events[..i], entries)
    {
      entries := entries + [EntryOf(events[i], i)];
    }
    assert events[..|events|] == events;
  }

  function EntryOf<I, O>(v: Event<I, O>, i: int): Entry<I, O> {
    match v
    case CallEvent(clientId, input, id) => Call(id, i, clientId, input)
    case ReturnEvent(clientId, output, id) => Return(id, i, clientId, output)
  }

  ghost predicate Converted<I, O>(events: seq<Event<I, O>>, entries: seq<Entry<I, O>>) {
    |entries| == |events| && forall i :: 0 <= i < |events| ==> entries[i] == EntryOf(events[i], i)
  }

  /** A number for each (id, call or return) pair. */
  ghost function Code<I, O>(x: Event<I, O>): int {
    2 * x.id + if x.CallEvent? then 0 else 1
  }

  ghost function Codes<I, O>(e: seq<Event<I, O>>, n: nat): (codes: seq<nat>)
    requires Dense(e, n)
    ensures |codes| == |e| && forall p :: 0 <= p < |e| ==> codes[p] == Code(e[p]) < 2 * n
  {
    seq(|e|, p requires 0 <= p < |e| => Code(e[p]))
  }

  /** Dense and paired: `n` ids mean exactly `2 * n` events. */
  lemma TwoPerId<I, O>(e: seq<Event<I, O>>, n: nat)
    requires Paired(e) && Dense(e, n)
    ensures |e| == 2 * n
  {
    var codes := Codes(e, n);
    forall p, q | 0 <= p < q < |e|
      ensures codes[p] != codes[q]
    {
      if e[p].id == e[q].id {
        assert e[p].CallEvent? && e[q].ReturnEvent?;
      }
    }
    forall c | 0 <= c < 2 * n
      ensures c in codes
    {
      CodeOccurs(e, n, c);
    }
    DistinctCardinality(codes);
    RangeCardinality(2 * n);
    assert Ids(codes) == Range(2 * n);
  }

  lemma CodeOccurs<I, O>(e: seq<Event<I, O>>, n: nat, c: nat)
    requires Paired(e) && Dense(e, n) && c < 2 * n
    ensures c in Codes(e, n)
  {
    var id := c / 2;
    assert UsesId(e, id);
    var p :| 0 <= p < |e| && e[p].id == id;
    assert HasPartner(e, p);
    var q :| 0 <= q < |e| && q != p && e[q].id == e[p].id;
    assert Codes(e, n)[p] == Code(e[p]) && Codes(e, n)[q] == Code(e[q]);
  }

  lemma RenamedIsPaired<I, O>(events: seq<Event<I, O>>, e: seq<Event<I, O>>)
    requires Paired(events) && Renamed(events, e)
    ensures Paired(e)
  {
    forall p | 0 <= p < |e|
      ensures HasPartner(e, p)
    {
      assert HasPartner(events, p);
      var q :| 0 <= q < |events| && q != p && events[q].id == events[p].id;
      assert e[q].id == e[p].id;
    }
  }

  /** Events that callers paired become an entry sequence the search accepts. */
  lemma EventsAreWellFormed<I, O>(events: seq<Event<I, O>>, e: seq<Event<I, O>>, n: nat, entries: seq<Entry<I, O>>)
    requires Paired(events) && Renamed(events, e) && Dense(e, n) && Converted(e, entries)
    ensures WellFormed(entries) && |entries| == 2 * n
  {
    RenamedIsPaired(events, e);
    TwoPerId(e, n);
    forall id | 0 <= id < n
      ensures HasBoth(entries, id)
    {
      BothOccur(e, n, entries, id);
    }
    hide HasBoth, HasPartner, UsesId;
  }

  lemma BothOccur<I, O>(e: seq<Event<I, O>>, n: nat, entries: seq<Entry<I, O>>, id: nat)
    requires Paired(e) && Dense(e, n) && Converted(e, entries) && id < n
    ensures HasBoth(entries, id)
  {
    CodeOccurs(e, n, 2 * id);
    CodeOccurs(e, n, 2 * id + 1);
    var p :| 0 <= p < |e| && Codes(e, n)[p] == 2 * id;
    var q :| 0 <= q < |e| && Codes(e, n)[q] == 2 * id + 1;
    assert entries[p].Call? && entries[p].id == id && entries[q].Return? && entries[q].id == id;
    FirstSkipsOthers(entries, id, 0);
  }

  /** The operations searched are the recorded ones: each pairs a call event with the return event of the same id. */
  lemma OperationsOfEvents<I, O>(
    events: seq<Event<I, O>>, e: seq<Event<I, O>>, n: nat, entries: seq<Entry<I, O>>, p: nat, q: nat)
    requires Paired(events) && Renamed(events, e) && Dense(e, n) && Converted(e, entries) && WellFormed(entries)
    requires p < q < |events| && events[p].id == events[q].id
    ensures var id := e[p].id;
            && 0 <= id < |OpsOf(entries)| && events[p].CallEvent? && events[q].ReturnEvent?
            && OpsOf(entries)[id] == Operation(events[p].clientId, events[p].input, p, events[q].output, q)
  {
    OpsOfFacts(entries);
    assert entries[p].Call? && entries[q].Return? && entries[p].id == entries[q].id == e[p].id;
    assert OpsOf(entries)[e[p].id] == OpAt(entries, e[p].id);
  }
}
