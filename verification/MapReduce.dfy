/**
 The work of MapReduce tasks: a map task groups its pairs by key and spreads
 the groups over partitions by a hash, a reduce task gathers one partition of
 all map tasks.  Whatever the number of partitions and however often map tasks
 are repeated, the reduce outputs together are what the sequential program prints.
 */
module MapReduce {
  import opened Linearizability
  import Sorting
  import StringKeys

  datatype KeyValue = KeyValue(key: string, value: string)
  datatype Intermediate = Intermediate(key: string, values: seq<string>)

  type Mapper = (string, string) -> seq<KeyValue>
  type Reducer = (string, seq<string>) -> string
  type Line = (string, string)

  /** The values paired with `k`, in order. */
  function ValuesOf(kva: seq<KeyValue>, k: string): (r: seq<string>) {
    if kva == [] then []
    else
      var last := kva[|kva| - 1];
      ValuesOf(kva[..|kva| - 1], k) + if last.key == k then [last.value] else []
  }

  predicate HasKey(kva: seq<KeyValue>, k: string) {
    exists i :: 0 <= i < |kva| && kva[i].key == k
  }

  lemma ValuesOfExtend(kva: seq<KeyValue>, kv: KeyValue, k: string)
    ensures ValuesOf(kva + [kv], k) == ValuesOf(kva, k) + if kv.key == k then [kv.value] else []
    ensures HasKey(kva + [kv], k) <==> HasKey(kva, k) || kv.key == k
  {
    var longer := kva + [kv];
    assert longer[..|kva|] == kva;
    if HasKey(kva, k) {
      var i :| 0 <= i < |kva| && kva[i].key == k;
      assert longer[i].key == k;
    }
    assert longer[|kva|] == kv;
  }

  lemma {:induction false} ValuesOfConcat(a: seq<KeyValue>, b: seq<KeyValue>, k: string)
    ensures ValuesOf(a + b, k) == ValuesOf(a, k) + ValuesOf(b, k)
  {
    if b == [] {
      assert a + b == a;
    } else {
      hide *;
      var front, last := b[..|b| - 1], b[|b| - 1];
      ValuesOfConcat(a, front, k);
      ValuesOfExtend(a + front, last, k);
      ValuesOfExtend(front, last, k);
      var tail := if last.key == k then [last.value] else [];
      assert b == front + [last];
      assert a + b == (a + front) + [last];
      assert (ValuesOf(a, k) + ValuesOf(front, k)) + tail == ValuesOf(a, k) + (ValuesOf(front, k) + tail);
    }
  }

  /** How often a value is paired with `k` depends only on the pairs, not on their order. */
  lemma {:induction false} ValuesOfCounts(kva: seq<KeyValue>, k: string, v: string)
    ensures multiset(ValuesOf(kva, k))[v] == multiset(kva)[KeyValue(k, v)]
  {
    if kva != [] {
      hide *;
      var front, last := kva[..|kva| - 1], kva[|kva| - 1];
      ValuesOfCounts(front, k, v);
      ValuesOfExtend(front, last, k);
      assert kva == front + [last];
    }
  }

  lemma SameValues(a: seq<KeyValue>, b: seq<KeyValue>, k: string)
    requires multiset(a) == multiset(b)
    ensures multiset(ValuesOf(a, k)) == multiset(ValuesOf(b, k))
  {
    forall v
      ensures multiset(ValuesOf(a, k))[v] == multiset(ValuesOf(b, k))[v]
    {
      ValuesOfCounts(a, k, v);
      ValuesOfCounts(b, k, v);
    }
  }

  lemma SameKeys(a: seq<KeyValue>, b: seq<KeyValue>, k: string)
    requires multiset(a) == multiset(b) && HasKey(a, k)
    ensures HasKey(b, k)
  {
    var i :| 0 <= i < |a| && a[i].key == k;
    assert a[i] in multiset(a);
    assert a[i] in b;
  }

  /** A reduce function that does not look at the order of its values. */
  ghost predicate OrderInsensitive(reducef: Reducer) {
    forall k, a, b :: multiset(a) == multiset(b) ==> reducef(k, a) == reducef(k, b)
  }

  // ---------------------------------------------------------------------
  // Map tasks

  method GroupValues(kva: seq<KeyValue>) returns (m: map<string, seq<string>>)
    ensures forall k :: k in m <==> HasKey(kva, k)
    ensures forall k :: k in m ==> m[k] == ValuesOf(kva, k)
  {
    m := map[];
    for i := 0 to |kva|
      invariant forall k :: Grouped(kva[..i], m, k)
    {
      var kv := kva[i];
      ghost var (before, next) := (m, kva[..i + 1]);
      m := m[kv.key := (if kv.key in m then m[kv.key] else []) + [kv.value]];
      assert next == kva[..i] + [kv];
      forall k
        ensures Grouped(next, m, k)
      {
        assert Grouped(kva[..i], before, k);
        ValuesOfExtend(kva[..i], kv, k);
        NoKeyNoValues(kva[..i], k);
      }
    }
    assert kva[..|kva|] == kva;
    forall k
      ensures (k in m <==> HasKey(kva, k)) && (k in m ==> m[k] == ValuesOf(kva, k))
    {
      assert Grouped(kva, m, k);
    }
  }

  ghost predicate Grouped(kva: seq<KeyValue>, m: map<string, seq<string>>, k: string) {
    (k in m <==> HasKey(kva, k)) && (k in m ==> m[k] == ValuesOf(kva, k))
  }

  lemma {:induction false} NoKeyNoValues(kva: seq<KeyValue>, k: string)
    ensures HasKey(kva, k) <==> ValuesOf(kva, k) != []
  {
    if kva != [] {
      var front, last := kva[..|kva| - 1], kva[|kva| - 1];
      NoKeyNoValues(front, k);
      ValuesOfExtend(front, last, k);
      assert kva == front + [last];
    }
  }

  /** A file of partition `r`: each key of that partition once, with all its values of this task. */
  ghost predicate PartOk(part: seq<Intermediate>, kva: seq<KeyValue>, hash: string -> nat, n: nat, r: nat)
    requires n > 0
  {
    && (forall i :: 0 <= i < |part| ==> part[i].values == ValuesOf(kva, part[i].key))
    && (forall i, j :: 0 <= i < j < |part| ==> part[i].key != part[j].key)
    && (forall k :: HoldsKey(part, k) <==> HasKey(kva, k) && hash(k) % n == r)
  }

  predicate HoldsKey(part: seq<Intermediate>, k: string) {
    exists i :: 0 <= i < |part| && part[i].key == k
  }

  lemma HoldsKeyExtend(part: seq<Intermediate>, e: Intermediate, k: string)
    ensures HoldsKey(part + [e], k) <==> HoldsKey(part, k) || e.key == k
  {
    var longer := part + [e];
    if HoldsKey(part, k) {
      var i :| 0 <= i < |part| && part[i].key == k;
      assert longer[i].key == k;
    }
    assert longer[|part|] == e;
  }

  /** The first `m` keys have been written to their partitions. */
  ghost predicate Written(
    parts: seq<seq<Intermediate>>, keys: seq<string>, m: nat, kva: seq<KeyValue>, hash: string -> nat, r: nat)
    requires r < |parts| && m <= |keys|
  {
    && (forall i :: 0 <= i < |parts[r]| ==> parts[r][i].values == ValuesOf(kva, parts[r][i].key))
    && (forall i, j :: 0 <= i < j < |parts[r]| ==> parts[r][i].key != parts[r][j].key)
    && (forall k :: HoldsKey(parts[r], k) <==> k in keys[..m] && hash(k) % |parts| == r)
  }

  method DoMapTask(mapf: Mapper, fileName: string, content: string, nReduce: nat, hash: string -> nat)
    returns (parts: seq<seq<Intermediate>>)
    requires nReduce > 0
    ensures |parts| == nReduce && forall r :: 0 <= r < nReduce ==>
            PartOk(parts[r], mapf(fileName, content), hash, nReduce, r)
  {
    var kva := mapf(fileName, content);
    parts := seq(nReduce, _ => []);
    var finalStorage := GroupValues(kva);
    var keys := StringKeys.SortedKeys(finalStorage);
    for i := 0 to |keys|
      invariant |parts| == nReduce && forall r :: 0 <= r < nReduce ==> Written(parts, keys, i, kva, hash, r)
    {
      var k := keys[i];
      var index := hash(k) % nReduce;
      ghost var (before, next) := (parts, i + 1);
      parts := parts[index := parts[index] + [Intermediate(k, finalStorage[k])]];
      forall r | 0 <= r < nReduce
        ensures Written(parts, keys, next, kva, hash, r)
      {
        WriteStep(before, parts, keys, i, kva, hash, r);
      }
    }
    assert keys[..|keys|] == keys;
    forall r | 0 <= r < nReduce
      ensures PartOk(parts[r], kva, hash, nReduce, r)
    {
      assert Written(parts, keys, |keys|, kva, hash, r);
    }
  }

  lemma WriteStep(
    before: seq<seq<Intermediate>>, after: seq<seq<Intermediate>>, keys: seq<string>, m: nat, kva: seq<KeyValue>,
    hash: string -> nat, r: nat)
    requires r < |before| == |after| && m < |keys| && Distinct(keys) && Written(before, keys, m, kva, hash, r)
    requires after == before[hash(keys[m]) % |before| :=
             before[hash(keys[m]) % |before|] + [Intermediate(keys[m], ValuesOf(kva, keys[m]))]]
    ensures Written(after, keys, m + 1, kva, hash, r)
  {
    var (key, e) := (keys[m], Intermediate(keys[m], ValuesOf(kva, keys[m])));
    assert keys[..m + 1] == keys[..m] + [key];
    assert key !in keys[..m];
    assert !HoldsKey(before[r], key);
    forall k
      ensures HoldsKey(after[r], k) <==> k in keys[..m + 1] && hash(k) % |after| == r
    {
      HoldsKeyExtend(before[r], e, k);
    }
  }

  // ---------------------------------------------------------------------
  // Reduce tasks

  function Collected(part: seq<Intermediate>, k: string): (r: seq<string>) {
    if part == [] then []
    else
      var last := part[|part| - 1];
      Collected(part[..|part| - 1], k) + if last.key == k then last.values else []
  }

  /** The values of `k` in the files of one partition, in the order the files are listed. */
  function CollectedAll(inputs: seq<seq<Intermediate>>, k: string): (r: seq<string>) {
    if inputs == [] then [] else CollectedAll(inputs[..|inputs| - 1], k) + Collected(inputs[|inputs| - 1], k)
  }

  predicate HoldsAny(inputs: seq<seq<Intermediate>>, k: string) {
    exists m :: 0 <= m < |inputs| && HoldsKey(inputs[m], k)
  }

  /** A file being read: everything of `done` and the first `n` records of `part`. */
  ghost predicate Stored(
    storage: map<string, seq<string>>, done: seq<seq<Intermediate>>, part: seq<Intermediate>, k: string)
  {
    && (k in storage <==> HoldsAny(done, k) || HoldsKey(part, k))
    && (if k in storage then storage[k] else []) == CollectedAll(done, k) + Collected(part, k)
  }

  lemma CollectedExtend(part: seq<Intermediate>, e: Intermediate, k: string)
    ensures Collected(part + [e], k) == Collected(part, k) + if e.key == k then e.values else []
  {
    assert (part + [e])[..|part|] == part;
  }

  lemma CollectedAllExtend(done: seq<seq<Intermediate>>, part: seq<Intermediate>, k: string)
    ensures CollectedAll(done + [part], k) == CollectedAll(done, k) + Collected(part, k)
    ensures HoldsAny(done + [part], k) <==> HoldsAny(done, k) || HoldsKey(part, k)
  {
    var longer := done + [part];
    assert longer[..|done|] == done && longer[|done|] == part;
    if HoldsAny(done, k) {
      var m :| 0 <= m < |done| && HoldsKey(done[m], k);
      assert longer[m] == done[m];
    }
  }

  lemma StoreRecord(
    storage: map<string, seq<string>>, done: seq<seq<Intermediate>>, part: seq<Intermediate>, kv: Intermediate,
    k: string)
    requires Stored(storage, done, part, k)
    ensures Stored(storage[kv.key := (if kv.key in storage then storage[kv.key] else []) + kv.values], done,
            part + [kv], k)
  {
    hide Collected, CollectedAll, HoldsKey, HoldsAny;
    CollectedExtend(part, kv, k);
    HoldsKeyExtend(part, kv, k);
    assert (CollectedAll(done, k) + Collected(part, k)) + kv.values ==
      CollectedAll(done, k) + (Collected(part, k) + kv.values);
  }

  method ReadFile(storage0: map<string, seq<string>>, part: seq<Intermediate>, ghost done: seq<seq<Intermediate>>)
    returns (storage: map<string, seq<string>>)
    requires forall k :: Stored(storage0, done, [], k)
    ensures forall k :: Stored(storage, done + [part], [], k)
  {
    hide Collected, CollectedAll, HoldsKey, HoldsAny;
    storage := storage0;
    assert part[..0] == [];
    for i := 0 to |part|
      invariant forall k :: Stored(storage, done, part[..i], k)
    {
      var kv := part[i];
      ghost var (before, next) := (storage, part[..i + 1]);
      storage := storage[kv.key := (if kv.key in storage then storage[kv.key] else []) + kv.values];
      assert next == part[..i] + [kv];
      forall k
        ensures Stored(storage, done, next, k)
      {
        assert Stored(before, done, part[..i], k);
        StoreRecord(before, done, part[..i], kv, k);
      }
    }
    assert part[..|part|] == part;
    forall k
      ensures Stored(storage, done + [part], [], k)
    {
      assert Stored(storage, done, part, k);
      FileRead(storage, done, part, k);
    }
  }

  lemma FileRead(storage: map<string, seq<string>>, done: seq<seq<Intermediate>>, part: seq<Intermediate>, k: string)
    requires Stored(storage, done, part, k)
    ensures Stored(storage, done + [part], [], k)
  {
    hide CollectedAll, HoldsAny;
    CollectedAllExtend(done, part, k);
  }

  predicate HasLine(out: seq<Line>, k: string) {
    exists i :: 0 <= i < |out| && out[i].0 == k
  }

  /** One line per key, in the order of the keys. */
  ghost predicate InKeyOrder(out: seq<Line>) {
    forall i, j :: 0 <= i < j < |out| ==> out[i].0 != out[j].0 && StringKeys.StringLeq(out[i].0, out[j].0)
  }

  ghost predicate ReduceOk(out: seq<Line>, inputs: seq<seq<Intermediate>>, reducef: Reducer) {
    && InKeyOrder(out)
    && (forall k :: HasLine(out, k) <==> HoldsAny(inputs, k))
    && (forall i :: 0 <= i < |out| ==> out[i].1 == reducef(out[i].0, CollectedAll(inputs, out[i].0)))
  }

  method DoReduceTask(reducef: Reducer, inputs: seq<seq<Intermediate>>) returns (out: seq<Line>)
    ensures ReduceOk(out, inputs, reducef)
  {
    hide ReduceOk, Sorting.Sorted, Distinct;
    var finalStorage: map<string, seq<string>> := map[];
    for m := 0 to |inputs|
      invariant forall k :: Stored(finalStorage, inputs[..m], [], k)
    {
      finalStorage := ReadFile(finalStorage, inputs[m], inputs[..m]);
      assert inputs[..m + 1] == inputs[..m] + [inputs[m]];
    }
    assert inputs[..|inputs|] == inputs;
    var keys := StringKeys.SortedKeys(finalStorage);
    forall k
      ensures (k in keys <==> HoldsAny(inputs, k)) && (k in keys ==> finalStorage[k] == CollectedAll(inputs, k))
    {
      assert Stored(finalStorage, inputs, [], k);
    }
    out := [];
    for i := 0 to |keys|
      invariant |out| == i
      invariant forall j :: 0 <= j < i ==> out[j] == (keys[j], reducef(keys[j], CollectedAll(inputs, keys[j])))
    {
      out := out + [(keys[i], reducef(keys[i], finalStorage[keys[i]]))];
    }
    LinesAreReduced(keys, inputs, reducef, out);
  }

  lemma LinesAreReduced(keys: seq<string>, inputs: seq<seq<Intermediate>>, reducef: Reducer, out: seq<Line>)
    requires Distinct(keys) && Sorting.Sorted(keys, StringKeys.StringLeq)
    requires forall k :: k in keys <==> HoldsAny(inputs, k)
    requires |out| == |keys| && forall j :: 0 <= j < |out| ==>
             out[j] == (keys[j], reducef(keys[j], CollectedAll(inputs, keys[j])))
    ensures ReduceOk(out, inputs, reducef)
  {
    hide CollectedAll, HoldsAny, StringKeys.StringLeq;
    forall k
      ensures HasLine(out, k) <==> k in keys
    {
      if k in keys {
        var i :| 0 <= i < |keys| && keys[i] == k;
        assert out[i].0 == k;
      }
    }
  }

  // ---------------------------------------------------------------------
  // The sequential program

  function AllPairs(mapf: Mapper, files: seq<(string, string)>): (r: seq<KeyValue>) {
    if files == [] then []
    else AllPairs(mapf, files[..|files| - 1]) + mapf(files[|files| - 1].0, files[|files| - 1].1)
  }

  predicate ByKey(a: KeyValue, b: KeyValue) {
    StringKeys.StringLeq(a.key, b.key)
  }

  ghost predicate SequentialOk(out: seq<Line>, sorted: seq<KeyValue>, reducef: Reducer) {
    && InKeyOrder(out)
    && (forall k :: HasLine(out, k) <==> HasKey(sorted, k))
    && (forall i :: 0 <= i < |out| ==> out[i].1 == reducef(out[i].0, ValuesOf(sorted, out[i].0)))
  }

  lemma ByKeyIsTotalPreorder()
    ensures Sorting.TotalPreorder(ByKey)
  {
    StringKeys.StringLeqIsTotalPreorder();
    hide StringKeys.StringLeq;
  }

  /** Positions `i` to `j` hold all pairs of one key. */
  ghost predicate IsGroup(sorted: seq<KeyValue>, i: nat, j: nat) {
    && i < j <= |sorted| && (forall x :: i <= x < j ==> sorted[x].key == sorted[i].key)
    && (i > 0 ==> sorted[i - 1].key != sorted[i].key) && (j < |sorted| ==> sorted[j].key != sorted[i].key)
  }

  lemma KeysApart(sorted: seq<KeyValue>, x: nat, y: nat, z: nat)
    requires Sorting.Sorted(sorted, ByKey) && x <= y < z < |sorted| && sorted[x].key == sorted[z].key
    ensures sorted[y].key == sorted[z].key
  {
    if x < y {
      assert ByKey(sorted[x], sorted[y]) && ByKey(sorted[y], sorted[z]);
      StringKeys.StringLeqAntisymmetric(sorted[y].key, sorted[z].key);
    }
  }

  lemma NothingBefore(sorted: seq<KeyValue>, i: nat)
    requires Sorting.Sorted(sorted, ByKey) && i < |sorted| && (i > 0 ==> sorted[i - 1].key != sorted[i].key)
    ensures !HasKey(sorted[..i], sorted[i].key)
  {
    forall x: nat | x < i
      ensures sorted[x].key != sorted[i].key
    {
      if sorted[x].key == sorted[i].key {
        KeysApart(sorted, x, i - 1, i);
      }
    }
  }

  lemma NothingAfter(sorted: seq<KeyValue>, i: nat, j: nat)
    requires Sorting.Sorted(sorted, ByKey) && i < j <= |sorted| && (j < |sorted| ==> sorted[j].key != sorted[i].key)
    ensures !HasKey(sorted[j..], sorted[i].key)
  {
    forall x: nat | j <= x < |sorted|
      ensures sorted[x].key != sorted[i].key
    {
      if sorted[x].key == sorted[i].key && x > j {
        KeysApart(sorted, i, j, x);
      }
    }
  }

  /** The values of positions `i` to `j`. */
  function Column(kva: seq<KeyValue>, i: nat, j: nat): (r: seq<string>)
    requires i <= j <= |kva|
  {
    if i == j then [] else Column(kva, i, j - 1) + [kva[j - 1].value]
  }

  lemma {:induction false} ColumnIsValues(kva: seq<KeyValue>, i: nat, j: nat, k: string)
    requires i <= j <= |kva| && forall x :: i <= x < j ==> kva[x].key == k
    ensures ValuesOf(kva[i..j], k) == Column(kva, i, j)
  {
    if i < j {
      ColumnIsValues(kva, i, j - 1, k);
      assert kva[i..j] == kva[i..j - 1] + [kva[j - 1]];
      ValuesOfExtend(kva[i..j - 1], kva[j - 1], k);
    }
  }

  /** A group of a sorted sequence has all values of its key. */
  lemma GroupIsAll(sorted: seq<KeyValue>, i: nat, j: nat)
    requires Sorting.Sorted(sorted, ByKey) && IsGroup(sorted, i, j)
    ensures ValuesOf(sorted, sorted[i].key) == Column(sorted, i, j)
  {
    hide ValuesOf, Column, ByKey, HasKey;
    var k := sorted[i].key;
    NothingBefore(sorted, i);
    NothingAfter(sorted, i, j);
    NoKeyNoValues(sorted[..i], k);
    NoKeyNoValues(sorted[j..], k);
    ColumnIsValues(sorted, i, j, k);
    ValuesOfConcat(sorted[..i], sorted[i..j], k);
    ValuesOfConcat(sorted[..i] + sorted[i..j], sorted[j..], k);
    assert sorted == sorted[..i] + sorted[i..j] + sorted[j..];
  }

  /** The lines of the first `i` pairs, which end a group. */
  ghost predicate Scanned(out: seq<Line>, sorted: seq<KeyValue>, i: nat, reducef: Reducer)
    requires i <= |sorted|
  {
    && InKeyOrder(out)
    && (forall k :: HasLine(out, k) <==> HasKey(sorted[..i], k))
    && (forall x :: 0 <= x < |out| ==> out[x].1 == reducef(out[x].0, ValuesOf(sorted, out[x].0)))
    && (0 < i < |sorted| ==> sorted[i - 1].key != sorted[i].key)
  }

  lemma HasLineExtend(out: seq<Line>, line: Line, k: string)
    ensures HasLine(out + [line], k) <==> HasLine(out, k) || line.0 == k
  {
    var longer := out + [line];
    if HasLine(out, k) {
      var i :| 0 <= i < |out| && out[i].0 == k;
      assert longer[i].0 == k;
    }
    assert longer[|out|] == line;
  }

  lemma GroupKeys(sorted: seq<KeyValue>, i: nat, j: nat, k: string)
    requires IsGroup(sorted, i, j)
    ensures HasKey(sorted[..j], k) <==> HasKey(sorted[..i], k) || sorted[i].key == k
  {
    if HasKey(sorted[..i], k) {
      var x :| 0 <= x < i && sorted[..i][x].key == k;
      assert sorted[..j][x].key == k;
    }
    assert sorted[..j][i].key == sorted[i].key;
    if HasKey(sorted[..j], k) {
      var x :| 0 <= x < j && sorted[..j][x].key == k;
      assert x < i ==> sorted[..i][x].key == k;
    }
  }

  lemma NewLineInOrder(out: seq<Line>, sorted: seq<KeyValue>, i: nat, line: Line)
    requires Sorting.Sorted(sorted, ByKey) && i < |sorted| && line.0 == sorted[i].key
    requires InKeyOrder(out) && (forall k :: HasLine(out, k) <==> HasKey(sorted[..i], k))
    requires i > 0 ==> sorted[i - 1].key != sorted[i].key
    ensures InKeyOrder(out + [line])
  {
    NothingBefore(sorted, i);
    forall x | 0 <= x < |out|
      ensures out[x].0 != line.0 && StringKeys.StringLeq(out[x].0, line.0)
    {
      assert HasLine(out, out[x].0) && HasKey(sorted[..i], out[x].0);
      var y :| 0 <= y < i && sorted[..i][y].key == out[x].0;
      assert ByKey(sorted[y], sorted[i]);
    }
  }

  lemma ScanStep(out: seq<Line>, sorted: seq<KeyValue>, i: nat, j: nat, reducef: Reducer)
    requires Sorting.Sorted(sorted, ByKey) && IsGroup(sorted, i, j) && Scanned(out, sorted, i, reducef)
    ensures Scanned(out + [(sorted[i].key, reducef(sorted[i].key, Column(sorted, i, j)))], sorted, j, reducef)
  {
    hide Column, ValuesOf, InKeyOrder, HasLine, HasKey, Sorting.Sorted;
    var line: Line := (sorted[i].key, reducef(sorted[i].key, Column(sorted, i, j)));
    GroupIsAll(sorted, i, j);
    NewLineInOrder(out, sorted, i, line);
    forall k
      ensures HasLine(out + [line], k) <==> HasKey(sorted[..j], k)
    {
      HasLineExtend(out, line, k);
      GroupKeys(sorted, i, j, k);
    }
  }

  /** The sort-and-scan loop. */
  method ScanGroups(sorted: seq<KeyValue>, reducef: Reducer) returns (out: seq<Line>)
    requires Sorting.Sorted(sorted, ByKey)
    ensures SequentialOk(out, sorted, reducef)
  {
    hide ValuesOf, HasKey, InKeyOrder, HasLine, Sorting.Sorted;
    out := [];
    ScanStarts(sorted, reducef);
    var i := 0;
    while i < |sorted|
      invariant 0 <= i <= |sorted| && Scanned(out, sorted, i, reducef)
    {
      var j := i + 1;
      while j < |sorted| && sorted[j].key == sorted[i].key
        invariant i < j <= |sorted| && forall x :: i <= x < j ==> sorted[x].key == sorted[i].key
      {
        j := j + 1;
      }
      var values: seq<string> := [];
      for k := i to j
        invariant values == Column(sorted, i, k)
      {
        values := values + [sorted[k].value];
      }
      var output := reducef(sorted[i].key, values);
      ScanStep(out, sorted, i, j, reducef);
      out := out + [(sorted[i].key, output)];
      i := j;
    }
    assert sorted[..|sorted|] == sorted;
  }

  lemma ScanStarts(sorted: seq<KeyValue>, reducef: Reducer)
    ensures Scanned([], sorted, 0, reducef)
  {
  }

  method Sequential(mapf: Mapper, reducef: Reducer, files: seq<(string, string)>)
    returns (out: seq<Line>, ghost sorted: seq<KeyValue>)
    ensures multiset(sorted) == multiset(AllPairs(mapf, files)) && SequentialOk(out, sorted, reducef)
    ensures InKeyOrder(out) && forall k :: HasLine(out, k) <==> HasKey(AllPairs(mapf, files), k)
  {
    var intermediate: seq<KeyValue> := [];
    for i := 0 to |files|
      invariant intermediate == AllPairs(mapf, files[..i])
    {
      assert files[..i + 1][..i] == files[..i];
      intermediate := intermediate + mapf(files[i].0, files[i].1);
    }
    assert files[..|files|] == files;
    ByKeyIsTotalPreorder();
    var inOrder, source := Sorting.Sort(intermediate, ByKey);
    sorted := inOrder;
    out := ScanGroups(inOrder, reducef);
    hide HasKey, HasLine, InKeyOrder, ValuesOf, AllPairs;
    forall k
      ensures HasKey(sorted, k) <==> HasKey(intermediate, k)
    {
      if HasKey(sorted, k) {
        SameKeys(sorted, intermediate, k);
      }
      if HasKey(intermediate, k) {
        SameKeys(intermediate, sorted, k);
      }
    }
  }
}
