/** The reduce outputs of all partitions together are the output of the sequential program. */
module MapReduceEquivalence {
  import opened MapReduce

  /** The files written by map tasks: task and partition give a name, and writing again replaces. */
  type Files = map<(nat, nat), seq<Intermediate>>

  ghost predicate FileOk(
    mapf: Mapper, files: seq<(string, string)>, hash: string -> nat, n: nat, fs: Files, m: nat, r: nat)
    requires n > 0 && m < |files|
  {
    (m, r) in fs && PartOk(fs[(m, r)], mapf(files[m].0, files[m].1), hash, n, r)
  }

  /** Renames the temporary files of a task to their final names. */
  method Publish(fs0: Files, task: nat, parts: seq<seq<Intermediate>>) returns (fs: Files)
    ensures forall m, r :: (m, r) in fs <==> (m, r) in fs0 || (m == task && 0 <= r < |parts|)
    ensures forall m, r :: (m, r) in fs ==>
              fs[(m, r)] == if m == task && 0 <= r < |parts| then parts[r] else fs0[(m, r)]
  {
    fs := fs0;
    for i := 0 to |parts|
      invariant forall m, r :: (m, r) in fs <==> (m, r) in fs0 || (m == task && 0 <= r < i)
      invariant forall m, r :: (m, r) in fs ==>
                  fs[(m, r)] == if m == task && 0 <= r < i then parts[r] else fs0[(m, r)]
    {
      fs := fs[(task, i) := parts[i]];
    }
  }

  /** Map tasks executed in any order and any number of times. */
  method RunMaps(mapf: Mapper, files: seq<(string, string)>, schedule: seq<nat>, nReduce: nat, hash: string -> nat)
    returns (fs: Files)
    requires nReduce > 0 && forall i :: 0 <= i < |schedule| ==> schedule[i] < |files|
    ensures forall m: nat, r: nat :: m in schedule && m < |files| && r < nReduce ==>
            FileOk(mapf, files, hash, nReduce, fs, m, r)
  {
    fs := map[];
    for i := 0 to |schedule|
      invariant forall m: nat, r: nat :: m in schedule[..i] && m < |files| && r < nReduce ==>
                  FileOk(mapf, files, hash, nReduce, fs, m, r)
    {
      var task := schedule[i];
      var parts := DoMapTask(mapf, files[task].0, files[task].1, nReduce, hash);
      hide PartOk;
      ghost var before := fs;
      fs := Publish(fs, task, parts);
      assert schedule[..i + 1] == schedule[..i] + [task];
      forall m: nat, r: nat | m in schedule[..i + 1] && m < |files| && r < nReduce
        ensures FileOk(mapf, files, hash, nReduce, fs, m, r)
      {
        assert m in schedule[..i] ==> FileOk(mapf, files, hash, nReduce, before, m, r);
      }
    }
    assert schedule[..|schedule|] == schedule;
  }

  // ---------------------------------------------------------------------
  // One partition

  function FileAt(fs: Files, m: nat, r: nat): seq<Intermediate> {
    if (m, r) in fs then fs[(m, r)] else []
  }

  /** The files of partition `r`, by task. */
  ghost function PartitionFiles(fs: Files, tasks: nat, r: nat): (s: seq<seq<Intermediate>>) {
    if tasks == 0 then [] else PartitionFiles(fs, tasks - 1, r) + [FileAt(fs, tasks - 1, r)]
  }

  lemma {:induction false} CollectedOnce(part: seq<Intermediate>, k: string, values: seq<string>)
    requires forall i, j :: 0 <= i < j < |part| ==> part[i].key != part[j].key
    requires forall i :: 0 <= i < |part| && part[i].key == k ==> part[i].values == values
    ensures Collected(part, k) == if HoldsKey(part, k) then values else []
  {
    if part != [] {
      var front, last := part[..|part| - 1], part[|part| - 1];
      CollectedOnce(front, k, values);
      HoldsKeyExtend(front, last, k);
      assert part == front + [last];
    }
  }

  lemma FileValues(kva: seq<KeyValue>, part: seq<Intermediate>, hash: string -> nat, n: nat, r: nat, k: string)
    requires n > 0 && PartOk(part, kva, hash, n, r)
    ensures Collected(part, k) == if hash(k) % n == r then ValuesOf(kva, k) else []
  {
    CollectedOnce(part, k, ValuesOf(kva, k));
    NoKeyNoValues(kva, k);
    hide Collected, ValuesOf;
  }

  /** A partition has every value of its keys, and nothing of others. */
  lemma {:induction false} PartitionValues(
    mapf: Mapper, files: seq<(string, string)>, hash: string -> nat, n: nat, fs: Files, tasks: nat, r: nat, k: string)
    requires n > 0 && tasks <= |files| && forall m: nat :: m < tasks ==> FileOk(mapf, files, hash, n, fs, m, r)
    ensures var column := PartitionFiles(fs, tasks, r);
            && CollectedAll(column, k) == (if hash(k) % n == r then ValuesOf(AllPairs(mapf, files[..tasks]), k) else [])
            && (HoldsAny(column, k) <==> hash(k) % n == r && HasKey(AllPairs(mapf, files[..tasks]), k))
  {
    if tasks > 0 {
      var m := tasks - 1;
      PartitionValues(mapf, files, hash, n, fs, m, r, k);
      assert files[..tasks][..m] == files[..m];
      assert FileOk(mapf, files, hash, n, fs, m, r);
      var (kva, pairs) := (mapf(files[m].0, files[m].1), AllPairs(mapf, files[..m]));
      assert AllPairs(mapf, files[..tasks]) == pairs + kva;
      assert PartitionFiles(fs, tasks, r) == PartitionFiles(fs, m, r) + [fs[(m, r)]];
      hide PartOk, HasKey, ValuesOf, HoldsAny, CollectedAll, PartitionFiles, AllPairs;
      PartitionStep(PartitionFiles(fs, m, r), fs[(m, r)], pairs, kva, hash, n, r, k);
    } else {
      assert files[..tasks] == [];
    }
  }

  lemma PartitionStep(
    column: seq<seq<Intermediate>>, part: seq<Intermediate>, pairs: seq<KeyValue>, kva: seq<KeyValue>,
    hash: string -> nat, n: nat, r: nat, k: string)
    requires n > 0 && PartOk(part, kva, hash, n, r)
    requires CollectedAll(column, k) == (if hash(k) % n == r then ValuesOf(pairs, k) else [])
    requires HoldsAny(column, k) <==> hash(k) % n == r && HasKey(pairs, k)
    ensures CollectedAll(column + [part], k) == (if hash(k) % n == r then ValuesOf(pairs + kva, k) else [])
    ensures HoldsAny(column + [part], k) <==> hash(k) % n == r && HasKey(pairs + kva, k)
  {
    hide Collected, CollectedAll, ValuesOf, HoldsAny;
    FileValues(kva, part, hash, n, r, k);
    CollectedAllExtend(column, part, k);
    ValuesOfConcat(pairs, kva, k);
    NoKeyNoValues(pairs, k);
    NoKeyNoValues(kva, k);
    NoKeyNoValues(pairs + kva, k);
  }

  // ---------------------------------------------------------------------
  // The order in which a directory lists the files

  lemma {:induction false} TakeOut(
    u: seq<seq<Intermediate>>, x: seq<Intermediate>, v: seq<seq<Intermediate>>, k: string)
    ensures multiset(CollectedAll(u + [x] + v, k)) == multiset(CollectedAll(u + v, k)) + multiset(Collected(x, k))
  {
    hide Collected, CollectedAll;
    if v == [] {
      CollectedAllExtend(u, x, k);
      assert u + [x] + v == u + [x] && u + v == u;
    } else {
      var front, last := v[..|v| - 1], v[|v| - 1];
      TakeOut(u, x, front, k);
      CollectedAllExtend(u + [x] + front, last, k);
      CollectedAllExtend(u + front, last, k);
      assert u + [x] + v == (u + [x] + front) + [last];
      assert u + v == (u + front) + [last];
    }
  }

  lemma SplitAt<T>(front: seq<T>, last: T, b: seq<T>) returns (u: seq<T>, v: seq<T>)
    requires multiset(front + [last]) == multiset(b)
    ensures b == u + [last] + v && multiset(front) == multiset(u + v)
  {
    assert last in multiset(front + [last]);
    var p :| 0 <= p < |b| && b[p] == last;
    u, v := b[..p], b[p + 1..];
    assert b == u + [last] + v;
    Cancel(multiset(front), multiset(u + v), last);
  }

  lemma Cancel<T>(a: multiset<T>, b: multiset<T>, x: T)
    requires a + multiset{x} == b + multiset{x}
    ensures a == b
  {
    assert a == (a + multiset{x}) - multiset{x} && b == (b + multiset{x}) - multiset{x};
  }

  lemma {:induction false} ListingDoesNotMatter(a: seq<seq<Intermediate>>, b: seq<seq<Intermediate>>, k: string)
    requires multiset(a) == multiset(b)
    ensures multiset(CollectedAll(a, k)) == multiset(CollectedAll(b, k))
    decreases |a|
  {
    hide Collected, CollectedAll;
    if a == [] {
      assert |multiset(b)| == 0;
    } else {
      var front, last := a[..|a| - 1], a[|a| - 1];
      assert a == front + [last];
      var u, v := SplitAt(front, last, b);
      ListingDoesNotMatter(front, u + v, k);
      TakeOut(u, last, v, k);
      CollectedAllExtend(front, last, k);
    }
  }

  lemma ListingHolds(a: seq<seq<Intermediate>>, b: seq<seq<Intermediate>>, k: string)
    requires multiset(a) == multiset(b) && HoldsAny(a, k)
    ensures HoldsAny(b, k)
  {
    var m :| 0 <= m < |a| && HoldsKey(a[m], k);
    assert a[m] in multiset(a);
    assert a[m] in b;
  }

  // ---------------------------------------------------------------------
  // The theorem

  /** Partition `r` was reduced from all its files, listed in some order. */
  ghost predicate Reduced(
    fs: Files, tasks: nat, r: nat, inputs: seq<seq<Intermediate>>, reducef: Reducer, out: seq<Line>)
  {
    && multiset(inputs) == multiset(PartitionFiles(fs, tasks, r)) && ReduceOk(out, inputs, reducef)
  }

  /** The line of a key: the result for all its values. */
  ghost predicate IsLine(pairs: seq<KeyValue>, reducef: Reducer, k: string, o: string) {
    HasKey(pairs, k) && o == reducef(k, ValuesOf(pairs, k))
  }

  /** A line of a reduce output: its key hashes to the partition and its result is that of all its values. */
  lemma ReduceLine(
    mapf: Mapper, reducef: Reducer, files: seq<(string, string)>, hash: string -> nat, n: nat, fs: Files, r: nat,
    inputs: seq<seq<Intermediate>>, out: seq<Line>, k: string, o: string)
    requires n > 0 && OrderInsensitive(reducef) && Reduced(fs, |files|, r, inputs, reducef, out)
    requires forall m: nat :: m < |files| ==> FileOk(mapf, files, hash, n, fs, m, r)
    ensures var pairs := AllPairs(mapf, files);
            (k, o) in out <==> hash(k) % n == r && IsLine(pairs, reducef, k, o)
  {
    hide PartOk, ValuesOf, Collected, CollectedAll, HoldsAny, InKeyOrder;
    var column := PartitionFiles(fs, |files|, r);
    PartitionValues(mapf, files, hash, n, fs, |files|, r, k);
    assert files[..|files|] == files;
    ListingDoesNotMatter(inputs, column, k);
    if HoldsAny(inputs, k) {
      ListingHolds(inputs, column, k);
    }
    if HoldsAny(column, k) {
      ListingHolds(column, inputs, k);
    }
    LineResult(out, k, o, reducef(k, CollectedAll(inputs, k)));
  }

  lemma LineResult(out: seq<Line>, k: string, o: string, result: string)
    requires forall i :: 0 <= i < |out| && out[i].0 == k ==> out[i].1 == result
    ensures (k, o) in out <==> HasLine(out, k) && o == result
  {
    if HasLine(out, k) {
      var i :| 0 <= i < |out| && out[i].0 == k;
      assert out[i] == (k, result) && out[i] in out;
    }
  }

  lemma SequentialLine(
    mapf: Mapper, reducef: Reducer, files: seq<(string, string)>, sorted: seq<KeyValue>, out: seq<Line>, k: string,
    o: string)
    requires OrderInsensitive(reducef) && SequentialOk(out, sorted, reducef)
    requires multiset(sorted) == multiset(AllPairs(mapf, files))
    ensures (k, o) in out <==> IsLine(AllPairs(mapf, files), reducef, k, o)
  {
    hide ValuesOf, InKeyOrder, HasKey, AllPairs;
    var pairs := AllPairs(mapf, files);
    SameValues(sorted, pairs, k);
    if HasKey(sorted, k) {
      SameKeys(sorted, pairs, k);
    }
    if HasKey(pairs, k) {
      SameKeys(pairs, sorted, k);
    }
    LineResult(out, k, o, reducef(k, ValuesOf(sorted, k)));
  }

  /** The reduce outputs have exactly the lines of the sequential output, each in the partition of its key. */
  lemma MapReduceIsSequential(
    mapf: Mapper, reducef: Reducer, files: seq<(string, string)>, hash: string -> nat, n: nat, fs: Files,
    inputs: seq<seq<seq<Intermediate>>>, outs: seq<seq<Line>>, sorted: seq<KeyValue>, out: seq<Line>, k: string,
    o: string)
    requires n > 0 && OrderInsensitive(reducef) && |inputs| == |outs| == n
    requires forall m: nat, r: nat :: m < |files| && r < n ==> FileOk(mapf, files, hash, n, fs, m, r)
    requires forall r :: 0 <= r < n ==> Reduced(fs, |files|, r, inputs[r], reducef, outs[r])
    requires SequentialOk(out, sorted, reducef) && multiset(sorted) == multiset(AllPairs(mapf, files))
    ensures (k, o) in out <==> exists r :: 0 <= r < n && (k, o) in outs[r]
    ensures forall r :: 0 <= r < n && (k, o) in outs[r] ==> r == hash(k) % n
  {
    hide Reduced, FileOk, SequentialOk, AllPairs, IsLine;
    var home := hash(k) % n;
    forall r | 0 <= r < n
      ensures (k, o) in outs[r] <==> home == r && IsLine(AllPairs(mapf, files), reducef, k, o)
    {
      ReduceLine(mapf, reducef, files, hash, n, fs, r, inputs[r], outs[r], k, o);
    }
    SequentialLine(mapf, reducef, files, sorted, out, k, o);
    assert (k, o) in outs[home] <==> IsLine(AllPairs(mapf, files), reducef, k, o);
  }

  /** A whole job, with the sequential program beside it. */
  method Job(
    mapf: Mapper, reducef: Reducer, files: seq<(string, string)>, schedule: seq<nat>, nReduce: nat,
    hash: string -> nat)
    returns (outs: seq<seq<Line>>, out: seq<Line>)
    requires nReduce > 0 && OrderInsensitive(reducef)
    requires (forall i :: 0 <= i < |schedule| ==> schedule[i] < |files|) && forall m: nat :: m < |files| ==>
             m in schedule
    ensures |outs| == nReduce
    ensures forall k, o :: (k, o) in out <==> exists r :: 0 <= r < nReduce && (k, o) in outs[r]
    ensures forall k, o, r :: 0 <= r < nReduce && (k, o) in outs[r] ==> r == hash(k) % nReduce
  {
    hide Reduced, FileOk, SequentialOk, HasKey, ValuesOf, AllPairs, ReduceOk, PartitionFiles;
    var fs := RunMaps(mapf, files, schedule, nReduce, hash);
    outs := [];
    ghost var inputs: seq<seq<seq<Intermediate>>> := [];
    for r := 0 to nReduce
      invariant |outs| == |inputs| == r
      invariant forall q :: 0 <= q < r ==> Reduced(fs, |files|, q, inputs[q], reducef, outs[q])
    {
      var input := ReadDirectory(fs, |files|, r);
      var lines := DoReduceTask(reducef, input);
      ReducedNow(fs, |files|, r, input, reducef, lines);
      outs, inputs := outs + [lines], inputs + [input];
    }
    var seqOut, sorted := Sequential(mapf, reducef, files);
    out := seqOut;
    forall k, o
      ensures (k, o) in out <==> exists r :: 0 <= r < nReduce && (k, o) in outs[r]
      ensures forall r :: 0 <= r < nReduce && (k, o) in outs[r] ==> r == hash(k) % nReduce
    {
      MapReduceIsSequential(mapf, reducef, files, hash, nReduce, fs, inputs, outs, sorted, out, k, o);
    }
  }

  lemma ReducedNow(fs: Files, tasks: nat, r: nat, inputs: seq<seq<Intermediate>>, reducef: Reducer, out: seq<Line>)
    requires multiset(inputs) == multiset(PartitionFiles(fs, tasks, r)) && ReduceOk(out, inputs, reducef)
    ensures Reduced(fs, tasks, r, inputs, reducef, out)
  {
  }

  /** The files of partition `r`, found by listing the directory; callers know of the order nothing. */
  method ReadDirectory(fs: Files, tasks: nat, r: nat) returns (inputs: seq<seq<Intermediate>>)
    ensures multiset(inputs) == multiset(PartitionFiles(fs, tasks, r))
  {
    inputs := [];
    for m := 0 to tasks
      invariant multiset(inputs) == multiset(PartitionFiles(fs, m, r))
    {
      inputs := inputs + [FileAt(fs, m, r)];
    }
  }
}
