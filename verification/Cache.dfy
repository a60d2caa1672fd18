/**
 The cache of configurations: buckets keyed by the hash of the bitset.  Looking
 a configuration up agrees with membership in the set of configurations ever
 inserted, because stored bitsets are clones that nobody changes afterwards.
 */
module Cache {
  import opened Linearizability
  import opened SearchSpec
  import opened Bitset

  datatype CacheEntry<+S> = CacheEntry(linearized: array<Word>, state: S)

  type Buckets<S> = map<Word, seq<CacheEntry<S>>>

  function Bucket<S>(cache: Buckets<S>, hash: Word): seq<CacheEntry<S>> {
    if hash in cache then cache[hash] else []
  }

  /** The arrays the cache refers to. */
  ghost function Stored<S>(cache: Buckets<S>): set<array<Word>> {
    set hash, i | hash in cache && 0 <= i < |cache[hash]| :: cache[hash][i].linearized
  }

  ghost function ConfigIn<S>(e: CacheEntry<S>): Config<S>
    reads e.linearized
  {
    (Members(e.linearized[..]), e.state)
  }

  /** The entry sits in its own bucket and stands for one of `configs`. */
  ghost predicate Filed<S>(cache: Buckets<S>, len: nat, configs: set<Config<S>>, hash: Word, i: nat)
    requires hash in cache && i < |cache[hash]|
    reads cache[hash][i].linearized
  {
    var e := cache[hash][i];
    e.linearized.Length == len && HashOf(e.linearized[..]) == hash && ConfigIn(e) in configs
  }

  ghost predicate Found<S>(cache: Buckets<S>, c: Config<S>)
    reads Stored(cache)
  {
    exists hash, i :: hash in cache && 0 <= i < |cache[hash]| && ConfigIn(cache[hash][i]) == c
  }

  ghost predicate Represents<S>(cache: Buckets<S>, len: nat, configs: set<Config<S>>)
    reads Stored(cache)
  {
    && (forall hash, i :: hash in cache && 0 <= i < |cache[hash]| ==> Filed(cache, len, configs, hash, i))
    && (forall c :: c in configs ==> Found(cache, c))
  }

  /** A configuration that is cached can only be found in the bucket of its own hash. */
  lemma FoundInItsBucket<S>(
    cache: Buckets<S>, len: nat, configs: set<Config<S>>, words: seq<Word>, s: S) returns (i: nat)
    requires Represents(cache, len, configs) && |words| == len
    requires (Members(words), s) in configs
    ensures i < |Bucket(cache, HashOf(words))|
    ensures ConfigIn(Bucket(cache, HashOf(words))[i]) == (Members(words), s)
  {
    assert Found(cache, (Members(words), s));
    var hash, k :| hash in cache && 0 <= k < |cache[hash]| && ConfigIn(cache[hash][k]) == (Members(words), s);
    assert Filed(cache, len, configs, hash, k);
    MembersDetermineWords(cache[hash][k].linearized[..], words);
    i := k;
  }

  method CacheContains<S(!new), I, O>(
    m: Model<S, I, O>, cache: Buckets<S>, entry: CacheEntry<S>, ghost len: nat, ghost configs: set<Config<S>>)
    returns (found: bool)
    requires Represents(cache, len, configs) && entry.linearized.Length == len
    ensures found <==> Covered(m, configs, Members(entry.linearized[..]), entry.state)
  {
    var hash := Hash(entry.linearized);
    var bucket := Bucket(cache, hash);
    for i := 0 to |bucket|
      invariant forall j :: 0 <= j < i ==>
        !(ConfigIn(bucket[j]).0 == Members(entry.linearized[..]) && Same(m, entry.state, bucket[j].state))
    {
      var elem := bucket[i];
      assert Filed(cache, len, configs, hash, i);
      var same := Equals(entry.linearized, elem.linearized);
      if same && Same(m, entry.state, elem.state) {
        assert ConfigIn(elem) in configs;
        return true;
      }
    }
    forall t: S | (Members(entry.linearized[..]), t) in configs
      ensures !Same(m, entry.state, t)
    {
      var i := FoundInItsBucket(cache, len, configs, entry.linearized[..], t);
    }
    return false;
  }

  /** Appending to the bucket adds exactly the new configuration. */
  lemma AppendedRepresents<S>(cache: Buckets<S>, len: nat, configs: set<Config<S>>, hash: Word, e: CacheEntry<S>)
    requires Represents(cache, len, configs)
    requires e.linearized.Length == len && HashOf(e.linearized[..]) == hash
    ensures Represents(cache[hash := Bucket(cache, hash) + [e]], len, configs + {ConfigIn(e)})
  {
    var after, more := cache[hash := Bucket(cache, hash) + [e]], configs + {ConfigIn(e)};
    forall h, i | h in after && 0 <= i < |after[h]|
      ensures Filed(after, len, more, h, i)
    {
      if h != hash || i < |Bucket(cache, hash)| {
        assert Filed(cache, len, configs, h, i);
        assert after[h][i] == cache[h][i];
      }
    }
    forall c | c in more
      ensures Found(after, c)
    {
      if c == ConfigIn(e) {
        assert after[hash][|Bucket(cache, hash)|] == e;
      } else {
        assert Found(cache, c);
        var h, i :| h in cache && 0 <= i < |cache[h]| && ConfigIn(cache[h][i]) == c;
        assert after[h][i] == cache[h][i];
      }
    }
  }

  lemma AppendedStored<S>(cache: Buckets<S>, hash: Word, e: CacheEntry<S>)
    ensures Stored(cache[hash := Bucket(cache, hash) + [e]]) == Stored(cache) + {e.linearized}
  {
    var after := cache[hash := Bucket(cache, hash) + [e]];
    assert after[hash][|Bucket(cache, hash)|] == e;
    forall a | a in Stored(cache)
      ensures a in Stored(after)
    {
      var h, i :| h in cache && 0 <= i < |cache[h]| && a == cache[h][i].linearized;
      assert after[h][i] == cache[h][i];
    }
    forall a | a in Stored(after)
      ensures a in Stored(cache) + {e.linearized}
    {
      var h, i :| h in after && 0 <= i < |after[h]| && a == after[h][i].linearized;
      if h != hash || i < |Bucket(cache, hash)| {
        assert after[h][i] == cache[h][i];
      }
    }
  }
}
