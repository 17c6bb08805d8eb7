/** The cache of explored (set, state) pairs (src/porcupine/checker.go:140-152, 198-202). */
module Cache {
  import Bitset

  datatype CacheEntry<S> = CacheEntry(linearized: array<Bitset.Word>, state: S)

  /** The buckets, by hash. */
  type Buckets<S> = map<Bitset.Word, seq<CacheEntry<S>>>

  /** The packed sets in the cache, which nobody changes any more. */
  ghost predicate Frozen(words: map<array<Bitset.Word>, seq<Bitset.Word>>)
    reads words.Keys
  {
    forall a :: a in words ==> a[..] == words[a]
  }

  function Bucket<S>(cache: Buckets<S>, hash: Bitset.Word): seq<CacheEntry<S>> {
    if hash in cache then cache[hash] else []
  }

  /** Entry e lies in the bucket of its hash and stands for one of the pairs. */
  ghost predicate EntryOk<S>(
    e: CacheEntry<S>, hash: Bitset.Word, words: map<array<Bitset.Word>, seq<Bitset.Word>>, size: nat,
    pairs: set<(set<nat>, S)>)
  {
    && e.linearized in words
    && |words[e.linearized]| == size
    && Bitset.HashOf(words[e.linearized]) == hash
    && (Bitset.Members(words[e.linearized]), e.state) in pairs
  }

  ghost predicate Stored<S>(cache: Buckets<S>, words: map<array<Bitset.Word>, seq<Bitset.Word>>, pair: (set<nat>, S)) {
    exists hash, e :: e in Bucket(cache, hash) && e.linearized in words
                      && Bitset.Members(words[e.linearized]) == pair.0 && e.state == pair.1
  }

  /** The cache stands for exactly `pairs`. */
  ghost predicate Holds<S>(
    cache: Buckets<S>, words: map<array<Bitset.Word>, seq<Bitset.Word>>, size: nat, pairs: set<(set<nat>, S)>)
  {
    && (forall hash, e :: e in Bucket(cache, hash) ==> EntryOk(e, hash, words, size, pairs))
    && (forall pair :: pair in pairs ==> Stored(cache, words, pair))
  }

  /** An equal set has an equal hash, so only one bucket has to be searched. */
  lemma SameSetSameBucket<S>(
    cache: Buckets<S>, words: map<array<Bitset.Word>, seq<Bitset.Word>>, size: nat, pairs: set<(set<nat>, S)>,
    wanted: seq<Bitset.Word>, state: S)
    requires Holds(cache, words, size, pairs) && |wanted| == size
    ensures (Bitset.Members(wanted), state) in pairs <==>
            exists e :: e in Bucket(cache, Bitset.HashOf(wanted)) && words[e.linearized] == wanted && e.state == state
  {
    if (Bitset.Members(wanted), state) in pairs {
      var pair := (Bitset.Members(wanted), state);
      assert Stored(cache, words, pair);
      var hash, e :| e in Bucket(cache, hash) && e.linearized in words
                     && Bitset.Members(words[e.linearized]) == pair.0 && e.state == pair.1;
      assert EntryOk(e, hash, words, size, pairs);
      Bitset.MembersInjective(words[e.linearized], wanted);
    }
  }

  /** cacheContains: is this set, in this state, in the cache? */
  method Contains<S(==)>(
    cache: Buckets<S>, entry: CacheEntry<S>,
    ghost words: map<array<Bitset.Word>, seq<Bitset.Word>>, ghost pairs: set<(set<nat>, S)>) returns (found: bool)
    requires Holds(cache, words, entry.linearized.Length, pairs) && Frozen(words)
    ensures found <==> (Bitset.Members(entry.linearized[..]), entry.state) in pairs
  {
    var hash := Bitset.Hash(entry.linearized);
    var bucket := Bucket(cache, hash);
    ghost var wanted := entry.linearized[..];
    SameSetSameBucket(cache, words, entry.linearized.Length, pairs, wanted, entry.state);
    forall k | 0 <= k < |bucket|
      ensures bucket[k].linearized in words
    {
      assert EntryOk(bucket[k], hash, words, entry.linearized.Length, pairs);
    }
    for i := 0 to |bucket|
      invariant forall k :: 0 <= k < |bucket| ==> bucket[k].linearized in words
      invariant forall k :: 0 <= k < i ==> !(words[bucket[k].linearized] == wanted && bucket[k].state == entry.state)
    {
      var elem := bucket[i];
      assert EntryOk(elem, hash, words, entry.linearized.Length, pairs);
      var same := Bitset.Equal(entry.linearized, elem.linearized);
      if same && entry.state == elem.state {
        return true;
      }
    }
    return false;
  }

  function Add<S>(cache: Buckets<S>, hash: Bitset.Word, entry: CacheEntry<S>): Buckets<S> {
    cache[hash := Bucket(cache, hash) + [entry]]
  }

  lemma AddToBucket<S>(cache: Buckets<S>, hash: Bitset.Word, entry: CacheEntry<S>)
    ensures forall h, e :: e in Bucket(Add(cache, hash, entry), h) <==>
              e in Bucket(cache, h) || (h == hash && e == entry)
  {
    var after, old_ := Add(cache, hash, entry), Bucket(cache, hash);
    assert Bucket(after, hash) == old_ + [entry];
    forall h, e
      ensures e in Bucket(after, h) <==> e in Bucket(cache, h) || (h == hash && e == entry)
    {
      if h == hash {
        assert e in old_ + [entry] <==> e in old_ || e == entry;
      }
    }
  }

  /** Appending a new set to its bucket adds one pair. */
  lemma AddHolds<S>(
    cache: Buckets<S>, words: map<array<Bitset.Word>, seq<Bitset.Word>>, size: nat, pairs: set<(set<nat>, S)>,
    entry: CacheEntry<S>, content: seq<Bitset.Word>)
    requires Holds(cache, words, size, pairs)
    requires entry.linearized !in words && |content| == size
    ensures Holds(Add(cache, Bitset.HashOf(content), entry), words[entry.linearized := content], size,
                  pairs + {(Bitset.Members(content), entry.state)})
  {
    var hash := Bitset.HashOf(content);
    var after, words', pairs' :=
      Add(cache, hash, entry), words[entry.linearized := content], pairs + {(Bitset.Members(content), entry.state)};
    AddToBucket(cache, hash, entry);
    forall h, e | e in Bucket(after, h)
      ensures EntryOk(e, h, words', size, pairs')
    {
      if e in Bucket(cache, h) {
        assert EntryOk(e, h, words, size, pairs);
      }
    }
    forall pair | pair in pairs'
      ensures Stored(after, words', pair)
    {
      if pair in pairs {
        assert Stored(cache, words, pair);
        var h, e :| e in Bucket(cache, h) && e.linearized in words
                    && Bitset.Members(words[e.linearized]) == pair.0 && e.state == pair.1;
        assert e in Bucket(after, h);
      } else {
        assert entry in Bucket(after, hash);
      }
    }
  }
}
