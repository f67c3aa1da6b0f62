/**
 * The behaviour both caches get from the `lru` crate, with the expiry the
 * caches add on top: entries are kept in recency order, least recently
 * used first. `LruCache::get` moves an entry to the most-recent end,
 * `pop` removes one key, `pop_lru` removes the first entry, and `put`
 * replaces an existing key's entry (moving it to the end) or appends.
 * Instants are whole ticks of a monotonic clock given by the caller.
 */
module TtlLru {
  import opened Wrappers

  /** A stored value with the instant it was put. */
  datatype CacheEntry<K, V> = CacheEntry(key: K, value: V, stamp: nat)

  /** `CacheErr` of the cache modules. */
  datatype CacheErr = MissingKey | ValueExpired | CacheFull

  /** The entry for `k`, if any (the first one; keys are distinct in a valid cache). */
  function Find<K(==), V>(es: seq<CacheEntry<K, V>>, k: K): (r: Option<CacheEntry<K, V>>)
    ensures r.Some? ==> r.value in es && r.value.key == k
    ensures r.None? <==> forall i :: 0 <= i < |es| ==> es[i].key != k
  {
    if |es| == 0 then None
    else if es[0].key == k then Some(es[0])
    else
      var r := Find(es[1..], k);
      assert r.None? ==> forall i :: 0 <= i < |es| ==> es[i].key != k by {
        if r.None? {
          forall i | 0 <= i < |es| ensures es[i].key != k {
            if i > 0 { assert es[i] == es[1..][i - 1]; }
          }
        }
      }
      r
  }

  /** No key occurs twice. */
  predicate Distinct<K(==), V>(es: seq<CacheEntry<K, V>>) {
    |es| == 0 || (Find(es[1..], es[0].key).None? && Distinct(es[1..]))
  }

  /** `pop(k)`: the entries without the one for `k`. */
  function RemoveKey<K(==), V>(es: seq<CacheEntry<K, V>>, k: K): (r: seq<CacheEntry<K, V>>)
    ensures |r| <= |es|
  {
    if |es| == 0 then []
    else if es[0].key == k then RemoveKey(es[1..], k)
    else [es[0]] + RemoveKey(es[1..], k)
  }

  /** Removing `k` loses `k` and keeps the entry of every other key. */
  lemma {:induction false} RemoveKeyFind<K, V>(es: seq<CacheEntry<K, V>>, k: K, q: K)
    ensures Find(RemoveKey(es, k), q) == if q == k then None else Find(es, q)
  {
    if |es| > 0 {
      RemoveKeyFind(es[1..], k, q);
      if es[0].key != k {
        assert ([es[0]] + RemoveKey(es[1..], k))[1..] == RemoveKey(es[1..], k);
      }
    }
  }

  /** Removing a key keeps the others distinct, and removes exactly one entry when the key was there. */
  lemma {:induction false} RemoveKeyDistinct<K, V>(es: seq<CacheEntry<K, V>>, k: K)
    requires Distinct(es)
    ensures Distinct(RemoveKey(es, k))
    ensures |RemoveKey(es, k)| == if Find(es, k).Some? then |es| - 1 else |es|
  {
    if |es| > 0 {
      RemoveKeyDistinct(es[1..], k);
      if es[0].key == k {
        assert Find(es[1..], k).None?;
        RemoveKeyLengthAbsent(es[1..], k);
      } else {
        var r := [es[0]] + RemoveKey(es[1..], k);
        assert r[1..] == RemoveKey(es[1..], k);
        RemoveKeyFind(es[1..], k, es[0].key);
      }
    }
  }

  lemma {:induction false} RemoveKeyLengthAbsent<K, V>(es: seq<CacheEntry<K, V>>, k: K)
    requires Find(es, k).None?
    ensures RemoveKey(es, k) == es
  {
    if |es| > 0 {
      assert es[0].key != k;
      assert Find(es[1..], k).None?;
      RemoveKeyLengthAbsent(es[1..], k);
      assert es == [es[0]] + es[1..];
    }
  }

  /** Looking a key up in entries with one appended at the most-recent end. */
  lemma {:induction false} FindAppend<K, V>(es: seq<CacheEntry<K, V>>, e: CacheEntry<K, V>, q: K)
    ensures Find(es + [e], q) == if Find(es, q).Some? then Find(es, q) else if e.key == q then Some(e) else None
  {
    if |es| == 0 {
      assert es + [e] == [e];
    } else {
      assert (es + [e])[1..] == es[1..] + [e];
      FindAppend(es[1..], e, q);
    }
  }

  /** Appending an entry whose key is absent keeps the keys distinct. */
  lemma {:induction false} DistinctAppend<K, V>(es: seq<CacheEntry<K, V>>, e: CacheEntry<K, V>)
    requires Distinct(es) && Find(es, e.key).None?
    ensures Distinct(es + [e])
  {
    if |es| == 0 {
      assert es + [e] == [e];
      assert [e][1..] == [];
    } else {
      assert (es + [e])[1..] == es[1..] + [e];
      assert Find(es[1..], e.key).None?;
      DistinctAppend(es[1..], e);
      FindAppend(es[1..], e, es[0].key);
    }
  }

  /** A suffix of distinct entries is distinct. */
  lemma DistinctTail<K, V>(es: seq<CacheEntry<K, V>>)
    requires Distinct(es) && |es| > 0
    ensures Distinct(es[1..])
  {
  }

  /** A valid cache: a positive capacity (`NonZeroUsize`), no more entries than that, distinct keys. */
  predicate ValidEntries<K(==), V>(es: seq<CacheEntry<K, V>>, capacity: nat) {
    capacity >= 1 && |es| <= capacity && Distinct(es)
  }

  /** `Instant::elapsed`: the ticks since `stamp`, zero for an instant not yet reached. */
  function Age(stamp: nat, now: nat): (d: nat)
    ensures now >= stamp ==> stamp + d == now
  {
    if now >= stamp then now - stamp else 0
  }

  /**
   * The cache's `get` at instant `now`: a missing key is `MissingKey` and
   * changes nothing; a present one is moved to the most-recent end, and is
   * returned while younger than `ttl`, else popped and `ValueExpired`.
   */
  function CacheGet<K(==), V>(es: seq<CacheEntry<K, V>>, ttl: nat, k: K, now: nat)
    : (r: (Result<V, CacheErr>, seq<CacheEntry<K, V>>))
  {
    match Find(es, k)
    case None => (Err(MissingKey), es)
    case Some(e) =>
      if Age(e.stamp, now) < ttl then (Ok(e.value), RemoveKey(es, k) + [e])
      else (Err(ValueExpired), RemoveKey(es, k))
  }

  /**
   * The cache's `put` at instant `now`: a full cache first pops its least
   * recently used entry, whether or not the key is present; the new entry,
   * stamped `now`, then replaces the key's entry at the most-recent end.
   */
  function CachePut<K(==), V>(es: seq<CacheEntry<K, V>>, capacity: nat, k: K, v: V, now: nat)
    : (r: seq<CacheEntry<K, V>>)
  {
    var kept := if |es| == capacity && |es| > 0 then es[1..] else es;
    RemoveKey(kept, k) + [CacheEntry(k, v, now)]
  }

  /** `put` keeps the cache valid: never more entries than the capacity. */
  lemma CachePutValid<K, V>(es: seq<CacheEntry<K, V>>, capacity: nat, k: K, v: V, now: nat)
    requires ValidEntries(es, capacity)
    ensures ValidEntries(CachePut(es, capacity, k, v, now), capacity)
  {
    var kept := if |es| == capacity && |es| > 0 then es[1..] else es;
    RemoveKeyDistinct(kept, k);
    RemoveKeyFind(kept, k, k);
    DistinctAppend(RemoveKey(kept, k), CacheEntry(k, v, now));
  }

  /** `get` keeps the cache valid. */
  lemma CacheGetValid<K, V>(es: seq<CacheEntry<K, V>>, capacity: nat, ttl: nat, k: K, now: nat)
    requires ValidEntries(es, capacity)
    ensures ValidEntries(CacheGet(es, ttl, k, now).1, capacity)
  {
    var f := Find(es, k);
    if f.Some? {
      RemoveKeyDistinct(es, k);
      RemoveKeyFind(es, k, k);
      DistinctAppend(RemoveKey(es, k), f.value);
    }
  }

  /** A value put is returned by a `get` of its key before `ttl` ticks have passed. */
  lemma PutThenGet<K, V>(es: seq<CacheEntry<K, V>>, capacity: nat, ttl: nat, k: K, v: V, t: nat, now: nat)
    requires t <= now < t + ttl
    ensures CacheGet(CachePut(es, capacity, k, v, t), ttl, k, now).0 == Ok(v)
  {
    var kept := if |es| == capacity && |es| > 0 then es[1..] else es;
    RemoveKeyFind(kept, k, k);
    FindAppend(RemoveKey(kept, k), CacheEntry(k, v, t), k);
  }

  /** A `put` stamps its entry with the instant of the call. */
  lemma PutStampsNow<K, V>(es: seq<CacheEntry<K, V>>, capacity: nat, k: K, v: V, now: nat)
    ensures Find(CachePut(es, capacity, k, v, now), k) == Some(CacheEntry(k, v, now))
  {
    var kept := if |es| == capacity && |es| > 0 then es[1..] else es;
    RemoveKeyFind(kept, k, k);
    FindAppend(RemoveKey(kept, k), CacheEntry(k, v, now), k);
  }

  /** A `get` of an expired entry removes it, so the next `get` reports the key missing. */
  lemma ExpiredGetRemoves<K, V>(es: seq<CacheEntry<K, V>>, ttl: nat, k: K, now: nat, later: nat)
    requires Find(es, k).Some? && Age(Find(es, k).value.stamp, now) >= ttl
    ensures CacheGet(es, ttl, k, now).0 == Err(ValueExpired)
    ensures Find(CacheGet(es, ttl, k, now).1, k).None?
    ensures CacheGet(CacheGet(es, ttl, k, now).1, ttl, k, later).0 == Err(MissingKey)
  {
    RemoveKeyFind(es, k, k);
  }

  /** A `get` of an absent key is `MissingKey` and leaves the cache as it was. */
  lemma AbsentGetMissing<K, V>(es: seq<CacheEntry<K, V>>, ttl: nat, k: K, now: nat)
    requires Find(es, k).None?
    ensures CacheGet(es, ttl, k, now) == (Err(MissingKey), es)
  {
  }

  /**
   * A `put` into a full cache evicts the least recently used entry, even
   * when the key put is already present elsewhere, which then leaves one
   * entry fewer than before.
   */
  lemma FullPutEvictsLru<K, V>(es: seq<CacheEntry<K, V>>, capacity: nat, k: K, v: V, now: nat)
    requires ValidEntries(es, capacity) && |es| == capacity
    ensures es[0].key != k ==> Find(CachePut(es, capacity, k, v, now), es[0].key).None?
    ensures Find(es[1..], k).Some? ==> |CachePut(es, capacity, k, v, now)| == capacity - 1
    ensures Find(es[1..], k).None? ==> |CachePut(es, capacity, k, v, now)| == capacity
  {
    var kept := es[1..];
    var e := CacheEntry(k, v, now);
    DistinctTail(es);
    RemoveKeyDistinct(kept, k);
    RemoveKeyFind(kept, k, es[0].key);
    FindAppend(RemoveKey(kept, k), e, es[0].key);
  }

  /** A `put` of one key leaves every other key's entry as it was, unless it was the one evicted. */
  lemma PutKeepsOthers<K, V>(es: seq<CacheEntry<K, V>>, capacity: nat, k: K, v: V, now: nat, q: K)
    requires q != k
    requires !(|es| == capacity && |es| > 0 && es[0].key == q)
    requires Distinct(es)
    ensures Find(CachePut(es, capacity, k, v, now), q) == Find(es, q)
  {
    var kept := if |es| == capacity && |es| > 0 then es[1..] else es;
    RemoveKeyFind(kept, k, q);
    FindAppend(RemoveKey(kept, k), CacheEntry(k, v, now), q);
    if |es| == capacity && |es| > 0 {
      assert Find(es, q) == Find(es[1..], q);
    }
  }
}
