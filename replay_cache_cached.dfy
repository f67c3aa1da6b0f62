/**
 * kerberos_app_srv/src/replay_cache.rs: the application server's replay
 * cache in the ttl LRU cache of kerberos_infra, keyed by the DER encoding
 * of each replay entry, with no value. Encoding cannot fail in this model.
 * The instant of each call is a parameter.
 */
module CachedReplayCache {
  import opened Wrappers
  import opened KerberosTypes
  import opened TtlLru
  import opened ServerCache
  import opened SrvCacheErrors
  import MapReplayCache

  type Entries = seq<CacheEntry<Octets, ()>>

  /**
   * What `contain(e)` at `now` answers over the entries `es`, and the
   * entries after it: `true` for an entry found within the ttl, else the
   * cache's error converted by `?`; it is never `false`.
   */
  function ReplayContain(es: Entries, e: ApReplayEntry, now: nat): (r: (Result<bool, SrvCacheError>, Entries))
    ensures r.0 != Ok(false)
    ensures r.0 == Ok(true) <==> CacheGet(es, StoreTtl, MapReplayCache.KeyOf(e), now).0.Ok?
    ensures r.0.Err? ==> r.0.error == FromCacheErr(CacheGet(es, StoreTtl, MapReplayCache.KeyOf(e), now).0.error)
    ensures r.1 == CacheGet(es, StoreTtl, MapReplayCache.KeyOf(e), now).1
  {
    var (found, after) := CacheGet(es, StoreTtl, MapReplayCache.KeyOf(e), now);
    match found
    case Ok(_) => (Ok(true), after)
    case Err(err) => (Err(FromCacheErr(err)), after)
  }

  class AppServerReplayCache {
    const cache: Cache<Octets, ()>

    ghost predicate Valid()
      reads this, cache
    {
      cache.Valid() && cache.capacity == StoreCapacity && cache.ttl == StoreTtl
    }

    /** `new`: an empty cache of capacity 100 and ttl 3600 seconds. */
    constructor New()
      ensures Valid() && fresh(cache) && cache.entries == []
    {
      cache := new Cache.From(CacheSettings(StoreCapacity, StoreTtl));
    }

    /** `store(e)` at `now`: puts the entry's encoding. */
    method Store(e: ApReplayEntry, now: nat) returns (r: Result<(), SrvCacheError>)
      requires Valid()
      modifies cache
      ensures Valid()
      ensures r == Ok(())
      ensures cache.entries == CachePut(old(cache.entries), StoreCapacity, MapReplayCache.KeyOf(e), (), now)
    {
      var put := cache.Put(MapReplayCache.KeyOf(e), (), now);
      r := Ok(());
    }

    /** `contain(e)` at `now`. */
    method Contain(e: ApReplayEntry, now: nat) returns (r: Result<bool, SrvCacheError>)
      requires Valid()
      modifies cache
      ensures Valid()
      ensures (r, cache.entries) == ReplayContain(old(cache.entries), e, now)
    {
      var found := cache.Get(MapReplayCache.KeyOf(e), now);
      match found
      case Ok(_) =>
        r := Ok(true);
      case Err(err) =>
        r := Err(FromCacheErr(err));
    }
  }

  /** An entry stored at `t` is contained until the ttl has passed. */
  lemma StoreThenContainWithinTtl(es: Entries, e: ApReplayEntry, t: nat, now: nat)
    requires t <= now < t + StoreTtl
    ensures ReplayContain(CachePut(es, StoreCapacity, MapReplayCache.KeyOf(e), (), t), e, now).0 == Ok(true)
  {
    PutThenGet(es, StoreCapacity, StoreTtl, MapReplayCache.KeyOf(e), (), t, now);
  }

  /** An entry never stored is reported as the error `MissingKey` rather than `false`. */
  lemma UnknownEntryIsError(es: Entries, e: ApReplayEntry, now: nat)
    requires Find(es, MapReplayCache.KeyOf(e)).None?
    ensures ReplayContain(es, e, now).0 == Err(SrvCacheError.MissingKey)
  {
    AbsentGetMissing(es, StoreTtl, MapReplayCache.KeyOf(e), now);
  }

  /** An entry stored at `t` and asked for once the ttl has passed is the error `Expired`. */
  lemma ExpiredEntryIsError(es: Entries, e: ApReplayEntry, t: nat, now: nat)
    requires now >= t + StoreTtl
    ensures ReplayContain(CachePut(es, StoreCapacity, MapReplayCache.KeyOf(e), (), t), e, now).0 == Err(Expired)
  {
    var key := MapReplayCache.KeyOf(e);
    PutStampsNow(es, StoreCapacity, key, (), t);
    ExpiredGetRemoves(CachePut(es, StoreCapacity, key, (), t), StoreTtl, key, now, now);
  }
}
