/**
 * The time-to-live LRU cache of kerberos_infra/src/server/infra/cache,
 * which the application server's stores are built on: an `LruCache` of
 * values with the instant they were put, behind a lock, and a ttl in
 * seconds. The lock is left out; the instant of each call is a parameter,
 * counted in whole seconds, so an entry's age rounds down.
 */
module ServerCache {
  import opened Wrappers
  import opened TtlLru

  /** `CacheSettings`: a non-zero capacity and a ttl in seconds. */
  datatype CacheSettings = CacheSettings(capacity: nat, ttl: nat)

  class Cache<K(==), V> {
    var entries: seq<CacheEntry<K, V>>
    const capacity: nat
    const ttl: nat

    ghost predicate Valid()
      reads this
    {
      ValidEntries(entries, capacity)
    }

    /** `Cache::from(settings)`: an empty cache with the settings' capacity and ttl. */
    constructor From(settings: CacheSettings)
      requires settings.capacity >= 1
      ensures Valid()
      ensures entries == [] && capacity == settings.capacity && ttl == settings.ttl
    {
      entries := [];
      capacity := settings.capacity;
      ttl := settings.ttl;
    }

    /** `get(key)` at instant `now`. */
    method Get(key: K, now: nat) returns (r: Result<V, CacheErr>)
      requires Valid()
      modifies this
      ensures Valid()
      ensures (r, entries) == CacheGet(old(entries), ttl, key, now)
    {
      CacheGetValid(entries, capacity, ttl, key, now);
      var found := Find(entries, key);
      match found
      case None =>
        r := Err(MissingKey);
      case Some(e) =>
        if Age(e.stamp, now) < ttl {
          entries := RemoveKey(entries, key) + [e];
          r := Ok(e.value);
        } else {
          entries := RemoveKey(entries, key);
          r := Err(ValueExpired);
        }
    }

    /** `put(key, value)` at instant `now`: always `Ok`. */
    method Put(key: K, value: V, now: nat) returns (r: Result<(), CacheErr>)
      requires Valid()
      modifies this
      ensures Valid()
      ensures r == Ok(())
      ensures entries == CachePut(old(entries), capacity, key, value, now)
    {
      CachePutValid(entries, capacity, key, value, now);
      if |entries| == capacity {
        entries := entries[1..];
      }
      entries := RemoveKey(entries, key) + [CacheEntry(key, value, now)];
      r := Ok(());
    }
  }
}
