/**
 * The time-to-live LRU cache of kerberos-infra/src/cache: the same
 * behaviour as the server cache, with a constructor that takes the
 * capacity and the ttl directly. The lock is left out; the instant of each
 * call is a parameter.
 */
module InfraCache {
  import opened Wrappers
  import opened TtlLru

  class Cache<K(==), V> {
    var entries: seq<CacheEntry<K, V>>
    const capacity: nat
    const ttl: nat

    ghost predicate Valid()
      reads this
    {
      ValidEntries(entries, capacity)
    }

    /** `Cache::new(capacity, ttl)`: an empty cache. */
    constructor New(capacity: nat, ttl: nat)
      requires capacity >= 1
      ensures Valid()
      ensures entries == [] && this.capacity == capacity && this.ttl == ttl
    {
      entries := [];
      this.capacity := capacity;
      this.ttl := ttl;
    }

    /** `get(key)` at instant `now`. */
    method Get(key: K, now: nat) returns (r: Result<V, CacheErr>)
      requires Valid()
      modifies this
      ensures Valid()
      ensures (r, entries) == CacheGet(old(entries), ttl, key, now)
    {
      CacheGetValid(entries, capacity, ttl, key, now);
      var found := Find(entries, key);
      match found
      case None =>
        r := Err(MissingKey);
      case Some(e) =>
        if Age(e.stamp, now) < ttl {
          entries := RemoveKey(entries, key) + [e];
          r := Ok(e.value);
        } else {
          entries := RemoveKey(entries, key);
          r := Err(ValueExpired);
        }
    }

    /** `put(key, value)` at instant `now`: always `Ok`. */
    method Put(key: K, value: V, now: nat) returns (r: Result<(), CacheErr>)
      requires Valid()
      modifies this
      ensures Valid()
      ensures r == Ok(())
      ensures entries == CachePut(old(entries), capacity, key, value, now)
    {
      CachePutValid(entries, capacity, key, value, now);
      if |entries| == capacity {
        entries := entries[1..];
      }
      entries := RemoveKey(entries, key) + [CacheEntry(key, value, now)];
      r := Ok(());
    }
  }
}
