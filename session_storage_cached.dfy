/**
 * kerberos_app_srv/src/session_storage.rs: the user sessions of the
 * application server in the ttl LRU cache of kerberos_infra, keyed by the
 * DER encoding of the client's name and realm. Encoding cannot fail in
 * this model, so the `Internal` error of a failed encoding is never
 * returned. The instant of each call is a parameter.
 */
module CachedSessionStorage {
  import opened Wrappers
  import opened KerberosTypes
  import opened TtlLru
  import opened ServerCache
  import opened SrvCacheErrors
  import AppAuthService
  import MapSessionStorage

  type UserSessionEntry = AppAuthService.UserSessionEntry
  type Entries = seq<CacheEntry<Octets, (EncryptionKey, int)>>

  /**
   * What `get_session(cname, crealm)` at `now` finds in the cache entries
   * `es`, and the entries after the lookup: the session while it is younger
   * than the ttl, else none, whether it was never stored or has expired.
   */
  function SessionLookup(es: Entries, cname: PrincipalName, crealm: Realm, now: nat): (r: (Option<UserSessionEntry>, Entries))
    ensures r.0.Some? <==> CacheGet(es, StoreTtl, MapSessionStorage.SessionKey(cname, crealm), now).0.Ok?
    ensures r.0.Some? ==> r.0.value.cname == cname && r.0.value.crealm == crealm
    ensures r.1 == CacheGet(es, StoreTtl, MapSessionStorage.SessionKey(cname, crealm), now).1
  {
    var (found, after) := CacheGet(es, StoreTtl, MapSessionStorage.SessionKey(cname, crealm), now);
    if found.Ok? then
      (Some(AppAuthService.UserSessionEntry(cname, crealm, found.value.0, found.value.1)), after)
    else (None, after)
  }

  class ApplicationSessionStorage {
    const cache: Cache<Octets, (EncryptionKey, int)>

    ghost predicate Valid()
      reads this, cache
    {
      cache.Valid() && cache.capacity == StoreCapacity && cache.ttl == StoreTtl
    }

    /** `new`: an empty cache of capacity 100 and ttl 3600 seconds. */
    constructor New()
      ensures Valid() && fresh(cache) && cache.entries == []
    {
      cache := new Cache.From(CacheSettings(StoreCapacity, StoreTtl));
    }

    /** `get_session(cname, crealm)` at `now`: never an error. */
    method GetSession(cname: PrincipalName, crealm: Realm, now: nat) returns (r: Result<Option<UserSessionEntry>, SrvCacheError>)
      requires Valid()
      modifies cache
      ensures Valid()
      ensures r == Ok(SessionLookup(old(cache.entries), cname, crealm, now).0)
      ensures cache.entries == SessionLookup(old(cache.entries), cname, crealm, now).1
    {
      var key := MapSessionStorage.SessionKey(cname, crealm);
      var found := cache.Get(key, now);
      match found
      case Ok((k, n)) =>
        r := Ok(Some(AppAuthService.UserSessionEntry(cname, crealm, k, n)));
      case Err(_) =>
        r := Ok(None);
    }

    /** `store_session(session)` at `now`: puts its key and sequence number under its client. */
    method StoreSession(session: UserSessionEntry, now: nat) returns (r: Result<(), SrvCacheError>)
      requires Valid()
      modifies cache
      ensures Valid()
      ensures r == Ok(())
      ensures cache.entries == CachePut(old(cache.entries), StoreCapacity,
                MapSessionStorage.SessionKey(session.cname, session.crealm), (session.sessionKey, session.sequenceNumber), now)
    {
      var put := cache.Put(MapSessionStorage.SessionKey(session.cname, session.crealm),
                           (session.sessionKey, session.sequenceNumber), now);
      r := Ok(());
    }
  }

  /** The entries after `store_session(e)` at `t`. */
  function StoredAt(es: Entries, e: UserSessionEntry, t: nat): Entries {
    CachePut(es, StoreCapacity, MapSessionStorage.SessionKey(e.cname, e.crealm), (e.sessionKey, e.sequenceNumber), t)
  }

  /** A session stored at `t` is found, with its key and sequence number, until the ttl has passed. */
  lemma StoreThenGetWithinTtl(es: Entries, e: UserSessionEntry, t: nat, now: nat)
    requires t <= now < t + StoreTtl
    ensures SessionLookup(StoredAt(es, e, t), e.cname, e.crealm, now).0 == Some(e)
  {
    PutThenGet(es, StoreCapacity, StoreTtl, MapSessionStorage.SessionKey(e.cname, e.crealm),
               (e.sessionKey, e.sequenceNumber), t, now);
  }

  /** A session stored at `t` and looked up once the ttl has passed is not found, and is removed. */
  lemma ExpiredSessionNone(es: Entries, e: UserSessionEntry, t: nat, now: nat)
    requires now >= t + StoreTtl
    ensures SessionLookup(StoredAt(es, e, t), e.cname, e.crealm, now).0.None?
    ensures Find(SessionLookup(StoredAt(es, e, t), e.cname, e.crealm, now).1,
                 MapSessionStorage.SessionKey(e.cname, e.crealm)).None?
  {
    var key := MapSessionStorage.SessionKey(e.cname, e.crealm);
    PutStampsNow(es, StoreCapacity, key, (e.sessionKey, e.sequenceNumber), t);
    ExpiredGetRemoves(StoredAt(es, e, t), StoreTtl, key, now, now);
  }
}
