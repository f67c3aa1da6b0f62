/**
 * kerberos_app_srv/src/client_address_storage.rs: the address each
 * KRB_AP_REQ was received from, in the ttl LRU cache of kerberos_infra,
 * keyed by the request's DER encoding. Encoding cannot fail in this model.
 * The instant of each call is a parameter.
 */
module CachedClientAddressStorage {
  import opened Wrappers
  import opened KerberosTypes
  import opened Codec
  import opened TtlLru
  import opened ServerCache
  import opened SrvCacheErrors

  type Entries = seq<CacheEntry<Octets, HostAddress>>

  /** What `get_sender_of_packet(req)` at `now` answers over `es`, and the entries after it. */
  function SenderLookup(es: Entries, req: KrbApReq, now: nat): (r: (Result<HostAddress, SrvCacheError>, Entries))
    ensures r.0.Ok? <==> CacheGet(es, StoreTtl, Encode(DerApReq(req)), now).0.Ok?
    ensures r.0.Ok? ==> r.0.value == CacheGet(es, StoreTtl, Encode(DerApReq(req)), now).0.value
    ensures r.0.Err? ==> r.0.error == FromCacheErr(CacheGet(es, StoreTtl, Encode(DerApReq(req)), now).0.error)
    ensures r.1 == CacheGet(es, StoreTtl, Encode(DerApReq(req)), now).1
  {
    var (found, after) := CacheGet(es, StoreTtl, Encode(DerApReq(req)), now);
    match found
    case Ok(address) => (Ok(address), after)
    case Err(err) => (Err(FromCacheErr(err)), after)
  }

  class AppServerClientStorage {
    const cache: Cache<Octets, HostAddress>

    ghost predicate Valid()
      reads this, cache
    {
      cache.Valid() && cache.capacity == StoreCapacity && cache.ttl == StoreTtl
    }

    /** `new`: an empty cache of capacity 100 and ttl 3600 seconds. */
    constructor New()
      ensures Valid() && fresh(cache) && cache.entries == []
    {
      cache := new Cache.From(CacheSettings(StoreCapacity, StoreTtl));
    }

    /** `store(req, address)` at `now`. */
    method Store(req: KrbApReq, address: HostAddress, now: nat) returns (r: Result<(), SrvCacheError>)
      requires Valid()
      modifies cache
      ensures Valid()
      ensures r == Ok(())
      ensures cache.entries == CachePut(old(cache.entries), StoreCapacity, Encode(DerApReq(req)), address, now)
    {
      var put := cache.Put(Encode(DerApReq(req)), address, now);
      r := Ok(());
    }

    /** `get_sender_of_packet(req)` at `now`. */
    method GetSenderOfPacket(req: KrbApReq, now: nat) returns (r: Result<HostAddress, SrvCacheError>)
      requires Valid()
      modifies cache
      ensures Valid()
      ensures (r, cache.entries) == SenderLookup(old(cache.entries), req, now)
    {
      var found := cache.Get(Encode(DerApReq(req)), now);
      match found
      case Ok(address) =>
        r := Ok(address);
      case Err(err) =>
        r := Err(FromCacheErr(err));
    }
  }

  /** An address stored at `t` is the sender of the request until the ttl has passed. */
  lemma StoreThenGetWithinTtl(es: Entries, req: KrbApReq, a: HostAddress, t: nat, now: nat)
    requires t <= now < t + StoreTtl
    ensures SenderLookup(CachePut(es, StoreCapacity, Encode(DerApReq(req)), a, t), req, now).0 == Ok(a)
  {
    PutThenGet(es, StoreCapacity, StoreTtl, Encode(DerApReq(req)), a, t, now);
  }

  /** A request never stored is the error `MissingKey`. */
  lemma UnknownRequestMissing(es: Entries, req: KrbApReq, now: nat)
    requires Find(es, Encode(DerApReq(req))).None?
    ensures SenderLookup(es, req, now).0 == Err(SrvCacheError.MissingKey)
  {
    AbsentGetMissing(es, StoreTtl, Encode(DerApReq(req)), now);
  }

  /** A request stored at `t` and looked up once the ttl has passed is the error `Expired`. */
  lemma ExpiredRequestIsError(es: Entries, req: KrbApReq, a: HostAddress, t: nat, now: nat)
    requires now >= t + StoreTtl
    ensures SenderLookup(CachePut(es, StoreCapacity, Encode(DerApReq(req)), a, t), req, now).0 == Err(Expired)
  {
    var key := Encode(DerApReq(req));
    PutStampsNow(es, StoreCapacity, key, a, t);
    ExpiredGetRemoves(CachePut(es, StoreCapacity, key, a, t), StoreTtl, key, now, now);
  }
}
