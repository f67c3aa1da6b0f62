/**
 * kerberos_app_srv/src/replay_cache/replay_cache.rs: the application
 * server's replay cache over a `HashMap`, keyed by the DER encoding of
 * each replay entry. Encoding a replay entry cannot fail in this model, so
 * the `unwrap`s never panic and neither operation returns an error.
 */
module MapReplayCache {
  import opened Wrappers
  import opened KerberosTypes
  import opened Codec

  /** The key an entry is stored under. */
  function KeyOf(e: ApReplayEntry): (k: Octets)
    ensures Decode(k) == Ok(DerApReplayEntry(e))
  {
    Encode(DerApReplayEntry(e))
  }

  /** What `contain(e)` answers over the map `cache`. */
  predicate Contained(cache: map<Octets, bool>, e: ApReplayEntry) {
    KeyOf(e) in cache
  }

  /** The cache after storing each of `es` in order, starting from `cache`. */
  function StoreAll(cache: map<Octets, bool>, es: seq<ApReplayEntry>): (r: map<Octets, bool>)
    decreases |es|
  {
    if |es| == 0 then cache else StoreAll(cache[KeyOf(es[0]) := true], es[1..])
  }

  class AppServerReplayCache {
    var cache: map<Octets, bool>

    /** `new`: empty. */
    constructor New()
      ensures cache == map[]
    {
      cache := map[];
    }

    /** `store(e)`: marks the entry's encoding as seen; always `Ok`. */
    method Store(e: ApReplayEntry) returns (r: Result<(), ()>)
      modifies this
      ensures r == Ok(())
      ensures cache == old(cache)[KeyOf(e) := true]
    {
      cache := cache[KeyOf(e) := true];
      r := Ok(());
    }

    /** `contain(e)`: whether the entry's encoding has been stored; always `Ok`. */
    method Contain(e: ApReplayEntry) returns (r: Result<bool, ()>)
      ensures r == Ok(Contained(cache, e))
    {
      r := Ok(KeyOf(e) in cache);
    }
  }

  /**
   * Starting from the empty cache, an entry is contained exactly when it
   * was one of those stored: stored entries are found, and an entry never
   * stored is not, since different entries encode differently.
   */
  lemma {:induction false} ContainedIffStored(es: seq<ApReplayEntry>, e: ApReplayEntry)
    ensures Contained(StoreAll(map[], es), e) <==> e in es
  {
    StoreAllKeys(map[], es, e);
  }

  lemma {:induction false} StoreAllKeys(cache: map<Octets, bool>, es: seq<ApReplayEntry>, e: ApReplayEntry)
    ensures Contained(StoreAll(cache, es), e) <==> Contained(cache, e) || e in es
    decreases |es|
  {
    if |es| > 0 {
      StoreAllKeys(cache[KeyOf(es[0]) := true], es[1..], e);
      EncodeInjective(DerApReplayEntry(e), DerApReplayEntry(es[0]));
      assert e in es <==> e == es[0] || e in es[1..];
    }
  }

  /** Storing an entry a second time changes nothing. */
  lemma StoreIdempotent(cache: map<Octets, bool>, e: ApReplayEntry)
    ensures cache[KeyOf(e) := true][KeyOf(e) := true] == cache[KeyOf(e) := true]
    ensures Contained(cache[KeyOf(e) := true], e)
  {
  }
}
