/**
 * kerberos_app_srv/src/auth_cache/auth_cache.rs: the application server's
 * record of the sequence number each user last authenticated with, a map
 * behind a mutex updated in place. The mutex is left out.
 */
module AuthCache {
  /** What `contains(username, sequenceNumber)` answers over the map `cache`. */
  function Contains(cache: map<string, seq<bv8>>, username: string, sequenceNumber: seq<bv8>): (b: bool)
    ensures b <==> username in cache && cache[username] == sequenceNumber
  {
    if username in cache then cache[username] == sequenceNumber else false
  }

  class ApplicationAuthenticationCache {
    var cache: map<string, seq<bv8>>

    /** `new`: empty. */
    constructor New()
      ensures cache == map[]
    {
      cache := map[];
    }

    /** `store(username, sequenceNumber)`: records it, replacing the user's earlier one. */
    method Store(username: string, sequenceNumber: seq<bv8>)
      modifies this
      ensures cache == old(cache)[username := sequenceNumber]
    {
      cache := cache[username := sequenceNumber];
    }

    /** `contains(username, sequenceNumber)`. */
    method ContainsEntry(username: string, sequenceNumber: seq<bv8>) returns (b: bool)
      ensures b == Contains(cache, username, sequenceNumber)
    {
      if username in cache {
        b := cache[username] == sequenceNumber;
      } else {
        b := false;
      }
    }
  }

  /**
   * After `store(u, s)`, `contains(u, s)` holds and `contains(u, t)` fails
   * for every other `t`, whatever was stored before; other users read as
   * before.
   */
  lemma StoreThenContains(cache: map<string, seq<bv8>>, u: string, s: seq<bv8>, t: seq<bv8>, v: string)
    ensures Contains(cache[u := s], u, s)
    ensures t != s ==> !Contains(cache[u := s], u, t)
    ensures v != u ==> Contains(cache[u := s], v, t) == Contains(cache, v, t)
  {
  }

  /** A user never stored is not authenticated with any sequence number. */
  lemma NeverStoredNotContained(u: string, s: seq<bv8>)
    ensures !Contains(map[], u, s)
  {
  }
}
