/**
 * kerberos_app_srv/src/client_address_storage/mod.rs: the address each
 * KRB_AP_REQ was received from, in a `HashMap` keyed by the request's DER
 * encoding. Encoding cannot fail in this model and no other task holds the
 * lock, so only the lookup of a request never stored panics.
 */
module MapClientAddressStorage {
  import opened Wrappers
  import opened KerberosTypes
  import opened Codec

  /** What `get_sender_of_packet(req)` does over the map `cache`: the stored address, or a panic. */
  function SenderOf(cache: map<Octets, HostAddress>, req: KrbApReq): (r: Outcome<HostAddress>)
    ensures r.Returns? <==> Encode(DerApReq(req)) in cache
    ensures r.Returns? ==> r.value == cache[Encode(DerApReq(req))]
  {
    var key := Encode(DerApReq(req));
    if key in cache then Returns(cache[key]) else Panics
  }

  class AppServerClientStorage {
    var cache: map<Octets, HostAddress>

    /** `new`: empty. */
    constructor New()
      ensures cache == map[]
    {
      cache := map[];
    }

    /** `store(req, address)`: records the sender, replacing one stored for the same request. */
    method Store(req: KrbApReq, address: HostAddress)
      modifies this
      ensures cache == old(cache)[Encode(DerApReq(req)) := address]
    {
      cache := cache[Encode(DerApReq(req)) := address];
    }

    /** `get_sender_of_packet(req)`. */
    method GetSenderOfPacket(req: KrbApReq) returns (r: Outcome<HostAddress>)
      ensures r == SenderOf(cache, req)
    {
      var key := Encode(DerApReq(req));
      if key in cache {
        r := Returns(cache[key]);
      } else {
        r := Panics;
      }
    }
  }

  /**
   * After `store(req, a)` the sender of `req` is `a`, whatever was stored
   * for it before, and the sender of any other request is as before:
   * two requests share an entry exactly when they are equal.
   */
  lemma StoreThenGet(cache: map<Octets, HostAddress>, req: KrbApReq, a: HostAddress, other: KrbApReq)
    ensures SenderOf(cache[Encode(DerApReq(req)) := a], req) == Returns(a)
    ensures other != req ==> SenderOf(cache[Encode(DerApReq(req)) := a], other) == SenderOf(cache, other)
  {
    EncodeInjective(DerApReq(req), DerApReq(other));
  }

  /** The sender of a request never stored is a panic. */
  lemma UnknownRequestPanics(req: KrbApReq)
    ensures SenderOf(map[], req) == Panics
  {
  }
}
