/**
 * kerberos_app_srv/src/session_storage/session_storage.rs: the user
 * sessions of the application server in a `HashMap`, keyed by the DER
 * encoding of the client's name and realm.
 *
 * As written, the map's key is that encoding converted to a `String` with
 * `String::from_utf8(..).unwrap()`. A DER encoding is not UTF-8 text: the
 * encoding of a session request always holds an octet that UTF-8 only
 * allows as a continuation where a character must start, so every store
 * and every lookup panics (`MapDerToString`, `SessionKeyNeverUtf8`). The
 * storage modelled here keys the map by the encoding itself, as the
 * cache-backed storage of session_storage.rs does.
 */
module MapSessionStorage {
  import opened Wrappers
  import opened TagLength
  import opened KerberosTypes
  import opened Codec
  import AppAuthService

  type UserSessionEntry = AppAuthService.UserSessionEntry

  // --------------------------------------------------------- UTF-8 (RFC 3629)

  /** An octet of the form 10xxxxxx. */
  predicate IsContinuation(b: bv8) {
    0x80 <= b <= 0xBF
  }

  /** Well-formed UTF-8, as section 4 of RFC 3629 defines it and `String::from_utf8` checks it. */
  predicate Utf8Valid(s: seq<bv8>)
    decreases |s|
  {
    if |s| == 0 then true
    else
      var b := s[0];
      if b < 0x80 then Utf8Valid(s[1..])
      else if 0xC2 <= b <= 0xDF then
        |s| >= 2 && IsContinuation(s[1]) && Utf8Valid(s[2..])
      else if b == 0xE0 then
        |s| >= 3 && 0xA0 <= s[1] <= 0xBF && IsContinuation(s[2]) && Utf8Valid(s[3..])
      else if (0xE1 <= b <= 0xEC) || (0xEE <= b <= 0xEF) then
        |s| >= 3 && IsContinuation(s[1]) && IsContinuation(s[2]) && Utf8Valid(s[3..])
      else if b == 0xED then
        |s| >= 3 && 0x80 <= s[1] <= 0x9F && IsContinuation(s[2]) && Utf8Valid(s[3..])
      else if b == 0xF0 then
        |s| >= 4 && 0x90 <= s[1] <= 0xBF && IsContinuation(s[2]) && IsContinuation(s[3]) && Utf8Valid(s[4..])
      else if 0xF1 <= b <= 0xF3 then
        |s| >= 4 && IsContinuation(s[1]) && IsContinuation(s[2]) && IsContinuation(s[3]) && Utf8Valid(s[4..])
      else if b == 0xF4 then
        |s| >= 4 && 0x80 <= s[1] <= 0x8F && IsContinuation(s[2]) && IsContinuation(s[3]) && Utf8Valid(s[4..])
      else false
  }

  /** ASCII text followed by a continuation octet is not UTF-8, whatever follows. */
  lemma {:induction false} AsciiThenContinuation(p: seq<bv8>, b: bv8, rest: seq<bv8>)
    requires forall i :: 0 <= i < |p| ==> p[i] < 0x80
    requires IsContinuation(b)
    ensures !Utf8Valid(p + [b] + rest)
    decreases |p|
  {
    if |p| > 0 {
      assert (p + [b] + rest)[1..] == p[1..] + [b] + rest;
      AsciiThenContinuation(p[1..], b, rest);
    } else {
      assert p + [b] + rest == [b] + rest;
    }
  }

  // ------------------------------------------------ the key as written

  /**
   * `map_der_to_string` on the encoded octets: the text they spell when
   * they are UTF-8, else the panic of `unwrap`.
   */
  function MapDerToString(encoded: seq<bv8>): (r: Outcome<seq<bv8>>)
    ensures r.Returns? <==> Utf8Valid(encoded)
    ensures r.Returns? ==> r.value == encoded
  {
    if Utf8Valid(encoded) then Returns(encoded) else Panics
  }

  /**
   * The first octets of the DER encoding of an `AppServerSessionRequest`
   * whose contents take `total` octets and whose `cname` contents take
   * `name`: the SEQUENCE identifier and length, `cname`'s SEQUENCE
   * identifier and length, and the identifier of its explicitly tagged
   * context-specific field 0, `name-type`.
   */
  function SessionRequestPrefix(total: nat, name: nat): seq<bv8>
    requires total < 0x1_0000_0000 && name < 0x1_0000_0000
  {
    [0x30] + LengthOctets(total) + [0x30] + LengthOctets(name) + [0xA0]
  }

  /** A short-form length is one ASCII octet; a long-form one starts with a continuation octet. */
  lemma LengthLeadOctet(n: nat)
    requires n < 0x1_0000_0000
    ensures n < 128 ==> LengthOctets(n) == [n as bv8] && n as bv8 < 0x80
    ensures n >= 128 ==> IsContinuation(LengthOctets(n)[0])
  {
    if n >= 128 {
      BigEndianOctetsCount(n);
      var c := |BigEndianOctets(n)|;
      assert 1 <= c <= 4;
      assert 0x80 | c as bv8 == (128 + c) as bv8 by {
        if c == 1 {} else if c == 2 {} else if c == 3 {} else {}
      }
    }
  }

  /**
   * Whatever the lengths and the octets after the prefix, the encoding of a
   * session request is not UTF-8, so `map_der_to_string` panics on every
   * key that `get_session` and `store_session` compute.
   */
  lemma SessionKeyNeverUtf8(total: nat, name: nat, rest: seq<bv8>)
    requires total < 0x1_0000_0000 && name < 0x1_0000_0000
    ensures !Utf8Valid(SessionRequestPrefix(total, name) + rest)
    ensures MapDerToString(SessionRequestPrefix(total, name) + rest) == Panics
  {
    LengthLeadOctet(total);
    LengthLeadOctet(name);
    var s := SessionRequestPrefix(total, name) + rest;
    var lt, ln := LengthOctets(total), LengthOctets(name);
    if total >= 128 {
      assert s == [0x30] + [lt[0]] + (lt[1..] + [0x30] + ln + [0xA0] + rest);
      AsciiThenContinuation([0x30], lt[0], lt[1..] + [0x30] + ln + [0xA0] + rest);
    } else if name >= 128 {
      assert s == [0x30, total as bv8, 0x30] + [ln[0]] + (ln[1..] + [0xA0] + rest);
      AsciiThenContinuation([0x30, total as bv8, 0x30], ln[0], ln[1..] + [0xA0] + rest);
    } else {
      assert s == [0x30, total as bv8, 0x30, name as bv8] + [0xA0] + rest;
      AsciiThenContinuation([0x30, total as bv8, 0x30, name as bv8], 0xA0, rest);
    }
  }

  // --------------------------------------------- the storage, keyed by octets

  /** The key of the session of `cname` in `crealm`. */
  function SessionKey(cname: PrincipalName, crealm: Realm): (k: Octets)
    ensures Decode(k) == Ok(DerSessionRequest(AppServerSessionRequest(cname, crealm)))
  {
    Encode(DerSessionRequest(AppServerSessionRequest(cname, crealm)))
  }

  /** What `get_session(cname, crealm)` finds in the map `sessions`. */
  function SessionOf(sessions: map<Octets, (EncryptionKey, int)>, cname: PrincipalName, crealm: Realm)
    : (r: Option<UserSessionEntry>)
    ensures r.Some? <==> SessionKey(cname, crealm) in sessions
    ensures r.Some? ==> r.value.cname == cname && r.value.crealm == crealm
    ensures r.Some? ==> (r.value.sessionKey, r.value.sequenceNumber) == sessions[SessionKey(cname, crealm)]
  {
    var key := SessionKey(cname, crealm);
    if key in sessions then
      Some(AppAuthService.UserSessionEntry(cname, crealm, sessions[key].0, sessions[key].1))
    else None
  }

  class ApplicationSessionStorage {
    var sessions: map<Octets, (EncryptionKey, int)>

    /** `new`: empty. */
    constructor New()
      ensures sessions == map[]
    {
      sessions := map[];
    }

    /** `get_session(cname, crealm)`: always `Ok`. */
    method GetSession(cname: PrincipalName, crealm: Realm) returns (r: Result<Option<UserSessionEntry>, ()>)
      ensures r == Ok(SessionOf(sessions, cname, crealm))
    {
      var key := SessionKey(cname, crealm);
      if key in sessions {
        var (k, n) := sessions[key];
        r := Ok(Some(AppAuthService.UserSessionEntry(cname, crealm, k, n)));
      } else {
        r := Ok(None);
      }
    }

    /** `store_session(session)`: records its key and sequence number under its client; always `Ok`. */
    method StoreSession(session: UserSessionEntry) returns (r: Result<(), ()>)
      modifies this
      ensures r == Ok(())
      ensures sessions == old(sessions)[SessionKey(session.cname, session.crealm) := (session.sessionKey, session.sequenceNumber)]
    {
      sessions := sessions[SessionKey(session.cname, session.crealm) := (session.sessionKey, session.sequenceNumber)];
      r := Ok(());
    }
  }

  /** The sessions after `store_session(e)`. */
  function Stored(sessions: map<Octets, (EncryptionKey, int)>, e: UserSessionEntry): map<Octets, (EncryptionKey, int)> {
    sessions[SessionKey(e.cname, e.crealm) := (e.sessionKey, e.sequenceNumber)]
  }

  /**
   * After `store_session(e)`, the session of `e`'s client is `e`, replacing
   * any earlier one; the session of every other client is as before.
   */
  lemma StoreThenGet(sessions: map<Octets, (EncryptionKey, int)>, e: UserSessionEntry, cname: PrincipalName, crealm: Realm)
    ensures SessionOf(Stored(sessions, e), e.cname, e.crealm) == Some(e)
    ensures (cname, crealm) != (e.cname, e.crealm) ==>
              SessionOf(Stored(sessions, e), cname, crealm) == SessionOf(sessions, cname, crealm)
  {
    EncodeInjective(DerSessionRequest(AppServerSessionRequest(cname, crealm)),
                    DerSessionRequest(AppServerSessionRequest(e.cname, e.crealm)));
  }

  /** A client with no stored session has none. */
  lemma NeverStoredNone(cname: PrincipalName, crealm: Realm)
    ensures SessionOf(map[], cname, crealm).None?
  {
  }
}
