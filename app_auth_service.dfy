/**
 * The application server's side of the client/server authentication
 * exchange in kerberos/src/application_authentication_service (section
 * 3.2.3 of RFC 4120): the guards `handle_krb_ap_req` applies in order, the
 * replay entry and user session it stores, the KRB_AP_REP it returns, and
 * `is_user_authenticated`, which later requests consult.
 *
 * The clock is one instant given as a parameter; the client address storage
 * is represented by its answer for the request being handled; the replay
 * cache and the session storage are the service's fields.
 */
module AppAuthService {
  import opened Wrappers
  import opened Constants
  import opened ErrorCodes
  import opened Flags
  import opened KerberosTypes
  import opened Codec
  import opened KrbErrorSpec
  import opened CsMessage
  import opened ClientUtil

  /** `ServerError` of this service: a KRB_ERROR or an internal failure. */
  datatype ServerError = ProtocolError(msg: KrbErrorMsg) | Internal

  /** `UserSessionEntry`, with the `sequence_number` field the handler fills. */
  datatype UserSessionEntry = UserSessionEntry(
    cname: PrincipalName, crealm: Realm, sessionKey: EncryptionKey, sequenceNumber: int)

  /**
   * The immutable fields of `ApplicationAuthenticationService`; `crypto`
   * lists the etypes of its cryptosystems in order, and the clock skew is in
   * whole seconds.
   */
  datatype AppServiceConfig = AppServiceConfig(
    realm: Realm,
    sname: PrincipalName,
    serviceKey: EncryptionKey,
    acceptEmptyAddressTicket: bool,
    ticketAllowableClockSkew: nat,
    crypto: seq<int>)

  /** `verify_msg_type`: only message type 14 (KRB_AP_REQ) passes. */
  function VerifyMsgType(msgType: int): (r: Result<(), Ecode>)
    ensures r.Ok? <==> msgType == 14
    ensures r.Err? ==> r.error == KRB_AP_ERR_MSG_TYPE
  {
    if msgType == 14 then Ok(()) else Err(KRB_AP_ERR_MSG_TYPE)
  }

  /** `get_key_for_decrypt`: the service key's value under the ticket's etype. */
  function KeyForDecrypt(c: AppServiceConfig, etype: int): (k: EncryptionKey)
    ensures k.keytype == etype && k.keyvalue == c.serviceKey.keyvalue
  {
    EncryptionKey(etype, c.serviceKey.keyvalue)
  }

  /** `search_for_addresses`: the sender the address storage reports is one of the ticket's addresses. */
  function SearchForAddresses(sender: Result<HostAddress, ()>, addrs: seq<HostAddress>): (b: bool)
    ensures b <==> sender.Ok? && exists i :: 0 <= i < |addrs| && addrs[i] == sender.value
  {
    sender.Ok? && sender.value in addrs
  }

  /**
   * `is_user_authenticated`: the session storage's answer names a session
   * whose sequence number is the one given; a missing session or a storage
   * error means not authenticated.
   */
  function IsUserAuthenticated(lookup: Result<Option<UserSessionEntry>, ()>, sequenceNumber: int): (b: bool)
    ensures b <==> lookup.Ok? && lookup.value.Some? && lookup.value.value.sequenceNumber == sequenceNumber
  {
    match lookup
    case Err(_) => false
    case Ok(None) => false
    case Ok(Some(s)) => s.sequenceNumber == sequenceNumber
  }

  // ------------------------------------------------------------ error messages

  predicate Prepared(b: KrbErrorMsgBuilder) {
    b.stime.Some? && b.susec.Some? && b.realm.Some? && b.sname.Some?
  }

  /** `default_error_builder`: server time, microseconds, the service's name and realm. */
  function DefaultErrorBuilder(c: AppServiceConfig, now: Time, usec: nat): (b: KrbErrorMsgBuilder)
    ensures Prepared(b)
    ensures b.stime == Some(now) && b.susec == Some(usec as int)
    ensures b.sname == Some(c.sname) && b.realm == Some(c.realm)
    ensures b.ctime.None? && b.cusec.None? && b.crealm.None? && b.cname.None? && b.eData.None?
  {
    EmptyKrbErrorMsgBuilder.(stime := Some(now), susec := Some(usec as int), sname := Some(c.sname), realm := Some(c.realm))
  }

  /** The builder after the client's ctime, cusec, crealm and cname have been recorded. */
  function WithClient(b: KrbErrorMsgBuilder, a: Authenticator): (r: KrbErrorMsgBuilder)
    ensures Prepared(b) ==> Prepared(r)
    ensures r.stime == b.stime && r.susec == b.susec && r.sname == b.sname && r.realm == b.realm
    ensures r.eData == b.eData
    ensures r.ctime == Some(Some(a.ctime)) && r.cusec == Some(Some(a.cusec))
    ensures r.crealm == Some(Some(a.crealm)) && r.cname == Some(Some(a.cname))
  {
    b.(ctime := Some(Some(a.ctime)), cusec := Some(Some(a.cusec)), crealm := Some(Some(a.crealm)), cname := Some(Some(a.cname)))
  }

  /** `build_protocol_error(code)`: the unwrap never panics on a prepared builder. */
  function ErrorWith(b: KrbErrorMsgBuilder, code: Ecode): (e: ServerError)
    requires Prepared(b)
    ensures e.ProtocolError? && e.msg.errorCode == code
    ensures e.msg.stime == b.stime.value && e.msg.susec == b.susec.value
    ensures e.msg.sname == b.sname.value && e.msg.realm == b.realm.value
    ensures e.msg.ctime == Flatten(b.ctime) && e.msg.cusec == Flatten(b.cusec)
    ensures e.msg.crealm == Flatten(b.crealm) && e.msg.cname == Flatten(b.cname)
    ensures e.msg.eData == Flatten(b.eData)
  {
    ProtocolError(BuildKrbError(b.(errorCode := Some(code))).value)
  }

  function CodeOf(e: ServerError): Option<Ecode> {
    if e.ProtocolError? then Some(e.msg.errorCode) else None
  }

  /** The e-data of the missing-sequence-number error: the ASCII octets of "Sequence number must be provided". */
  const MissingSequenceNumber: seq<bv8> := [
    0x53, 0x65, 0x71, 0x75, 0x65, 0x6e, 0x63, 0x65, 0x20, 0x6e, 0x75, 0x6d, 0x62, 0x65, 0x72, 0x20,
    0x6d, 0x75, 0x73, 0x74, 0x20, 0x62, 0x65, 0x20, 0x70, 0x72, 0x6f, 0x76, 0x69, 0x64, 0x65, 0x64]

  // ------------------------------------------------------------------ guards

  /** The service's cryptosystem for an etype, as `crypto.iter().find(...)` picks it. */
  predicate Supports(c: AppServiceConfig, etype: int) {
    etype in c.crypto
  }

  /** The ticket time the lifetime check uses: the start time, else the authentication time. */
  function TicketTime(t: EncTicketPart): (r: Time)
    ensures t.starttime.Some? ==> r == t.starttime.value
    ensures t.starttime.None? ==> r == t.authtime
  {
    if t.starttime.Some? then t.starttime.value else t.authtime
  }

  /** The address guard: with empty-address tickets refused, a ticket with addresses must list the sender. */
  function AddressCheck(acceptEmpty: bool, caddr: Option<seq<HostAddress>>, sender: Result<HostAddress, ()>): (r: Result<(), Ecode>)
    ensures r.Ok? <==> acceptEmpty || caddr.None? || SearchForAddresses(sender, caddr.value)
    ensures r.Err? ==> r.error == KRB_AP_ERR_BADADDR
  {
    if !acceptEmpty && caddr.Some? && !SearchForAddresses(sender, caddr.value) then Err(KRB_AP_ERR_BADADDR) else Ok(())
  }

  /**
   * The expiry guard: `endtime - now` must exist and exceed the skew, so a
   * ticket is refused from `skew` seconds before its end time on.
   */
  predicate NotExpired(endtime: Time, now: Time, skew: nat) {
    endtime >= now && endtime - now > skew
  }

  lemma NotExpiredIffMargin(endtime: Time, now: Time, skew: nat)
    ensures NotExpired(endtime, now, skew) <==> endtime > now + skew
  {
  }

  /**
   * What an accepted request satisfies, in the order the guards check it:
   * message type 14; a supported ticket etype under which the service key
   * seals part `t`; a supported session-key type under which `t`'s session
   * key seals authenticator `a`; `a` names `t`'s client; `a`'s time and the
   * ticket time within the skew of `now`; the address guard; no INVALID
   * flag; and an end time more than the skew away.
   */
  predicate Accepted(c: AppServiceConfig, apReq: KrbApReq, now: Time, sender: Result<HostAddress, ()>,
                     t: EncTicketPart, a: Authenticator) {
    && apReq.msgType == 14
    && Supports(c, apReq.ticket.encPart.etype)
    && apReq.ticket.encPart.cipher == Encrypt(apReq.ticket.encPart.etype, c.serviceKey.keyvalue, Encode(DerEncTicketPart(t)))
    && Supports(c, t.key.keytype)
    && apReq.authenticator.cipher == Encrypt(t.key.keytype, t.key.keyvalue, Encode(DerAuthenticator(a)))
    && a.crealm == t.crealm && a.cname == t.cname
    && IsWithinClockSkew(a.ctime, now, c.ticketAllowableClockSkew)
    && AddressCheck(c.acceptEmptyAddressTicket, t.caddr, sender).Ok?
    && IsWithinClockSkew(TicketTime(t), now, c.ticketAllowableClockSkew)
    && !IsSet(t.flags, Invalid)
    && NotExpired(t.endtime, now, c.ticketAllowableClockSkew)
  }

  /** Decode a decrypted ticket part: a failure is reported as bad integrity. */
  function DecodeTicketPart(plain: Octets): (r: Option<EncTicketPart>)
    ensures r.Some? <==> exists t :: plain == Encode(DerEncTicketPart(t))
    ensures r.Some? ==> plain == Encode(DerEncTicketPart(r.value))
  {
    var d := Decode(plain);
    if d.Ok? && d.value.DerEncTicketPart? then Some(d.value.encTicketPart) else None
  }

  function DecodeAuthenticator(plain: Octets): (r: Option<Authenticator>)
    ensures r.Some? <==> exists a :: plain == Encode(DerAuthenticator(a))
    ensures r.Some? ==> plain == Encode(DerAuthenticator(r.value))
  {
    var d := Decode(plain);
    if d.Ok? && d.value.DerAuthenticator? then Some(d.value.authenticator) else None
  }

  /**
   * The guards of `handle_krb_ap_req` in source order, up to the replay
   * store. The `expect` on the ticket's cryptosystem panics when the ticket's
   * etype is not supported; a failed decryption is internal; a failed decoding
   * is bad integrity. The commented-out replay lookup is not part of it.
   */
  function CheckAppApReq(c: AppServiceConfig, apReq: KrbApReq, now: Time, usec: nat, sender: Result<HostAddress, ()>)
    : (r: Outcome<Result<(EncTicketPart, Authenticator), ServerError>>)
    ensures r.Panics? <==> apReq.msgType == 14 && !Supports(c, apReq.ticket.encPart.etype)
    ensures r.Returns? && r.value.Ok? ==> Accepted(c, apReq, now, sender, r.value.value.0, r.value.value.1)
    ensures apReq.msgType != 14 ==> r.Returns? && CodeOf(r.value.error) == Some(KRB_AP_ERR_MSG_TYPE)
    ensures r == Returns(Err(Internal)) <==>
              apReq.msgType == 14 && Supports(c, apReq.ticket.encPart.etype)
              && var dt := Decrypt(apReq.ticket.encPart.etype, c.serviceKey.keyvalue, apReq.ticket.encPart.cipher);
                 (dt.Err?
                  || (DecodeTicketPart(dt.value).Some? && Supports(c, DecodeTicketPart(dt.value).value.key.keytype)
                      && Decrypt(DecodeTicketPart(dt.value).value.key.keytype, DecodeTicketPart(dt.value).value.key.keyvalue,
                                 apReq.authenticator.cipher).Err?))
    ensures r.Returns? && r.value.Err? && r.value.error.ProtocolError? ==>
              r.value.error.msg.stime == now && r.value.error.msg.susec == usec
              && r.value.error.msg.sname == c.sname && r.value.error.msg.realm == c.realm
              && r.value.error.msg.eData.None?
    ensures r.Returns? && r.value.Err? && r.value.error.ProtocolError? ==>
              (r.value.error.msg.ctime.Some? <==>
                 CodeOf(r.value.error).value in {KRB_AP_ERR_BADADDR, KRB_AP_ERR_TKT_NYV, KRB_AP_ERR_TKT_EXPIRED})
    ensures r.Returns? && r.value.Err? && r.value.error.ProtocolError? ==>
              CodeOf(r.value.error).value in {KRB_AP_ERR_MSG_TYPE, KRB_AP_ERR_BAD_INTEGRITY, KDC_ERR_ETYPE_NOSUPP,
                                              KRB_AP_ERR_BADMATCH, KRB_AP_ERR_SKEW, KRB_AP_ERR_BADADDR,
                                              KRB_AP_ERR_TKT_NYV, KRB_AP_ERR_TKT_EXPIRED}
  {
    var b := DefaultErrorBuilder(c, now, usec);
    var skew := c.ticketAllowableClockSkew;
    if VerifyMsgType(apReq.msgType).Err? then Returns(Err(ErrorWith(b, KRB_AP_ERR_MSG_TYPE)))
    else
      var key := KeyForDecrypt(c, apReq.ticket.encPart.etype);
      if !Supports(c, key.keytype) then Panics
      else
        var dt := Decrypt(key.keytype, key.keyvalue, apReq.ticket.encPart.cipher);
        if dt.Err? then Returns(Err(Internal))
        else
          var ot := DecodeTicketPart(dt.value);
          if ot.None? then Returns(Err(ErrorWith(b, KRB_AP_ERR_BAD_INTEGRITY)))
          else
            var t := ot.value;
            if !Supports(c, t.key.keytype) then Returns(Err(ErrorWith(b, KDC_ERR_ETYPE_NOSUPP)))
            else
              var da := Decrypt(t.key.keytype, t.key.keyvalue, apReq.authenticator.cipher);
              if da.Err? then Returns(Err(Internal))
              else
                var oa := DecodeAuthenticator(da.value);
                if oa.None? then Returns(Err(ErrorWith(b, KRB_AP_ERR_BAD_INTEGRITY)))
                else
                  var a := oa.value;
                  if a.crealm != t.crealm || a.cname != t.cname then Returns(Err(ErrorWith(b, KRB_AP_ERR_BADMATCH)))
                  else if !IsWithinClockSkew(a.ctime, now, skew) then Returns(Err(ErrorWith(b, KRB_AP_ERR_SKEW)))
                  else
                    var b2 := WithClient(b, a);
                    if AddressCheck(c.acceptEmptyAddressTicket, t.caddr, sender).Err? then
                      Returns(Err(ErrorWith(b2, KRB_AP_ERR_BADADDR)))
                    else if !IsWithinClockSkew(TicketTime(t), now, skew) || IsSet(t.flags, Invalid) then
                      Returns(Err(ErrorWith(b2, KRB_AP_ERR_TKT_NYV)))
                    else if !NotExpired(t.endtime, now, skew) then
                      Returns(Err(ErrorWith(b2, KRB_AP_ERR_TKT_EXPIRED)))
                    else Returns(Ok((t, a)))
  }

  /** A request satisfying every guard for a sealed ticket and authenticator is accepted with exactly those. */
  lemma AcceptedRequestPasses(c: AppServiceConfig, apReq: KrbApReq, now: Time, usec: nat, sender: Result<HostAddress, ()>,
                              t: EncTicketPart, a: Authenticator)
    requires Accepted(c, apReq, now, sender, t, a)
    ensures CheckAppApReq(c, apReq, now, usec, sender) == Returns(Ok((t, a)))
  {
    DecryptEncrypt(apReq.ticket.encPart.etype, c.serviceKey.keyvalue, Encode(DerEncTicketPart(t)));
    DecryptEncrypt(t.key.keytype, t.key.keyvalue, Encode(DerAuthenticator(a)));
  }

  /** A ticket sealed under another key than the service key fails as an internal error, not as a KRB_ERROR. */
  lemma WrongServiceKeyIsInternal(c: AppServiceConfig, apReq: KrbApReq, now: Time, usec: nat, sender: Result<HostAddress, ()>,
                                  otherKey: Octets, plain: Octets)
    requires apReq.msgType == 14 && Supports(c, apReq.ticket.encPart.etype)
    requires otherKey != c.serviceKey.keyvalue
    requires apReq.ticket.encPart.cipher == Encrypt(apReq.ticket.encPart.etype, otherKey, plain)
    ensures CheckAppApReq(c, apReq, now, usec, sender) == Returns(Err(Internal))
  {
    DecryptWrongKey(apReq.ticket.encPart.etype, otherKey, c.serviceKey.keyvalue, plain);
  }

  // ------------------------------------------------------------------- reply

  /** `num as u32` on an `Int32`: the two's-complement reinterpretation. */
  function AsU32(n: int): (u: nat)
    ensures u < 0x1_0000_0000
    ensures -0x8000_0000 <= n < 0 ==> u == n + 0x1_0000_0000
    ensures 0 <= n < 0x1_0000_0000 ==> u == n
  {
    n % 0x1_0000_0000
  }

  /** The EncAPRepPart of the reply: ctime and cusec echoed, no subkey, the sequence number cast to unsigned. */
  function RepPart(a: Authenticator): (p: EncApRepPart)
    ensures p.ctime == a.ctime && p.cusec == a.cusec && p.subkey.None?
    ensures p.seqNumber.Some? <==> a.seqNumber.Some?
    ensures a.seqNumber.Some? ==> p.seqNumber.value == AsU32(a.seqNumber.value)
  {
    NewEncApRepPart(a.ctime, a.cusec, None, if a.seqNumber.Some? then Some(AsU32(a.seqNumber.value)) else None)
  }

  /** The KRB_AP_REP: the part encrypted by the first cryptosystem under the session key, with the ticket's etype and kvno. */
  function ApReply(c: AppServiceConfig, apReq: KrbApReq, t: EncTicketPart, a: Authenticator): (r: KrbApRep)
    requires |c.crypto| > 0
    ensures r.pvno == 5 && r.msgType == 15
    ensures r.encPart.etype == apReq.ticket.encPart.etype && r.encPart.kvno == apReq.ticket.encPart.kvno
    ensures Decrypt(c.crypto[0], t.key.keyvalue, r.encPart.cipher) == Ok(Encode(DerEncApRepPart(RepPart(a))))
  {
    NewKrbApRep(EncryptedData(apReq.ticket.encPart.etype, apReq.ticket.encPart.kvno,
                              Encrypt(c.crypto[0], t.key.keyvalue, Encode(DerEncApRepPart(RepPart(a))))))
  }

  /** The KRB_ERROR answering an authenticator without a sequence number: generic, with an explanatory e-data. */
  function MissingSequenceError(c: AppServiceConfig, now: Time, usec: nat, a: Authenticator): (e: ServerError)
    ensures e.ProtocolError? && e.msg.errorCode == KRB_ERR_GENERIC
    ensures e.msg.eData == Some(Raw(MissingSequenceNumber))
    ensures e.msg.ctime == Some(a.ctime) && e.msg.cname == Some(a.cname)
  {
    var b := WithClient(DefaultErrorBuilder(c, now, usec), a).(eData := Some(Some(Raw(MissingSequenceNumber))));
    ErrorWith(b, KRB_ERR_GENERIC)
  }

  /** The replay entry of an accepted authenticator: its ctime, cusec, cname and crealm. */
  function ReplayEntryFor(a: Authenticator): (e: ApReplayEntry)
    ensures e.ctime == a.ctime && e.cusec == a.cusec && e.cname == a.cname && e.crealm == a.crealm
  {
    ApReplayEntry(a.ctime, a.cusec, a.cname, a.crealm)
  }

  /** Sessions are looked up by client name and realm. */
  function SessionKey(a: Authenticator): (k: (PrincipalName, Realm))
    ensures k.0 == a.cname && k.1 == a.crealm
  {
    (a.cname, a.crealm)
  }

  /** The session stored for an accepted request: the client, the ticket's session key and the sequence number. */
  function SessionFor(t: EncTicketPart, a: Authenticator): (s: UserSessionEntry)
    requires a.seqNumber.Some?
    ensures s.cname == a.cname && s.crealm == a.crealm && s.sessionKey == t.key
    ensures s.sequenceNumber == a.seqNumber.value
  {
    UserSessionEntry(a.cname, a.crealm, t.key, a.seqNumber.value)
  }

  // ------------------------------------------------------------------ service

  /** `ApplicationAuthenticationService`: its configuration, the replay cache and the user sessions it stores into. */
  class ApplicationAuthenticationService {
    const config: AppServiceConfig
    var replayCache: seq<ApReplayEntry>
    var sessions: map<(PrincipalName, Realm), UserSessionEntry>

    constructor (config: AppServiceConfig)
      ensures this.config == config && replayCache == [] && sessions == map[]
    {
      this.config := config;
      replayCache := [];
      sessions := map[];
    }

    /** `is_user_authenticated` over the session storage. */
    method IsAuthenticated(cname: PrincipalName, crealm: Realm, sequenceNumber: int) returns (b: bool)
      ensures b <==> (cname, crealm) in sessions && sessions[(cname, crealm)].sequenceNumber == sequenceNumber
    {
      var lookup: Result<Option<UserSessionEntry>, ()> :=
        Ok(if (cname, crealm) in sessions then Some(sessions[(cname, crealm)]) else None);
      b := IsUserAuthenticated(lookup, sequenceNumber);
    }

    /**
     * `handle_krb_ap_req`: after the guards pass, the replay entry is stored
     * first; an authenticator without a sequence number is then refused with
     * the entry already stored; otherwise the session is stored under the
     * client's name and realm and the reply is returned.
     */
    method HandleKrbApReq(apReq: KrbApReq, now: Time, usec: nat, sender: Result<HostAddress, ()>)
      returns (r: Outcome<Result<KrbApRep, ServerError>>)
      modifies this
      ensures var ck := CheckAppApReq(config, apReq, now, usec, sender);
              !(ck.Returns? && ck.value.Ok?) ==>
                r == (if ck.Panics? then Panics else Returns(Err(ck.value.error)))
                && replayCache == old(replayCache) && sessions == old(sessions)
      ensures var ck := CheckAppApReq(config, apReq, now, usec, sender);
              ck.Returns? && ck.value.Ok? ==>
                replayCache == old(replayCache) + [ReplayEntryFor(ck.value.value.1)]
      ensures var ck := CheckAppApReq(config, apReq, now, usec, sender);
              ck.Returns? && ck.value.Ok? && ck.value.value.1.seqNumber.None? ==>
                r == Returns(Err(MissingSequenceError(config, now, usec, ck.value.value.1))) && sessions == old(sessions)
      ensures var ck := CheckAppApReq(config, apReq, now, usec, sender);
              ck.Returns? && ck.value.Ok? && ck.value.value.1.seqNumber.Some? ==>
                r == Returns(Ok(ApReply(config, apReq, ck.value.value.0, ck.value.value.1)))
                && sessions == old(sessions)[SessionKey(ck.value.value.1) := SessionFor(ck.value.value.0, ck.value.value.1)]
    {
      var ck := CheckAppApReq(config, apReq, now, usec, sender);
      if ck.Panics? {
        return Panics;
      }
      if ck.value.Err? {
        return Returns(Err(ck.value.error));
      }
      var (t, a) := ck.value.value;
      replayCache := replayCache + [ReplayEntryFor(a)];
      if a.seqNumber.None? {
        return Returns(Err(MissingSequenceError(config, now, usec, a)));
      }
      sessions := sessions[SessionKey(a) := SessionFor(t, a)];
      r := Returns(Ok(ApReply(config, apReq, t, a)));
    }
  }

  /** After a successful exchange with sequence number `n`, the storage answers that the client is authenticated for `n`, and only for `n`. */
  lemma StoredSessionAuthenticates(sessions: map<(PrincipalName, Realm), UserSessionEntry>,
                                   a: Authenticator, key: EncryptionKey, m: int)
    requires a.seqNumber.Some?
    ensures var s := sessions[(a.cname, a.crealm) := UserSessionEntry(a.cname, a.crealm, key, a.seqNumber.value)];
            IsUserAuthenticated(Ok(Some(s[(a.cname, a.crealm)])), m) <==> m == a.seqNumber.value
  {
  }
}
