/**
 * The server side of the client/server authentication exchange in
 * kerberos/src/authentication_service (section 3.2.3 of RFC 4120): the
 * guards `handle_krb_ap_req` applies to a KRB_AP_REQ in order, the
 * KRB_ERROR each failing guard answers with, the replay-cache entry stored
 * on success and the KRB_AP_REP returned.
 *
 * The clock (`KerberosTime::now` and the sub-second microseconds) is a
 * parameter; the one cryptosystem of the service is named by its etype.
 */
module AuthService {
  import opened Wrappers
  import opened Constants
  import opened ErrorCodes
  import opened Flags
  import opened KerberosTypes
  import opened Codec
  import opened KrbErrorSpec
  import opened CsMessage
  import opened ClientUtil

  /** `ServerError`: a KRB_ERROR to send back, an internal failure, or an undecodable ticket or authenticator. */
  datatype ServerError = ProtocolError(msg: KrbErrorMsg) | Internal | CannotDecode

  /** `ReplayCacheEntry` of kerberos/src/service_traits.rs. */
  datatype ReplayCacheEntry = ReplayCacheEntry(
    serverName: PrincipalName, clientName: PrincipalName, time: Time, microseconds: int)

  /**
   * The immutable fields of `AuthenticationService`: the key finder is the
   * map it consults, the clock skew is in whole seconds, and `cryptoEtype`
   * names the service's one cryptosystem.
   */
  datatype ServiceConfig = ServiceConfig(
    realm: Realm,
    sname: PrincipalName,
    acceptEmptyAddressTicket: bool,
    ticketAllowableClockSkew: nat,
    cryptoEtype: int,
    keyFinder: map<Realm, Octets>)

  /** `verify_msg_type`: only message type 14 (KRB_AP_REQ) passes. */
  function VerifyMsgType(msgType: int): (r: Result<(), Ecode>)
    ensures r.Ok? <==> msgType == 14
    ensures r.Err? ==> r.error == KRB_AP_ERR_MSG_TYPE
  {
    if msgType == 14 then Ok(()) else Err(KRB_AP_ERR_MSG_TYPE)
  }

  // ------------------------------------------------------------ error messages

  /** `default_error_builder`: server time, microseconds, the service's name and realm. */
  function DefaultErrorBuilder(c: ServiceConfig, now: Time, usec: nat): (b: KrbErrorMsgBuilder)
    ensures Prepared(b)
    ensures b.stime == Some(now) && b.susec == Some(usec as int)
    ensures b.sname == Some(c.sname) && b.realm == Some(c.realm)
    ensures b.ctime.None? && b.cusec.None? && b.crealm.None? && b.cname.None?
  {
    EmptyKrbErrorMsgBuilder.(stime := Some(now), susec := Some(usec as int), sname := Some(c.sname), realm := Some(c.realm))
  }

  /** Every field `build` requires except the error code. */
  predicate Prepared(b: KrbErrorMsgBuilder) {
    b.stime.Some? && b.susec.Some? && b.realm.Some? && b.sname.Some?
  }

  /** The builder after the client's ctime, cusec, crealm and cname have been recorded. */
  function WithClient(b: KrbErrorMsgBuilder, a: Authenticator): (r: KrbErrorMsgBuilder)
    ensures Prepared(b) ==> Prepared(r)
    ensures r.stime == b.stime && r.susec == b.susec && r.sname == b.sname && r.realm == b.realm
    ensures r.ctime == Some(Some(a.ctime)) && r.cusec == Some(Some(a.cusec))
    ensures r.crealm == Some(Some(a.crealm)) && r.cname == Some(Some(a.cname))
  {
    b.(ctime := Some(Some(a.ctime)), cusec := Some(Some(a.cusec)), crealm := Some(Some(a.crealm)), cname := Some(Some(a.cname)))
  }

  /** `ProtocolError(error_msg.error_code(code).build().unwrap())`: the unwrap never panics on a prepared builder. */
  function ErrorWith(b: KrbErrorMsgBuilder, code: Ecode): (e: ServerError)
    requires Prepared(b)
    ensures e.ProtocolError? && e.msg.errorCode == code
    ensures e.msg.pvno == 5 && e.msg.msgType == 30
    ensures e.msg.stime == b.stime.value && e.msg.susec == b.susec.value
    ensures e.msg.sname == b.sname.value && e.msg.realm == b.realm.value
    ensures e.msg.ctime == Flatten(b.ctime) && e.msg.cusec == Flatten(b.cusec)
    ensures e.msg.crealm == Flatten(b.crealm) && e.msg.cname == Flatten(b.cname)
  {
    ProtocolError(BuildKrbError(b.(errorCode := Some(code))).value)
  }

  /** The error code a server error carries, if it is a KRB_ERROR. */
  function CodeOf(e: ServerError): Option<Ecode> {
    if e.ProtocolError? then Some(e.msg.errorCode) else None
  }

  // ------------------------------------------------------------------ guards

  /**
   * `valid_ticket_time`: a ticket time more than `skew` seconds before the
   * local time is reported not yet valid, one more than `skew` seconds after
   * it is reported expired; anything within the skew passes.
   */
  function ValidTicketTime(ticketTime: Time, localTime: Time, skew: nat): (r: Result<(), Ecode>)
    ensures r.Ok? <==> IsWithinClockSkew(ticketTime, localTime, skew)
    ensures r == Err(KRB_AP_ERR_TKT_NYV) <==> localTime > ticketTime + skew
    ensures r == Err(KRB_AP_ERR_TKT_EXPIRED) <==> ticketTime > localTime + skew
  {
    if localTime > ticketTime then
      if localTime - ticketTime > skew then Err(KRB_AP_ERR_TKT_NYV) else Ok(())
    else
      if ticketTime - localTime > skew then Err(KRB_AP_ERR_TKT_EXPIRED) else Ok(())
  }

  /** Swapping ticket time and local time swaps the two error codes and keeps acceptance. */
  lemma ValidTicketTimeSymmetric(ticketTime: Time, localTime: Time, skew: nat)
    ensures ValidTicketTime(ticketTime, localTime, skew).Ok? <==> ValidTicketTime(localTime, ticketTime, skew).Ok?
    ensures ValidTicketTime(ticketTime, localTime, skew) == Err(KRB_AP_ERR_TKT_NYV)
            <==> ValidTicketTime(localTime, ticketTime, skew) == Err(KRB_AP_ERR_TKT_EXPIRED)
  {
    ClockSkewIsDistance(ticketTime, localTime, skew);
  }

  /**
   * The address guard as written: `.or(...)` evaluates its argument eagerly,
   * and that argument calls `search_for_addresses`, which is
   * `unimplemented!()`, whenever the ticket lists addresses.
   */
  function AddressCheckAsWritten(acceptEmpty: bool, caddr: Option<seq<HostAddress>>): (r: Outcome<Result<(), Ecode>>)
    ensures r.Panics? <==> caddr.Some?
    ensures r.Returns? ==> (r.value.Ok? <==> acceptEmpty)
    ensures r.Returns? && r.value.Err? ==> r.value.error == KRB_AP_ERR_BADADDR
  {
    if caddr.Some? then Panics
    else if acceptEmpty then Returns(Ok(()))
    else Returns(Err(KRB_AP_ERR_BADADDR))
  }

  /** A ticket with addresses makes the guard as written panic even when empty-address tickets are accepted. */
  lemma AddressCheckAsWrittenPanicsWithAddresses(addr: HostAddress)
    ensures AddressCheckAsWritten(true, Some([addr])) == Panics
  {
  }

  /**
   * The address guard as evidently intended: pass when empty-address tickets
   * are accepted, or when the ticket lists the address the request came from.
   */
  function AddressCheck(acceptEmpty: bool, caddr: Option<seq<HostAddress>>, sender: HostAddress): (r: Result<(), Ecode>)
    ensures r.Ok? <==> acceptEmpty || (caddr.Some? && sender in caddr.value)
    ensures r.Err? ==> r.error == KRB_AP_ERR_BADADDR
  {
    if acceptEmpty || (caddr.Some? && sender in caddr.value) then Ok(()) else Err(KRB_AP_ERR_BADADDR)
  }

  /** Where the guard as written does not panic (no addresses in the ticket), the corrected guard answers the same. */
  lemma AddressChecksAgreeWithoutAddresses(acceptEmpty: bool, sender: HostAddress)
    ensures AddressCheckAsWritten(acceptEmpty, None) == Returns(AddressCheck(acceptEmpty, None, sender))
  {
  }

  /** The ticket time the lifetime check uses: the start time, else the authentication time. */
  function TicketTime(t: EncTicketPart): (r: Time)
    ensures t.starttime.Some? ==> r == t.starttime.value
    ensures t.starttime.None? ==> r == t.authtime
  {
    if t.starttime.Some? then t.starttime.value else t.authtime
  }

  /** Decrypt a cipher and decode it as an encrypted ticket part. */
  function OpenTicket(etype: int, key: Octets, cipher: Octets): (r: Option<EncTicketPart>)
    ensures r.Some? <==> exists t :: cipher == Encrypt(etype, key, Encode(DerEncTicketPart(t)))
    ensures r.Some? ==> cipher == Encrypt(etype, key, Encode(DerEncTicketPart(r.value)))
  {
    match Decrypt(etype, key, cipher)
    case Err(_) => None
    case Ok(plain) =>
      var d := Decode(plain);
      if d.Ok? && d.value.DerEncTicketPart? then Some(d.value.encTicketPart) else None
  }

  /** Decrypt a cipher and decode it as an authenticator. */
  function OpenAuthenticator(etype: int, key: Octets, cipher: Octets): (r: Option<Authenticator>)
    ensures r.Some? <==> exists a :: cipher == Encrypt(etype, key, Encode(DerAuthenticator(a)))
    ensures r.Some? ==> cipher == Encrypt(etype, key, Encode(DerAuthenticator(r.value)))
  {
    match Decrypt(etype, key, cipher)
    case Err(_) => None
    case Ok(plain) =>
      var d := Decode(plain);
      if d.Ok? && d.value.DerAuthenticator? then Some(d.value.authenticator) else None
  }

  /**
   * What an accepted request satisfies: message type 14, a key for the
   * ticket's realm that seals part `t`, an authenticator sealed under `t`'s
   * session key, a passing address guard, no INVALID flag and a ticket time
   * within the clock skew.
   */
  predicate Accepted(c: ServiceConfig, apReq: KrbApReq, now: Time, sender: HostAddress, t: EncTicketPart, a: Authenticator) {
    && apReq.msgType == 14
    && apReq.ticket.realm in c.keyFinder
    && apReq.ticket.encPart.cipher == Encrypt(c.cryptoEtype, c.keyFinder[apReq.ticket.realm], Encode(DerEncTicketPart(t)))
    && apReq.authenticator.cipher == Encrypt(c.cryptoEtype, t.key.keyvalue, Encode(DerAuthenticator(a)))
    && AddressCheck(c.acceptEmptyAddressTicket, t.caddr, sender).Ok?
    && !IsSet(t.flags, Invalid)
    && IsWithinClockSkew(TicketTime(t), now, c.ticketAllowableClockSkew)
  }

  /**
   * The guards of `handle_krb_ap_req` in source order, with the corrected
   * address guard. A KRB_ERROR raised before the authenticator is decoded
   * carries no client fields; one raised after carries the authenticator's
   * ctime, cusec, crealm and cname.
   */
  function CheckKrbApReq(c: ServiceConfig, apReq: KrbApReq, now: Time, usec: nat, sender: HostAddress)
    : (r: Result<(EncTicketPart, Authenticator), ServerError>)
    ensures r.Ok? ==> Accepted(c, apReq, now, sender, r.value.0, r.value.1)
    ensures apReq.msgType != 14 ==> CodeOf(r.error) == Some(KRB_AP_ERR_MSG_TYPE)
    ensures apReq.msgType == 14 && apReq.ticket.realm !in c.keyFinder ==> CodeOf(r.error) == Some(KRB_AP_ERR_BADKEYVER)
    ensures r == Err(CannotDecode) <==>
              apReq.msgType == 14 && apReq.ticket.realm in c.keyFinder
              && (OpenTicket(c.cryptoEtype, c.keyFinder[apReq.ticket.realm], apReq.ticket.encPart.cipher).None?
                  || OpenAuthenticator(c.cryptoEtype,
                       OpenTicket(c.cryptoEtype, c.keyFinder[apReq.ticket.realm], apReq.ticket.encPart.cipher).value.key.keyvalue,
                       apReq.authenticator.cipher).None?)
    ensures r.Err? ==> r.error.ProtocolError? || r.error.CannotDecode?
    ensures r.Err? && r.error.ProtocolError? ==>
              r.error.msg.stime == now && r.error.msg.susec == usec
              && r.error.msg.sname == c.sname && r.error.msg.realm == c.realm
    ensures r.Err? && r.error.ProtocolError? ==>
              CodeOf(r.error).value in {KRB_AP_ERR_MSG_TYPE, KRB_AP_ERR_BADKEYVER, KRB_AP_ERR_BADADDR,
                                        KRB_AP_ERR_TKT_NYV, KRB_AP_ERR_TKT_EXPIRED}
  {
    var b := DefaultErrorBuilder(c, now, usec);
    if VerifyMsgType(apReq.msgType).Err? then Err(ErrorWith(b, KRB_AP_ERR_MSG_TYPE))
    else if apReq.ticket.realm !in c.keyFinder then Err(ErrorWith(b, KRB_AP_ERR_BADKEYVER))
    else
      var key := c.keyFinder[apReq.ticket.realm];
      var ot := OpenTicket(c.cryptoEtype, key, apReq.ticket.encPart.cipher);
      if ot.None? then Err(CannotDecode)
      else
        var t := ot.value;
        var oa := OpenAuthenticator(c.cryptoEtype, t.key.keyvalue, apReq.authenticator.cipher);
        if oa.None? then Err(CannotDecode)
        else
          var a := oa.value;
          var b2 := WithClient(b, a);
          if AddressCheck(c.acceptEmptyAddressTicket, t.caddr, sender).Err? then Err(ErrorWith(b2, KRB_AP_ERR_BADADDR))
          else if IsSet(t.flags, Invalid) then Err(ErrorWith(b2, KRB_AP_ERR_TKT_NYV))
          else
            var v := ValidTicketTime(TicketTime(t), now, c.ticketAllowableClockSkew);
            if v.Err? then Err(ErrorWith(b2, v.error))
            else Ok((t, a))
  }

  /** A request that satisfies every guard for a sealed ticket and authenticator is accepted with exactly those. */
  lemma AcceptedRequestPasses(c: ServiceConfig, apReq: KrbApReq, now: Time, usec: nat, sender: HostAddress,
                              t: EncTicketPart, a: Authenticator)
    requires Accepted(c, apReq, now, sender, t, a)
    ensures CheckKrbApReq(c, apReq, now, usec, sender) == Ok((t, a))
  {
    DecryptEncrypt(c.cryptoEtype, c.keyFinder[apReq.ticket.realm], Encode(DerEncTicketPart(t)));
    DecryptEncrypt(c.cryptoEtype, t.key.keyvalue, Encode(DerAuthenticator(a)));
  }

  /** An INVALID ticket is refused as not yet valid, whatever its times. */
  lemma InvalidTicketRefused(c: ServiceConfig, apReq: KrbApReq, now: Time, usec: nat, sender: HostAddress,
                             t: EncTicketPart, a: Authenticator)
    requires apReq.msgType == 14 && apReq.ticket.realm in c.keyFinder
    requires apReq.ticket.encPart.cipher == Encrypt(c.cryptoEtype, c.keyFinder[apReq.ticket.realm], Encode(DerEncTicketPart(t)))
    requires apReq.authenticator.cipher == Encrypt(c.cryptoEtype, t.key.keyvalue, Encode(DerAuthenticator(a)))
    requires AddressCheck(c.acceptEmptyAddressTicket, t.caddr, sender).Ok?
    requires IsSet(t.flags, Invalid)
    ensures var r := CheckKrbApReq(c, apReq, now, usec, sender);
            CodeOf(r.error) == Some(KRB_AP_ERR_TKT_NYV) && r.error.msg.ctime == Some(a.ctime)
            && r.error.msg.cname == Some(a.cname)
  {
    DecryptEncrypt(c.cryptoEtype, c.keyFinder[apReq.ticket.realm], Encode(DerEncTicketPart(t)));
    DecryptEncrypt(c.cryptoEtype, t.key.keyvalue, Encode(DerAuthenticator(a)));
  }

  // ------------------------------------------------------------------- reply

  /** The replay-cache entry of an accepted request: ticket server name, ticket client name, ctime, cusec. */
  function ReplayEntryFor(apReq: KrbApReq, t: EncTicketPart, a: Authenticator): (e: ReplayCacheEntry)
    ensures e.serverName == apReq.ticket.sname && e.clientName == t.cname
    ensures e.time == a.ctime && e.microseconds == a.cusec
  {
    ReplayCacheEntry(apReq.ticket.sname, t.cname, a.ctime, a.cusec)
  }

  /**
   * The reply as written: an authenticator carrying the client's ctime,
   * cusec, crealm and cname, encrypted under the ticket's session key, with
   * the ticket's etype and kvno.
   */
  function ApReplyAsWritten(c: ServiceConfig, apReq: KrbApReq, t: EncTicketPart, a: Authenticator): (r: KrbApRep)
    ensures r.pvno == 5 && r.msgType == 15
    ensures r.encPart.etype == apReq.ticket.encPart.etype && r.encPart.kvno == apReq.ticket.encPart.kvno
    ensures exists echo: Authenticator :: echo.ctime == a.ctime && echo.cusec == a.cusec
              && r.encPart.cipher == Encrypt(c.cryptoEtype, t.key.keyvalue, Encode(DerAuthenticator(echo)))
  {
    var echo := BuildAuthenticator(EmptyAuthenticatorBuilder.(
      ctime := Some(a.ctime), cusec := Some(a.cusec), crealm := Some(a.crealm), cname := Some(a.cname))).value;
    NewKrbApRep(EncryptedData(apReq.ticket.encPart.etype, apReq.ticket.encPart.kvno,
                              Encrypt(c.cryptoEtype, t.key.keyvalue, Encode(DerAuthenticator(echo)))))
  }

  /**
   * The reply as section 5.5.2 of RFC 4120 has it: an EncAPRepPart echoing
   * ctime and cusec, with no subkey and no sequence number, encrypted under
   * the ticket's session key.
   */
  function ApReply(c: ServiceConfig, apReq: KrbApReq, t: EncTicketPart, a: Authenticator): (r: KrbApRep)
    ensures r.pvno == 5 && r.msgType == 15
    ensures r.encPart.etype == apReq.ticket.encPart.etype && r.encPart.kvno == apReq.ticket.encPart.kvno
    ensures r.encPart.cipher
            == Encrypt(c.cryptoEtype, t.key.keyvalue, Encode(DerEncApRepPart(EncApRepPart(a.ctime, a.cusec, None, None))))
  {
    NewKrbApRep(EncryptedData(apReq.ticket.encPart.etype, apReq.ticket.encPart.kvno,
                              Encrypt(c.cryptoEtype, t.key.keyvalue, Encode(DerEncApRepPart(NewEncApRepPart(a.ctime, a.cusec, None, None))))))
  }

  /** The reply as written can never complete mutual authentication: the client cannot decode it as an EncAPRepPart. */
  lemma ApReplyAsWrittenUndecodable(c: ServiceConfig, apReq: KrbApReq, t: EncTicketPart, a: Authenticator)
    ensures var cipher := ApReplyAsWritten(c, apReq, t, a).encPart.cipher;
            forall key :: Decrypt(c.cryptoEtype, key, cipher).Ok? ==>
              var d := Decode(Decrypt(c.cryptoEtype, key, cipher).value); !(d.Ok? && d.value.DerEncApRepPart?)
  {
  }

  /** The corrected reply opens under the session key to an EncAPRepPart echoing the authenticator's time. */
  lemma ApReplyEchoesTime(c: ServiceConfig, apReq: KrbApReq, t: EncTicketPart, a: Authenticator)
    ensures var cipher := ApReply(c, apReq, t, a).encPart.cipher;
            var plain := Decrypt(c.cryptoEtype, t.key.keyvalue, cipher);
            plain.Ok? && Decode(plain.value) == Ok(DerEncApRepPart(EncApRepPart(a.ctime, a.cusec, None, None)))
  {
    DecryptEncrypt(c.cryptoEtype, t.key.keyvalue, Encode(DerEncApRepPart(EncApRepPart(a.ctime, a.cusec, None, None))));
    DecodeEncode(DerEncApRepPart(EncApRepPart(a.ctime, a.cusec, None, None)));
  }

  // ------------------------------------------------------------------ service

  /** `AuthenticationService`: the configuration and the replay cache it stores into. */
  class AuthenticationService {
    const config: ServiceConfig
    var replayCache: seq<ReplayCacheEntry>

    /** `AuthenticationServiceBuilder::build` over an empty replay cache. */
    constructor (config: ServiceConfig)
      ensures this.config == config && replayCache == []
    {
      this.config := config;
      replayCache := [];
    }

    /**
     * `handle_krb_ap_req`: run the guards; only an accepted request is stored
     * in the replay cache, and it is answered with the corrected reply.
     * `storeFails` says whether the replay cache's `store` fails, which the
     * handler reports as an internal error.
     */
    method HandleKrbApReq(apReq: KrbApReq, now: Time, usec: nat, sender: HostAddress, storeFails: bool)
      returns (r: Result<KrbApRep, ServerError>)
      modifies this
      ensures var ck := CheckKrbApReq(config, apReq, now, usec, sender);
              ck.Err? ==> r == Err(ck.error) && replayCache == old(replayCache)
      ensures var ck := CheckKrbApReq(config, apReq, now, usec, sender);
              ck.Ok? && storeFails ==> r == Err(Internal) && replayCache == old(replayCache)
      ensures var ck := CheckKrbApReq(config, apReq, now, usec, sender);
              ck.Ok? && !storeFails ==> r == Ok(ApReply(config, apReq, ck.value.0, ck.value.1))
                                        && replayCache == old(replayCache) + [ReplayEntryFor(apReq, ck.value.0, ck.value.1)]
    {
      var ck := CheckKrbApReq(config, apReq, now, usec, sender);
      if ck.Err? {
        return Err(ck.error);
      }
      if storeFails {
        return Err(Internal);
      }
      var (t, a) := ck.value;
      replayCache := replayCache + [ReplayEntryFor(apReq, t, a)];
      r := Ok(ApReply(config, apReq, t, a));
    }
  }
}
