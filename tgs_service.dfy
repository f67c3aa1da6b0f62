/**
 * The ticket-granting service of kerberos/src/ticket_granting_service
 * (section 3.3 of RFC 4120): `handle_tgs_req` authenticates the
 * PA-TGS-REQ header, checks the request checksum, derives the new ticket's
 * flags, lifetime and authorization data, seals the ticket under the
 * server's key and the reply part under the subkey or a session key.
 *
 * The clock is one instant given as a parameter, as is the outcome of
 * generating the random session key. The principal and last-request
 * databases are the maps they consult. Ticket times are whole seconds.
 */
module TgsService {
  import opened Wrappers
  import opened Constants
  import opened ErrorCodes
  import opened Flags
  import opened KerberosTypes
  import opened Codec
  import opened KrbErrorSpec
  import opened Tickets
  import opened KdcMessages
  import TgsExchange

  /** `ServerError` of the service: a KRB_ERROR or an internal failure. */
  datatype ServerError = ProtocolError(msg: KrbErrorMsg) | Internal

  /** `PrincipalDatabaseRecord` of kerberos/src/service_traits.rs; the lifetimes are in seconds. */
  datatype PrincipalDatabaseRecord = PrincipalDatabaseRecord(
    maxRenewableLife: nat, maxLifetime: nat, key: EncryptionKey, pKvno: Option<int>,
    supportedEncryptionTypes: seq<int>)

  /**
   * The fields of `TicketGrantingService`: the checksum types and the
   * etypes of its cryptosystems in order, the principal database keyed by
   * name and realm, its own name and realm, and the last-request database
   * keyed by realm and name.
   */
  datatype TgsConfig = TgsConfig(
    checksumTypes: seq<int>,
    crypto: seq<int>,
    principals: map<(PrincipalName, Realm), PrincipalDatabaseRecord>,
    name: PrincipalName,
    realm: Realm,
    lastReq: map<(Realm, PrincipalName), seq<LastReqEntry>>)

  // ------------------------------------------------------------ error messages

  /** `default_error_builder` with an error code: server time, microseconds, the service's name and realm. */
  function ErrorFor(c: TgsConfig, now: Time, usec: nat, code: Ecode): (e: ServerError)
    ensures e.ProtocolError? && e.msg.errorCode == code
    ensures e.msg.stime == now && e.msg.susec == usec && e.msg.sname == c.name && e.msg.realm == c.realm
    ensures e.msg.ctime.None? && e.msg.cname.None? && e.msg.eData.None?
  {
    var b := EmptyKrbErrorMsgBuilder.(stime := Some(now), susec := Some(usec as int), sname := Some(c.name),
                                      realm := Some(c.realm), errorCode := Some(code));
    ProtocolError(BuildKrbError(b).value)
  }

  function CodeOf(e: ServerError): Option<Ecode> {
    if e.ProtocolError? then Some(e.msg.errorCode) else None
  }

  // ------------------------------------------------------------ authentication

  /**
   * `verify_padata`: the first padata of type PA-TGS-REQ must decode as a
   * KRB_AP_REQ; no such padata, or one that does not decode, is
   * KDC_ERR_PADATA_TYPE_NOSUPP.
   */
  function VerifyPadata(padata: Option<seq<PaData>>): (r: Result<KrbApReq, Ecode>)
    ensures r.Err? ==> r.error == KDC_ERR_PADATA_TYPE_NOSUPP
    ensures r.Ok? <==>
              padata.Some? && TgsExchange.FindPaData(padata.value, TgsExchange.PaTgsReqType).Some?
              && exists ap :: padata.value[TgsExchange.FindPaData(padata.value, TgsExchange.PaTgsReqType).value].padataValue
                              == Encode(DerApReq(ap))
    ensures r.Ok? ==>
              padata.value[TgsExchange.FindPaData(padata.value, TgsExchange.PaTgsReqType).value].padataValue
              == Encode(DerApReq(r.value))
  {
    if padata.None? then Err(KDC_ERR_PADATA_TYPE_NOSUPP)
    else
      match TgsExchange.FindPaData(padata.value, TgsExchange.PaTgsReqType)
      case None => Err(KDC_ERR_PADATA_TYPE_NOSUPP)
      case Some(i) =>
        var d := Decode(padata.value[i].padataValue);
        if d.Ok? && d.value.DerApReq? then Ok(d.value.apReq) else Err(KDC_ERR_PADATA_TYPE_NOSUPP)
  }

  /** The authentication header the client builds is the one the service finds. */
  lemma VerifyPadataFindsClientHeader(ap: KrbApReq)
    ensures VerifyPadata(Some([PaData(TgsExchange.PaTgsReqType, Encode(DerApReq(ap)))])) == Ok(ap)
  {
    DecodeEncode(DerApReq(ap));
  }

  /** What the guards establish before any new ticket is made. */
  datatype TgsContext = TgsContext(
    apReq: KrbApReq, server: PrincipalDatabaseRecord, tgt: EncTicketPart, authenticator: Authenticator)

  /** Decrypt under one of the service's cryptosystems and decode an encrypted ticket part. */
  function OpenTicketPart(etype: int, key: Octets, cipher: Octets): (r: Option<EncTicketPart>)
    ensures r.Some? ==> cipher == Encrypt(etype, key, Encode(DerEncTicketPart(r.value)))
  {
    match Decrypt(etype, key, cipher)
    case Err(_) => None
    case Ok(plain) =>
      var d := Decode(plain);
      if d.Ok? && d.value.DerEncTicketPart? then Some(d.value.encTicketPart) else None
  }

  function OpenAuthenticator(etype: int, key: Octets, cipher: Octets): (r: Option<Authenticator>)
    ensures r.Some? ==> cipher == Encrypt(etype, key, Encode(DerAuthenticator(r.value)))
  {
    match Decrypt(etype, key, cipher)
    case Err(_) => None
    case Ok(plain) =>
      var d := Decode(plain);
      if d.Ok? && d.value.DerAuthenticator? then Some(d.value.authenticator) else None
  }

  /** The checksum over the DER encoding of the request body, as `compute_checksum` digests it. */
  function BodyChecksum(cksumtype: int, body: KdcReqBody): (d: Octets)
  {
    Hash(cksumtype, Encode(DerKdcReqBody(body)))
  }

  /** Under one checksum type, two request bodies have the same checksum exactly when they are the same body. */
  lemma BodyChecksumInjective(cksumtype: int, body: KdcReqBody, other: KdcReqBody)
    ensures BodyChecksum(cksumtype, body) == BodyChecksum(cksumtype, other) <==> body == other
  {
    HashInjective(cksumtype, Encode(DerKdcReqBody(body)), Encode(DerKdcReqBody(other)));
    EncodeInjective(DerKdcReqBody(body), DerKdcReqBody(other));
  }

  /**
   * A request the guards accept with context `x`: the header is found, the
   * requested server is in the database, the TGT is sealed under the
   * server's key by a supported cipher, the authenticator under the TGT's
   * session key by a supported cipher, and it carries a supported checksum
   * equal to the digest of the request body.
   */
  predicate Authenticated(c: TgsConfig, req: KdcReq, x: TgsContext) {
    && VerifyPadata(req.padata) == Ok(x.apReq)
    && req.reqBody.sname.Some?
    && (req.reqBody.sname.value, req.reqBody.realm) in c.principals
    && x.server == c.principals[(req.reqBody.sname.value, req.reqBody.realm)]
    && x.apReq.ticket.encPart.etype in c.crypto
    && x.apReq.ticket.encPart.cipher
       == Encrypt(x.apReq.ticket.encPart.etype, x.server.key.keyvalue, Encode(DerEncTicketPart(x.tgt)))
    && x.tgt.key.keytype in c.crypto
    && x.apReq.authenticator.cipher == Encrypt(x.tgt.key.keytype, x.tgt.key.keyvalue, Encode(DerAuthenticator(x.authenticator)))
    && x.authenticator.cksum.Some?
    && x.authenticator.cksum.value.cksumtype in c.checksumTypes
    && x.authenticator.cksum.value.checksum == BodyChecksum(x.authenticator.cksum.value.cksumtype, req.reqBody)
  }

  /**
   * The guards of `handle_krb_tgs_req` up to the session key, in source
   * order. A failed decryption is internal; a failed decoding is bad
   * integrity; the local-realm test always passes.
   */
  function Authenticate(c: TgsConfig, req: KdcReq, now: Time, usec: nat): (r: Result<TgsContext, ServerError>)
    ensures r.Ok? ==> Authenticated(c, req, r.value)
    ensures VerifyPadata(req.padata).Err? ==> CodeOf(r.error) == Some(KDC_ERR_PADATA_TYPE_NOSUPP)
    ensures VerifyPadata(req.padata).Ok?
            && (req.reqBody.sname.None? || (req.reqBody.sname.value, req.reqBody.realm) !in c.principals)
            ==> CodeOf(r.error) == Some(KDC_ERR_S_PRINCIPAL_UNKNOWN)
    ensures r.Err? && r.error.ProtocolError? ==>
              r.error == ErrorFor(c, now, usec, r.error.msg.errorCode)
              && r.error.msg.errorCode in {KDC_ERR_PADATA_TYPE_NOSUPP, KDC_ERR_S_PRINCIPAL_UNKNOWN, KDC_ERR_ETYPE_NOSUPP,
                                          KRB_AP_ERR_BAD_INTEGRITY, KRB_AP_ERR_INAPP_CKSUM, KDC_ERR_SUMTYPE_NOSUPP,
                                          KRB_AP_ERR_MODIFIED}
  {
    var pv := VerifyPadata(req.padata);
    if pv.Err? then Err(ErrorFor(c, now, usec, pv.error))
    else if req.reqBody.sname.None? || (req.reqBody.sname.value, req.reqBody.realm) !in c.principals then
      Err(ErrorFor(c, now, usec, KDC_ERR_S_PRINCIPAL_UNKNOWN))
    else
      var ap := pv.value;
      var server := c.principals[(req.reqBody.sname.value, req.reqBody.realm)];
      var tetype := ap.ticket.encPart.etype;
      if tetype !in c.crypto then Err(ErrorFor(c, now, usec, KDC_ERR_ETYPE_NOSUPP))
      else if Decrypt(tetype, server.key.keyvalue, ap.ticket.encPart.cipher).Err? then Err(Internal)
      else
        var ot := OpenTicketPart(tetype, server.key.keyvalue, ap.ticket.encPart.cipher);
        if ot.None? then Err(ErrorFor(c, now, usec, KRB_AP_ERR_BAD_INTEGRITY))
        else
          var tgt := ot.value;
          if tgt.key.keytype !in c.crypto then Err(ErrorFor(c, now, usec, KDC_ERR_ETYPE_NOSUPP))
          else if Decrypt(tgt.key.keytype, tgt.key.keyvalue, ap.authenticator.cipher).Err? then Err(Internal)
          else
            var oa := OpenAuthenticator(tgt.key.keytype, tgt.key.keyvalue, ap.authenticator.cipher);
            if oa.None? then Err(ErrorFor(c, now, usec, KRB_AP_ERR_BAD_INTEGRITY))
            else
              var a := oa.value;
              if a.cksum.None? then Err(ErrorFor(c, now, usec, KRB_AP_ERR_INAPP_CKSUM))
              else if a.cksum.value.cksumtype !in c.checksumTypes then Err(ErrorFor(c, now, usec, KDC_ERR_SUMTYPE_NOSUPP))
              else if BodyChecksum(a.cksum.value.cksumtype, req.reqBody) != a.cksum.value.checksum then
                Err(ErrorFor(c, now, usec, KRB_AP_ERR_MODIFIED))
              else Ok(TgsContext(ap, server, tgt, a))
  }

  /** Every request the guards accept is accepted with exactly its context. */
  lemma AuthenticatedPasses(c: TgsConfig, req: KdcReq, now: Time, usec: nat, x: TgsContext)
    requires Authenticated(c, req, x)
    ensures Authenticate(c, req, now, usec) == Ok(x)
  {
    DecryptEncrypt(x.apReq.ticket.encPart.etype, x.server.key.keyvalue, Encode(DerEncTicketPart(x.tgt)));
    DecryptEncrypt(x.tgt.key.keytype, x.tgt.key.keyvalue, Encode(DerAuthenticator(x.authenticator)));
  }

  /** A body changed after the client computed its checksum is refused as modified. */
  lemma ModifiedBodyRefused(c: TgsConfig, req: KdcReq, now: Time, usec: nat, x: TgsContext, signed: KdcReqBody)
    requires VerifyPadata(req.padata) == Ok(x.apReq)
    requires req.reqBody.sname.Some? && (req.reqBody.sname.value, req.reqBody.realm) in c.principals
    requires x.server == c.principals[(req.reqBody.sname.value, req.reqBody.realm)]
    requires x.apReq.ticket.encPart.etype in c.crypto
    requires x.apReq.ticket.encPart.cipher
             == Encrypt(x.apReq.ticket.encPart.etype, x.server.key.keyvalue, Encode(DerEncTicketPart(x.tgt)))
    requires x.tgt.key.keytype in c.crypto
    requires x.apReq.authenticator.cipher == Encrypt(x.tgt.key.keytype, x.tgt.key.keyvalue, Encode(DerAuthenticator(x.authenticator)))
    requires x.authenticator.cksum.Some? && x.authenticator.cksum.value.cksumtype in c.checksumTypes
    requires x.authenticator.cksum.value.checksum == BodyChecksum(x.authenticator.cksum.value.cksumtype, signed)
    requires signed != req.reqBody
    ensures CodeOf(Authenticate(c, req, now, usec).error) == Some(KRB_AP_ERR_MODIFIED)
  {
    DecryptEncrypt(x.apReq.ticket.encPart.etype, x.server.key.keyvalue, Encode(DerEncTicketPart(x.tgt)));
    DecryptEncrypt(x.tgt.key.keytype, x.tgt.key.keyvalue, Encode(DerAuthenticator(x.authenticator)));
    EncodeInjective(DerKdcReqBody(signed), DerKdcReqBody(req.reqBody));
    HashInjective(x.authenticator.cksum.value.cksumtype, Encode(DerKdcReqBody(signed)), Encode(DerKdcReqBody(req.reqBody)));
  }

  // ------------------------------------------------------------------ etype

  /** `find_map` over the requested etypes: the first one the service has a cryptosystem for. */
  function FirstSupported(etypes: seq<int>, crypto: seq<int>): (r: Option<int>)
    ensures r.Some? ==> r.value in etypes && r.value in crypto
    ensures r.None? <==> forall i :: 0 <= i < |etypes| ==> etypes[i] !in crypto
    ensures r.Some? ==> exists i :: 0 <= i < |etypes| && etypes[i] == r.value
                                    && forall j :: 0 <= j < i ==> etypes[j] !in crypto
  {
    if |etypes| == 0 then None
    else if etypes[0] in crypto then Some(etypes[0])
    else
      var rest := FirstSupported(etypes[1..], crypto);
      assert rest.Some? ==> exists i :: 0 <= i < |etypes| && etypes[i] == rest.value
                                        && forall j :: 0 <= j < i ==> etypes[j] !in crypto by {
        if rest.Some? {
          var k :| 0 <= k < |etypes[1..]| && etypes[1..][k] == rest.value
                   && forall j :: 0 <= j < k ==> etypes[1..][j] !in crypto;
          assert etypes[k + 1] == rest.value;
          assert forall j :: 0 <= j < k + 1 ==> etypes[j] !in crypto by {
            forall j | 0 <= j < k + 1 ensures etypes[j] !in crypto {
              if j > 0 { assert etypes[j] == etypes[1..][j - 1]; }
            }
          }
        }
      }
      assert rest.None? ==> forall i :: 0 <= i < |etypes| ==> etypes[i] !in crypto by {
        if rest.None? {
          forall i | 0 <= i < |etypes| ensures etypes[i] !in crypto {
            if i > 0 { assert etypes[i] == etypes[1..][i - 1]; }
          }
        }
      }
      rest
  }

  // ------------------------------------------------------------------ flags

  /**
   * The octets of the new ticket's flags, as the `set` calls leave them:
   * FORWARDABLE, FORWARDED, PROXIABLE and PROXY follow the request's KDC
   * options, FORWARDED also follows the TGT, INVALID follows VALIDATE and
   * RENEWABLE follows the RENEWABLE option.
   */
  function TicketFlagBytes(opts: KerberosFlags, tgtFlags: KerberosFlags): (b: seq<bv8>)
    ensures |b| == 4
  {
    var b5 := OptionFlagBytes(DefaultFlagBytes, opts, tgtFlags);
    var b6 := SetIf(b5, IsSet(opts, Validate), Invalid);
    SetIf(b6, IsSet(opts, Renewable), Renewable)
  }

  /** The `set` calls before the VALIDATE guard, on the builder's octets `b0`. */
  function OptionFlagBytes(b0: seq<bv8>, opts: KerberosFlags, tgtFlags: KerberosFlags): (b: seq<bv8>)
    ensures |b| == |b0|
  {
    var b1 := SetIf(b0, IsSet(opts, Forwardable), Forwardable);
    var b2 := SetIf(b1, IsSet(opts, Forwarded), Forwarded);
    var b3 := SetIf(b2, IsSet(tgtFlags, Forwarded), Forwarded);
    var b4 := SetIf(b3, IsSet(opts, Proxiable), Proxiable);
    SetIf(b4, IsSet(opts, Proxy), Proxy)
  }

  /** One conditional `set` call of the flags builder. */
  function SetIf(bytes: seq<bv8>, cond: bool, pos: nat): (r: seq<bv8>)
    ensures |r| == |bytes|
  {
    if cond then RawSet(bytes, pos) else bytes
  }

  lemma SetIfBits(bytes: seq<bv8>, cond: bool, pos: nat, q: nat)
    requires pos < |bytes| * 8
    ensures BitSet(SetIf(bytes, cond, pos), q) <==> (cond && q == pos) || BitSet(bytes, q)
  {
    RawSetBits(bytes, pos, q);
  }

  /** Which flag each option raises, and that no other flag is raised. */
  predicate FlagFromOptions(opts: KerberosFlags, tgtFlags: KerberosFlags, q: nat) {
    || (q == Forwardable && IsSet(opts, Forwardable))
    || (q == Forwarded && (IsSet(opts, Forwarded) || IsSet(tgtFlags, Forwarded)))
    || (q == Proxiable && IsSet(opts, Proxiable))
    || (q == Proxy && IsSet(opts, Proxy))
    || (q == Invalid && IsSet(opts, Validate))
    || (q == Renewable && IsSet(opts, Renewable))
  }

  /** A flag of the new ticket is set exactly when an option or the TGT asks for it. */
  lemma TicketFlagsMeaning(opts: KerberosFlags, tgtFlags: KerberosFlags, q: nat)
    ensures IsSet(KerberosFlags(TicketFlagBytes(opts, tgtFlags)), q) <==> FlagFromOptions(opts, tgtFlags, q)
  {
    DefaultFlagsClear(q);
    var b1 := SetIf(DefaultFlagBytes, IsSet(opts, Forwardable), Forwardable);
    SetIfBits(DefaultFlagBytes, IsSet(opts, Forwardable), Forwardable, q);
    var b2 := SetIf(b1, IsSet(opts, Forwarded), Forwarded);
    SetIfBits(b1, IsSet(opts, Forwarded), Forwarded, q);
    var b3 := SetIf(b2, IsSet(tgtFlags, Forwarded), Forwarded);
    SetIfBits(b2, IsSet(tgtFlags, Forwarded), Forwarded, q);
    var b4 := SetIf(b3, IsSet(opts, Proxiable), Proxiable);
    SetIfBits(b3, IsSet(opts, Proxiable), Proxiable, q);
    var b5 := SetIf(b4, IsSet(opts, Proxy), Proxy);
    SetIfBits(b4, IsSet(opts, Proxy), Proxy, q);
    var b6 := SetIf(b5, IsSet(opts, Validate), Invalid);
    SetIfBits(b5, IsSet(opts, Validate), Invalid, q);
    SetIfBits(b6, IsSet(opts, Renewable), Renewable, q);
  }

  /** The ticket addresses the reply repeats: the TGT's, but only under FORWARDED or PROXY. */
  function ReplyAddresses(opts: KerberosFlags, tgt: EncTicketPart): (a: Option<seq<HostAddress>>)
    ensures a.Some? <==> (IsSet(opts, Forwarded) || IsSet(opts, Proxy)) && tgt.caddr.Some?
    ensures a.Some? ==> a == tgt.caddr
  {
    if (IsSet(opts, Forwarded) || IsSet(opts, Proxy)) && tgt.caddr.Some? then tgt.caddr else None
  }

  /**
   * The VALIDATE guard: the request must also carry the INVALID option
   * (KDC_ERR_POLICY otherwise), and the TGT must have started
   * (KRB_AP_ERR_TKT_NYV otherwise); replay detection never fires.
   */
  function ValidateGuard(opts: KerberosFlags, tgt: EncTicketPart, now: Time): (r: Result<(), Ecode>)
    ensures !IsSet(opts, Validate) ==> r.Ok?
    ensures IsSet(opts, Validate) && !IsSet(opts, Invalid) ==> r == Err(KDC_ERR_POLICY)
    ensures r.Ok? <==> !IsSet(opts, Validate)
                       || (IsSet(opts, Invalid) && (if tgt.starttime.Some? then tgt.starttime.value else ZeroKerberosTime) <= now)
    ensures r.Err? ==> r.error in {KDC_ERR_POLICY, KRB_AP_ERR_TKT_NYV}
  {
    if !IsSet(opts, Validate) then Ok(())
    else if !IsSet(opts, Invalid) then Err(KDC_ERR_POLICY)
    else if (if tgt.starttime.Some? then tgt.starttime.value else ZeroKerberosTime) > now then Err(KRB_AP_ERR_TKT_NYV)
    else Ok(())
  }

  // --------------------------------------------------------------- lifetime

  function Min(a: Time, b: Time): (m: Time)
    ensures m <= a && m <= b && (m == a || m == b)
  {
    if a <= b then a else b
  }

  /** `KerberosTime - KerberosTime` as a non-negative duration, zero when the first time is earlier. */
  function Elapsed(later: Time, earlier: Time): (d: nat)
    ensures later >= earlier ==> earlier + d == later
    ensures later < earlier ==> d == 0
  {
    if later >= earlier then later - earlier else 0
  }

  /**
   * The RENEW expiry guard as written: `renew_till >= kdc_time` is reported
   * as expired, so a TGT is refused exactly while it is still renewable.
   */
  predicate RenewExpiredAsWritten(renewTill: Option<Time>, now: Time) {
    (if renewTill.Some? then renewTill.value else ZeroKerberosTime) >= now
  }

  /** The RENEW expiry guard as section 3.3.3.1 of RFC 4120 describes it: expired once the renew-till time has passed. */
  predicate RenewExpired(renewTill: Option<Time>, now: Time) {
    (if renewTill.Some? then renewTill.value else ZeroKerberosTime) < now
  }

  /** The guard as written is the exact negation of the intended one: it refuses every renewable TGT and admits every expired one. */
  lemma RenewGuardInverted(renewTill: Option<Time>, now: Time)
    ensures RenewExpiredAsWritten(renewTill, now) <==> !RenewExpired(renewTill, now)
  {
  }

  /** A concrete case: a TGT renewable for another hour is refused as written, and accepted by the intended guard. */
  lemma RenewGuardCounterexample()
    ensures RenewExpiredAsWritten(Some(7200), 3600) && !RenewExpired(Some(7200), 3600)
    ensures !RenewExpiredAsWritten(Some(0), 3600) && RenewExpired(Some(0), 3600)
  {
  }

  /** The start, end and renew-till times of the new ticket. */
  datatype Lifetime = Lifetime(starttime: Time, endtime: Time, renewTill: Option<Time>)

  /** The till time the request asks for: zero means the latest representable time. */
  function RequestedTill(body: KdcReqBody): (t: Time)
    ensures body.till == ZeroKerberosTime ==> t == MaxKerberosTime
    ensures body.till != ZeroKerberosTime ==> t == body.till
  {
    if body.till == ZeroKerberosTime then MaxKerberosTime else body.till
  }

  /**
   * The new ticket's times, with the corrected RENEW guard. Under RENEW the
   * TGT must be renewable and not past its renew-till time, and the new
   * ticket keeps the TGT's length from now, capped at the renew-till time;
   * otherwise it ends at the earlier of the requested till and the TGT's
   * end, and RENEWABLE-OK on a renewable TGT whose cap shortened the request
   * yields a renew-till time (the `expect` on the TGT's renew-till time
   * panics when it is absent). A zero or unset renew-till time becomes the
   * latest representable time; it is kept only under the RENEWABLE option.
   */
  function TgsLifetime(opts: KerberosFlags, body: KdcReqBody, tgt: EncTicketPart, now: Time): (r: Outcome<Result<Lifetime, Ecode>>)
    ensures r.Panics? <==>
              !IsSet(opts, Renew) && IsSet(opts, RenewableOk) && Min(RequestedTill(body), tgt.endtime) < body.till
              && IsSet(tgt.flags, Renewable) && tgt.renewTill.None?
    ensures r.Returns? && r.value.Err? ==>
              IsSet(opts, Renew) && r.value.error in {KDC_ERR_BADOPTION, KRB_AP_ERR_TKT_EXPIRED}
    ensures IsSet(opts, Renew) && !IsSet(tgt.flags, Renewable) ==> r == Returns(Err(KDC_ERR_BADOPTION))
    ensures IsSet(opts, Renew) && IsSet(tgt.flags, Renewable) && RenewExpired(tgt.renewTill, now)
            ==> r == Returns(Err(KRB_AP_ERR_TKT_EXPIRED))
    ensures r.Returns? && r.value.Ok? ==> r.value.value.starttime == now
    ensures r.Returns? && r.value.Ok? && !IsSet(opts, Renew) ==>
              r.value.value.endtime <= tgt.endtime && r.value.value.endtime <= RequestedTill(body)
    ensures r.Returns? && r.value.Ok? && IsSet(opts, Renew) ==>
              IsSet(tgt.flags, Renewable) && !RenewExpired(tgt.renewTill, now)
              && r.value.value.endtime <= (if tgt.renewTill.Some? then tgt.renewTill.value else MaxKerberosTime)
    ensures r.Returns? && r.value.Ok? ==>
              (r.value.value.renewTill.Some? <==> IsSet(opts, Renewable))
              && (r.value.value.renewTill.Some? ==> r.value.value.renewTill.value != ZeroKerberosTime)
  {
    if IsSet(opts, Renew) then
      if !IsSet(tgt.flags, Renewable) then Returns(Err(KDC_ERR_BADOPTION))
      else if RenewExpired(tgt.renewTill, now) then Returns(Err(KRB_AP_ERR_TKT_EXPIRED))
      else
        var oldLife := Elapsed(tgt.endtime, if tgt.starttime.Some? then tgt.starttime.value else tgt.authtime);
        var endtime := Min(now + oldLife, if tgt.renewTill.Some? then tgt.renewTill.value else MaxKerberosTime);
        Returns(Ok(Lifetime(now, endtime, if IsSet(opts, Renewable) then Some(MaxKerberosTime) else None)))
    else
      var till := RequestedTill(body);
      var endtime := Min(till, tgt.endtime);
      if IsSet(opts, RenewableOk) && endtime < body.till && IsSet(tgt.flags, Renewable) then
        if tgt.renewTill.None? then Panics
        else
          var rtime := Min(till, tgt.renewTill.value);
          var renewTill := if rtime != ZeroKerberosTime then rtime else MaxKerberosTime;
          Returns(Ok(Lifetime(now, endtime, if IsSet(opts, Renewable) then Some(renewTill) else None)))
      else
        Returns(Ok(Lifetime(now, endtime, if IsSet(opts, Renewable) then Some(MaxKerberosTime) else None)))
  }

  /** Without RENEW, the new ticket never outlives the TGT, whatever till the request asks for. */
  lemma NewTicketWithinTgt(opts: KerberosFlags, body: KdcReqBody, tgt: EncTicketPart, now: Time)
    requires !IsSet(opts, Renew)
    requires TgsLifetime(opts, body, tgt, now).Returns?
    ensures TgsLifetime(opts, body, tgt, now).value.Ok?
    ensures TgsLifetime(opts, body, tgt, now).value.value.endtime == Min(RequestedTill(body), tgt.endtime)
  {
  }

  // ------------------------------------------------------ authorization data

  /**
   * The new ticket's authorization data: with encrypted authorization data
   * in the request, the authenticator's subkey must exist (`expect`), its
   * etype must be supported, and the decryption must decode; the
   * authenticator's own authorization data must exist (`expect`, checked
   * before a decryption error is returned) and comes first.
   */
  function TgsAuthorizationData(c: TgsConfig, body: KdcReqBody, a: Authenticator, now: Time, usec: nat)
    : (r: Outcome<Result<Option<seq<ADEntry>>, ServerError>>)
    ensures body.encAuthorizationData.None? ==> r == Returns(Ok(None))
    ensures r.Panics? <==> body.encAuthorizationData.Some? && (a.subkey.None? || a.authorizationData.None?)
    ensures r.Returns? && r.value.Ok? && body.encAuthorizationData.Some? ==>
              a.subkey.Some? && a.subkey.value.keytype in c.crypto && a.authorizationData.Some?
              && r.value.value.Some? && |a.authorizationData.value| <= |r.value.value.value|
              && r.value.value.value[..|a.authorizationData.value|] == a.authorizationData.value
              && body.encAuthorizationData.value.cipher
                 == Encrypt(a.subkey.value.keytype, a.subkey.value.keyvalue,
                            Encode(DerAuthorizationData(r.value.value.value[|a.authorizationData.value|..])))
    ensures r.Returns? && r.value.Err? && r.value.error.ProtocolError? ==>
              r.value.error == ErrorFor(c, now, usec, r.value.error.msg.errorCode)
              && r.value.error.msg.errorCode in {KDC_ERR_ETYPE_NOSUPP, KRB_AP_ERR_MODIFIED}
  {
    if body.encAuthorizationData.None? then Returns(Ok(None))
    else if a.subkey.None? then Panics
    else
      var key := a.subkey.value;
      var cipher := body.encAuthorizationData.value.cipher;
      var decrypted: Result<seq<ADEntry>, ServerError> :=
        if key.keytype !in c.crypto then Err(ErrorFor(c, now, usec, KDC_ERR_ETYPE_NOSUPP))
        else match Decrypt(key.keytype, key.keyvalue, cipher)
          case Err(_) => Err(Internal)
          case Ok(plain) =>
            var d := Decode(plain);
            if d.Ok? && d.value.DerAuthorizationData? then Ok(d.value.authorizationData)
            else Err(ErrorFor(c, now, usec, KRB_AP_ERR_MODIFIED));
      if a.authorizationData.None? then Panics
      else if decrypted.Err? then Returns(Err(decrypted.error))
      else
        var all := a.authorizationData.value + decrypted.value;
        assert all[|a.authorizationData.value|..] == decrypted.value;
        Returns(Ok(Some(all)))
  }

  // ------------------------------------------------------------------- reply

  /**
   * The reply part's encryption as written: under the authenticator's
   * subkey when there is one, else under the newly generated session key.
   */
  function ReplyEncPartAsWritten(useEtype: int, subkey: Option<EncryptionKey>, sessionKey: EncryptionKey,
                                 tgtKey: EncryptionKey, part: EncKdcRepPart): (e: EncryptedData)
    ensures e.kvno.None?
    ensures subkey.Some? ==> e.etype == subkey.value.keytype
                             && e.cipher == Encrypt(useEtype, subkey.value.keyvalue, Encode(DerEncTgsRepPart(part)))
    ensures subkey.None? ==> e.etype == sessionKey.keytype
                             && e.cipher == Encrypt(useEtype, sessionKey.keyvalue, Encode(DerEncTgsRepPart(part)))
  {
    var k := if subkey.Some? then subkey.value else sessionKey;
    EncryptedData(k.keytype, None, Encrypt(useEtype, k.keyvalue, Encode(DerEncTgsRepPart(part))))
  }

  /**
   * The reply part's encryption as section 3.3.3 of RFC 4120 has it: under
   * the subkey when there is one, else under the session key of the TGT,
   * which is the one key the client already shares with the service.
   */
  function ReplyEncPart(useEtype: int, subkey: Option<EncryptionKey>, sessionKey: EncryptionKey,
                        tgtKey: EncryptionKey, part: EncKdcRepPart): (e: EncryptedData)
    ensures e.kvno.None?
    ensures subkey.Some? ==> e.etype == subkey.value.keytype
                             && Decrypt(useEtype, subkey.value.keyvalue, e.cipher) == Ok(Encode(DerEncTgsRepPart(part)))
    ensures subkey.None? ==> e.etype == tgtKey.keytype
                             && Decrypt(useEtype, tgtKey.keyvalue, e.cipher) == Ok(Encode(DerEncTgsRepPart(part)))
  {
    var k := if subkey.Some? then subkey.value else tgtKey;
    DecryptEncrypt(useEtype, k.keyvalue, Encode(DerEncTgsRepPart(part)));
    EncryptedData(k.keytype, None, Encrypt(useEtype, k.keyvalue, Encode(DerEncTgsRepPart(part))))
  }

  /**
   * Without a subkey, the reply as written cannot be opened with the TGT's
   * session key, the only key the client holds, unless the fresh key
   * happens to equal it; the corrected reply opens to the reply part.
   */
  lemma ReplyKeyCounterexample(useEtype: int, sessionKey: EncryptionKey, tgtKey: EncryptionKey, part: EncKdcRepPart)
    requires sessionKey.keyvalue != tgtKey.keyvalue
    ensures Decrypt(useEtype, tgtKey.keyvalue, ReplyEncPartAsWritten(useEtype, None, sessionKey, tgtKey, part).cipher).Err?
    ensures Decrypt(useEtype, tgtKey.keyvalue, ReplyEncPart(useEtype, None, sessionKey, tgtKey, part).cipher)
            == Ok(Encode(DerEncTgsRepPart(part)))
  {
    DecryptWrongKey(useEtype, sessionKey.keyvalue, tgtKey.keyvalue, Encode(DerEncTgsRepPart(part)));
  }

  /** With a subkey, the two encryptions agree. */
  lemma ReplyKeysAgreeWithSubkey(useEtype: int, subkey: EncryptionKey, sessionKey: EncryptionKey, tgtKey: EncryptionKey,
                                 part: EncKdcRepPart)
    ensures ReplyEncPartAsWritten(useEtype, Some(subkey), sessionKey, tgtKey, part)
            == ReplyEncPart(useEtype, Some(subkey), sessionKey, tgtKey, part)
  {
  }

  /** The new ticket's encrypted part, as the builder assembles it. */
  function NewTicketPart(opts: KerberosFlags, x: TgsContext, sessionKey: EncryptionKey, l: Lifetime,
                         authData: Option<seq<ADEntry>>): (p: EncTicketPart)
    ensures p.flags == KerberosFlags(TicketFlagBytes(opts, x.tgt.flags))
    ensures p.key == sessionKey && p.crealm == x.tgt.crealm && p.cname == x.authenticator.cname
    ensures p.transited == x.tgt.transited && p.authtime == x.tgt.authtime
    ensures p.starttime == Some(l.starttime) && p.endtime == l.endtime && p.renewTill == l.renewTill
    ensures p.caddr == x.tgt.caddr && p.authorizationData == authData
  {
    BuildEncTicketPart(EncTicketPartBuilder(
      KerberosFlags(TicketFlagBytes(opts, x.tgt.flags)), sessionKey, x.tgt.crealm, x.authenticator.cname,
      x.tgt.transited, x.tgt.authtime, Some(l.starttime), l.endtime, l.renewTill, x.tgt.caddr, authData))
  }

  /** The reply part: it repeats the new ticket's key, flags and end time, with the TGT's authentication and start times. */
  function NewReplyPart(c: TgsConfig, body: KdcReqBody, opts: KerberosFlags, x: TgsContext, ticketPart: EncTicketPart)
    : (p: EncKdcRepPart)
    requires body.sname.Some?
    ensures p.key == ticketPart.key && p.flags == ticketPart.flags && p.endtime == ticketPart.endtime
    ensures p.nonce == body.nonce && p.authtime == x.tgt.authtime && p.starttime == x.tgt.starttime
    ensures p.sname == body.sname.value && p.srealm == x.tgt.crealm && p.keyExpiration.None?
    ensures p.renewTill == (if IsSet(ticketPart.flags, Renewable) then ticketPart.renewTill else None)
    ensures p.caddr == ReplyAddresses(opts, x.tgt)
    ensures (x.tgt.crealm, x.tgt.cname) in c.lastReq ==> p.lastReq == c.lastReq[(x.tgt.crealm, x.tgt.cname)]
    ensures (x.tgt.crealm, x.tgt.cname) !in c.lastReq ==> p.lastReq == []
  {
    EncKdcRepPart(
      ticketPart.key,
      if (x.tgt.crealm, x.tgt.cname) in c.lastReq then c.lastReq[(x.tgt.crealm, x.tgt.cname)] else [],
      body.nonce, None, ticketPart.flags, x.tgt.authtime, x.tgt.starttime, ticketPart.endtime,
      if IsSet(ticketPart.flags, Renewable) then ticketPart.renewTill else None,
      x.tgt.crealm, body.sname.value, ReplyAddresses(opts, x.tgt))
  }

  /**
   * The ticket sealed under the requested server's key, in the realm of
   * the TGT's client, and the reply part sealed with the reply etype.
   */
  function AssembleReply(c: TgsConfig, body: KdcReqBody, opts: KerberosFlags, x: TgsContext, sessionKey: EncryptionKey,
                         useEtype: int, l: Lifetime, authData: Option<seq<ADEntry>>): (rep: KdcRep)
    requires body.sname.Some?
    ensures rep.msgType == 13 && rep.padata.None? && rep.crealm == x.tgt.crealm && rep.cname == x.tgt.cname
    ensures rep.ticket.realm == x.tgt.crealm && rep.ticket.sname == body.sname.value
  {
    var part := NewTicketPart(opts, x, sessionKey, l, authData);
    var sealed := EncryptedData(x.server.key.keytype, None,
                                Encrypt(x.server.key.keytype, x.server.key.keyvalue, Encode(DerEncTicketPart(part))));
    var ticket := NewTicket(x.tgt.crealm, body.sname.value, sealed);
    var repPart := NewReplyPart(c, body, opts, x, part);
    NewTgsRep(None, x.tgt.crealm, x.tgt.cname, ticket, ReplyEncPart(useEtype, x.authenticator.subkey, sessionKey, x.tgt.key, repPart))
  }

  /**
   * `handle_tgs_req` with the corrected RENEW guard and reply key: the
   * guards, the generated session key (whose failure is internal), the
   * first supported requested etype, the VALIDATE guard, the lifetime, the
   * authorization data and the server key's cryptosystem, in source order;
   * then the ticket sealed under the server's key and the reply.
   */
  function TgsReply(c: TgsConfig, req: KdcReq, now: Time, usec: nat, generated: Result<Octets, ()>)
    : (r: Outcome<Result<KdcRep, ServerError>>)
  {
    var body := req.reqBody;
    var opts := body.kdcOptions;
    match Authenticate(c, req, now, usec)
    case Err(e) => Returns(Err(e))
    case Ok(x) =>
      if generated.Err? then Returns(Err(Internal))
      else
        var sessionKey := EncryptionKey(c.crypto[0], generated.value);
        var useEtype := FirstSupported(body.etype, c.crypto);
        if useEtype.None? then Returns(Err(ErrorFor(c, now, usec, KDC_ERR_ETYPE_NOSUPP)))
        else
          var vg := ValidateGuard(opts, x.tgt, now);
          if vg.Err? then Returns(Err(ErrorFor(c, now, usec, vg.error)))
          else
            var lt := TgsLifetime(opts, body, x.tgt, now);
            if lt.Panics? then Panics
            else if lt.value.Err? then Returns(Err(ErrorFor(c, now, usec, lt.value.error)))
            else
              var ad := TgsAuthorizationData(c, body, x.authenticator, now, usec);
              if ad.Panics? then Panics
              else if ad.value.Err? then Returns(Err(ad.value.error))
              else if x.server.key.keytype !in c.crypto then Returns(Err(ErrorFor(c, now, usec, KDC_ERR_ETYPE_NOSUPP)))
              else Returns(Ok(AssembleReply(c, body, opts, x, sessionKey, useEtype.value, lt.value.value, ad.value.value)))
  }

  /** Opening the reply part under a key, as the client does. */
  function OpenRepPart(etype: int, key: Octets, cipher: Octets): (r: Option<EncKdcRepPart>)
    ensures r.Some? ==> cipher == Encrypt(etype, key, Encode(DerEncTgsRepPart(r.value)))
  {
    match Decrypt(etype, key, cipher)
    case Err(_) => None
    case Ok(plain) =>
      var d := Decode(plain);
      if d.Ok? && d.value.DerEncTgsRepPart? then Some(d.value.encTgsRepPart) else None
  }

  /**
   * A reply agrees with the request and the new ticket: the ticket opens
   * under the requested server's key, the reply part opens under the
   * subkey or, without one, under the TGT's session key, and the two carry
   * the same fresh session key, flags and end time; the reply echoes the
   * nonce, and the ticket names the authenticated client.
   */
  lemma TgsReplyConsistent(c: TgsConfig, req: KdcReq, now: Time, usec: nat, generated: Result<Octets, ()>)
    requires TgsReply(c, req, now, usec, generated).Returns?
    requires TgsReply(c, req, now, usec, generated).value.Ok?
    ensures Authenticate(c, req, now, usec).Ok? && generated.Ok?
    ensures var x := Authenticate(c, req, now, usec).value;
            var rep := TgsReply(c, req, now, usec, generated).value.value;
            var replyKey := if x.authenticator.subkey.Some? then x.authenticator.subkey.value else x.tgt.key;
            var useEtype := FirstSupported(req.reqBody.etype, c.crypto);
            var tp := OpenTicketPart(x.server.key.keytype, x.server.key.keyvalue, rep.ticket.encPart.cipher);
            var ep := OpenRepPart(useEtype.value, replyKey.keyvalue, rep.encPart.cipher);
            && useEtype.Some? && rep.msgType == 13 && rep.crealm == x.tgt.crealm && rep.cname == x.tgt.cname
            && rep.ticket.sname == req.reqBody.sname.value && rep.ticket.encPart.etype == x.server.key.keytype
            && rep.encPart.etype == replyKey.keytype
            && tp.Some? && ep.Some?
            && tp.value.key == ep.value.key && tp.value.key.keyvalue == generated.value
            && tp.value.flags == ep.value.flags && tp.value.endtime == ep.value.endtime
            && ep.value.nonce == req.reqBody.nonce
            && tp.value.crealm == x.tgt.crealm && tp.value.cname == x.authenticator.cname
            && tp.value.starttime == Some(now)
  {
    var x := Authenticate(c, req, now, usec).value;
    var body := req.reqBody;
    var opts := body.kdcOptions;
    var sessionKey := EncryptionKey(c.crypto[0], generated.value);
    var useEtype := FirstSupported(body.etype, c.crypto);
    var l := TgsLifetime(opts, body, x.tgt, now).value.value;
    var ad := TgsAuthorizationData(c, body, x.authenticator, now, usec).value.value;
    var part := NewTicketPart(opts, x, sessionKey, l, ad);
    var repPart := NewReplyPart(c, body, opts, x, part);
    var replyKey := if x.authenticator.subkey.Some? then x.authenticator.subkey.value else x.tgt.key;
    DecryptEncrypt(x.server.key.keytype, x.server.key.keyvalue, Encode(DerEncTicketPart(part)));
    DecodeEncode(DerEncTicketPart(part));
    DecryptEncrypt(useEtype.value, replyKey.keyvalue, Encode(DerEncTgsRepPart(repPart)));
    DecodeEncode(DerEncTgsRepPart(repPart));
  }

  /** A FORWARDED TGT yields a FORWARDED ticket, whatever the options say. */
  lemma ForwardedTgtPropagates(opts: KerberosFlags, tgtFlags: KerberosFlags)
    requires IsSet(tgtFlags, Forwarded)
    ensures IsSet(KerberosFlags(TicketFlagBytes(opts, tgtFlags)), Forwarded)
  {
    TicketFlagsMeaning(opts, tgtFlags, Forwarded);
  }

  /** A ticket only becomes PROXY, FORWARDABLE or RENEWABLE when the request asks for it. */
  lemma NoUnrequestedFlags(opts: KerberosFlags, tgtFlags: KerberosFlags)
    ensures IsSet(KerberosFlags(TicketFlagBytes(opts, tgtFlags)), Proxy) ==> IsSet(opts, Proxy)
    ensures IsSet(KerberosFlags(TicketFlagBytes(opts, tgtFlags)), Forwardable) ==> IsSet(opts, Forwardable)
    ensures IsSet(KerberosFlags(TicketFlagBytes(opts, tgtFlags)), Renewable) ==> IsSet(opts, Renewable)
    ensures IsSet(KerberosFlags(TicketFlagBytes(opts, tgtFlags)), Invalid) ==> IsSet(opts, Validate)
  {
    TicketFlagsMeaning(opts, tgtFlags, Proxy);
    TicketFlagsMeaning(opts, tgtFlags, Forwardable);
    TicketFlagsMeaning(opts, tgtFlags, Renewable);
    TicketFlagsMeaning(opts, tgtFlags, Invalid);
  }

  // ------------------------------------------------------------ the handler

  /** The `find_map` over the requested etypes, as a scan. */
  method SelectEtype(etypes: seq<int>, crypto: seq<int>) returns (e: Option<int>)
    ensures e == FirstSupported(etypes, crypto)
  {
    var i := 0;
    while i < |etypes|
      invariant 0 <= i <= |etypes|
      invariant FirstSupported(etypes[i..], crypto) == FirstSupported(etypes, crypto)
    {
      if etypes[i] in crypto {
        return Some(etypes[i]);
      }
      assert etypes[i..][1..] == etypes[i + 1..];
      i := i + 1;
    }
    return None;
  }

  /** The lifetime stage of `handle_tgs_req`, with its mutable `rtime`. */
  method ComputeLifetime(opts: KerberosFlags, body: KdcReqBody, tgt: EncTicketPart, now: Time)
    returns (r: Outcome<Result<Lifetime, Ecode>>)
    ensures r == TgsLifetime(opts, body, tgt, now)
  {
    var endtime: Time;
    var rtime: Option<Time> := None;
    if IsSet(opts, Renew) {
      if !IsSet(tgt.flags, Renewable) {
        return Returns(Err(KDC_ERR_BADOPTION));
      }
      if RenewExpired(tgt.renewTill, now) {
        return Returns(Err(KRB_AP_ERR_TKT_EXPIRED));
      }
      var oldLife := Elapsed(tgt.endtime, if tgt.starttime.Some? then tgt.starttime.value else tgt.authtime);
      endtime := Min(now + oldLife, if tgt.renewTill.Some? then tgt.renewTill.value else MaxKerberosTime);
    } else {
      var till := RequestedTill(body);
      endtime := Min(till, tgt.endtime);
      if IsSet(opts, RenewableOk) && endtime < body.till && IsSet(tgt.flags, Renewable) {
        if tgt.renewTill.None? {
          return Panics;
        }
        rtime := Some(Min(till, tgt.renewTill.value));
      }
    }
    var renewTill := if rtime.Some? && rtime.value != ZeroKerberosTime then rtime.value else MaxKerberosTime;
    r := Returns(Ok(Lifetime(now, endtime, if IsSet(opts, Renewable) then Some(renewTill) else None)));
  }

  /**
   * `handle_tgs_req`: the guards, then the new ticket's flags set on a
   * flags builder, the addresses and the lifetime held in local variables,
   * and the sealed ticket and reply.
   */
  method HandleTgsReq(c: TgsConfig, req: KdcReq, now: Time, usec: nat, generated: Result<Octets, ()>)
    returns (r: Outcome<Result<KdcRep, ServerError>>)
    ensures r == TgsReply(c, req, now, usec, generated)
  {
    var body := req.reqBody;
    var opts := body.kdcOptions;
    var auth := Authenticate(c, req, now, usec);
    if auth.Err? {
      return Returns(Err(auth.error));
    }
    var x := auth.value;
    var tgt := x.tgt;
    if generated.Err? {
      return Returns(Err(Internal));
    }
    var sessionKey := EncryptionKey(c.crypto[0], generated.value);
    var useEtype := SelectEtype(body.etype, c.crypto);
    if useEtype.None? {
      return Returns(Err(ErrorFor(c, now, usec, KDC_ERR_ETYPE_NOSUPP)));
    }

    var flags := new RawFlagsBuilder.New();
    var ticketCaddr, repCaddr := SetOptionFlags(flags, opts, tgt);
    if IsSet(opts, Validate) {
      if !IsSet(opts, Invalid) {
        return Returns(Err(ErrorFor(c, now, usec, KDC_ERR_POLICY)));
      }
      if (if tgt.starttime.Some? then tgt.starttime.value else ZeroKerberosTime) > now {
        return Returns(Err(ErrorFor(c, now, usec, KRB_AP_ERR_TKT_NYV)));
      }
      flags.Set(Invalid);
    }
    ghost var b6 := flags.Bytes();
    assert b6 == SetIf(OptionFlagBytes(DefaultFlagBytes, opts, tgt.flags), IsSet(opts, Validate), Invalid);
    assert ValidateGuard(opts, tgt, now).Ok?;

    var lt := ComputeLifetime(opts, body, tgt, now);
    if lt.Panics? {
      return Panics;
    }
    if lt.value.Err? {
      return Returns(Err(ErrorFor(c, now, usec, lt.value.error)));
    }
    if IsSet(opts, Renewable) {
      flags.Set(Renewable);
    }
    assert flags.Bytes() == TicketFlagBytes(opts, tgt.flags);

    var ad := TgsAuthorizationData(c, body, x.authenticator, now, usec);
    if ad.Panics? {
      return Panics;
    }
    if ad.value.Err? {
      return Returns(Err(ad.value.error));
    }
    if x.server.key.keytype !in c.crypto {
      return Returns(Err(ErrorFor(c, now, usec, KDC_ERR_ETYPE_NOSUPP)));
    }
    var ticketFlags := flags.Build();
    var rep := Assemble(c, body, opts, x, sessionKey, useEtype.value, lt.value.value, ad.value.value,
                        ticketFlags, ticketCaddr, repCaddr);
    r := Returns(Ok(rep));
  }

  /** The `set` calls before the VALIDATE guard, and the addresses they copy from the TGT. */
  method SetOptionFlags(flags: RawFlagsBuilder, opts: KerberosFlags, tgt: EncTicketPart)
    returns (ticketCaddr: Option<seq<HostAddress>>, repCaddr: Option<seq<HostAddress>>)
    requires flags.Valid()
    modifies flags.inner
    ensures flags.Valid()
    ensures flags.Bytes() == OptionFlagBytes(old(flags.Bytes()), opts, tgt.flags)
    ensures ticketCaddr == tgt.caddr && repCaddr == ReplyAddresses(opts, tgt)
  {
    ticketCaddr := tgt.caddr;
    repCaddr := None;
    ghost var b0 := flags.Bytes();
    if IsSet(opts, Forwardable) {
      flags.Set(Forwardable);
    }
    ghost var b1 := flags.Bytes();
    assert b1 == SetIf(b0, IsSet(opts, Forwardable), Forwardable);
    if IsSet(opts, Forwarded) {
      flags.Set(Forwarded);
      if tgt.caddr.Some? {
        ticketCaddr := tgt.caddr;
        repCaddr := tgt.caddr;
      }
    }
    ghost var b2 := flags.Bytes();
    assert b2 == SetIf(b1, IsSet(opts, Forwarded), Forwarded);
    if IsSet(tgt.flags, Forwarded) {
      flags.Set(Forwarded);
    }
    ghost var b3 := flags.Bytes();
    assert b3 == SetIf(b2, IsSet(tgt.flags, Forwarded), Forwarded);
    if IsSet(opts, Proxiable) {
      flags.Set(Proxiable);
    }
    ghost var b4 := flags.Bytes();
    assert b4 == SetIf(b3, IsSet(opts, Proxiable), Proxiable);
    if IsSet(opts, Proxy) {
      flags.Set(Proxy);
      if tgt.caddr.Some? {
        ticketCaddr := tgt.caddr;
        repCaddr := tgt.caddr;
      }
    }
  }

  /** Building and sealing the ticket and the reply part. */
  method Assemble(c: TgsConfig, body: KdcReqBody, opts: KerberosFlags, x: TgsContext, sessionKey: EncryptionKey,
                  useEtype: int, l: Lifetime, authData: Option<seq<ADEntry>>, ticketFlags: KerberosFlags,
                  ticketCaddr: Option<seq<HostAddress>>, repCaddr: Option<seq<HostAddress>>) returns (rep: KdcRep)
    requires body.sname.Some?
    requires ticketFlags == KerberosFlags(TicketFlagBytes(opts, x.tgt.flags))
    requires ticketCaddr == x.tgt.caddr && repCaddr == ReplyAddresses(opts, x.tgt)
    ensures rep == AssembleReply(c, body, opts, x, sessionKey, useEtype, l, authData)
  {
    var tgt := x.tgt;
    var part := BuildEncTicketPart(EncTicketPartBuilder(
      ticketFlags, sessionKey, tgt.crealm, x.authenticator.cname, tgt.transited, tgt.authtime,
      Some(l.starttime), l.endtime, l.renewTill, ticketCaddr, authData));
    var sealed := EncryptedData(x.server.key.keytype, None,
                                Encrypt(x.server.key.keytype, x.server.key.keyvalue, Encode(DerEncTicketPart(part))));
    var ticket := NewTicket(tgt.crealm, body.sname.value, sealed);
    var lastReq := if (tgt.crealm, tgt.cname) in c.lastReq then c.lastReq[(tgt.crealm, tgt.cname)] else [];
    var repPart := EncKdcRepPart(
      sessionKey, lastReq, body.nonce, None, ticketFlags, tgt.authtime, tgt.starttime, part.endtime,
      if IsSet(ticketFlags, Renewable) then part.renewTill else None, tgt.crealm, body.sname.value, repCaddr);
    var replyKey := if x.authenticator.subkey.Some? then x.authenticator.subkey.value else tgt.key;
    var encPart := EncryptedData(replyKey.keytype, None,
                                 Encrypt(useEtype, replyKey.keyvalue, Encode(DerEncTgsRepPart(repPart))));
    rep := NewTgsRep(None, tgt.crealm, tgt.cname, ticket, encPart);
  }
}
