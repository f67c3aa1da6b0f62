/**
 * The checks a client applies to a KDC reply (kerberos/src/client/kdc_exchange.rs,
 * after section 3.1.5 of RFC 4120): the encrypted part is decrypted and decoded,
 * then compared with the request field by field. Instants are microseconds since
 * the epoch; `now` is the environment's current time.
 */
module KdcExchange {
  import opened Wrappers
  import opened Constants
  import opened Flags
  import opened KerberosTypes
  import opened Codec
  import opened ClientUtil
  import opened ClientEnviron

  datatype KdcExchangeType = As | Tgs

  /** The allowed distance between the reply's starttime and the client clock: five minutes. */
  const ClockSkewMicros: nat := 5 * 60 * MicrosPerSecond

  /** The DER value an encrypted reply part is: EncASRepPart or EncTGSRepPart. */
  function PartValue(t: KdcExchangeType, part: EncKdcRepPart): DerValue {
    match t
    case As => DerEncAsRepPart(part)
    case Tgs => DerEncTgsRepPart(part)
  }

  /** `EncAsRepPart::from_der` / `EncTgsRepPart::from_der`, chosen by the exchange type. */
  function DecodeRepPart(t: KdcExchangeType, plain: Octets): (r: Result<EncKdcRepPart, ClientError>)
    ensures r.Ok? ==> plain == Encode(PartValue(t, r.value))
    ensures r.Err? ==> r.error == ClientError.DecodeError
  {
    var d := Decode(plain);
    match t
    case As => if d.Ok? && d.value.DerEncAsRepPart? then Ok(d.value.encAsRepPart) else Err(ClientError.DecodeError)
    case Tgs => if d.Ok? && d.value.DerEncTgsRepPart? then Ok(d.value.encTgsRepPart) else Err(ClientError.DecodeError)
  }

  /** Decoding gives back any encoded part of the matching kind. */
  lemma DecodeRepPartEncode(t: KdcExchangeType, part: EncKdcRepPart)
    ensures DecodeRepPart(t, Encode(PartValue(t, part))) == Ok(part)
  {
    DecodeEncode(PartValue(t, part));
  }

  /** Decryption (a failure is a `CryptographyError`) followed by decoding. */
  function DecryptRepPart(cryptoEtype: int, key: EncryptionKey, rep: KdcRep, t: KdcExchangeType): (r: Result<EncKdcRepPart, ClientError>)
    ensures r.Ok? ==> rep.encPart.cipher == Encrypt(cryptoEtype, key.keyvalue, Encode(PartValue(t, r.value)))
    ensures r == Err(CryptographyError) <==> Decrypt(cryptoEtype, key.keyvalue, rep.encPart.cipher).Err?
  {
    match Decrypt(cryptoEtype, key.keyvalue, rep.encPart.cipher)
    case Ok(plain) => DecodeRepPart(t, plain)
    case Err(_) => Err(CryptographyError)
  }

  /** The identity comparisons of lines 49-57: names, realms, nonce and addresses. */
  predicate IdentityMatches(body: KdcReqBody, rep: KdcRep, part: EncKdcRepPart)
    requires body.cname.Some? && body.sname.Some?
  {
    body.cname.value == rep.cname && rep.crealm == body.realm
    && body.sname.value == part.sname && body.realm == part.srealm
    && body.nonce == part.nonce && body.addresses == part.caddr
  }

  /** The start time is present and agrees with the request: the requested `from`, or the clock within the skew. */
  predicate StartTimeAcceptable(body: KdcReqBody, part: EncKdcRepPart, now: nat) {
    part.starttime.Some?
    && (body.from.None? ==> IsWithinClockSkew(TimeToMicros(part.starttime.value), now, ClockSkewMicros))
    && (body.from.Some? ==> body.from.value == part.starttime.value)
  }

  /** The reply does not outlast a nonzero `till`. */
  predicate EndTimeAcceptable(body: KdcReqBody, part: EncKdcRepPart) {
    body.till != ZeroKerberosTime ==> part.endtime <= body.till
  }

  /**
   * The renewal limits: a RENEWABLE request with a nonzero rtime bounds
   * renew_till by rtime; a RENEWABLE-OK request answered with a renewable
   * ticket, with a nonzero till, bounds renew_till by till.
   */
  predicate RenewalAcceptable(body: KdcReqBody, part: EncKdcRepPart) {
    && ((IsSet(body.kdcOptions, Renewable) && body.rtime.Some? && !IsZeroTime(body.rtime.value) && part.renewTill.Some?)
        ==> part.renewTill.value <= body.rtime.value)
    && ((IsSet(body.kdcOptions, RenewableOk) && IsSet(part.flags, Renewable) && !IsZeroTime(body.till) && part.renewTill.Some?)
        ==> part.renewTill.value <= body.till)
  }

  /** Everything the client requires of a decrypted reply part, as one conjunction. */
  predicate ReplyConsistent(req: KdcReq, rep: KdcRep, part: EncKdcRepPart, now: nat) {
    var body := req.reqBody;
    body.cname.Some? && body.sname.Some?
    && IdentityMatches(body, rep, part)
    && body.kdcOptions == part.flags
    && StartTimeAcceptable(body, part, now)
    && EndTimeAcceptable(body, part)
    && RenewalAcceptable(body, part)
  }

  /**
   * The comparisons of `receive_kdc_rep` after decryption, in the source's
   * order: the request's cname and sname must exist; the identity fields
   * and the options must match; then the start time, the end time and the
   * renewal limits.
   */
  function CheckRepPart(req: KdcReq, rep: KdcRep, part: EncKdcRepPart, now: nat): (r: Result<(), ClientError>)
    ensures r.Ok? <==> ReplyConsistent(req, rep, part, now)
    ensures req.reqBody.cname.None? ==> r == Err(InvalidKdcReq("Request cname not found"))
    ensures req.reqBody.cname.Some? && req.reqBody.sname.None? ==> r == Err(InvalidKdcReq("Request sname not found"))
    ensures r.Err? && r.error.InvalidKdcReq? <==> req.reqBody.cname.None? || req.reqBody.sname.None?
    ensures r == Err(ClockSkewError) <==>
              req.reqBody.cname.Some? && req.reqBody.sname.Some? && IdentityMatches(req.reqBody, rep, part)
              && req.reqBody.kdcOptions == part.flags && req.reqBody.from.None? && part.starttime.Some?
              && !IsWithinClockSkew(TimeToMicros(part.starttime.value), now, ClockSkewMicros)
    ensures r.Err? ==> r.error == ResponseModified || r.error == ClockSkewError || r.error.InvalidKdcReq?
  {
    var body := req.reqBody;
    if body.cname.None? then Err(InvalidKdcReq("Request cname not found"))
    else if body.sname.None? then Err(InvalidKdcReq("Request sname not found"))
    else if !IdentityMatches(body, rep, part) then Err(ResponseModified)
    else if body.kdcOptions != part.flags then Err(ResponseModified)
    else if body.from.None? && part.starttime.None? then Err(ResponseModified)
    else if body.from.None? && !IsWithinClockSkew(TimeToMicros(part.starttime.value), now, ClockSkewMicros) then Err(ClockSkewError)
    else if part.starttime.None? then Err(ResponseModified)
    else if body.from.Some? && body.from.value != part.starttime.value then Err(ResponseModified)
    else if body.till != ZeroKerberosTime && part.endtime > body.till then Err(ResponseModified)
    else if IsSet(body.kdcOptions, Renewable) && body.rtime.Some? && !IsZeroTime(body.rtime.value)
            && part.renewTill.Some? && part.renewTill.value > body.rtime.value then Err(ResponseModified)
    else if IsSet(body.kdcOptions, RenewableOk) && IsSet(part.flags, Renewable) && !IsZeroTime(body.till)
            && part.renewTill.Some? && part.renewTill.value > body.till then Err(ResponseModified)
    else Ok(())
  }

  /**
   * `receive_kdc_rep`: decrypt the reply's encrypted part with the given key
   * and cryptosystem, decode it as the exchange's part, then check it.
   */
  function ReceiveKdcRep(cryptoEtype: int, key: EncryptionKey, req: KdcReq, rep: KdcRep,
                         t: KdcExchangeType, now: nat): (r: Result<(), ClientError>)
    ensures r.Ok? <==> DecryptRepPart(cryptoEtype, key, rep, t).Ok?
                       && ReplyConsistent(req, rep, DecryptRepPart(cryptoEtype, key, rep, t).value, now)
    ensures Decrypt(cryptoEtype, key.keyvalue, rep.encPart.cipher).Err? ==> r == Err(CryptographyError)
  {
    match DecryptRepPart(cryptoEtype, key, rep, t)
    case Ok(part) => CheckRepPart(req, rep, part, now)
    case Err(e) => Err(e)
  }

  /**
   * A reply whose encrypted part is a consistent part sealed under the key
   * is accepted, and one sealed under any other key is refused as a
   * cryptography error.
   */
  lemma SealedConsistentReplyAccepted(cryptoEtype: int, key: EncryptionKey, req: KdcReq, rep: KdcRep,
                                      t: KdcExchangeType, now: nat, part: EncKdcRepPart)
    requires rep.encPart.cipher == Encrypt(cryptoEtype, key.keyvalue, Encode(PartValue(t, part)))
    requires ReplyConsistent(req, rep, part, now)
    ensures ReceiveKdcRep(cryptoEtype, key, req, rep, t, now) == Ok(())
    ensures forall other: EncryptionKey :: other.keyvalue != key.keyvalue ==>
              ReceiveKdcRep(cryptoEtype, other, req, rep, t, now) == Err(CryptographyError)
  {
    DecryptEncrypt(cryptoEtype, key.keyvalue, Encode(PartValue(t, part)));
    DecodeRepPartEncode(t, part);
  }

  /**
   * The reply's start time, nonce and names are fixed by the request: two
   * accepted parts for the same request and reply agree on them.
   */
  lemma AcceptedPartsAgree(req: KdcReq, rep: KdcRep, p1: EncKdcRepPart, p2: EncKdcRepPart, now: nat)
    requires CheckRepPart(req, rep, p1, now).Ok? && CheckRepPart(req, rep, p2, now).Ok?
    ensures p1.nonce == p2.nonce && p1.sname == p2.sname && p1.srealm == p2.srealm
    ensures p1.caddr == p2.caddr && p1.flags == p2.flags
    ensures req.reqBody.from.Some? ==> p1.starttime == p2.starttime
  {
  }
}
