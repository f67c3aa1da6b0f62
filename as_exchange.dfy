/**
 * The client side of the AS exchange (kerberos/src/client/as_exchange.rs,
 * section 3.1 of RFC 4120): building KRB_AS_REQ from the environment and
 * accepting KRB_AS_REP. `now` is the clock in microseconds; the nonce, drawn
 * at random by the source, is an input.
 */
module AsExchange {
  import opened Wrappers
  import opened Constants
  import opened Flags
  import opened KerberosTypes
  import opened Codec
  import opened KdcMessages
  import opened ClientUtil
  import opened ClientEnviron
  import opened KdcExchange
  import opened ApExchange

  /** The requested lifetime: one day. */
  const RequestLifetime: nat := 60 * 60 * 24

  /** `KerberosTime::from_unix_duration(current_time + one day)`: whole seconds, failing past the last KerberosTime. */
  function TillFromClock(now: nat): (r: Result<Time, ClientError>)
    ensures r.Ok? <==> now / MicrosPerSecond + RequestLifetime <= MaxKerberosTime
    ensures r.Ok? ==> r.value == now / MicrosPerSecond + RequestLifetime
    ensures r.Err? ==> r.error == ClientError.DecodeError
  {
    var till := now / MicrosPerSecond + RequestLifetime;
    if till <= MaxKerberosTime then Ok(till) else Err(ClientError.DecodeError)
  }

  /**
   * `prepare_as_request`: a KRB_AS_REQ for the client and service names of
   * the environment, in the server realm, with the environment's options, a
   * one-day lifetime and empty padata. POSTDATED demands a start time, which
   * becomes `from`; RENEWABLE demands a renewal time, which becomes `rtime`.
   */
  function PrepareAsRequest(s: ClientSettings, now: nat, starttime: Option<Time>, renewalTime: Option<Time>, nonce: int)
    : (r: Result<KdcReq, ClientError>)
    ensures TillFromClock(now).Err? ==> r == Err(ClientError.DecodeError)
    ensures TillFromClock(now).Ok? && IsSet(s.kdcOptions, Postdated) && starttime.None? ==>
              r == Err(PrepareRequestError("POSTDATED flag is set but no starttime is provided"))
    ensures TillFromClock(now).Ok? && !(IsSet(s.kdcOptions, Postdated) && starttime.None?)
            && IsSet(s.kdcOptions, Renewable) && renewalTime.None? ==>
              r == Err(PrepareRequestError("RENEWABLE flag is set but no renewal time is provided"))
    ensures r.Ok? <==> TillFromClock(now).Ok? && (IsSet(s.kdcOptions, Postdated) ==> starttime.Some?)
                       && (IsSet(s.kdcOptions, Renewable) ==> renewalTime.Some?)
    ensures r.Ok? ==> r.value.pvno == 5 && r.value.msgType == 10 && r.value.padata == Some([])
    ensures r.Ok? ==> r.value.reqBody.kdcOptions == s.kdcOptions && r.value.reqBody.till == TillFromClock(now).value
    ensures r.Ok? ==> r.value.reqBody.from == (if IsSet(s.kdcOptions, Postdated) then starttime else None)
    ensures r.Ok? ==> r.value.reqBody.rtime == (if IsSet(s.kdcOptions, Renewable) then renewalTime else None)
    ensures r.Ok? ==> r.value.reqBody.cname == Some(NtPrincipalName(s.clientName))
                      && r.value.reqBody.sname == Some(NtPrincipalName(s.serverName))
                      && r.value.reqBody.realm == s.serverRealm
    ensures r.Ok? ==> r.value.reqBody.nonce == nonce && r.value.reqBody.etype == s.supportedEtypes
    ensures r.Ok? ==> r.value.reqBody.addresses.None? && r.value.reqBody.encAuthorizationData.None?
                      && r.value.reqBody.additionalTickets.None?
  {
    match TillFromClock(now)
    case Err(e) => Err(e)
    case Ok(till) =>
      if IsSet(s.kdcOptions, Postdated) && starttime.None? then
        Err(PrepareRequestError("POSTDATED flag is set but no starttime is provided"))
      else if IsSet(s.kdcOptions, Renewable) && renewalTime.None? then
        Err(PrepareRequestError("RENEWABLE flag is set but no renewal time is provided"))
      else
        var from := if IsSet(s.kdcOptions, Postdated) then starttime else None;
        var rtime := if IsSet(s.kdcOptions, Renewable) then renewalTime else None;
        var body := KdcReqBody(s.kdcOptions, Some(NtPrincipalName(s.clientName)), s.serverRealm,
                               Some(NtPrincipalName(s.serverName)), from, till, rtime, nonce,
                               s.supportedEtypes, None, None, None);
        Ok(NewAsReq(Some([]), body))
  }

  /**
   * The reply part an honest KDC would return for a request: the request's
   * nonce, names, addresses and options, starting at `from` or at the
   * current second, ending at `till`, not renewable.
   */
  function EchoingPart(req: KdcReq, key: EncryptionKey, now: nat): EncKdcRepPart
    requires req.reqBody.sname.Some?
  {
    var body := req.reqBody;
    var start := if body.from.Some? then body.from.value else now / MicrosPerSecond;
    EncKdcRepPart(key, [], body.nonce, None, body.kdcOptions, now / MicrosPerSecond, Some(start),
                  body.till, None, body.realm, body.sname.value, body.addresses)
  }

  /** Every request `prepare_as_request` builds admits a reply the client accepts: the echoing one. */
  lemma PreparedAsRequestAnswerable(s: ClientSettings, now: nat, starttime: Option<Time>, renewalTime: Option<Time>,
                                    nonce: int, rep: KdcRep, key: EncryptionKey)
    requires PrepareAsRequest(s, now, starttime, renewalTime, nonce).Ok?
    requires rep.cname == NtPrincipalName(s.clientName) && rep.crealm == s.serverRealm
    ensures var req := PrepareAsRequest(s, now, starttime, renewalTime, nonce).value;
            ReplyConsistent(req, rep, EchoingPart(req, key, now), now)
  {
    var req := PrepareAsRequest(s, now, starttime, renewalTime, nonce).value;
    if req.reqBody.from.None? {
      var t := now / MicrosPerSecond;
      assert TimeToMicros(t) <= now < TimeToMicros(t) + MicrosPerSecond;
      assert IsWithinClockSkew(TimeToMicros(t), now, ClockSkewMicros);
    }
  }

  /**
   * The checks of `receive_as_response`: a cryptosystem and a client key
   * for the reply's etype, the part decrypted and decoded, and then
   * `receive_kdc_rep`. The result is the decoded part, which is saved.
   */
  function CheckAsResponse(s: ClientSettings, req: KdcReq, rep: KdcRep, now: nat): (r: Result<EncKdcRepPart, ClientError>)
    ensures rep.encPart.etype !in s.cryptoEtypes ==> r.Err? && r.error.ClientEnvError?
    ensures rep.encPart.etype in s.cryptoEtypes && rep.encPart.etype !in s.clientKeys ==> r.Err? && r.error.ClientEnvError?
    ensures r.Ok? <==> rep.encPart.etype in s.cryptoEtypes && rep.encPart.etype in s.clientKeys
                       && ReceiveKdcRep(rep.encPart.etype, s.clientKeys[rep.encPart.etype], req, rep, As, now).Ok?
    ensures r.Ok? ==> rep.encPart.cipher == Encrypt(rep.encPart.etype, s.clientKeys[rep.encPart.etype].keyvalue,
                                                    Encode(DerEncAsRepPart(r.value)))
    ensures r.Ok? ==> ReplyConsistent(req, rep, r.value, now)
  {
    match GetCrypto(s, rep.encPart.etype)
    case Err(e) => Err(e)
    case Ok(crypto) =>
      match GetClientKey(s, rep.encPart.etype)
      case Err(e) => Err(e)
      case Ok(key) =>
        match DecryptRepPart(crypto, key, rep, As)
        case Err(e) => Err(e)
        case Ok(part) =>
          match ReceiveKdcRep(crypto, key, req, rep, As, now)
          case Err(e) => Err(e)
          case Ok(_) => Ok(part)
  }

  /** `receive_as_response`: the reply and its part are saved only when every check passed. */
  method ReceiveAsResponse(env: ClientEnv, req: KdcReq, rep: KdcRep, now: nat) returns (r: Result<(), ClientError>)
    modifies env
    ensures var c := CheckAsResponse(env.settings, req, rep, now);
            c.Err? ==> r == Err(c.error) && env.saved == old(env.saved)
    ensures var c := CheckAsResponse(env.settings, req, rep, now);
            c.Ok? ==> r == Ok(()) && env.saved == old(env.saved).(asReply := Some(rep), asReplyEncPart := Some(c.value))
  {
    var c := CheckAsResponse(env.settings, req, rep, now);
    if c.Err? {
      return Err(c.error);
    }
    env.SaveAsReply(rep, c.value);
    r := Ok(());
  }
}
