/**
 * The client side of the TGS exchange (kerberos/src/client/tgs_exchange.rs,
 * section 3.3 of RFC 4120): building KRB_TGS_REQ with its PA-TGS-REQ
 * authentication header, and accepting KRB_TGS_REP under the key chosen from
 * the reply's padata. `now` is the clock in microseconds, read for the end
 * time; `ctimeClock` and `cusecClock` are the two later readings the AP-REQ
 * takes. The nonce and the authenticator's sequence number are inputs.
 */
module TgsExchange {
  import opened Wrappers
  import opened KerberosTypes
  import opened Codec
  import opened KdcMessages
  import opened ClientEnviron
  import opened KdcExchange
  import opened ApExchange
  import opened AsExchange

  /** `PaDataTypes::PaTgsReq`. */
  const PaTgsReqType := 1

  /**
   * `prepare_tgs_request`: the names and lifetime as in the AS request; at
   * least one supported etype; the AP-REQ of `prepare_ap_request` without
   * mutual authentication or checksum, encoded as the single PA-TGS-REQ entry.
   */
  function PrepareTgsRequest(s: ClientSettings, saved: Saved, now: nat, ctimeClock: nat, cusecClock: nat, nonce: int, seqNumber: int)
    : (r: Result<KdcReq, ClientError>)
    requires 0 <= seqNumber < 0x1_0000
    ensures TillFromClock(now).Err? ==> r == Err(ClientError.DecodeError)
    ensures TillFromClock(now).Ok? && |s.supportedEtypes| == 0 ==> r == Err(ClientEnvError("no encryption type supported"))
    ensures r.Ok? <==> TillFromClock(now).Ok? && |s.supportedEtypes| > 0
                       && PrepareApRequest(s, saved, ctimeClock, cusecClock, false, None, seqNumber).Ok?
    ensures r.Ok? ==> r.value.pvno == 5 && r.value.msgType == 12
    ensures r.Ok? ==> r.value.padata
                      == Some([PaData(PaTgsReqType, Encode(DerApReq(PrepareApRequest(s, saved, ctimeClock, cusecClock, false, None, seqNumber).value)))])
    ensures r.Ok? ==> r.value.reqBody.till == TillFromClock(now).value && r.value.reqBody.kdcOptions == s.kdcOptions
    ensures r.Ok? ==> r.value.reqBody.cname == Some(NtPrincipalName(s.clientName))
                      && r.value.reqBody.sname == Some(NtPrincipalName(s.serverName))
                      && r.value.reqBody.realm == s.serverRealm
    ensures r.Ok? ==> r.value.reqBody.nonce == nonce && r.value.reqBody.etype == s.supportedEtypes
    ensures r.Ok? ==> r.value.reqBody.from.None? && r.value.reqBody.rtime.None? && r.value.reqBody.addresses.None?
  {
    match TillFromClock(now)
    case Err(e) => Err(e)
    case Ok(till) =>
      if |s.supportedEtypes| == 0 then Err(ClientEnvError("no encryption type supported"))
      else
        match PrepareApRequest(s, saved, ctimeClock, cusecClock, false, None, seqNumber)
        case Err(e) => Err(e)
        case Ok(apReq) =>
          var authHeader := PaData(PaTgsReqType, Encode(DerApReq(apReq)));
          var body := KdcReqBody(s.kdcOptions, Some(NtPrincipalName(s.clientName)), s.serverRealm,
                                 Some(NtPrincipalName(s.serverName)), None, till, None, nonce,
                                 s.supportedEtypes, None, None, None);
          Ok(NewTgsReq(Some([authHeader]), body))
  }

  /** `padata.iter().find(|x| x.padata_type == t)`: the first entry of type `t`. */
  function FindPaData(padata: seq<PaData>, t: int): (r: Option<nat>)
    ensures r.Some? ==> r.value < |padata| && padata[r.value].padataType == t
    ensures r.Some? ==> forall i :: 0 <= i < r.value ==> padata[i].padataType != t
    ensures r.None? ==> forall i :: 0 <= i < |padata| ==> padata[i].padataType != t
  {
    if |padata| == 0 then None
    else if padata[0].padataType == t then Some(0)
    else match FindPaData(padata[1..], t)
      case None => None
      case Some(i) => Some(i + 1)
  }

  /**
   * The key that decrypts a TGS reply: when the reply's padata holds a
   * PA-TGS-REQ entry, the first one is decoded as an AP-REQ, its
   * authenticator is decrypted under the session key and decoded, and its
   * subkey, if any, is the key; otherwise the session key is.
   */
  function TgsDecryptKey(cryptoEtype: int, sessionKey: EncryptionKey, padata: Option<seq<PaData>>)
    : (r: Result<EncryptionKey, ClientError>)
    ensures (padata.None? || FindPaData(padata.value, PaTgsReqType).None?) ==> r == Ok(sessionKey)
    ensures r.Ok? && r.value != sessionKey ==>
              padata.Some? && FindPaData(padata.value, PaTgsReqType).Some?
  {
    if padata.None? then Ok(sessionKey)
    else match FindPaData(padata.value, PaTgsReqType)
      case None => Ok(sessionKey)
      case Some(i) =>
        var d := Decode(padata.value[i].padataValue);
        if !(d.Ok? && d.value.DerApReq?) then Err(ClientError.DecodeError)
        else match Decrypt(cryptoEtype, sessionKey.keyvalue, d.value.apReq.authenticator.cipher)
          case Err(_) => Err(CryptographyError)
          case Ok(plain) =>
            var a := Decode(plain);
            if !(a.Ok? && a.value.DerAuthenticator?) then Err(ClientError.DecodeError)
            else if a.value.authenticator.subkey.Some? then Ok(a.value.authenticator.subkey.value)
            else Ok(sessionKey)
  }

  /**
   * A PA-TGS-REQ entry carrying an AP-REQ whose authenticator is sealed
   * under the session key selects that authenticator's subkey, or the
   * session key when it has none.
   */
  lemma TgsDecryptKeyFromAuthenticator(cryptoEtype: int, sessionKey: EncryptionKey, before: seq<PaData>,
                                       after: seq<PaData>, apReq: KrbApReq, a: Authenticator)
    requires forall i :: 0 <= i < |before| ==> before[i].padataType != PaTgsReqType
    requires apReq.authenticator.cipher == Encrypt(cryptoEtype, sessionKey.keyvalue, Encode(DerAuthenticator(a)))
    ensures TgsDecryptKey(cryptoEtype, sessionKey, Some(before + [PaData(PaTgsReqType, Encode(DerApReq(apReq)))] + after))
            == Ok(if a.subkey.Some? then a.subkey.value else sessionKey)
  {
    var padata := before + [PaData(PaTgsReqType, Encode(DerApReq(apReq)))] + after;
    FindPaDataSkips(before, [PaData(PaTgsReqType, Encode(DerApReq(apReq)))] + after, PaTgsReqType);
    assert padata == before + ([PaData(PaTgsReqType, Encode(DerApReq(apReq)))] + after);
    DecodeEncode(DerApReq(apReq));
    DecryptEncrypt(cryptoEtype, sessionKey.keyvalue, Encode(DerAuthenticator(a)));
    DecodeEncode(DerAuthenticator(a));
  }

  /** Entries of other types before the first match shift its index and nothing else. */
  lemma {:induction false} FindPaDataSkips(before: seq<PaData>, rest: seq<PaData>, t: int)
    requires forall i :: 0 <= i < |before| ==> before[i].padataType != t
    requires |rest| > 0 && rest[0].padataType == t
    ensures FindPaData(before + rest, t) == Some(|before|)
  {
    if |before| > 0 {
      assert (before + rest)[1..] == before[1..] + rest;
      FindPaDataSkips(before[1..], rest, t);
    } else {
      assert before + rest == rest;
    }
  }

  /**
   * The checks of `receive_tgs_response`: the saved TGS session key, a
   * cryptosystem for its type, the decryption key chosen from the padata,
   * and then `receive_kdc_rep`.
   */
  function CheckTgsResponse(s: ClientSettings, saved: Saved, req: KdcReq, rep: KdcRep, now: nat)
    : (r: Result<(), ClientError>)
    ensures saved.tgsReplyEncPart.None? ==> r.Err? && r.error.ClientEnvError?
    ensures r.Ok? <==> saved.tgsReplyEncPart.Some? && saved.tgsReplyEncPart.value.key.keytype in s.cryptoEtypes
                       && TgsDecryptKey(saved.tgsReplyEncPart.value.key.keytype, saved.tgsReplyEncPart.value.key, rep.padata).Ok?
                       && ReceiveKdcRep(saved.tgsReplyEncPart.value.key.keytype,
                                        TgsDecryptKey(saved.tgsReplyEncPart.value.key.keytype, saved.tgsReplyEncPart.value.key, rep.padata).value,
                                        req, rep, Tgs, now).Ok?
  {
    match GetSaved(saved.tgsReplyEncPart, "no TGS reply part saved")
    case Err(e) => Err(e)
    case Ok(binding) =>
      match GetCrypto(s, binding.key.keytype)
      case Err(e) => Err(e)
      case Ok(crypto) =>
        match TgsDecryptKey(crypto, binding.key, rep.padata)
        case Err(e) => Err(e)
        case Ok(key) => ReceiveKdcRep(crypto, key, req, rep, Tgs, now)
  }

  /** `receive_tgs_response`: the reply is saved only when every check passed. */
  method ReceiveTgsResponse(env: ClientEnv, req: KdcReq, rep: KdcRep, now: nat) returns (r: Result<(), ClientError>)
    modifies env
    ensures var c := CheckTgsResponse(env.settings, old(env.saved), req, rep, now);
            c.Err? ==> r == c && env.saved == old(env.saved)
    ensures var c := CheckTgsResponse(env.settings, old(env.saved), req, rep, now);
            c.Ok? ==> r == Ok(()) && env.saved == old(env.saved).(tgsReply := Some(rep))
  {
    var c := CheckTgsResponse(env.settings, env.saved, req, rep, now);
    if c.Err? {
      return c;
    }
    env.SaveTgsReply(rep);
    r := Ok(());
  }

  /**
   * After a successful `receive_tgs_response` only the reply is replaced:
   * the next AP request carries the new ticket but is sealed under the
   * session key of the previously saved reply part, and it fails when no
   * part was ever saved.
   */
  lemma ApRequestAfterTgsExchange(s: ClientSettings, saved: Saved, rep: KdcRep, ctimeClock: nat, cusecClock: nat,
                                  mutualRequired: bool, cksumMaterial: Option<Octets>, seqNumber: int)
    requires 0 <= seqNumber < 0x1_0000
    ensures var r := PrepareApRequest(s, saved.(tgsReply := Some(rep)), ctimeClock, cusecClock,
                                      mutualRequired, cksumMaterial, seqNumber);
            (saved.tgsReplyEncPart.None? ==> r.Err?) &&
            (r.Ok? ==> r.value.ticket == rep.ticket
                       && r.value.authenticator.etype == saved.tgsReplyEncPart.value.key.keytype)
  {
  }
}
