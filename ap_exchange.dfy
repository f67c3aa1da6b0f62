/**
 * The client side of the AP exchange (kerberos/src/client/ap_exchange.rs):
 * building the KRB_AP_REQ that authenticates the client under a saved
 * session key, and checking the KRB_AP_REP of mutual authentication
 * (section 3.2 of RFC 4120). The clock is read twice, in microseconds:
 * `ctimeClock` gives the authenticator's whole seconds and the later reading
 * `cusecClock` its microseconds. The authenticator's sequence number, drawn
 * at random by the source, is an input.
 */
module ApExchange {
  import opened Wrappers
  import opened KerberosTypes
  import opened Codec
  import opened CsMessage
  import opened ClientUtil
  import opened ClientEnviron

  /** The checksum type both preparers ask `get_checksum_hash` for, and label their checksum with. */
  const ApChecksumType := 1

  /** The key version number the encrypted authenticator carries. */
  const AuthenticatorKvno := 1

  /** `PrincipalName::new(NtPrincipal, vec![name])`, which cannot fail for one component. */
  function NtPrincipalName(name: KerberosString): (p: PrincipalName)
    ensures p.nameType == 1 && p.nameString == [name]
  {
    PrincipalName(1, [name])
  }

  /**
   * The authenticator both preparers build: the sequence number, the
   * client's name and realm, the whole seconds of the first clock reading
   * and the microseconds of the second, and a type-1 checksum over the material's digest when
   * material is given.
   */
  function ApAuthenticator(s: ClientSettings, ctimeClock: nat, cusecClock: nat, cksumMaterial: Option<Octets>, seqNumber: int): (a: Authenticator)
  {
    var cksum := if cksumMaterial.Some? then Some(Checksum(ApChecksumType, Hash(ApChecksumType, cksumMaterial.value))) else None;
    var b := EmptyAuthenticatorBuilder.(
      seqNumber := Some(Some(seqNumber)), cname := Some(NtPrincipalName(s.clientName)),
      crealm := Some(s.clientRealm), ctime := Some(ctimeClock / MicrosPerSecond),
      cusec := Some(cusecClock % MicrosPerSecond), cksum := if cksum.Some? then Some(cksum) else None);
    BuildAuthenticator(b).value
  }

  /**
   * What the authenticator says: ctime is the first reading's whole seconds,
   * cusec the second reading's microseconds, and the checksum is present iff
   * material is.
   */
  lemma ApAuthenticatorContents(s: ClientSettings, ctimeClock: nat, cusecClock: nat, cksumMaterial: Option<Octets>, seqNumber: int)
    ensures var a := ApAuthenticator(s, ctimeClock, cusecClock, cksumMaterial, seqNumber);
            a.authenticatorVno == 5 && a.ctime == ctimeClock / MicrosPerSecond
            && a.cusec == cusecClock % MicrosPerSecond && 0 <= a.cusec < MicrosPerSecond
            && a.cname == NtPrincipalName(s.clientName) && a.crealm == s.clientRealm
            && a.seqNumber == Some(seqNumber) && a.subkey.None? && a.authorizationData.None?
            && (a.cksum.Some? <==> cksumMaterial.Some?)
            && (cksumMaterial.Some? ==> a.cksum.value == Checksum(ApChecksumType, Hash(ApChecksumType, cksumMaterial.value)))
  {
  }

  /**
   * When both readings fall within the same second, ctime and cusec together
   * give back the second reading exactly.
   */
  lemma ApAuthenticatorSameSecond(s: ClientSettings, ctimeClock: nat, cusecClock: nat, cksumMaterial: Option<Octets>, seqNumber: int)
    requires ctimeClock / MicrosPerSecond == cusecClock / MicrosPerSecond
    ensures var a := ApAuthenticator(s, ctimeClock, cusecClock, cksumMaterial, seqNumber);
            a.ctime * MicrosPerSecond + a.cusec == cusecClock
  {
    ApAuthenticatorContents(s, ctimeClock, cusecClock, cksumMaterial, seqNumber);
  }

  /**
   * When a second boundary passes between the readings, the time the
   * authenticator states can lie almost a whole second before both: a first
   * reading at 999999 microseconds and a second at 1000000 give ctime 0 and
   * cusec 0.
   */
  lemma ApAuthenticatorAcrossSecond(s: ClientSettings, cksumMaterial: Option<Octets>, seqNumber: int)
    ensures var a := ApAuthenticator(s, 999_999, 1_000_000, cksumMaterial, seqNumber);
            a.ctime * MicrosPerSecond + a.cusec == 0
  {
    ApAuthenticatorContents(s, 999_999, 1_000_000, cksumMaterial, seqNumber);
  }

  /**
   * The shared body of `prepare_ap_request` and `prepare_pa_data`, given the
   * saved reply whose ticket and session key authenticate the client: the
   * ctime must be a valid KerberosTime, a checksum implementation of type 1
   * must exist, and so must a cryptosystem for the session key's type.
   */
  function PrepareApRequestWith(s: ClientSettings, rep: Result<KdcRep, ClientError>, part: Result<EncKdcRepPart, ClientError>,
                                ctimeClock: nat, cusecClock: nat, mutualRequired: bool, cksumMaterial: Option<Octets>, seqNumber: int): (r: Result<KrbApReq, ClientError>)
    ensures rep.Err? ==> r == Err(rep.error)
    ensures rep.Ok? && ctimeClock / MicrosPerSecond > MaxKerberosTime ==> r.Err? && r.error.GenericError?
    ensures r.Ok? <==> rep.Ok? && ctimeClock / MicrosPerSecond <= MaxKerberosTime && ApChecksumType in s.checksumTypes
                       && part.Ok? && part.value.key.keytype in s.cryptoEtypes
    ensures r.Ok? ==> r.value.pvno == 5 && r.value.msgType == 14
    ensures r.Ok? ==> r.value.apOptions.bytes == ApOptionsBytes(true, mutualRequired) && r.value.ticket == rep.value.ticket
    ensures r.Ok? ==> r.value.authenticator.etype == part.value.key.keytype && r.value.authenticator.kvno == Some(AuthenticatorKvno)
    ensures r.Ok? ==> r.value.authenticator.cipher
                      == Encrypt(part.value.key.keytype, part.value.key.keyvalue,
                                 Encode(DerAuthenticator(ApAuthenticator(s, ctimeClock, cusecClock, cksumMaterial, seqNumber))))
  {
    if rep.Err? then Err(rep.error)
    else if ctimeClock / MicrosPerSecond > MaxKerberosTime then Err(GenericError("time is out of the range of KerberosTime"))
    else match GetChecksumHash(s, ApChecksumType)
    case Err(e) => Err(e)
    case Ok(_) =>
      var encoded := Encode(DerAuthenticator(ApAuthenticator(s, ctimeClock, cusecClock, cksumMaterial, seqNumber)));
      match part
      case Err(e) => Err(e)
      case Ok(encPart) =>
        match GetCrypto(s, encPart.key.keytype)
        case Err(e) => Err(e)
        case Ok(crypto) =>
          var cipher := Encrypt(crypto, encPart.key.keyvalue, encoded);
          var encAuthenticator := EncryptedData(encPart.key.keytype, Some(AuthenticatorKvno), cipher);
          Ok(NewKrbApReq(APOptions(ApOptionsBytes(true, mutualRequired)), rep.value.ticket, encAuthenticator))
  }

  /**
   * `prepare_ap_request`: authenticates with the saved TGS reply's ticket
   * and session key; the sequence number is a random `u16`.
   */
  function PrepareApRequest(s: ClientSettings, saved: Saved, ctimeClock: nat, cusecClock: nat, mutualRequired: bool,
                            cksumMaterial: Option<Octets>, seqNumber: int): (r: Result<KrbApReq, ClientError>)
    requires 0 <= seqNumber < 0x1_0000
    ensures saved.tgsReply.None? ==> r.Err? && r.error.ClientEnvError?
    ensures r.Ok? ==> saved.tgsReply.Some? && saved.tgsReplyEncPart.Some? && r.value.ticket == saved.tgsReply.value.ticket
    ensures r.Ok? ==> r.value.apOptions.bytes == ApOptionsBytes(true, mutualRequired)
    ensures r.Ok? ==> r.value.authenticator.etype == saved.tgsReplyEncPart.value.key.keytype
  {
    PrepareApRequestWith(s, GetSaved(saved.tgsReply, "no TGS reply saved"),
                         GetSaved(saved.tgsReplyEncPart, "no TGS reply part saved"),
                         ctimeClock, cusecClock, mutualRequired, cksumMaterial, seqNumber)
  }

  /**
   * `prepare_pa_data`: the same request built from the saved AS reply's
   * ticket and session key; the sequence number is a random `i32`.
   */
  function PreparePaData(s: ClientSettings, saved: Saved, ctimeClock: nat, cusecClock: nat, mutualRequired: bool,
                         cksumMaterial: Option<Octets>, seqNumber: int): (r: Result<KrbApReq, ClientError>)
    requires -0x8000_0000 <= seqNumber < 0x8000_0000
    ensures saved.asReply.None? ==> r.Err? && r.error.ClientEnvError?
    ensures r.Ok? ==> saved.asReply.Some? && saved.asReplyEncPart.Some? && r.value.ticket == saved.asReply.value.ticket
    ensures r.Ok? ==> r.value.apOptions.bytes == ApOptionsBytes(true, mutualRequired)
    ensures r.Ok? ==> r.value.authenticator.etype == saved.asReplyEncPart.value.key.keytype
  {
    PrepareApRequestWith(s, GetSaved(saved.asReply, "no AS reply saved"),
                         GetSaved(saved.asReplyEncPart, "no AS reply part saved"),
                         ctimeClock, cusecClock, mutualRequired, cksumMaterial, seqNumber)
  }

  /**
   * What a service holding the session key recovers from a prepared
   * request: the authenticator built from the clock, with the checksum of
   * the material.
   */
  lemma ApRequestOpensUnderSessionKey(s: ClientSettings, saved: Saved, ctimeClock: nat, cusecClock: nat, mutualRequired: bool,
                                      cksumMaterial: Option<Octets>, seqNumber: int)
    requires 0 <= seqNumber < 0x1_0000
    requires PrepareApRequest(s, saved, ctimeClock, cusecClock, mutualRequired, cksumMaterial, seqNumber).Ok?
    ensures var req := PrepareApRequest(s, saved, ctimeClock, cusecClock, mutualRequired, cksumMaterial, seqNumber).value;
            var key := saved.tgsReplyEncPart.value.key;
            var plain := Decrypt(key.keytype, key.keyvalue, req.authenticator.cipher);
            plain.Ok? && Decode(plain.value) == Ok(DerAuthenticator(ApAuthenticator(s, ctimeClock, cusecClock, cksumMaterial, seqNumber)))
  {
    var key := saved.tgsReplyEncPart.value.key;
    var a := DerAuthenticator(ApAuthenticator(s, ctimeClock, cusecClock, cksumMaterial, seqNumber));
    DecryptEncrypt(key.keytype, key.keyvalue, Encode(a));
    DecodeEncode(a);
  }

  // ------------------------------------------------------------- KRB_AP_REP

  /**
   * The checks of `receive_ap_reply`: decrypt the reply's part under the
   * saved TGS session key with the given cryptosystem, decode it, and
   * require it to echo the authenticator's ctime and cusec.
   */
  function CheckApReply(saved: Saved, cryptoEtype: int, apRep: KrbApRep, authenticator: Authenticator): (r: Result<EncApRepPart, ClientError>)
    ensures saved.tgsReplyEncPart.None? ==> r.Err? && r.error.ClientEnvError?
    ensures r.Ok? ==> saved.tgsReplyEncPart.Some?
    ensures r.Ok? ==> apRep.encPart.cipher
                      == Encrypt(cryptoEtype, saved.tgsReplyEncPart.value.key.keyvalue, Encode(DerEncApRepPart(r.value)))
    ensures r.Ok? ==> r.value.ctime == authenticator.ctime && r.value.cusec == authenticator.cusec
    ensures r == Err(MutualAuthenticationFailed) ==>
              saved.tgsReplyEncPart.Some? && apRep.encPart.cipher.Sealed?
              && Decode(apRep.encPart.cipher.plain).Ok? && Decode(apRep.encPart.cipher.plain).value.DerEncApRepPart?
              && (Decode(apRep.encPart.cipher.plain).value.encApRepPart.ctime != authenticator.ctime
                  || Decode(apRep.encPart.cipher.plain).value.encApRepPart.cusec != authenticator.cusec)
  {
    match GetSaved(saved.tgsReplyEncPart, "no TGS reply part saved")
    case Err(e) => Err(e)
    case Ok(encPart) =>
      match Decrypt(cryptoEtype, encPart.key.keyvalue, apRep.encPart.cipher)
      case Err(_) => Err(CryptographyError)
      case Ok(plain) =>
        var d := Decode(plain);
        if !(d.Ok? && d.value.DerEncApRepPart?) then Err(ClientError.DecodeError)
        else
          var part := d.value.encApRepPart;
          if authenticator.ctime != part.ctime || authenticator.cusec != part.cusec then Err(MutualAuthenticationFailed)
          else Ok(part)
  }

  /**
   * `receive_ap_reply`: after the checks the reply's subkey is saved if it
   * has one, then its sequence number if it has one. `subkeySaveError` and
   * `seqSaveError` are what the environment's `save_subkey` and
   * `save_seq_number` report when they fail: the first failure is returned,
   * and a subkey saved before a failing `save_seq_number` stays saved.
   */
  method ReceiveApReply(env: ClientEnv, cryptoEtype: int, apRep: KrbApRep, authenticator: Authenticator,
                        subkeySaveError: Option<string>, seqSaveError: Option<string>)
    returns (r: Result<(), ClientError>)
    modifies env
    ensures var c := CheckApReply(old(env.saved), cryptoEtype, apRep, authenticator);
            c.Err? ==> r == Err(c.error) && env.saved == old(env.saved)
    ensures var c := CheckApReply(old(env.saved), cryptoEtype, apRep, authenticator);
            c.Ok? && c.value.subkey.Some? && subkeySaveError.Some? ==>
              r == Err(ClientEnvError(subkeySaveError.value)) && env.saved == old(env.saved)
    ensures var c := CheckApReply(old(env.saved), cryptoEtype, apRep, authenticator);
            var withSubkey := if c.Ok? && c.value.subkey.Some? then old(env.saved).(subkey := c.value.subkey) else old(env.saved);
            c.Ok? && !(c.value.subkey.Some? && subkeySaveError.Some?) && c.value.seqNumber.Some? && seqSaveError.Some? ==>
              r == Err(ClientEnvError(seqSaveError.value)) && env.saved == withSubkey
    ensures var c := CheckApReply(old(env.saved), cryptoEtype, apRep, authenticator);
            c.Ok? && !(c.value.subkey.Some? && subkeySaveError.Some?) && !(c.value.seqNumber.Some? && seqSaveError.Some?) ==>
              r == Ok(()) && env.saved == old(env.saved).(
                subkey := if c.value.subkey.Some? then c.value.subkey else old(env.saved).subkey,
                seqNumber := if c.value.seqNumber.Some? then c.value.seqNumber else old(env.saved).seqNumber)
  {
    var c := CheckApReply(env.saved, cryptoEtype, apRep, authenticator);
    if c.Err? {
      return Err(c.error);
    }
    var part := c.value;
    if part.subkey.Some? {
      if subkeySaveError.Some? {
        return Err(ClientEnvError(subkeySaveError.value));
      }
      env.SaveSubkey(part.subkey.value);
    }
    if part.seqNumber.Some? {
      if seqSaveError.Some? {
        return Err(ClientEnvError(seqSaveError.value));
      }
      env.SaveSeqNumber(part.seqNumber.value);
    }
    r := Ok(());
  }

  /**
   * Mutual authentication succeeds for a reply sealed under the session key
   * that echoes the authenticator's time, and fails for one whose time
   * differs.
   */
  lemma MutualAuthenticationIffEcho(saved: Saved, cryptoEtype: int, authenticator: Authenticator, part: EncApRepPart)
    requires saved.tgsReplyEncPart.Some?
    ensures var rep := NewKrbApRep(EncryptedData(cryptoEtype, None,
                          Encrypt(cryptoEtype, saved.tgsReplyEncPart.value.key.keyvalue, Encode(DerEncApRepPart(part)))));
            var c := CheckApReply(saved, cryptoEtype, rep, authenticator);
            (c == Ok(part) <==> part.ctime == authenticator.ctime && part.cusec == authenticator.cusec)
            && (c.Err? ==> c.error == MutualAuthenticationFailed)
  {
    var key := saved.tgsReplyEncPart.value.key.keyvalue;
    DecryptEncrypt(cryptoEtype, key, Encode(DerEncApRepPart(part)));
    DecodeEncode(DerEncApRepPart(part));
  }
}
