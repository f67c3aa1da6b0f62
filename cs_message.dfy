/**
 * The client/server exchange messages of messages/src/cs_message (section 5.5
 * of RFC 4120): AP options, KRB_AP_REQ, the authenticator and its builder,
 * KRB_AP_REP and its encrypted part. Getters are the datatypes' destructors.
 */
module CsMessage {
  import opened Wrappers
  import opened KerberosTypes
  import Flags
  import TagLength

  // --------------------------------------------------------------- APOptions

  /** `APOptionFlag::UseSessionKey` and `APOptionFlag::MutualRequired`: bits 1 and 2 of octet 0. */
  const UseSessionKeyMask: bv8 := 0x40
  const MutualRequiredMask: bv8 := 0x20

  /** The four octets `APOptions::new(s, m)` fills: `|=` of each requested mask into octet 0. */
  function ApOptionsBytes(useSessionKey: bool, mutualRequired: bool): (b: seq<bv8>)
    ensures |b| == 4
  {
    var b0: bv8 := (if useSessionKey then UseSessionKeyMask else 0) | (if mutualRequired then MutualRequiredMask else 0);
    [b0, 0, 0, 0]
  }

  /** The octets hold exactly the requested bits: 0x40 iff `s`, 0x20 iff `m`, nothing else. */
  lemma ApOptionsBytesBits(s: bool, m: bool)
    ensures ApOptionsBytes(s, m)[0] & UseSessionKeyMask != 0 <==> s
    ensures ApOptionsBytes(s, m)[0] & MutualRequiredMask != 0 <==> m
    ensures ApOptionsBytes(s, m)[0] & 0x9F == 0
    ensures ApOptionsBytes(s, m)[1..] == [0, 0, 0]
  {
  }

  /** `APOptions::new`: a local four-octet buffer updated in place, then wrapped as a BIT STRING. */
  method NewApOptions(useSessionKey: bool, mutualRequired: bool) returns (o: APOptions)
    ensures o.bytes == ApOptionsBytes(useSessionKey, mutualRequired)
  {
    var buf := new bv8[4];
    buf[0], buf[1], buf[2], buf[3] := 0, 0, 0, 0;
    if useSessionKey {
      buf[0] := buf[0] | UseSessionKeyMask;
    }
    if mutualRequired {
      buf[0] := buf[0] | MutualRequiredMask;
    }
    o := APOptions(buf[..]);
  }

  /** `use_session_key()`: bit 0x40 of octet 0; indexing an empty bit string panics. */
  function UseSessionKey(o: APOptions): (r: Outcome<bool>)
    ensures r.Panics? <==> |o.bytes| == 0
  {
    if |o.bytes| == 0 then Panics else Returns(o.bytes[0] & UseSessionKeyMask != 0)
  }

  /** `mutual_required()`: bit 0x20 of octet 0. */
  function MutualRequired(o: APOptions): (r: Outcome<bool>)
    ensures r.Panics? <==> |o.bytes| == 0
  {
    if |o.bytes| == 0 then Panics else Returns(o.bytes[0] & MutualRequiredMask != 0)
  }

  /** The two queries read back the arguments given to `new`. */
  lemma ApOptionsQueries(s: bool, m: bool)
    ensures UseSessionKey(APOptions(ApOptionsBytes(s, m))) == Returns(s)
    ensures MutualRequired(APOptions(ApOptionsBytes(s, m))) == Returns(m)
  {
    ApOptionsBytesBits(s, m);
  }

  /**
   * The DER octets of the three option sets: the BIT STRING identifier,
   * length 5, no unused bits, then 0x60, 0x20 or 0x40 and three zero octets.
   */
  lemma ApOptionsDer()
    ensures Flags.FlagsDer(Flags.KerberosFlags(ApOptionsBytes(true, true))) == [0x03, 5, 0, 0x60, 0, 0, 0]
    ensures Flags.FlagsDer(Flags.KerberosFlags(ApOptionsBytes(false, true))) == [0x03, 5, 0, 0x20, 0, 0, 0]
    ensures Flags.FlagsDer(Flags.KerberosFlags(ApOptionsBytes(true, false))) == [0x03, 5, 0, 0x40, 0, 0, 0]
  {
    assert TagLength.LengthOctets(5) == [5];
  }

  // ---------------------------------------------------------------- KRB_AP_REQ

  /** `KrbApReq::new`: pvno 5 and message type 14 whatever the arguments. */
  function NewKrbApReq(apOptions: APOptions, ticket: Ticket, authenticator: EncryptedData): (r: KrbApReq)
    ensures r.pvno == 5 && r.msgType == 14
    ensures r.apOptions == apOptions && r.ticket == ticket && r.authenticator == authenticator
  {
    KrbApReq(5, 14, apOptions, ticket, authenticator)
  }

  // ---------------------------------------------------------------- KRB_AP_REP

  /** `KrbApRep::new`: pvno 5 and message type 15. */
  function NewKrbApRep(encPart: EncryptedData): (r: KrbApRep)
    ensures r.pvno == 5 && r.msgType == 15 && r.encPart == encPart
  {
    KrbApRep(5, 15, encPart)
  }

  /** `EncApRepPart::new`: the four fields as given. */
  function NewEncApRepPart(ctime: Time, cusec: int, subkey: Option<EncryptionKey>, seqNumber: Option<int>): (p: EncApRepPart)
    ensures p.ctime == ctime && p.cusec == cusec && p.subkey == subkey && p.seqNumber == seqNumber
  {
    EncApRepPart(ctime, cusec, subkey, seqNumber)
  }

  // ------------------------------------------------------------ Authenticator

  /** `AuthenticatorBuilderError::UninitializedField(name)`. */
  datatype BuilderError = UninitializedField(field: string)

  /**
   * The generated `AuthenticatorBuilder`: a required field is `None` until
   * set; an optional field is `None` until set, then `Some` of the optional
   * value passed to its setter.
   */
  datatype AuthenticatorBuilder = AuthenticatorBuilder(
    crealm: Option<Realm>,
    cname: Option<PrincipalName>,
    cksum: Option<Option<Checksum>>,
    cusec: Option<int>,
    ctime: Option<Time>,
    subkey: Option<Option<EncryptionKey>>,
    seqNumber: Option<Option<int>>,
    authorizationData: Option<Option<seq<ADEntry>>>)

  /** `AuthenticatorBuilder::default()`. */
  const EmptyAuthenticatorBuilder := AuthenticatorBuilder(None, None, None, None, None, None, None, None)

  /**
   * `AuthenticatorBuilder::build`: version 5; the first unset required field,
   * in the order crealm, cname, cusec, ctime, is reported.
   */
  function BuildAuthenticator(b: AuthenticatorBuilder): (r: Result<Authenticator, BuilderError>)
    ensures r.Ok? <==> b.crealm.Some? && b.cname.Some? && b.cusec.Some? && b.ctime.Some?
    ensures b.crealm.None? ==> r == Err(UninitializedField("crealm"))
    ensures b.crealm.Some? && b.cname.None? ==> r == Err(UninitializedField("cname"))
    ensures b.crealm.Some? && b.cname.Some? && b.cusec.None? ==> r == Err(UninitializedField("cusec"))
    ensures b.crealm.Some? && b.cname.Some? && b.cusec.Some? && b.ctime.None? ==> r == Err(UninitializedField("ctime"))
    ensures r.Ok? ==> r.value.authenticatorVno == 5
    ensures r.Ok? ==> r.value.crealm == b.crealm.value && r.value.cname == b.cname.value
    ensures r.Ok? ==> r.value.cusec == b.cusec.value && r.value.ctime == b.ctime.value
    ensures r.Ok? ==> r.value.cksum == Flatten(b.cksum) && r.value.subkey == Flatten(b.subkey)
    ensures r.Ok? ==> r.value.seqNumber == Flatten(b.seqNumber)
    ensures r.Ok? ==> r.value.authorizationData == Flatten(b.authorizationData)
  {
    if b.crealm.None? then Err(UninitializedField("crealm"))
    else if b.cname.None? then Err(UninitializedField("cname"))
    else if b.cusec.None? then Err(UninitializedField("cusec"))
    else if b.ctime.None? then Err(UninitializedField("ctime"))
    else Ok(Authenticator(
      5, b.crealm.value, b.cname.value, Flatten(b.cksum), b.cusec.value, b.ctime.value,
      Flatten(b.subkey), Flatten(b.seqNumber), Flatten(b.authorizationData)))
  }

  /** Setting only the four required fields builds an authenticator with every optional field absent. */
  lemma BuildAuthenticatorRequiredOnly(crealm: Realm, cname: PrincipalName, cusec: int, ctime: Time)
    ensures var r := BuildAuthenticator(EmptyAuthenticatorBuilder.(crealm := Some(crealm), cname := Some(cname), cusec := Some(cusec), ctime := Some(ctime)));
            r.Ok? && r.value.cksum.None? && r.value.subkey.None? && r.value.seqNumber.None?
            && r.value.authorizationData.None?
  {
  }
}
