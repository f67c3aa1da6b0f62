/**
 * The value types of the `messages` crate (section 5 of RFC 4120), in one
 * module because they are mutually recursive through octet strings: an
 * OCTET STRING field may hold the DER encoding of another message, or a
 * ciphertext whose plaintext is such an encoding.
 *
 * Encryption and DER encoding are symbolic. `Sealed` remembers the key and
 * the plaintext, so decryption succeeds exactly under the key used to encrypt;
 * `Der` remembers the encoded value, so decoding succeeds exactly for the type
 * that was encoded. `Raw` stands for octets that are none of these (key
 * material, addresses, user data).
 */
module KerberosTypes {
  import opened Wrappers
  import opened Flags
  import opened ErrorCodes

  /** KerberosTime (section 5.2.3): whole seconds since the Unix epoch. */
  type Time = nat

  /**
   * The latest KerberosTime, 9999-12-31T23:59:59Z: a GeneralizedTime has a
   * four-digit year, so `from_unix_duration` fails past it. It also serves
   * as `KerberosTime::max()` and `infinity()`.
   */
  const MaxKerberosTime: Time := 253402300799

  /** `KerberosTime::zero()`: the epoch. */
  const ZeroKerberosTime: Time := 0

  /** KerberosString and Realm (sections 5.2.1, 5.2.2). */
  type KerberosString = string
  type Realm = string

  datatype Octets =
    | Raw(bytes: seq<bv8>)
    /** `crypto.encrypt(plain, key)` of the cipher for `etype`. */
    | Sealed(etype: int, key: Octets, plain: Octets)
    /** `crypto.digest(input)` of the cipher for `etype`. */
    | Digest(etype: int, input: Octets)
    /** `value.to_der()`. */
    | Der(value: DerValue)

  /** The values whose DER encodings the modelled code produces or consumes. */
  datatype DerValue =
    | DerTicket(ticket: Ticket)
    | DerEncTicketPart(encTicketPart: EncTicketPart)
    | DerAuthenticator(authenticator: Authenticator)
    | DerApReq(apReq: KrbApReq)
    | DerApRep(apRep: KrbApRep)
    | DerEncApRepPart(encApRepPart: EncApRepPart)
    | DerEncAsRepPart(encAsRepPart: EncKdcRepPart)
    | DerEncTgsRepPart(encTgsRepPart: EncKdcRepPart)
    | DerKdcReqBody(reqBody: KdcReqBody)
    | DerAsReq(asReq: KdcReq)
    | DerTgsReq(tgsReq: KdcReq)
    | DerAsRep(asRep: KdcRep)
    | DerTgsRep(tgsRep: KdcRep)
    | DerKrbError(krbError: KrbErrorMsg)
    | DerKrbSafe(krbSafe: KrbSafe)
    | DerEncryptedData(encryptedData: EncryptedData)
    | DerOctetString(octets: Octets)
    | DerETypeInfo(eTypeInfo: seq<ETypeInfoEntry>)
    | DerETypeInfo2(eTypeInfo2: seq<ETypeInfo2Entry>)
    | DerAuthorizationData(authorizationData: seq<ADEntry>)
    | DerAdKdcIssued(adKdcIssued: AdKdcIssued)
    | DerAdAndOr(adAndOr: AdAndOr)
    | DerApReplayEntry(replayEntry: ApReplayEntry)
    | DerSessionRequest(sessionRequest: AppServerSessionRequest)

  // ------------------------------------------------------ basic (section 5.2)

  /** `ApReplayEntry` of kerberos/src/service_traits.rs: what identifies one authenticator. */
  datatype ApReplayEntry = ApReplayEntry(ctime: Time, cusec: int, cname: PrincipalName, crealm: Realm)

  /** `AppServerSessionRequest` of kerberos_app_srv: the key of a user session. */
  datatype AppServerSessionRequest = AppServerSessionRequest(cname: PrincipalName, crealm: Realm)

  datatype PrincipalName = PrincipalName(nameType: int, nameString: seq<KerberosString>)
  datatype HostAddress = HostAddress(addrType: int, address: Octets)
  datatype ADEntry = ADEntry(adType: int, adData: Octets)
  datatype PaData = PaData(padataType: int, padataValue: Octets)
  datatype EncryptionKey = EncryptionKey(keytype: int, keyvalue: Octets)
  datatype Checksum = Checksum(cksumtype: int, checksum: Octets)
  datatype EncryptedData = EncryptedData(etype: int, kvno: Option<int>, cipher: Octets)
  datatype ETypeInfoEntry = ETypeInfoEntry(etype: int, salt: Option<Octets>)
  datatype ETypeInfo2Entry = ETypeInfo2Entry(etype: int, salt: Option<KerberosString>, s2kparams: Option<Octets>)
  datatype AdKdcIssued = AdKdcIssued(
    adChecksum: Checksum, iRealm: Option<Realm>, iSname: Option<PrincipalName>, elements: seq<ADEntry>)
  datatype AdAndOr = AdAndOr(conditionCount: int, elements: seq<ADEntry>)

  // -------------------------------------------------- tickets (section 5.3)

  datatype TransitedEncoding = TransitedEncoding(trType: int, contents: Octets)

  datatype Ticket = Ticket(tktVno: int, realm: Realm, sname: PrincipalName, encPart: EncryptedData)

  datatype EncTicketPart = EncTicketPart(
    flags: KerberosFlags,
    key: EncryptionKey,
    crealm: Realm,
    cname: PrincipalName,
    transited: TransitedEncoding,
    authtime: Time,
    starttime: Option<Time>,
    endtime: Time,
    renewTill: Option<Time>,
    caddr: Option<seq<HostAddress>>,
    authorizationData: Option<seq<ADEntry>>)

  // ------------------------------------------ AS and TGS exchange (section 5.4)

  datatype KdcReqBody = KdcReqBody(
    kdcOptions: KerberosFlags,
    cname: Option<PrincipalName>,
    realm: Realm,
    sname: Option<PrincipalName>,
    from: Option<Time>,
    till: Time,
    rtime: Option<Time>,
    nonce: int,
    etype: seq<int>,
    addresses: Option<seq<HostAddress>>,
    encAuthorizationData: Option<EncryptedData>,
    additionalTickets: Option<seq<Ticket>>)

  datatype KdcReq = KdcReq(pvno: int, msgType: int, padata: Option<seq<PaData>>, reqBody: KdcReqBody)

  datatype KdcRep = KdcRep(
    pvno: int, msgType: int, padata: Option<seq<PaData>>, crealm: Realm,
    cname: PrincipalName, ticket: Ticket, encPart: EncryptedData)

  datatype LastReqEntry = LastReqEntry(lrType: int, lrValue: Time)

  datatype EncKdcRepPart = EncKdcRepPart(
    key: EncryptionKey,
    lastReq: seq<LastReqEntry>,
    nonce: int,
    keyExpiration: Option<Time>,
    flags: KerberosFlags,
    authtime: Time,
    starttime: Option<Time>,
    endtime: Time,
    renewTill: Option<Time>,
    srealm: Realm,
    sname: PrincipalName,
    caddr: Option<seq<HostAddress>>)

  // ----------------------------------- client/server exchange (section 5.5)

  /** AP options: a four-octet BIT STRING. */
  datatype APOptions = APOptions(bytes: seq<bv8>)

  datatype KrbApReq = KrbApReq(
    pvno: int, msgType: int, apOptions: APOptions, ticket: Ticket, authenticator: EncryptedData)

  datatype Authenticator = Authenticator(
    authenticatorVno: int,
    crealm: Realm,
    cname: PrincipalName,
    cksum: Option<Checksum>,
    cusec: int,
    ctime: Time,
    subkey: Option<EncryptionKey>,
    seqNumber: Option<int>,
    authorizationData: Option<seq<ADEntry>>)

  datatype KrbApRep = KrbApRep(pvno: int, msgType: int, encPart: EncryptedData)

  datatype EncApRepPart = EncApRepPart(
    ctime: Time, cusec: int, subkey: Option<EncryptionKey>, seqNumber: Option<int>)

  // ------------------------------------------------ KRB_SAFE (section 5.6)

  datatype KrbSafeBody = KrbSafeBody(
    userData: Octets,
    timestamp: Option<Time>,
    usec: Option<int>,
    seqNumber: Option<int>,
    sAddress: HostAddress,
    rAddress: Option<HostAddress>)

  /** `ContextSpecific<T>` in EXPLICIT mode: a value under a context-specific tag number. */
  datatype Explicit<T> = Explicit(tagNumber: nat, value: T)

  /** KRB-SAFE: its four fields carry their context tags in the value itself. */
  datatype KrbSafe = KrbSafe(
    pvno: Explicit<int>, msgType: Explicit<int>, safeBody: Explicit<KrbSafeBody>, cksum: Explicit<Checksum>)

  // ---------------------------------------------- KRB_ERROR (section 5.9.1)

  datatype KrbErrorMsg = KrbErrorMsg(
    pvno: int,
    msgType: int,
    ctime: Option<Time>,
    cusec: Option<int>,
    stime: Time,
    susec: int,
    errorCode: Ecode,
    crealm: Option<Realm>,
    cname: Option<PrincipalName>,
    realm: Realm,
    sname: PrincipalName,
    eText: Option<KerberosString>,
    eData: Option<Octets>)
}
