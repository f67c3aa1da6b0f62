/**
 * The checked constructors and registered/local scope rules of
 * messages/src/basic/mod.rs: principal names (section 5.2.2 of RFC 4120),
 * authorization-data entries (section 5.2.6) and pre-authentication data
 * (section 5.2.7). A negative type code is for local (unregistered) use; a
 * non-negative one is registered, and `upgrade` decodes the payload of a
 * registered entry into the structure its type names.
 */
module Basic {
  import opened Wrappers
  import opened Constants
  import opened KerberosTypes
  import opened Codec

  // ------------------------------------------------------------ PrincipalName

  /** `PrincipalName::new`: a name needs at least one component. */
  function NewPrincipalName(nt: NameType, components: seq<KerberosString>): (r: Result<PrincipalName, string>)
    ensures r.Err? <==> |components| == 0
    ensures r.Ok? ==> r.value.nameType == NameTypeCode(nt) && r.value.nameString == components
  {
    if |components| == 0 then Err("PrincipalName must have at least one component")
    else Ok(PrincipalName(NameTypeCode(nt), components))
  }

  /** `has_name_type_of(nt)`: the stored code is `nt`'s code (compared after a DER round trip of the integer). */
  function HasNameTypeOf(p: PrincipalName, nt: NameType): (b: bool)
    ensures b <==> NameTypeFromInt(p.nameType) == Returns(nt)
  {
    NameTypeRoundTrip(nt);
    p.nameType == NameTypeCode(nt)
  }

  /** A name built from `nt` has type `nt` and no other. */
  lemma NewPrincipalNameHasOnlyItsType(nt: NameType, components: seq<KerberosString>, other: NameType)
    requires NewPrincipalName(nt, components).Ok?
    ensures HasNameTypeOf(NewPrincipalName(nt, components).value, other) <==> other == nt
  {
  }

  // ------------------------------------------------------ registered vs local

  /** `ADEntry::for_registered_use`: the DER round trip of the type code cannot fail, so it is `Ok(ad_type >= 0)`. */
  function AdForRegisteredUse(e: ADEntry): (r: Result<bool, string>)
    ensures r.Ok?
  {
    Ok(e.adType >= 0)
  }

  /** `ADEntry::for_local_use`: the negation of `for_registered_use`. */
  function AdForLocalUse(e: ADEntry): (r: Result<bool, string>)
    ensures r.Ok?
  {
    match AdForRegisteredUse(e)
    case Ok(registered) => Ok(!registered)
    case Err(msg) => Err(msg)
  }

  /** Exactly one of the two scopes holds, and local use means a negative type. */
  lemma AdScopes(e: ADEntry)
    ensures AdForRegisteredUse(e).value <==> e.adType >= 0
    ensures AdForLocalUse(e).value <==> e.adType < 0
    ensures AdForLocalUse(e).value != AdForRegisteredUse(e).value
  {
  }

  /** `PaData::for_registered_use`. */
  function PaForRegisteredUse(p: PaData): (r: Result<bool, string>)
    ensures r.Ok?
  {
    Ok(p.padataType >= 0)
  }

  /** `PaData::for_unregistered_use`. */
  function PaForUnregisteredUse(p: PaData): (r: Result<bool, string>)
    ensures r.Ok?
  {
    match PaForRegisteredUse(p)
    case Ok(registered) => Ok(!registered)
    case Err(msg) => Err(msg)
  }

  lemma PaScopes(p: PaData)
    ensures PaForRegisteredUse(p).value <==> p.padataType >= 0
    ensures PaForUnregisteredUse(p).value <==> p.padataType < 0
    ensures PaForUnregisteredUse(p).value != PaForRegisteredUse(p).value
  {
  }

  // ------------------------------------------------------ ADRegisteredEntry

  datatype ADRegisteredEntry =
    | AdIfRelevant(ifRelevant: seq<ADEntry>)
    | AdKdcIssuedEntry(kdcIssued: AdKdcIssued)
    | AdAndOrEntry(andOr: AdAndOr)
    | AdMandatoryForKdc(mandatory: seq<ADEntry>)

  /** The registered type code of an upgraded entry. */
  function AdRegisteredType(x: ADRegisteredEntry): AuthorizationDataType {
    match x
    case AdIfRelevant(_) => IfRelevant
    case AdKdcIssuedEntry(_) => KdcIssued
    case AdAndOrEntry(_) => AndOr
    case AdMandatoryForKdc(_) => MandatoryForKdc
  }

  /** The DER value an upgraded entry was decoded from. */
  function AdPayload(x: ADRegisteredEntry): DerValue {
    match x
    case AdIfRelevant(d) => DerAuthorizationData(d)
    case AdKdcIssuedEntry(k) => DerAdKdcIssued(k)
    case AdAndOrEntry(a) => DerAdAndOr(a)
    case AdMandatoryForKdc(d) => DerAuthorizationData(d)
  }

  /** Decode `ad_data` as the structure registered for `t`. */
  function DecodeAdPayload(t: AuthorizationDataType, data: Octets): (r: Result<ADRegisteredEntry, string>)
    ensures r.Ok? ==> AdRegisteredType(r.value) == t && Encode(AdPayload(r.value)) == data
  {
    var d := Decode(data);
    var bad := Err("Bytes representation of AD type is not valid to decode");
    match t
    case IfRelevant =>
      if d.Ok? && d.value.DerAuthorizationData? then Ok(AdIfRelevant(d.value.authorizationData)) else bad
    case KdcIssued =>
      if d.Ok? && d.value.DerAdKdcIssued? then Ok(AdKdcIssuedEntry(d.value.adKdcIssued)) else bad
    case AndOr =>
      if d.Ok? && d.value.DerAdAndOr? then Ok(AdAndOrEntry(d.value.adAndOr)) else bad
    case MandatoryForKdc =>
      if d.Ok? && d.value.DerAuthorizationData? then Ok(AdMandatoryForKdc(d.value.authorizationData)) else bad
  }

  /**
   * `ADRegisteredEntry::upgrade`: a local-use entry is an error; otherwise the
   * type code goes through `AuthorizationDataTypes::from`, which panics on an
   * unknown code, and the payload is decoded as the type's structure.
   */
  function UpgradeAd(e: ADEntry): (r: Outcome<Result<ADRegisteredEntry, string>>)
    ensures e.adType < 0 ==> r.Returns? && r.value.Err?
    ensures r.Panics? <==> e.adType >= 0 && e.adType !in AuthorizationDataTypeCodes
    ensures r.Returns? && r.value.Ok? ==>
              AuthorizationDataTypeCode(AdRegisteredType(r.value.value)) == e.adType
              && Encode(AdPayload(r.value.value)) == e.adData
  {
    if AdForLocalUse(e).value then Returns(Err("AD type is for local use"))
    else
      match AuthorizationDataTypeFromInt(e.adType)
      case Panics => Panics
      case Returns(t) => Returns(DecodeAdPayload(t, e.adData))
  }

  /** Upgrading the entry that carries a registered structure gives that structure back. */
  lemma UpgradeAdRoundTrip(x: ADRegisteredEntry)
    ensures UpgradeAd(ADEntry(AuthorizationDataTypeCode(AdRegisteredType(x)), Encode(AdPayload(x)))) == Returns(Ok(x))
  {
    AuthorizationDataTypeRoundTrip(AdRegisteredType(x));
  }

  // --------------------------------------------------- PaDataRegisteredType

  datatype PaDataRegisteredType =
    | RegTgsReq
    | RegEncTimeStamp(encTimestamp: EncryptedData)
    | RegPwSalt(salt: Octets)
    | RegETypeInfo(eTypeInfo: seq<ETypeInfoEntry>)
    | RegETypeInfo2(eTypeInfo2: seq<ETypeInfo2Entry>)

  /** Decode `padata_value` as the structure registered for `t`; PA-TGS-REQ is a `todo!()` and panics. */
  function DecodePaPayload(t: PaDataType, data: Octets): (r: Outcome<Result<PaDataRegisteredType, string>>)
    ensures r.Panics? <==> t == PaTgsReq
    ensures r.Returns? && r.value.Ok? ==> !r.value.value.RegTgsReq?
  {
    var d := Decode(data);
    var bad := Returns(Err("Bytes representation of PA type is not valid to decode"));
    match t
    case PaTgsReq => Panics
    case PaEncTimestamp =>
      if d.Ok? && d.value.DerEncryptedData? then Returns(Ok(RegEncTimeStamp(d.value.encryptedData))) else bad
    case PaPwSalt =>
      if d.Ok? && d.value.DerOctetString? then Returns(Ok(RegPwSalt(d.value.octets))) else bad
    case PaEtypeInfo =>
      if d.Ok? && d.value.DerETypeInfo? then Returns(Ok(RegETypeInfo(d.value.eTypeInfo))) else bad
    case PaEtypeInfo2 =>
      if d.Ok? && d.value.DerETypeInfo2? then Returns(Ok(RegETypeInfo2(d.value.eTypeInfo2))) else bad
  }

  /** `PaDataRegisteredType::upgrade`. */
  function UpgradePa(p: PaData): (r: Outcome<Result<PaDataRegisteredType, string>>)
    ensures p.padataType < 0 ==> r.Returns? && r.value.Err?
    ensures r.Panics? <==> p.padataType >= 0 && (p.padataType !in PaDataTypeCodes || p.padataType == 1)
  {
    if PaForUnregisteredUse(p).value then Returns(Err("PaData is not for registered use"))
    else
      match PaDataTypeFromInt(p.padataType)
      case Panics => Panics
      case Returns(t) => DecodePaPayload(t, p.padataValue)
  }

  /** An encrypted timestamp travels as PA-ENC-TIMESTAMP (2) and upgrades back to itself. */
  lemma UpgradePaEncTimestamp(d: EncryptedData)
    ensures UpgradePa(PaData(PaDataTypeCode(PaEncTimestamp), Encode(DerEncryptedData(d)))) == Returns(Ok(RegEncTimeStamp(d)))
  {
  }

  /** A registered ETYPE-INFO2 entry list upgrades back to itself. */
  lemma UpgradePaETypeInfo2(i: seq<ETypeInfo2Entry>)
    ensures UpgradePa(PaData(PaDataTypeCode(PaEtypeInfo2), Encode(DerETypeInfo2(i)))) == Returns(Ok(RegETypeInfo2(i)))
  {
  }
}
