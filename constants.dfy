/**
 * Protocol constants of messages/src/basic/constants.rs: the integer codes of
 * name types, address types, authorization-data types and pre-authentication
 * data types (sections 6.2, 7.5.3, 7.5.4 and 7.5.2 of RFC 4120), the bit
 * positions of ticket, KDC and AP options (section 5.2.8), and the
 * APPLICATION tags of the messages (section 5.10).
 *
 * Each `From<i32>` in the source is a `match` whose wildcard arm panics; the
 * model returns `Panics` there.
 */
module Constants {
  import opened Wrappers

  // ---------------------------------------------------------------- name types

  datatype NameType =
    | NtUnknown | NtPrincipal | NtSrvInst | NtSrcHst | NtSrvXhst
    | NtUid | NtX500Principal | NtSmtpName | NtEnterprise

  const NameTypeCodes: set<int> := {0, 1, 2, 3, 4, 5, 6, 7, 10}

  /** The discriminant `t as i32`. */
  function NameTypeCode(t: NameType): (c: int)
    ensures c in NameTypeCodes
  {
    match t
    case NtUnknown => 0
    case NtPrincipal => 1
    case NtSrvInst => 2
    case NtSrcHst => 3
    case NtSrvXhst => 4
    case NtUid => 5
    case NtX500Principal => 6
    case NtSmtpName => 7
    case NtEnterprise => 10
  }

  /** `NameTypes::from(v)`: the variant with discriminant `v`, a panic for any other integer. */
  function NameTypeFromInt(v: int): (r: Outcome<NameType>)
    ensures r.Returns? <==> v in NameTypeCodes
    ensures r.Returns? ==> NameTypeCode(r.value) == v
  {
    match v
    case 0 => Returns(NtUnknown)
    case 1 => Returns(NtPrincipal)
    case 2 => Returns(NtSrvInst)
    case 3 => Returns(NtSrcHst)
    case 4 => Returns(NtSrvXhst)
    case 5 => Returns(NtUid)
    case 6 => Returns(NtX500Principal)
    case 7 => Returns(NtSmtpName)
    case 10 => Returns(NtEnterprise)
    case _ => Panics
  }

  lemma NameTypeRoundTrip(t: NameType)
    ensures NameTypeFromInt(NameTypeCode(t)) == Returns(t)
  {
  }

  // ------------------------------------------------------------- address types

  datatype AddressType =
    | Ipv4 | Directional | ChaosNet | Xns | Iso
    | DecnetPhaseIv | AppletalkDdp | NetBios | Ipv6

  const AddressTypeCodes: set<int> := {2, 3, 5, 6, 7, 12, 16, 20, 24}

  function AddressTypeCode(t: AddressType): (c: int)
    ensures c in AddressTypeCodes
  {
    match t
    case Ipv4 => 2
    case Directional => 3
    case ChaosNet => 5
    case Xns => 6
    case Iso => 7
    case DecnetPhaseIv => 12
    case AppletalkDdp => 16
    case NetBios => 20
    case Ipv6 => 24
  }

  /** `AddressTypes::from(v)`. */
  function AddressTypeFromInt(v: int): (r: Outcome<AddressType>)
    ensures r.Returns? <==> v in AddressTypeCodes
    ensures r.Returns? ==> AddressTypeCode(r.value) == v
  {
    match v
    case 2 => Returns(Ipv4)
    case 3 => Returns(Directional)
    case 5 => Returns(ChaosNet)
    case 6 => Returns(Xns)
    case 7 => Returns(Iso)
    case 12 => Returns(DecnetPhaseIv)
    case 16 => Returns(AppletalkDdp)
    case 20 => Returns(NetBios)
    case 24 => Returns(Ipv6)
    case _ => Panics
  }

  lemma AddressTypeRoundTrip(t: AddressType)
    ensures AddressTypeFromInt(AddressTypeCode(t)) == Returns(t)
  {
  }

  // ------------------------------------------------ authorization-data types

  datatype AuthorizationDataType = IfRelevant | KdcIssued | AndOr | MandatoryForKdc

  const AuthorizationDataTypeCodes: set<int> := {1, 4, 5, 8}

  function AuthorizationDataTypeCode(t: AuthorizationDataType): (c: int)
    ensures c in AuthorizationDataTypeCodes
  {
    match t
    case IfRelevant => 1
    case KdcIssued => 4
    case AndOr => 5
    case MandatoryForKdc => 8
  }

  /** `AuthorizationDataTypes::from(v)`. */
  function AuthorizationDataTypeFromInt(v: int): (r: Outcome<AuthorizationDataType>)
    ensures r.Returns? <==> v in AuthorizationDataTypeCodes
    ensures r.Returns? ==> AuthorizationDataTypeCode(r.value) == v
  {
    match v
    case 1 => Returns(IfRelevant)
    case 4 => Returns(KdcIssued)
    case 5 => Returns(AndOr)
    case 8 => Returns(MandatoryForKdc)
    case _ => Panics
  }

  lemma AuthorizationDataTypeRoundTrip(t: AuthorizationDataType)
    ensures AuthorizationDataTypeFromInt(AuthorizationDataTypeCode(t)) == Returns(t)
  {
  }

  // -------------------------------------------- pre-authentication data types

  datatype PaDataType = PaTgsReq | PaEncTimestamp | PaPwSalt | PaEtypeInfo | PaEtypeInfo2

  const PaDataTypeCodes: set<int> := {1, 2, 3, 11, 19}

  function PaDataTypeCode(t: PaDataType): (c: int)
    ensures c in PaDataTypeCodes
  {
    match t
    case PaTgsReq => 1
    case PaEncTimestamp => 2
    case PaPwSalt => 3
    case PaEtypeInfo => 11
    case PaEtypeInfo2 => 19
  }

  /** `PaDataTypes::from(v)`. */
  function PaDataTypeFromInt(v: int): (r: Outcome<PaDataType>)
    ensures r.Returns? <==> v in PaDataTypeCodes
    ensures r.Returns? ==> PaDataTypeCode(r.value) == v
  {
    match v
    case 1 => Returns(PaTgsReq)
    case 2 => Returns(PaEncTimestamp)
    case 3 => Returns(PaPwSalt)
    case 11 => Returns(PaEtypeInfo)
    case 19 => Returns(PaEtypeInfo2)
    case _ => Panics
  }

  lemma PaDataTypeRoundTrip(t: PaDataType)
    ensures PaDataTypeFromInt(PaDataTypeCode(t)) == Returns(t)
  {
  }

  // ------------------------------------------------------ flag bit positions

  // Ticket flags and KDC options (section 5.2.8 of RFC 4120; bit 0 is the
  // most significant bit of the first octet).
  const Reserved: nat := 0
  const Forwardable: nat := 1
  const Forwarded: nat := 2
  const Proxiable: nat := 3
  const Proxy: nat := 4
  const MayPostdate: nat := 5
  const Postdated: nat := 6
  const Invalid: nat := 7
  const Renewable: nat := 8
  const Initial: nat := 9
  const PreAuthent: nat := 10
  const HwAuthent: nat := 11
  const TransitedPolicyChecked: nat := 12
  const OkAsDelegate: nat := 13
  const Unused9: nat := 9
  const Unused10: nat := 10
  const OptHardwareAuth: nat := 11
  const Unused12: nat := 12
  const Unused13: nat := 13
  const Unused15: nat := 15
  const DisableTransitedCheck: nat := 26
  const RenewableOk: nat := 27
  const EncTktInSkey: nat := 28
  const Renew: nat := 30
  const Validate: nat := 31
  // AP options.
  const UseSessionKey: nat := 1
  const MutualRequired: nat := 2

  /** Every position the `flags` module names. */
  const FlagPositions: seq<nat> := [
    Reserved, Forwardable, Forwarded, Proxiable, Proxy, MayPostdate, Postdated,
    Invalid, Renewable, Initial, PreAuthent, HwAuthent, TransitedPolicyChecked,
    OkAsDelegate, Unused9, Unused10, OptHardwareAuth, Unused12, Unused13, Unused15,
    DisableTransitedCheck, RenewableOk, EncTktInSkey, Renew, Validate,
    UseSessionKey, MutualRequired]

  /** Every named flag lies in the first four octets, the size of a fresh flag buffer. */
  lemma FlagPositionsFitFourOctets()
    ensures forall i :: 0 <= i < |FlagPositions| ==> FlagPositions[i] / 8 < 4
  {
  }

  // -------------------------------------------------------- application tags

  const TagTicket: nat := 1
  const TagAuthenticator: nat := 2
  const TagEncTicketPart: nat := 3
  const TagAsReq: nat := 10
  const TagAsRep: nat := 11
  const TagTgsReq: nat := 12
  const TagTgsRep: nat := 13
  const TagApReq: nat := 14
  const TagApRep: nat := 15
  const TagReserved16: nat := 16
  const TagReserved17: nat := 17
  const TagKrbSafe: nat := 20
  const TagKrbPriv: nat := 21
  const TagKrbCred: nat := 22
  const TagEncAsRepPart: nat := 25
  const TagEncTgsRepPart: nat := 26
  const TagEncApRepPart: nat := 27
  const TagEncKrbPrivPart: nat := 28
  const TagEncKrbCredPart: nat := 29
  const TagKrbError: nat := 30

  const ApplicationTags: seq<nat> := [
    TagTicket, TagAuthenticator, TagEncTicketPart, TagAsReq, TagAsRep, TagTgsReq,
    TagTgsRep, TagApReq, TagApRep, TagReserved16, TagReserved17, TagKrbSafe,
    TagKrbPriv, TagKrbCred, TagEncAsRepPart, TagEncTgsRepPart, TagEncApRepPart,
    TagEncKrbPrivPart, TagEncKrbCredPart, TagKrbError]

  /**
   * The application tags are pairwise distinct and each fits the five-bit
   * low-tag-number form of an X.690 identifier octet, so every message type
   * is recognisable from its first octet.
   */
  lemma ApplicationTagsDistinct()
    ensures forall i, j :: 0 <= i < j < |ApplicationTags| ==> ApplicationTags[i] != ApplicationTags[j]
    ensures forall i :: 0 <= i < |ApplicationTags| ==> ApplicationTags[i] < 31
  {
  }
}
