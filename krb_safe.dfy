/**
 * KRB_SAFE (section 5.6.1 of RFC 4120) as built in messages/src/krb_safe_spec:
 * a by-value builder whose `build` checks the three required fields and whose
 * `build_unsafe` assembles the message, panicking on a missing required field.
 */
module KrbSafeSpec {
  import opened Wrappers
  import opened KerberosTypes

  const KrbSafePvno := 5
  const KrbSafeMsgType := 20

  /** `KrbSafeBuilder`: every field `None` until its setter runs. */
  datatype KrbSafeBuilder = KrbSafeBuilder(
    userData: Option<Octets>,
    timestamp: Option<Time>,
    usec: Option<int>,
    seqNumber: Option<int>,
    sAddress: Option<HostAddress>,
    rAddress: Option<HostAddress>,
    cksum: Option<Checksum>)

  /** `KrbSafeBuilder::new` (and `KrbSafe::builder`). */
  const EmptyKrbSafeBuilder := KrbSafeBuilder(None, None, None, None, None, None, None)

  /** The argument of one setter call. */
  datatype SafeSetter =
    | SetUserData(userData: Octets)
    | SetTimestamp(timestamp: Time)
    | SetUsec(usec: int)
    | SetSeqNumber(seqNumber: int)
    | SetSAddress(sAddress: HostAddress)
    | SetRAddress(rAddress: HostAddress)
    | SetCksum(cksum: Checksum)

  /** `set_user_data`, `set_timestamp`, …, `set_cksum`. */
  function ApplySafeSetter(b: KrbSafeBuilder, s: SafeSetter): KrbSafeBuilder {
    match s
    case SetUserData(v) => b.(userData := Some(v))
    case SetTimestamp(v) => b.(timestamp := Some(v))
    case SetUsec(v) => b.(usec := Some(v))
    case SetSeqNumber(v) => b.(seqNumber := Some(v))
    case SetSAddress(v) => b.(sAddress := Some(v))
    case SetRAddress(v) => b.(rAddress := Some(v))
    case SetCksum(v) => b.(cksum := Some(v))
  }

  /** The position of the field a setter writes. */
  function SafeSetterField(s: SafeSetter): nat {
    match s
    case SetUserData(_) => 0
    case SetTimestamp(_) => 1
    case SetUsec(_) => 2
    case SetSeqNumber(_) => 3
    case SetSAddress(_) => 4
    case SetRAddress(_) => 5
    case SetCksum(_) => 6
  }

  predicate SameSafeField(a: KrbSafeBuilder, b: KrbSafeBuilder, i: nat) {
    match i
    case 0 => a.userData == b.userData
    case 1 => a.timestamp == b.timestamp
    case 2 => a.usec == b.usec
    case 3 => a.seqNumber == b.seqNumber
    case 4 => a.sAddress == b.sAddress
    case 5 => a.rAddress == b.rAddress
    case 6 => a.cksum == b.cksum
    case _ => true
  }

  /** The builder holds `Some` of the value a setter passed. */
  predicate HoldsSafeSetter(b: KrbSafeBuilder, s: SafeSetter) {
    match s
    case SetUserData(v) => b.userData == Some(v)
    case SetTimestamp(v) => b.timestamp == Some(v)
    case SetUsec(v) => b.usec == Some(v)
    case SetSeqNumber(v) => b.seqNumber == Some(v)
    case SetSAddress(v) => b.sAddress == Some(v)
    case SetRAddress(v) => b.rAddress == Some(v)
    case SetCksum(v) => b.cksum == Some(v)
  }

  /** Each setter changes only its own field. */
  lemma SafeSetterChangesOnlyItsField(b: KrbSafeBuilder, s: SafeSetter, i: nat)
    ensures HoldsSafeSetter(ApplySafeSetter(b, s), s)
    ensures i != SafeSetterField(s) ==> SameSafeField(ApplySafeSetter(b, s), b, i)
  {
  }

  /** The three fields `build_unsafe` unwraps. */
  predicate Complete(b: KrbSafeBuilder) {
    b.userData.Some? && b.sAddress.Some? && b.cksum.Some?
  }

  /**
   * `build_unsafe`: pvno 5 under tag [0], message type 20 under [1], the body
   * under [2] and the checksum under [3]; `expect` panics on a missing
   * required field.
   */
  function BuildUnsafe(b: KrbSafeBuilder): (r: Outcome<KrbSafe>)
    ensures r.Returns? <==> Complete(b)
    ensures r.Returns? ==>
              r.value.pvno == Explicit(0, KrbSafePvno) && r.value.msgType == Explicit(1, KrbSafeMsgType)
              && r.value.safeBody.tagNumber == 2 && r.value.cksum == Explicit(3, b.cksum.value)
    ensures r.Returns? ==>
              var body := r.value.safeBody.value;
              body.userData == b.userData.value && body.sAddress == b.sAddress.value
              && body.timestamp == b.timestamp && body.usec == b.usec
              && body.seqNumber == b.seqNumber && body.rAddress == b.rAddress
  {
    if b.userData.None? || b.sAddress.None? || b.cksum.None? then Panics
    else
      var body := KrbSafeBody(b.userData.value, b.timestamp, b.usec, b.seqNumber, b.sAddress.value, b.rAddress);
      Returns(KrbSafe(Explicit(0, KrbSafePvno), Explicit(1, KrbSafeMsgType), Explicit(2, body), Explicit(3, b.cksum.value)))
  }

  /** `build`: reports the first missing field among user_data, s_address and cksum, else `build_unsafe`. */
  function Build(b: KrbSafeBuilder): (r: Result<KrbSafe, string>)
    ensures r.Ok? <==> Complete(b)
    ensures b.userData.None? ==> r == Err("user_data is required")
    ensures b.userData.Some? && b.sAddress.None? ==> r == Err("s_address is required")
    ensures b.userData.Some? && b.sAddress.Some? && b.cksum.None? ==> r == Err("cksum is required")
    ensures r.Ok? ==> BuildUnsafe(b) == Returns(r.value)
  {
    if b.userData.None? then Err("user_data is required")
    else if b.sAddress.None? then Err("s_address is required")
    else if b.cksum.None? then Err("cksum is required")
    else Ok(BuildUnsafe(b).value)
  }

  /** `build` never panics where `build_unsafe` would: it fails exactly when `build_unsafe` panics. */
  lemma BuildGuardsBuildUnsafe(b: KrbSafeBuilder)
    ensures Build(b).Err? <==> BuildUnsafe(b).Panics?
  {
  }
}
