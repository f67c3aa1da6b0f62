/**
 * KRB_ERROR (section 5.9.1 of RFC 4120) as built in
 * messages/src/krb_error_spec: the generated builder, whose hand-written
 * `build` fixes pvno and the message type, and the integer conversion of
 * error codes. Getters are the datatype's destructors.
 */
module KrbErrorSpec {
  import opened Wrappers
  import opened Constants
  import opened ErrorCodes
  import opened KerberosTypes

  /** `UninitializedFieldError::new(name)`. */
  datatype UninitializedFieldError = UninitializedFieldError(field: string)

  /**
   * `KrbErrorMsgBuilder` (derive_builder): a required field is `None` until
   * set; an optional one holds `Some` of the optional value its setter got.
   * pvno and msg_type have no setter.
   */
  datatype KrbErrorMsgBuilder = KrbErrorMsgBuilder(
    ctime: Option<Option<Time>>,
    cusec: Option<Option<int>>,
    stime: Option<Time>,
    susec: Option<int>,
    errorCode: Option<Ecode>,
    crealm: Option<Option<Realm>>,
    cname: Option<Option<PrincipalName>>,
    realm: Option<Realm>,
    sname: Option<PrincipalName>,
    eText: Option<Option<KerberosString>>,
    eData: Option<Option<Octets>>)

  const EmptyKrbErrorMsgBuilder := KrbErrorMsgBuilder(None, None, None, None, None, None, None, None, None, None, None)

  /** The five fields `build` requires. */
  predicate RequiredSet(b: KrbErrorMsgBuilder) {
    b.stime.Some? && b.susec.Some? && b.errorCode.Some? && b.realm.Some? && b.sname.Some?
  }

  /**
   * `KrbErrorMsgBuilder::build`: pvno 5 and message type 30 always; the first
   * unset field among stime, susec, error_code, realm and sname is reported;
   * an optional field never set is `None`.
   */
  function BuildKrbError(b: KrbErrorMsgBuilder): (r: Result<KrbErrorMsg, UninitializedFieldError>)
    ensures r.Ok? <==> RequiredSet(b)
    ensures b.stime.None? ==> r == Err(UninitializedFieldError("stime"))
    ensures b.stime.Some? && b.susec.None? ==> r == Err(UninitializedFieldError("susec"))
    ensures b.stime.Some? && b.susec.Some? && b.errorCode.None? ==> r == Err(UninitializedFieldError("error_code"))
    ensures b.stime.Some? && b.susec.Some? && b.errorCode.Some? && b.realm.None? ==> r == Err(UninitializedFieldError("realm"))
    ensures b.stime.Some? && b.susec.Some? && b.errorCode.Some? && b.realm.Some? && b.sname.None? ==> r == Err(UninitializedFieldError("sname"))
    ensures r.Ok? ==> r.value.pvno == 5 && r.value.msgType == TagKrbError
    ensures r.Ok? ==> r.value.stime == b.stime.value && r.value.susec == b.susec.value
    ensures r.Ok? ==> r.value.errorCode == b.errorCode.value && r.value.realm == b.realm.value
    ensures r.Ok? ==> r.value.sname == b.sname.value
    ensures r.Ok? ==> r.value.ctime == Flatten(b.ctime) && r.value.cusec == Flatten(b.cusec)
    ensures r.Ok? ==> r.value.crealm == Flatten(b.crealm) && r.value.cname == Flatten(b.cname)
    ensures r.Ok? ==> r.value.eText == Flatten(b.eText) && r.value.eData == Flatten(b.eData)
  {
    if b.stime.None? then Err(UninitializedFieldError("stime"))
    else if b.susec.None? then Err(UninitializedFieldError("susec"))
    else if b.errorCode.None? then Err(UninitializedFieldError("error_code"))
    else if b.realm.None? then Err(UninitializedFieldError("realm"))
    else if b.sname.None? then Err(UninitializedFieldError("sname"))
    else Ok(KrbErrorMsg(
      5, TagKrbError, Flatten(b.ctime), Flatten(b.cusec), b.stime.value, b.susec.value,
      b.errorCode.value, Flatten(b.crealm), Flatten(b.cname), b.realm.value, b.sname.value,
      Flatten(b.eText), Flatten(b.eData)))
  }

  /** Setting only the required fields gives a message whose optional fields are all `None`. */
  lemma BuildKrbErrorRequiredOnly(stime: Time, susec: int, code: Ecode, realm: Realm, sname: PrincipalName)
    ensures var r := BuildKrbError(EmptyKrbErrorMsgBuilder.(stime := Some(stime), susec := Some(susec),
                                     errorCode := Some(code), realm := Some(realm), sname := Some(sname)));
            r.Ok? && r.value.ctime.None? && r.value.cusec.None? && r.value.crealm.None?
            && r.value.cname.None? && r.value.eText.None? && r.value.eData.None?
  {
  }

  /** Whatever the setters did, a built message has pvno 5 and message type KRB_ERROR. */
  lemma BuildKrbErrorHeader(b: KrbErrorMsgBuilder)
    requires RequiredSet(b)
    ensures BuildKrbError(b).value.pvno == 5 && BuildKrbError(b).value.msgType == 30
  {
  }
}
