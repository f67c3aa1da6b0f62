/**
 * The error codes of section 7.5.9 of RFC 4120, as the `Ecode` enumeration of
 * messages/src/krb_error_spec/mod.rs declares them through `back_to_enum!`:
 * every value 0-29, 31-42, 44-52 and 60-76 is a variant; 30, 43 and 53-59
 * are not.
 */
module ErrorCodes {
  import opened Wrappers
  import opened BackToEnum

  predicate IsEcode(c: int) {
    (0 <= c < 30) || (31 <= c < 43) || (44 <= c < 53) || (60 <= c < 77)
  }

  /** A variant of `Ecode`, identified with its discriminant. */
  type Ecode = c: int | IsEcode(c) witness 0

  const KDC_ERR_NONE: Ecode := 0
  const KDC_ERR_NAME_EXP: Ecode := 1
  const KDC_ERR_SERVICE_EXP: Ecode := 2
  const KDC_ERR_BAD_PVNO: Ecode := 3
  const KDC_ERR_C_OLD_MAST_KVNO: Ecode := 4
  const KDC_ERR_S_OLD_MAST_KVNO: Ecode := 5
  const KDC_ERR_C_PRINCIPAL_UNKNOWN: Ecode := 6
  const KDC_ERR_S_PRINCIPAL_UNKNOWN: Ecode := 7
  const KDC_ERR_PRINCIPAL_NOT_UNIQUE: Ecode := 8
  const KDC_ERR_NULL_KEY: Ecode := 9
  const KDC_ERR_CANNOT_POSTDATE: Ecode := 10
  const KDC_ERR_NEVER_VALID: Ecode := 11
  const KDC_ERR_POLICY: Ecode := 12
  const KDC_ERR_BADOPTION: Ecode := 13
  const KDC_ERR_ETYPE_NOSUPP: Ecode := 14
  const KDC_ERR_SUMTYPE_NOSUPP: Ecode := 15
  const KDC_ERR_PADATA_TYPE_NOSUPP: Ecode := 16
  const KDC_ERR_TRTYPE_NOSUPP: Ecode := 17
  const KDC_ERR_CLIENT_REVOKED: Ecode := 18
  const KDC_ERR_SERVICE_REVOKED: Ecode := 19
  const KDC_ERR_TGT_REVOKED: Ecode := 20
  const KDC_ERR_CLIENT_NOTYET: Ecode := 21
  const KDC_ERR_SERVICE_NOTYET: Ecode := 22
  const KDC_ERR_KEY_EXPIRED: Ecode := 23
  const KDC_ERR_PREAUTH_FAILED: Ecode := 24
  const KDC_ERR_PREAUTH_REQUIRED: Ecode := 25
  const KDC_ERR_SERVER_NOMATCH: Ecode := 26
  const KDC_ERR_MUST_USE_USER2USER: Ecode := 27
  const KDC_ERR_PATH_NOT_ACCEPTED: Ecode := 28
  const KDC_ERR_SVC_UNAVAILABLE: Ecode := 29
  const KRB_AP_ERR_BAD_INTEGRITY: Ecode := 31
  const KRB_AP_ERR_TKT_EXPIRED: Ecode := 32
  const KRB_AP_ERR_TKT_NYV: Ecode := 33
  const KRB_AP_ERR_REPEAT: Ecode := 34
  const KRB_AP_ERR_NOT_US: Ecode := 35
  const KRB_AP_ERR_BADMATCH: Ecode := 36
  const KRB_AP_ERR_SKEW: Ecode := 37
  const KRB_AP_ERR_BADADDR: Ecode := 38
  const KRB_AP_ERR_BADVERSION: Ecode := 39
  const KRB_AP_ERR_MSG_TYPE: Ecode := 40
  const KRB_AP_ERR_MODIFIED: Ecode := 41
  const KRB_AP_ERR_BADORDER: Ecode := 42
  const KRB_AP_ERR_BADKEYVER: Ecode := 44
  const KRB_AP_ERR_NOKEY: Ecode := 45
  const KRB_AP_ERR_MUT_FAIL: Ecode := 46
  const KRB_AP_ERR_BADDIRECTION: Ecode := 47
  const KRB_AP_ERR_METHOD: Ecode := 48
  const KRB_AP_ERR_BADSEQ: Ecode := 49
  const KRB_AP_ERR_INAPP_CKSUM: Ecode := 50
  const KRB_AP_PATH_NOT_ACCEPTED: Ecode := 51
  const KRB_ERR_RESPONSE_TOO_BIG: Ecode := 52
  const KRB_ERR_GENERIC: Ecode := 60
  const KRB_ERR_FIELD_TOOLONG: Ecode := 61
  const KDC_ERROR_CLIENT_NOT_TRUSTED: Ecode := 62
  const KDC_ERROR_KDC_NOT_TRUSTED: Ecode := 63
  const KDC_ERROR_INVALID_SIG: Ecode := 64
  const KDC_ERR_KEY_TOO_WEAK: Ecode := 65
  const KDC_ERR_CERTIFICATE_MISMATCH: Ecode := 66
  const KRB_AP_ERR_NO_TGT: Ecode := 67
  const KDC_ERR_WRONG_REALM: Ecode := 68
  const KRB_AP_ERR_USER_TO_USER_REQUIRED: Ecode := 69
  const KDC_ERR_CANT_VERIFY_CERTIFICATE: Ecode := 70
  const KDC_ERR_INVALID_CERTIFICATE: Ecode := 71
  const KDC_ERR_REVOKED_CERTIFICATE: Ecode := 72
  const KDC_ERR_REVOCATION_STATUS_UNKNOWN: Ecode := 73
  const KDC_ERR_REVOCATION_STATUS_UNAVAILABLE: Ecode := 74
  const KDC_ERR_CLIENT_NAME_MISMATCH: Ecode := 75
  const KDC_ERR_KDC_NAME_MISMATCH: Ecode := 76

  /** The discriminant of the `i`-th variant in declaration order. */
  function ValueAt(i: nat): (c: int)
    ensures i < 68 ==> IsEcode(c)
  {
    if i < 30 then i else if i < 42 then i + 1 else if i < 51 then i + 2 else i + 9
  }

  /** The variant lines of the enumeration, each with its explicit value. */
  function Decl(i: int): (d: Variant<int>)
    ensures d.explicit == Some(d.name)
  {
    var c := if i < 0 then 0 else ValueAt(i);
    Variant(c, Some(c))
  }

  function EcodeDecls(): seq<Variant<int>> {
    seq(68, i => Decl(i))
  }

  /** The (variant, discriminant) table the macro generates. */
  function EcodeTable(): seq<(int, int)> {
    Resolve(EcodeDecls())
  }

  lemma EcodeTableShape()
    ensures |EcodeTable()| == 68
    ensures forall i :: 0 <= i < 68 ==> EcodeTable()[i] == (ValueAt(i), ValueAt(i))
    ensures Distinct(EcodeTable())
  {
    forall i | 0 <= i < 68 ensures EcodeTable()[i] == (ValueAt(i), ValueAt(i)) {
      assert EcodeDecls()[i] == Decl(i);
    }
    forall i, j | 0 <= i < j < 68 ensures EcodeTable()[i].1 != EcodeTable()[j].1 {
      assert EcodeTable()[i].1 == ValueAt(i) < ValueAt(j) == EcodeTable()[j].1;
    }
  }

  /** Every `Ecode` value is declared at some line of the enumeration. */
  lemma EcodeDeclared(c: int)
    requires IsEcode(c)
    ensures exists i :: 0 <= i < 68 && ValueAt(i) == c
  {
    var i := if c < 30 then c else if c < 43 then c - 1 else if c < 53 then c - 2 else c - 9;
    assert ValueAt(i) == c;
  }

  /** The generated `try_from` finds exactly the declared values, each as its own variant. */
  lemma EcodeLookup(v: int)
    ensures TryFrom(EcodeTable(), v).Ok? <==> IsEcode(v)
    ensures TryFrom(EcodeTable(), v).Ok? ==> TryFrom(EcodeTable(), v).value == v
  {
    EcodeTableShape();
    var t := EcodeTable();
    var r := TryFrom(t, v);
    if r.Ok? {
      var i :| 0 <= i < |t| && t[i] == (r.value, v);
      assert t[i] == (ValueAt(i), ValueAt(i));
    }
    if IsEcode(v) {
      EcodeDeclared(v);
      var i :| 0 <= i < 68 && ValueAt(i) == v;
      TryFromDiscriminant(t, i);
    }
  }

  /**
   * `Ecode::try_from(v)`: `Ok` exactly for the declared discriminants, with the
   * variant of that value; `Err(())` for 30, 43, 53-59 and every out-of-range integer.
   */
  function EcodeFromInt(v: int): (r: Result<Ecode, ()>)
    ensures r.Ok? <==> IsEcode(v)
    ensures r.Ok? ==> r.value == v
  {
    EcodeLookup(v);
    match TryFrom(EcodeTable(), v)
    case Ok(n) => Ok(n)
    case Err(u) => Err(u)
  }

  /** `Int32::from(e)`: the discriminant `e as i32`. */
  function EcodeToInt(e: Ecode): (v: int)
    ensures IsEcode(v)
  {
    e
  }

  /** Round trip of the conversion pair. */
  lemma EcodeRoundTrip(e: Ecode)
    ensures EcodeFromInt(EcodeToInt(e)) == Ok(e)
  {
  }

  /** Decoding an INTEGER as `Ecode` (`try_from(..).expect(..)`): a panic outside the table. */
  function DecodeEcode(v: int): (r: Outcome<Ecode>)
    ensures r.Returns? <==> IsEcode(v)
    ensures r.Returns? ==> r.value == v
  {
    match EcodeFromInt(v)
    case Ok(e) => Returns(e)
    case Err(_) => Panics
  }

  /** The table skips 30, 43 and 53-59: decoding any of them panics. */
  lemma GapsPanic(v: int)
    requires v == 30 || v == 43 || 53 <= v <= 59
    ensures DecodeEcode(v) == Panics
  {
  }
}
