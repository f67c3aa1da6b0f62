/**
 * Symbolic DER encoding (the `der` crate's `to_der`/`from_der`) and symbolic
 * cryptography (`Cryptography::encrypt/decrypt` and
 * `CryptographicHash::digest`, whose implementations wrap AES-GCM and SHA-1).
 *
 * An encoding remembers the value encoded and a ciphertext remembers its key
 * and plaintext, so the round trips are lemmas rather than axioms, and
 * decoding or decrypting anything else fails.
 */
module Codec {
  import opened Wrappers
  import opened KerberosTypes
  import opened Constants

  /** The error of a failed `from_der`. */
  datatype DecodeError = DecodeError

  /** The error of a failed `decrypt`. */
  datatype CryptoError = DecryptError

  /** `value.to_der()`. */
  function Encode(v: DerValue): (o: Octets)
    ensures o.Der?
  {
    Der(v)
  }

  /** `from_der(o)`: succeeds exactly on the encoding of some modelled value. */
  function Decode(o: Octets): (r: Result<DerValue, DecodeError>)
    ensures r.Ok? <==> o.Der?
    ensures r.Ok? ==> Encode(r.value) == o
  {
    match o
    case Der(v) => Ok(v)
    case _ => Err(DecodeError)
  }

  /** Decoding an encoding gives back the value. */
  lemma DecodeEncode(v: DerValue)
    ensures Decode(Encode(v)) == Ok(v)
  {
  }

  /** Encoding is injective: equal encodings mean equal values. */
  lemma EncodeInjective(v: DerValue, w: DerValue)
    ensures Encode(v) == Encode(w) <==> v == w
  {
  }

  /** `crypto.encrypt(plain, key)` for the cipher of `etype`. */
  function Encrypt(etype: int, key: Octets, plain: Octets): (c: Octets)
    ensures c.Sealed?
  {
    Sealed(etype, key, plain)
  }

  /** `crypto.decrypt(c, key)` for the cipher of `etype`: succeeds exactly under the key and cipher that sealed it. */
  function Decrypt(etype: int, key: Octets, c: Octets): (r: Result<Octets, CryptoError>)
    ensures r.Ok? <==> c.Sealed? && c.etype == etype && c.key == key
    ensures r.Ok? ==> Encrypt(etype, key, r.value) == c
  {
    if c.Sealed? && c.etype == etype && c.key == key then Ok(c.plain) else Err(DecryptError)
  }

  /** `decrypt(encrypt(x, k), k) == x`. */
  lemma DecryptEncrypt(etype: int, key: Octets, plain: Octets)
    ensures Decrypt(etype, key, Encrypt(etype, key, plain)) == Ok(plain)
  {
  }

  /** Decrypting under any other key fails. */
  lemma DecryptWrongKey(etype: int, key: Octets, other: Octets, plain: Octets)
    requires other != key
    ensures Decrypt(etype, other, Encrypt(etype, key, plain)).Err?
  {
  }

  /** `hash.digest(input)` for the checksum type `cksumtype`. */
  function Hash(cksumtype: int, input: Octets): (d: Octets)
    ensures d.Digest?
  {
    Digest(cksumtype, input)
  }

  /** Digests of different inputs differ (collision resistance, idealised). */
  lemma HashInjective(t: int, a: Octets, b: Octets)
    ensures Hash(t, a) == Hash(t, b) <==> a == b
  {
  }

  // ------------------------------------------------------------- outer tags

  /** The class and number of a DER identifier. */
  datatype Tag = Universal(number: nat) | Application(number: nat) | ContextSpecific(number: nat)

  /** The `FixedTag::TAG` of each value's type (SEQUENCE is universal 16, OCTET STRING universal 4). */
  function OuterTag(v: DerValue): Tag {
    match v
    case DerTicket(_) => Application(TagTicket)
    // enc_ticket_part.rs declares the tag context-specific, not APPLICATION 3 as section 5.3 of RFC 4120 does.
    case DerEncTicketPart(_) => ContextSpecific(TagEncTicketPart)
    case DerAuthenticator(_) => Application(TagAuthenticator)
    case DerApReq(_) => Application(TagApReq)
    case DerApRep(_) => Application(TagApRep)
    case DerEncApRepPart(_) => Application(TagEncApRepPart)
    case DerEncAsRepPart(_) => Application(TagEncAsRepPart)
    case DerEncTgsRepPart(_) => Application(TagEncTgsRepPart)
    case DerKdcReqBody(_) => Universal(16)
    case DerAsReq(_) => Application(TagAsReq)
    case DerTgsReq(_) => Application(TagTgsReq)
    case DerAsRep(_) => Application(TagAsRep)
    case DerTgsRep(_) => Application(TagTgsRep)
    case DerKrbError(_) => Application(TagKrbError)
    case DerKrbSafe(_) => Application(TagKrbSafe)
    case DerEncryptedData(_) => Universal(16)
    case DerOctetString(_) => Universal(4)
    case DerETypeInfo(_) => Universal(16)
    case DerETypeInfo2(_) => Universal(16)
    case DerAuthorizationData(_) => Universal(16)
    case DerAdKdcIssued(_) => Universal(16)
    case DerAdAndOr(_) => Universal(16)
    case DerApReplayEntry(_) => Universal(16)
    case DerSessionRequest(_) => Universal(16)
  }

  /** The first octet of a constructed encoding with a low tag number: class bits, the constructed bit, the number. */
  function IdentifierOctet(t: Tag): (b: bv8)
    requires t.number < 31
  {
    var classBits: bv8 := match t
      case Universal(_) => 0x00
      case Application(_) => 0x40
      case ContextSpecific(_) => 0x80;
    classBits | 0x20 | t.number as bv8
  }

  /** Which message type a value is, by constructor. */
  function Kind(v: DerValue): nat {
    match v
    case DerTicket(_) => 0
    case DerEncTicketPart(_) => 1
    case DerAuthenticator(_) => 2
    case DerApReq(_) => 3
    case DerApRep(_) => 4
    case DerEncApRepPart(_) => 5
    case DerEncAsRepPart(_) => 6
    case DerEncTgsRepPart(_) => 7
    case DerKdcReqBody(_) => 8
    case DerAsReq(_) => 9
    case DerTgsReq(_) => 10
    case DerAsRep(_) => 11
    case DerTgsRep(_) => 12
    case DerKrbError(_) => 13
    case DerKrbSafe(_) => 14
    case DerEncryptedData(_) => 15
    case DerOctetString(_) => 16
    case DerETypeInfo(_) => 17
    case DerETypeInfo2(_) => 18
    case DerAuthorizationData(_) => 19
    case DerAdKdcIssued(_) => 20
    case DerAdAndOr(_) => 21
    case DerApReplayEntry(_) => 22
    case DerSessionRequest(_) => 23
  }

  /** The message type an APPLICATION identifier octet announces, numbered as `Kind` numbers them. */
  function OctetKind(b: bv8): nat {
    if b == 0x61 then 0
    else if b == 0x62 then 2
    else if b == 0x6E then 3
    else if b == 0x6F then 4
    else if b == 0x7B then 5
    else if b == 0x79 then 6
    else if b == 0x7A then 7
    else if b == 0x6A then 9
    else if b == 0x6C then 10
    else if b == 0x6B then 11
    else if b == 0x6D then 12
    else if b == 0x7E then 13
    else if b == 0x74 then 14
    else 24
  }

  /** Each APPLICATION-tagged value's identifier octet announces its own type. */
  lemma OctetKindOfValue(v: DerValue)
    requires OuterTag(v).Application?
    ensures OuterTag(v).number < 31 && OctetKind(IdentifierOctet(OuterTag(v))) == Kind(v)
  {
  }

  /**
   * The first octet of an APPLICATION-tagged message identifies its type: two
   * such values with the same identifier octet are of the same message type.
   */
  lemma ApplicationTagIdentifiesType(v: DerValue, w: DerValue)
    requires OuterTag(v).Application? && OuterTag(w).Application?
    requires IdentifierOctet(OuterTag(v)) == IdentifierOctet(OuterTag(w))
    ensures Kind(v) == Kind(w)
  {
    OctetKindOfValue(v);
    OctetKindOfValue(w);
  }
}
