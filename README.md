# A verified model of kerberos-simple

kerberos-simple is a Kerberos V5 implementation in Rust, written against RFC 4120. This project models its core in Dafny and proves properties of that model. The core has three layers:

- **Messages** (crate `messages`). These are the protocol's value types:
  - principal names, authorization data and pre-authentication data with their registered and local type ranges;
  - KerberosFlags bit strings and their builders;
  - the integer-to-enum tables and the error-code table;
  - KRB_AP_REQ, KRB_AP_REP, the authenticator, EncAPRepPart and KRB_SAFE;
  - tickets and their encrypted part;
  - KRB_ERROR, and the AS and TGS request and reply messages.

  Each has a constructor or builder, with fixed protocol version 5 and a fixed message type.
- **Protocol rules** (crate `kerberos`). These are the guards that turn each incoming message into a reply or an error code:
  - the client's AS, TGS and AP exchanges, which check the replies it receives;
  - the authentication service's and the application service's KRB_AP_REQ handlers;
  - the ticket-granting service's KRB_TGS_REQ handler, which computes the new ticket's flags, lifetime and authorization data;
  - the in-memory key-value database.
- **Infrastructure** (crates `kerberos_infra`, `kerberos-infra` and `kerberos_app_srv`):
  - the capacity-bounded LRU cache with time-to-live expiry;
  - the reader of a TCP message's tag-and-length header (X.690 sections 8.1.2 and 8.1.3);
  - the routing of a handler's result to the bytes sent back;
  - host and server builders with their address parsing, and protocol names;
  - the application server's session, replay and client-address stores, both over a map and over the cache.

How the model is organised:

- **Values and state.** Values are datatypes. Whatever the source updates in place is a class:
  - the flag builders over a byte array;
  - the client environment;
  - the database;
  - the caches and the stores;
  - the stream readers;
  - the service objects.

  Each method is proved equal to a function on the old state, and the properties are lemmas about those functions.
- **Cryptography and DER are symbolic:**
  - `Codec.Encode` wraps a value as its encoding.
  - `Codec.Decode` recovers it.
  - `Codec.Encrypt` seals octets with a key and an etype.
  - `Codec.Decrypt` opens them only with the same key.
  - `Codec.Hash` is an injective digest.

  Only the decision logic around these operations is verified. Concrete DER octets are modelled only for the length header and for KerberosFlags values: their BIT STRING framing (`Flags.FlagsDer`) and the content octets of the AP options.
- **Inputs the program does not control** are parameters:
  - the clock, as whole seconds, with `KerberosTime::now` a single instant per call; the client's clock readings are microseconds, and the AP exchange's two readings are two inputs;
  - `Instant`, as whole ticks of one second: an entry's age is the difference of two tick counts, so a sub-second age rounds down, and the caches compare it with their ttl in seconds;
  - random nonces, sequence numbers and generated session keys.

## Behaviour kept as the code has it

Where the code departs from RFC 4120 without evidently being a mistake, the model follows the code.

**Ticket-granting service** (`kerberos/src/ticket_granting_service/mod.rs`):
- It decrypts the TGT with the key of the server named in the request (line 155), not with the krbtgt key.
- VALIDATE requires the INVALID option bit in the request, not the INVALID flag of the TGT (line 268).
- VALIDATE then sets INVALID on the new ticket (line 275).
- The new ticket's realm, and the reply's srealm, are the TGT's crealm (lines 163, 417-425 and 445).
- The reply's starttime is the TGT's starttime (line 437).
- The checksum-property tests always pass.
- Replay detection never fires.
- The local-realm test always passes, so the inter-realm `todo!` is never reached.

**Authentication service** (`kerberos/src/authentication_service/mod.rs:215-234`):
- `valid_ticket_time` reports a ticket time that is too far in the past as KRB_AP_ERR_TKT_NYV.
- It reports one too far in the future as KRB_AP_ERR_TKT_EXPIRED.

**Application authentication service** (`kerberos/src/application_authentication_service/mod.rs`):
- It refuses as KRB_AP_ERR_TKT_NYV any ticket whose start time is more than the allowed skew from now, in either direction (lines 214-220).
- It refuses as expired any ticket whose end time is within the skew of now (lines 222-229).

**Client TGS exchange** (`kerberos/src/client/tgs_exchange.rs:35`):
- It builds its authenticator without a checksum.
- The ticket-granting service therefore answers it with KRB_AP_ERR_INAPP_CKSUM (`TgsService.Authenticate`).

**Times**:
- `KerberosTime::max` and `infinity` are taken as 253402300799, that is 9999-12-31T23:59:59Z.
- `KerberosTime::zero` is 0.

## Model

| member | source | states |
|---|---|---|
| Constants.NameTypeCode | messages/src/basic/constants.rs:1-12 | the discriminant of every name type is one of the declared codes 0-7 and 10 |
| Constants.NameTypeFromInt | messages/src/basic/constants.rs:15-30 | `NameTypes::from(v)` returns iff `v` is a declared code, and then the variant whose discriminant is `v`; every other integer panics |
| Constants.NameTypeRoundTrip | messages/src/basic/constants.rs:1-30 | converting a name type's discriminant back gives the same name type |
| Constants.AddressTypeCode | messages/src/basic/constants.rs:32-43 | the discriminant of every address type is one of 2, 3, 5, 6, 7, 12, 16, 20, 24 |
| Constants.AddressTypeFromInt | messages/src/basic/constants.rs:46-61 | `AddressTypes::from(v)` returns iff `v` is in {2,3,5,6,7,12,16,20,24}, with the variant of that discriminant; any other integer panics |
| Constants.AddressTypeRoundTrip | messages/src/basic/constants.rs:32-61 | converting an address type's discriminant back gives the same address type |
| Constants.AuthorizationDataTypeCode | messages/src/basic/constants.rs:63-69 | the discriminant of every authorization-data type is one of 1, 4, 5, 8 |
| Constants.AuthorizationDataTypeFromInt | messages/src/basic/constants.rs:71-81 | `AuthorizationDataTypes::from(v)` returns iff `v` is in {1,4,5,8}, with the variant of that discriminant; otherwise it panics |
| Constants.AuthorizationDataTypeRoundTrip | messages/src/basic/constants.rs:63-81 | converting an authorization-data type's discriminant back gives the same type |
| Constants.PaDataTypeCode | messages/src/basic/constants.rs:83-90 | the discriminant of every pre-authentication data type is one of 1, 2, 3, 11, 19 |
| Constants.PaDataTypeFromInt | messages/src/basic/constants.rs:92-103 | `PaDataTypes::from(v)` returns iff `v` is in {1,2,3,11,19}, with the variant of that discriminant; otherwise it panics |
| Constants.PaDataTypeRoundTrip | messages/src/basic/constants.rs:83-103 | converting a padata type's discriminant back gives the same type |
| Constants.FlagPositionsFitFourOctets | messages/src/basic/constants.rs:105-139 | every bit position in `flags` lies in the first four octets, the size of a fresh flag buffer |
| Constants.ApplicationTagsDistinct | messages/src/basic/constants.rs:141-169 | the APPLICATION tag numbers are pairwise distinct and all below 31, so each fits the one-octet identifier form |
| BackToEnum.Resolve | messages/src/back_to_enum.rs:17-23 | the table has one entry per variant line, in order: the explicit value where given, else one more than the previous variant's, else 0 for the first |
| BackToEnum.TryFrom | messages/src/back_to_enum.rs:25-33 | `try_from(v)` is `Ok` with a variant whose discriminant is `v`, and `Err(())` iff no variant has discriminant `v` |
| BackToEnum.TryFromDiscriminant | messages/src/back_to_enum.rs:25-33 | with distinct discriminants, converting a variant's own discriminant gives that variant back |
| BackToEnum.FoundInBoth | messages/src/back_to_enum.rs:29-31 | a value found in one table is found with the same variant in any distinct table holding the same pairs |
| BackToEnum.OrderIndependent | messages/src/back_to_enum.rs:29-31 | with distinct discriminants, the result does not depend on the order of the variant lines |
| ErrorCodes.EcodeTableShape | messages/src/krb_error_spec/mod.rs:181-184 | the generated table has 68 variants, each named by and equal to its own value, with distinct discriminants |
| ErrorCodes.EcodeDeclared | messages/src/krb_error_spec/mod.rs:184-190 | every value in 0-29, 31-42, 44-52, 60-76 is declared somewhere in the enumeration |
| ErrorCodes.EcodeLookup | messages/src/krb_error_spec/mod.rs:181-184 | the generated `try_from` succeeds exactly on the declared error codes, giving the variant of that value |
| ErrorCodes.EcodeFromInt | messages/src/krb_error_spec/mod.rs:181-184 | `Ecode::try_from(v)` is `Ok` iff `v` is a section 7.5.9 error code of the table, and then the code `v` |
| ErrorCodes.EcodeToInt | messages/src/krb_error_spec/mod.rs:154-158 | `Int32::from(e)` is always a declared error code |
| ErrorCodes.EcodeRoundTrip | messages/src/krb_error_spec/mod.rs:154-158 | converting an error code to an integer and back gives the same code |
| ErrorCodes.DecodeEcode | messages/src/krb_error_spec/mod.rs:164-169 | decoding an INTEGER as `Ecode` returns iff it is a declared code, and panics otherwise |
| ErrorCodes.GapsPanic | messages/src/krb_error_spec/mod.rs:184-190 | decoding 30, 43 or any of 53-59 panics: the table has no such codes |
| Flags.IsSet | messages/src/basic/kerberos_flags.rs:15-23 | `is_set(pos)` reads bit `7 - pos % 8` of octet `pos / 8`, and is false for any position past the last octet |
| Flags.FlagsDer | messages/src/basic/kerberos_flags.rs:26-38 | the DER of flags is a BIT STRING: identifier 0x03 and a header that reads back as the length of the flag octets plus one, then a zero unused-bits octet and the flag octets themselves |
| Flags.MaskInjective | messages/src/basic/kerberos_flags.rs:16-18 | two different positions in the same octet have different masks, so setting one never reports the other |
| Flags.OrMaskBits | messages/src/basic/kerberos_flags.rs:62-65 | OR-ing one position's mask into an octet sets that bit and leaves every other bit of the octet as it was |
| Flags.OrBitSets | messages/src/basic/kerberos_flags.rs:62-65 | after OR-ing position `pos` into a buffer, a bit is set iff it is `pos` or was set before |
| Flags.ZerosClear | messages/src/basic/kerberos_flags.rs:52-56 | a buffer of zero octets reports no bit set |
| Flags.Resized | messages/src/basic/mod.rs:613-621 | resizing to `n` octets keeps the old octet at every common index and zero elsewhere |
| Flags.ResizedBits | messages/src/basic/mod.rs:613-621 | after resizing to `n` octets a bit is set iff it lies in the first `n` octets and was set before |
| Flags.DefaultFlagsClear | messages/src/basic/mod.rs:598-603 | flags built from a fresh builder report no bit set at any position |
| Flags.RawSetBits | messages/src/basic/mod.rs:627-638 | the raw builder's `set(pos)` changes nothing when `pos` is past the buffer, and otherwise sets exactly bit `pos` |
| Flags.RawFlagsBuilder.New | messages/src/basic/mod.rs:598-603 | a new builder holds four zero octets in a fresh buffer |
| Flags.RawFlagsBuilder.Len | messages/src/basic/mod.rs:605-625 | `len(n)` fails iff `n < 4` and then changes nothing; otherwise the buffer becomes the old prefix cut or zero-extended to `n` octets |
| Flags.RawFlagsBuilder.Set | messages/src/basic/mod.rs:627-638 | `set(pos)` updates the buffer in place to the raw-set octets: a position past the end is ignored |
| Flags.RawFlagsBuilder.Build | messages/src/basic/mod.rs:640-648 | `build()` gives flags over exactly the builder's octets, at least four of them |
| Flags.VecSet | messages/src/basic/kerberos_flags.rs:58-67 | the vector builder's `set(pos)` keeps at least four octets, resizes to exactly `pos / 8 + 1` octets when `pos >= 32`, and otherwise keeps the length |
| Flags.VecSetThenIsSet | messages/src/basic/kerberos_flags.rs:58-67 | after `set(pos)` the built flags report `pos` as set |
| Flags.VecSetLowOnlyThatBit | messages/src/basic/kerberos_flags.rs:58-67 | below 32, `set(pos)` sets bit `pos` and changes no other bit |
| Flags.VecSetHighResizes | messages/src/basic/kerberos_flags.rs:59-61 | from 32 on, `set(pos)` keeps only the bits in the first `pos / 8 + 1` octets: a bit raised earlier in a later octet is lost |
| Flags.FlagsBuilder.New | messages/src/basic/kerberos_flags.rs:52-56 | a new builder holds the four zero octets |
| Flags.FlagsBuilder.Set | messages/src/basic/kerberos_flags.rs:58-67 | `set(pos)` updates the vector in place to the vector-set octets |
| Flags.FlagsBuilder.Build | messages/src/basic/kerberos_flags.rs:69-72 | `build()` gives flags over a copy of the vector, at least four octets |
| Codec.Encode | kerberos/src/client/ap_exchange.rs:45 | `to_der()` always yields a DER encoding |
| Codec.Decode | kerberos/src/ticket_granting_service/mod.rs:159 | `from_der(o)` succeeds exactly on the encoding of some value, and the value decoded re-encodes to `o` |
| Codec.DecodeEncode | kerberos/src/client/ap_exchange.rs:45 | decoding an encoding gives the encoded value back |
| Codec.EncodeInjective | kerberos/src/application_authentication_service/mod.rs:248 | two values have the same encoding iff they are equal |
| Codec.Encrypt | kerberos/src/client/ap_exchange.rs:48 | `encrypt` always yields a sealed value |
| Codec.Decrypt | kerberos/src/ticket_granting_service/mod.rs:153 | `decrypt(c, key)` succeeds iff `c` was sealed under that cipher and key, and then returns the plaintext that seals to `c` |
| Codec.DecryptEncrypt | kerberos/src/ticket_granting_service/mod.rs:153-173 | decrypting an encryption under the same key and cipher returns the plaintext |
| Codec.DecryptWrongKey | kerberos/src/ticket_granting_service/mod.rs:153-158 | decrypting under any other key fails |
| Codec.Hash | kerberos/src/client/ap_exchange.rs:38 | `digest` always yields a digest value |
| Codec.HashInjective | kerberos/src/ticket_granting_service/mod.rs:78 | two inputs have the same digest iff they are equal (idealised collision resistance) |
| Codec.ApplicationTagIdentifiesType | messages/src/basic/constants.rs:141-169 | two APPLICATION-tagged messages with the same identifier octet are of the same message type |
| Basic.NewPrincipalName | messages/src/basic/mod.rs:45-59 | `PrincipalName::new` fails iff there are no components; otherwise the name holds the name type's code and the components as given |
| Basic.HasNameTypeOf | messages/src/basic/mod.rs:65-71 | `has_name_type_of(nt)` holds iff the stored code converts back to `nt` |
| Basic.NewPrincipalNameHasOnlyItsType | messages/src/basic/mod.rs:45-71 | a name built with type `nt` reports type `nt` and no other type |
| Basic.AdScopes | messages/src/basic/mod.rs:139-150 | `for_registered_use` is `Ok(ad_type >= 0)`, `for_local_use` is its negation, and exactly one of the two holds |
| Basic.PaScopes | messages/src/basic/mod.rs:340-352 | `for_registered_use` is `Ok(padata_type >= 0)`, `for_unregistered_use` is its negation, and exactly one holds |
| Basic.DecodeAdPayload | messages/src/basic/mod.rs:207-233 | decoding `ad_data` as the structure registered for a type, when it succeeds, gives an entry of that type whose encoding is `ad_data` |
| Basic.UpgradeAd | messages/src/basic/mod.rs:182-237 | a local-use entry is an error; a registered code outside {1,4,5,8} panics in the enum conversion; a success carries the entry's own type and payload |
| Basic.UpgradeAdRoundTrip | messages/src/basic/mod.rs:182-237 | upgrading the entry that carries a registered structure gives that structure back |
| Basic.DecodePaPayload | messages/src/basic/mod.rs:389-420 | decoding `padata_value` panics exactly for PA-TGS-REQ (a `todo!`), and never yields the TGS-REQ variant |
| Basic.UpgradePa | messages/src/basic/mod.rs:369-423 | an unregistered-use padata is an error; upgrading panics iff the type is registered but undeclared or is PA-TGS-REQ (1) |
| Basic.UpgradePaEncTimestamp | messages/src/basic/mod.rs:391-396 | a PA-ENC-TIMESTAMP padata carrying an encrypted timestamp upgrades back to that timestamp |
| Basic.UpgradePaETypeInfo2 | messages/src/basic/mod.rs:409-414 | a PA-ETYPE-INFO2 padata carrying an entry list upgrades back to that list |
| CsMessage.ApOptionsBytesBits | messages/src/cs_message/krb_ap_req.rs:20-29 | the four octets of `APOptions::new(s, m)` carry bit 0x40 iff `s`, bit 0x20 iff `m`, and no other bit |
| CsMessage.ApOptionsDer | messages/src/cs_message/krb_ap_req.rs:157-175 | the options with both, only mutual and only session-key requested encode as 03 05 00 followed by 60, 20 or 40 and three zero octets |
| CsMessage.NewApOptions | messages/src/cs_message/krb_ap_req.rs:20-29 | the method's in-place buffer updates yield exactly the specified option octets |
| CsMessage.UseSessionKey | messages/src/cs_message/krb_ap_req.rs:31-33 | `use_session_key()` panics iff the bit string is empty |
| CsMessage.MutualRequired | messages/src/cs_message/krb_ap_req.rs:35-37 | `mutual_required()` panics iff the bit string is empty |
| CsMessage.ApOptionsQueries | messages/src/cs_message/krb_ap_req.rs:20-37 | the two queries read back the flags given to `new` |
| CsMessage.NewKrbApReq | messages/src/cs_message/krb_ap_req.rs:98-129 | an AP-REQ always has pvno 5 and message type 14, and keeps the options, ticket and authenticator given |
| CsMessage.NewKrbApRep | messages/src/cs_message/krb_ap_rep.rs:43-69 | an AP-REP always has pvno 5 and message type 15, and keeps the encrypted part given |
| CsMessage.NewEncApRepPart | messages/src/cs_message/enc_ap_rep_part.rs:51-63 | an EncAPRepPart keeps the time, microseconds, subkey and sequence number given |
| CsMessage.BuildAuthenticator | messages/src/cs_message/authenticator.rs:87-110 | `build()` succeeds iff crealm, cname, cusec and ctime are all set, reports the first missing one in that order, and otherwise gives version 5 with every field copied and each optional one flattened |
| CsMessage.BuildAuthenticatorRequiredOnly | messages/src/cs_message/authenticator.rs:87-110 | setting only the four required fields builds an authenticator with those fields and every optional field absent |
| Tickets.NewTicket | messages/src/tickets/mod.rs:18-20 | a ticket always has version 5 and keeps the realm, server name and encrypted part given |
| Tickets.EmptyTransited | messages/src/tickets/transited_encoding.rs:14-19 | the empty transited encoding has the given type and no contents |
| Tickets.NewTransited | messages/src/tickets/transited_encoding.rs:20-22 | a transited encoding keeps the type and contents given |
| Tickets.NewEncTicketPartBuilder | messages/src/tickets/enc_ticket_part.rs:136-159 | a new builder holds the seven required fields and every optional field is absent |
| Tickets.SetterChangesOnlyItsField | messages/src/tickets/enc_ticket_part.rs:177-231 | each setter stores its value in its own field (wrapped in `Some` when optional) and leaves every other field as it was |
| Tickets.BuildEncTicketPart | messages/src/tickets/enc_ticket_part.rs:161-175 | `build()` moves every builder field unchanged into the ticket part |
| Tickets.BuildWithoutOptionals | messages/src/tickets/enc_ticket_part.rs:65-75 | a part built straight from `EncTicketPart::builder` reports every optional field absent |
| KrbSafeSpec.SafeSetterChangesOnlyItsField | messages/src/krb_safe_spec/mod.rs:126-159 | each `set_*` stores `Some` of its value in its own field and leaves every other field as it was |
| KrbSafeSpec.BuildUnsafe | messages/src/krb_safe_spec/mod.rs:177-202 | `build_unsafe` returns iff user_data, s_address and cksum are all set (an `expect` panics otherwise), with pvno 5, message type 20 and the builder's fields |
| KrbSafeSpec.Build | messages/src/krb_safe_spec/mod.rs:161-175 | `build` succeeds iff the three required fields are set, names the first missing one among user_data, s_address, cksum, and otherwise returns what `build_unsafe` returns |
| KrbSafeSpec.BuildGuardsBuildUnsafe | messages/src/krb_safe_spec/mod.rs:161-202 | `build` fails exactly on the builders on which `build_unsafe` would panic |
| KrbErrorSpec.BuildKrbError | messages/src/krb_error_spec/mod.rs:72-98 | `build` succeeds iff stime, susec, error_code, realm and sname are set, reports the first missing one in that order, and otherwise gives pvno 5, type KRB_ERROR and every field copied or flattened |
| KrbErrorSpec.BuildKrbErrorRequiredOnly | messages/src/krb_error_spec/mod.rs:72-98 | setting only the five required fields gives a message holding them with every optional field absent |
| KrbErrorSpec.BuildKrbErrorHeader | messages/src/krb_error_spec/mod.rs:74-76 | whatever the setters did, a built message has pvno 5 and message type 30 |
| KdcMessages.NewKdcReq | messages/src/spec_as_tgs_exchange/kdc_req.rs:24-36 | a KDC-REQ always has pvno 5 and keeps the message type, padata and body given |
| KdcMessages.NewAsReq | messages/src/spec_as_tgs_exchange/as_req.rs:16-22 | an AS-REQ is a KDC-REQ with pvno 5 and message type 10 |
| KdcMessages.NewTgsReq | messages/src/spec_as_tgs_exchange/tgs_req.rs:17-23 | a TGS-REQ is a KDC-REQ with pvno 5 and message type 12 |
| KdcMessages.NewKdcRep | messages/src/spec_as_tgs_exchange/kdc_rep.rs:32-50 | a KDC-REP always has pvno 5 and keeps every other field given |
| KdcMessages.NewAsRep | messages/src/spec_as_tgs_exchange/as_rep.rs:16-27 | an AS-REP is a KDC-REP with pvno 5 and message type 11 |
| KdcMessages.NewTgsRep | messages/src/spec_as_tgs_exchange/tgs_rep.rs:16-27 | a TGS-REP is a KDC-REP with pvno 5 and message type 13 |
| KdcMessages.ExchangeTagsMatchMessageTypes | messages/src/basic/constants.rs:141-169 | each of the four exchange messages is sent under the APPLICATION tag equal to its message type |
| ClientUtil.ClockSkewIsDistance | kerberos/src/client/util.rs:10-16 | `is_within_clock_skew` holds exactly when the two instants are at most `skew` apart, and is symmetric in them |
| ClientUtil.IsWithinClockSkew | kerberos/src/client/util.rs:10-16 | the skew check, both bounds inclusive; `ClockSkewIsDistance` relates it to `Distance` |
| ClientUtil.Distance | kerberos/src/client/util.rs:15 | the distance of two instants is their difference in whichever order is non-negative, so each lies within it of the other |
| ClientUtil.ClockSkewReflexive | kerberos/src/client/util.rs:10-16 | an instant is within any skew of itself |
| ClientUtil.ClockSkewMonotone | kerberos/src/client/util.rs:10-16 | widening the allowed skew never rejects a pair that was accepted |
| ClientUtil.TimeToMicros | kerberos/src/client/util.rs:18-21 | a KerberosTime's instant in microseconds is a whole number of its seconds |
| ClientUtil.IsZeroTime | kerberos/src/client/util.rs:18-21 | a time is zero exactly when it is the epoch, KerberosTime 0 |
| ClientEnviron.GetCrypto | kerberos/src/client/client_env.rs:25 | `get_crypto(etype)` succeeds iff the environment supports that etype, and otherwise is an environment error |
| ClientEnviron.GetChecksumHash | kerberos/src/client/client_env.rs:26-29 | `get_checksum_hash(t)` succeeds iff the environment supports that checksum type, and otherwise is an environment error |
| ClientEnviron.GetClientKey | kerberos/src/client/client_env.rs:32 | `get_client_key(etype)` succeeds iff the environment has a key of that etype, and returns that key |
| ClientEnviron.GetSaved | kerberos/src/client/client_env.rs:39-51 | each saved-state getter returns the value saved, and an environment error when nothing was saved |
| ClientEnviron.ClientEnv.constructor | kerberos/src/client/client_env.rs:8-56 | a new environment holds the given settings and nothing saved |
| ClientEnviron.ClientEnv.SaveAsReply | kerberos/src/client/client_env.rs:37 | `save_as_reply` records the reply and its decrypted part and changes nothing else saved |
| ClientEnviron.ClientEnv.SaveTgsReply | kerberos/src/client/tgs_exchange.rs:102 | the one-argument `save_tgs_reply` of the call site records the reply only |
| ClientEnviron.ClientEnv.SaveTgsReplyWithPart | kerberos/src/client/client_env.rs:43-47 | `save_tgs_reply` as declared records the reply and its decrypted part |
| ClientEnviron.ClientEnv.SaveSubkey | kerberos/src/client/client_env.rs:53 | `save_subkey` records the subkey and changes nothing else saved |
| ClientEnviron.ClientEnv.SaveSeqNumber | kerberos/src/client/client_env.rs:55 | `save_seq_number` records the sequence number and changes nothing else saved |
| KdcExchange.DecodeRepPart | kerberos/src/client/kdc_exchange.rs:29-40 | decoding picks EncASRepPart or EncTGSRepPart by the exchange type; a success is exactly an encoding of that part kind, any failure is `DecodeError` |
| KdcExchange.DecodeRepPartEncode | kerberos/src/client/kdc_exchange.rs:29-40 | decoding the encoding of a part of the exchange's kind gives the part back |
| KdcExchange.DecryptRepPart | kerberos/src/client/kdc_exchange.rs:24-40 | the decrypted part is the one sealed under the key; the result is a cryptography error iff decryption under that key fails |
| KdcExchange.CheckRepPart | kerberos/src/client/kdc_exchange.rs:41-111 | the checks accept iff the reply part is consistent with the request; a missing request cname or sname is `InvalidKdcReq`, a start time outside five minutes of the clock when no `from` was asked is `ClockSkewError`, and every other failure is `ResponseModified` |
| KdcExchange.ReceiveKdcRep | kerberos/src/client/kdc_exchange.rs:16-112 | `receive_kdc_rep` succeeds iff the part decrypts, decodes and passes the checks; a decryption failure is `CryptographyError` |
| KdcExchange.SealedConsistentReplyAccepted | kerberos/src/client/kdc_exchange.rs:16-112 | a reply whose part is consistent and sealed under the key is accepted, and the same reply is refused under every other key |
| KdcExchange.AcceptedPartsAgree | kerberos/src/client/kdc_exchange.rs:49-82 | two parts accepted for the same request and reply agree on nonce, server name and realm, addresses and flags, and on the start time when `from` was given |
| KdcExchange.IdentityMatches | kerberos/src/client/kdc_exchange.rs:49-57 | the reply's client name and realm, and the part's server name, realm, nonce and addresses, equal the request's |
| KdcExchange.StartTimeAcceptable | kerberos/src/client/kdc_exchange.rs:63-82 | the part has a start time; without `from` it is within five minutes of the clock, with `from` it equals it |
| KdcExchange.EndTimeAcceptable | kerberos/src/client/kdc_exchange.rs:84-89 | a nonzero `till` bounds the part's end time |
| KdcExchange.RenewalAcceptable | kerberos/src/client/kdc_exchange.rs:91-110 | a RENEWABLE request with a nonzero rtime bounds renew-till by rtime; a RENEWABLE-OK request answered renewable with a nonzero till bounds it by till |
| KdcExchange.ReplyConsistent | kerberos/src/client/kdc_exchange.rs:41-110 | the conjunction of every check: names present, identity, flags equal to the requested options, start, end and renewal times; `CheckRepPart` accepts exactly the consistent parts |
| ApExchange.NtPrincipalName | kerberos/src/client/ap_exchange.rs:20-21 | the client's name becomes a one-component NT-PRINCIPAL name, which cannot fail |
| ApExchange.ApAuthenticator | kerberos/src/client/ap_exchange.rs:20-43 | the authenticator both preparers build from the settings, the two clock readings, the material and the sequence number; `ApAuthenticatorContents` states its fields |
| ApExchange.ApAuthenticatorContents | kerberos/src/client/ap_exchange.rs:23-43 | the authenticator has version 5, the first clock reading's whole seconds as ctime and the second reading's microseconds as cusec (below one million), the client's name and realm and the sequence number, and a type-1 checksum of the material's digest iff material is given |
| ApExchange.ApAuthenticatorSameSecond | kerberos/src/client/ap_exchange.rs:23-25 | when both clock readings fall in the same second, ctime and cusec recombine to the second reading |
| ApExchange.ApAuthenticatorAcrossSecond | kerberos/src/client/ap_exchange.rs:23-25 | when a second boundary passes between the readings, the stated time can lie almost a second before both: readings 999999 and 1000000 give time 0 |
| ApExchange.PrepareApRequestWith | kerberos/src/client/ap_exchange.rs:17-64 | the request is built iff the saved reply exists, the first clock reading fits a KerberosTime and a type-1 checksum exists; it is an AP-REQ with options (use-session-key, mutual as asked), the saved ticket, and the authenticator sealed under the session key with kvno 1 |
| ApExchange.PrepareApRequest | kerberos/src/client/ap_exchange.rs:12-65 | `prepare_ap_request` needs a saved TGS reply and uses its ticket and its session key's type |
| ApExchange.PreparePaData | kerberos/src/client/ap_exchange.rs:67-120 | `prepare_pa_data` needs a saved AS reply and uses its ticket and its session key's type |
| ApExchange.ApRequestOpensUnderSessionKey | kerberos/src/client/ap_exchange.rs:45-61 | a holder of the session key decrypts a prepared request's authenticator and decodes exactly the authenticator built from the two clock readings and the material |
| ApExchange.CheckApReply | kerberos/src/client/ap_exchange.rs:128-144 | the reply is accepted only when a TGS session key is saved, its part is sealed under that key, and it echoes the authenticator's ctime and cusec; `MutualAuthenticationFailed` means it decoded but the times differ |
| ApExchange.ReceiveApReply | kerberos/src/client/ap_exchange.rs:122-152 | a refused reply saves nothing; then the subkey, when present, is saved unless its save fails, which returns that error with nothing saved; then the sequence number likewise, a failure there leaving the subkey saved; on success both are saved when present and nothing else changes |
| ApExchange.MutualAuthenticationIffEcho | kerberos/src/client/ap_exchange.rs:140-144 | a reply part sealed under the session key is accepted iff it echoes the authenticator's time, else mutual authentication fails |
| AsExchange.TillFromClock | kerberos/src/client/as_exchange.rs:23-26 | the requested end time is the clock's whole second plus one day, and a `DecodeError` iff that passes the last KerberosTime |
| AsExchange.PrepareAsRequest | kerberos/src/client/as_exchange.rs:10-68 | the AS-REQ is built iff the end time fits and POSTDATED comes with a start time; then it has pvno 5, type 10, empty padata, the environment's names, realm, options and etypes, the nonce, `from` only under POSTDATED and `rtime` only under RENEWABLE |
| AsExchange.PreparedAsRequestAnswerable | kerberos/src/client/kdc_exchange.rs:41-111 | every request `prepare_as_request` builds admits a reply part the client's checks accept: one echoing the request |
| AsExchange.CheckAsResponse | kerberos/src/client/as_exchange.rs:75-91 | an unsupported etype or missing client key is an environment error; the reply is accepted iff both exist and `receive_kdc_rep` accepts it, and then its part is the one sealed under the client key and is consistent with the request |
| AsExchange.ReceiveAsResponse | kerberos/src/client/as_exchange.rs:70-95 | the reply and its part are saved iff every check passed, and nothing is saved otherwise |
| TgsExchange.PrepareTgsRequest | kerberos/src/client/tgs_exchange.rs:14-57 | the TGS-REQ is built iff the end time fits, some etype is supported and the AP-REQ can be prepared; it has pvno 5, type 12, the AP-REQ (no mutual authentication, no checksum) encoded as its single PA-TGS-REQ entry, and the environment's names, realm, options and etypes with the nonce; the end time comes from one clock reading, the authenticator from two later ones |
| TgsExchange.FindPaData | kerberos/src/client/tgs_exchange.rs:67-71 | the search finds the first padata entry of the type, and finds nothing iff no entry has it |
| TgsExchange.FindPaDataSkips | kerberos/src/client/tgs_exchange.rs:67-71 | entries of other types before the first match only shift its index |
| TgsExchange.TgsDecryptKey | kerberos/src/client/tgs_exchange.rs:64-91 | without a PA-TGS-REQ entry the session key decrypts the reply; a different key comes only from such an entry |
| TgsExchange.TgsDecryptKeyFromAuthenticator | kerberos/src/client/tgs_exchange.rs:72-88 | a PA-TGS-REQ entry whose authenticator is sealed under the session key selects that authenticator's subkey, or the session key when it has none |
| TgsExchange.CheckTgsResponse | kerberos/src/client/tgs_exchange.rs:64-100 | without a saved TGS part it is an environment error; it succeeds iff the session key's etype is supported, the decryption key is found and `receive_kdc_rep` accepts the reply under it |
| TgsExchange.ReceiveTgsResponse | kerberos/src/client/tgs_exchange.rs:59-104 | the reply is saved iff every check passed, and nothing is saved otherwise |
| TgsExchange.ApRequestAfterTgsExchange | kerberos/src/client/tgs_exchange.rs:102 | after a TGS reply is saved on its own, the next AP request carries the new ticket, is sealed under the previously saved reply part's session key, and fails when no part was saved |
| AuthService.VerifyMsgType | kerberos/src/authentication_service/mod.rs:70-75 | only message type 14 passes; any other is KRB_AP_ERR_MSG_TYPE |
| AuthService.DefaultErrorBuilder | kerberos/src/authentication_service/mod.rs:89-99 | the error builder holds the server time, microseconds, service name and realm, and no client field yet |
| AuthService.WithClient | kerberos/src/authentication_service/mod.rs:137-141 | recording the authenticator keeps the server fields and adds the client's ctime, cusec, crealm and cname |
| AuthService.ErrorWith | kerberos/src/authentication_service/mod.rs:108-110 | building the error from a prepared builder never panics and gives a KRB_ERROR (pvno 5, type 30) with the code and every recorded field |
| AuthService.ValidTicketTime | kerberos/src/authentication_service/mod.rs:215-234 | the ticket time passes iff it is within the skew of the local time; KRB_AP_ERR_TKT_NYV iff the local time is more than the skew later, KRB_AP_ERR_TKT_EXPIRED iff the ticket time is |
| AuthService.ValidTicketTimeSymmetric | kerberos/src/authentication_service/mod.rs:215-234 | swapping the two times keeps acceptance and swaps the two error codes |
| AuthService.AddressCheckAsWritten | kerberos/src/authentication_service/mod.rs:143-154 | the guard as written panics iff the ticket lists addresses, because `.or` evaluates the unimplemented address search eagerly; otherwise it passes iff empty-address tickets are accepted, else KRB_AP_ERR_BADADDR |
| AuthService.AddressCheckAsWrittenPanicsWithAddresses | kerberos/src/authentication_service/mod.rs:81-83 | a ticket with one address makes the guard as written panic even when empty-address tickets are accepted |
| AuthService.AddressCheck | kerberos/src/authentication_service/mod.rs:143-154 | the corrected guard passes iff empty-address tickets are accepted or the ticket lists the sender's address, else KRB_AP_ERR_BADADDR |
| AuthService.AddressChecksAgreeWithoutAddresses | kerberos/src/authentication_service/mod.rs:143-154 | on a ticket without addresses the guard as written and the corrected guard answer the same |
| AuthService.TicketTime | kerberos/src/authentication_service/mod.rs:156-158 | the ticket time is the start time when present, else the authentication time |
| AuthService.OpenTicket | kerberos/src/authentication_service/mod.rs:121-124 | a ticket part is recovered iff the cipher seals the encoding of some ticket part under the key, and then it is that part |
| AuthService.OpenAuthenticator | kerberos/src/authentication_service/mod.rs:128-135 | an authenticator is recovered iff the cipher seals the encoding of some authenticator under the key, and then it is that authenticator |
| AuthService.CheckKrbApReq | kerberos/src/authentication_service/mod.rs:101-176 | corrected (Findings row 2; the address guard checks the sender's address, an input the source lacks): the guards in order: a success satisfies every acceptance condition; a wrong message type is KRB_AP_ERR_MSG_TYPE, an unknown realm KRB_AP_ERR_BADKEYVER, `CannotDecode` iff the ticket or authenticator does not open; every KRB_ERROR carries the server fields and one of five codes |
| AuthService.AcceptedRequestPasses | kerberos/src/authentication_service/mod.rs:101-176 | corrected (Findings row 2; the address guard checks the sender's address, an input the source lacks): a request meeting every acceptance condition for a sealed ticket and authenticator is accepted with exactly that ticket part and authenticator |
| AuthService.Accepted | kerberos/src/authentication_service/mod.rs:101-176 | corrected (Findings row 2; the address guard checks the sender's address, an input the source lacks): the acceptance conditions: message type 14, a realm key sealing the ticket part, an authenticator sealed under its session key, a passing address guard, no INVALID flag, and a ticket time within the skew |
| AuthService.InvalidTicketRefused | kerberos/src/authentication_service/mod.rs:162-172 | corrected (Findings row 2; the address guard checks the sender's address, an input the source lacks): a ticket flagged INVALID is refused with KRB_AP_ERR_TKT_NYV, carrying the client's fields, whatever its times |
| AuthService.ReplayEntryFor | kerberos/src/authentication_service/mod.rs:178-185 | the replay entry holds the ticket's server name, the ticket part's client name and the authenticator's ctime and cusec |
| AuthService.ApReplyAsWritten | kerberos/src/authentication_service/mod.rs:187-208 | the reply as written is an AP-REP (pvno 5, type 15) with the ticket's etype and kvno whose part is an authenticator echoing ctime and cusec, sealed under the session key |
| AuthService.ApReply | kerberos/src/authentication_service/mod.rs:187-208 | the corrected reply seals an EncAPRepPart echoing ctime and cusec, with no subkey or sequence number, under the session key |
| AuthService.ApReplyAsWrittenUndecodable | kerberos/src/client/ap_exchange.rs:130-138 | under every key the reply as written decrypts to something that does not decode as an EncAPRepPart, so the client's check always fails |
| AuthService.ApReplyEchoesTime | kerberos/src/client/ap_exchange.rs:130-144 | the corrected reply opens under the session key to an EncAPRepPart echoing the authenticator's time |
| AuthService.AuthenticationService.constructor | kerberos/src/authentication_service/mod.rs:18-33 | a built service holds its configuration and an empty replay cache |
| AuthService.AuthenticationService.HandleKrbApReq | kerberos/src/authentication_service/mod.rs:101-212 | corrected (Findings rows 2 and 4): a refused request leaves the replay cache unchanged and returns the guard's error; an accepted one whose replay store fails is an internal error with the cache unchanged; otherwise it appends exactly its replay entry and is answered with the corrected reply |
| AppAuthService.VerifyMsgType | kerberos/src/application_authentication_service/mod.rs:53-58 | only message type 14 passes; any other is KRB_AP_ERR_MSG_TYPE |
| AppAuthService.KeyForDecrypt | kerberos/src/application_authentication_service/mod.rs:100-110 | the decryption key is the service key's value under the ticket's etype, whatever the name, realm and kvno |
| AppAuthService.SearchForAddresses | kerberos/src/application_authentication_service/mod.rs:64-70 | the search holds iff the address storage reports a sender and the ticket lists that sender; a storage error is false |
| AppAuthService.IsUserAuthenticated | kerberos/src/application_authentication_service/mod.rs:71-87 | a user is authenticated iff the storage returns a session whose sequence number is the one given; a missing session or storage error is false |
| AppAuthService.DefaultErrorBuilder | kerberos/src/application_authentication_service/mod.rs:89-98 | the error builder holds the server time, microseconds, service name and realm, and no client field or e-data |
| AppAuthService.WithClient | kerberos/src/application_authentication_service/mod.rs:177-185 | recording the authenticator keeps the server fields and e-data and adds the client's ctime, cusec, crealm and cname |
| AppAuthService.ErrorWith | kerberos/src/application_authentication_service/mod.rs:117-121 | `build_protocol_error(code)` never panics on a prepared builder and gives a KRB_ERROR with the code and every recorded field |
| AppAuthService.TicketTime | kerberos/src/application_authentication_service/mod.rs:210-212 | the ticket time is the start time when present, else the authentication time |
| AppAuthService.AddressCheck | kerberos/src/application_authentication_service/mod.rs:202-208 | the guard passes iff empty-address tickets are accepted, the ticket has no addresses, or the search finds the sender; else KRB_AP_ERR_BADADDR |
| AppAuthService.NotExpiredIffMargin | kerberos/src/application_authentication_service/mod.rs:222-229 | a ticket is not expired iff its end time is more than the skew after now, so it is refused from `skew` seconds before its end time on |
| AppAuthService.NotExpired | kerberos/src/application_authentication_service/mod.rs:222-229 | the expiry guard: the end time is not before now and lies more than the skew after it |
| AppAuthService.DecodeTicketPart | kerberos/src/application_authentication_service/mod.rs:146-149 | decoding a decrypted ticket succeeds iff the octets encode some ticket part, and gives that part |
| AppAuthService.DecodeAuthenticator | kerberos/src/application_authentication_service/mod.rs:162-166 | decoding a decrypted authenticator succeeds iff the octets encode some authenticator, and gives it |
| AppAuthService.CheckAppApReq | kerberos/src/application_authentication_service/mod.rs:112-229 | the guards in order: panics iff the ticket's etype has no cryptosystem; a success meets every acceptance condition; `Internal` iff a decryption fails; every KRB_ERROR carries the server fields, no e-data, client fields exactly for the address and time codes, and one of eight codes |
| AppAuthService.AcceptedRequestPasses | kerberos/src/application_authentication_service/mod.rs:112-229 | a request meeting every acceptance condition for a sealed ticket and authenticator is accepted with exactly those |
| AppAuthService.Accepted | kerberos/src/application_authentication_service/mod.rs:112-229 | the acceptance conditions in guard order: type 14; supported etypes under which the service key and the ticket's session key seal ticket and authenticator; the authenticator names the ticket's client; its time within the skew; the address guard; the ticket time within the skew; no INVALID flag; an end time more than the skew away |
| AppAuthService.WrongServiceKeyIsInternal | kerberos/src/application_authentication_service/mod.rs:136-145 | a ticket sealed under a key other than the service key fails as `Internal`, not as a KRB_ERROR |
| AppAuthService.AsU32 | kerberos/src/application_authentication_service/mod.rs:246 | `num as u32` is the two's-complement reinterpretation: a negative 32-bit value gains 2^32, a non-negative one is kept |
| AppAuthService.RepPart | kerberos/src/application_authentication_service/mod.rs:242-247 | the reply part echoes ctime and cusec, has no subkey, and carries the sequence number cast to unsigned iff the authenticator has one |
| AppAuthService.ApReply | kerberos/src/application_authentication_service/mod.rs:252-291 | the AP-REP has pvno 5, type 15, the ticket's etype and kvno, and decrypts under the session key with the first cryptosystem to the reply part |
| AppAuthService.MissingSequenceError | kerberos/src/application_authentication_service/mod.rs:267-280 | an authenticator without a sequence number is answered by KRB_ERR_GENERIC with the explanatory e-data and the client's fields |
| AppAuthService.ReplayEntryFor | kerberos/src/application_authentication_service/mod.rs:231-237 | the replay entry holds the authenticator's ctime, cusec, cname and crealm |
| AppAuthService.SessionKey | kerberos/src/application_authentication_service/mod.rs:263-265 | sessions are keyed by the client's name and realm |
| AppAuthService.SessionFor | kerberos/src/application_authentication_service/mod.rs:262-281 | the stored session holds the client's name and realm, the ticket's session key and the authenticator's sequence number |
| AppAuthService.ApplicationAuthenticationService.constructor | kerberos/src/application_authentication_service/mod.rs:22-39 | a built service holds its configuration, an empty replay cache and no sessions |
| AppAuthService.ApplicationAuthenticationService.IsAuthenticated | kerberos/src/application_authentication_service/mod.rs:71-87 | the answer is true iff a session is stored for the name and realm with that sequence number |
| AppAuthService.ApplicationAuthenticationService.HandleKrbApReq | kerberos/src/application_authentication_service/mod.rs:112-292 | a refused or panicking request changes nothing; an accepted one stores its replay entry first; without a sequence number it is then refused with no session stored; otherwise its session is stored under the client's name and realm and the reply returned |
| AppAuthService.StoredSessionAuthenticates | kerberos/src/application_authentication_service/mod.rs:71-87 | after a session is stored with sequence number `n`, the client is authenticated for `n` and for no other number |
| TgsService.ErrorFor | kerberos/src/ticket_granting_service/mod.rs:42-51 | an error built on the default builder carries the given code, the server time and microseconds, the service's name and realm, and no client fields |
| TgsService.VerifyPadata | kerberos/src/ticket_granting_service/mod.rs:58-68 | a request is accepted exactly when its first PA-TGS-REQ (type 1) padata decodes as a KRB_AP_REQ, and that request is returned; otherwise KDC_ERR_PADATA_TYPE_NOSUPP |
| TgsService.VerifyPadataFindsClientHeader | kerberos/src/ticket_granting_service/mod.rs:58-68 | the authentication header a client places in the padata is the AP request the service recovers |
| TgsService.OpenTicketPart | kerberos/src/ticket_granting_service/mod.rs:151-161 | a ticket part that opens was sealed under that etype and key as the encoding of that part |
| TgsService.OpenAuthenticator | kerberos/src/ticket_granting_service/mod.rs:165-176 | an authenticator that opens was sealed under that etype and key as the encoding of that authenticator |
| TgsService.BodyChecksum | kerberos/src/ticket_granting_service/mod.rs:74-79 | the digest of the request body's DER encoding under the checksum type; `BodyChecksumInjective`, `ModifiedBodyRefused` and `AuthenticatedPasses` state its law |
| TgsService.BodyChecksumInjective | kerberos/src/ticket_granting_service/mod.rs:74-79 | under one checksum type, two request bodies have the same checksum iff they are equal, so any change to the body changes the checksum |
| TgsService.Authenticate | kerberos/src/ticket_granting_service/mod.rs:127-204 | an accepted request meets every guard (header found, server known, TGT sealed under the server key, authenticator sealed under the TGT session key, supported checksum equal to the body digest); a missing header and an unknown server give their codes; every protocol error comes from the default builder and is one of the seven codes these guards can raise |
| TgsService.AuthenticatedPasses | kerberos/src/ticket_granting_service/mod.rs:127-204 | conversely, every request meeting all guards is accepted with exactly that context |
| TgsService.ModifiedBodyRefused | kerberos/src/ticket_granting_service/mod.rs:193-202 | a request body other than the one the checksum was computed over is refused with KRB_AP_ERR_MODIFIED |
| TgsService.FirstSupported | kerberos/src/ticket_granting_service/mod.rs:208-214 | the chosen etype is one the client requested and the service supports; there is none exactly when no requested etype is supported |
| TgsService.SetIfBits | kerberos/src/ticket_granting_service/mod.rs:233-275 | a conditional flag set raises exactly that bit, when its condition holds, and keeps every other bit |
| TgsService.TicketFlagsMeaning | kerberos/src/ticket_granting_service/mod.rs:233-341 | a flag of the new ticket is set exactly when the option that raises it is requested (FORWARDED also when the TGT is forwarded, INVALID under VALIDATE) |
| TgsService.OptionFlagBytes | kerberos/src/ticket_granting_service/mod.rs:233-259 | the `set` calls before the VALIDATE guard, on four octets: FORWARDABLE, FORWARDED, PROXIABLE and PROXY as requested, FORWARDED also when the TGT is forwarded; the length is kept |
| TgsService.TicketFlagBytes | kerberos/src/ticket_granting_service/mod.rs:223-341 | the new ticket's four flag octets after every `set` call, INVALID under VALIDATE and RENEWABLE as requested; `TicketFlagsMeaning` states each bit |
| TgsService.ForwardedTgtPropagates | kerberos/src/ticket_granting_service/mod.rs:247-249 | a ticket obtained with a forwarded TGT is itself marked FORWARDED |
| TgsService.NoUnrequestedFlags | kerberos/src/ticket_granting_service/mod.rs:233-341 | PROXY, FORWARDABLE, RENEWABLE and INVALID appear on the new ticket only when the request asks for them |
| TgsService.ReplyAddresses | kerberos/src/ticket_granting_service/mod.rs:238-263 | the reply repeats the TGT's addresses exactly when FORWARDED or PROXY is requested and the TGT has addresses |
| TgsService.ValidateGuard | kerberos/src/ticket_granting_service/mod.rs:267-276 | without VALIDATE the guard passes; with it, a missing INVALID option is KDC_ERR_POLICY and a TGT not yet started is KRB_AP_ERR_TKT_NYV, and nothing else is refused |
| TgsService.Min | kerberos/src/ticket_granting_service/mod.rs:295-298 | the minimum is one of the two times and no greater than either |
| TgsService.Elapsed | kerberos/src/ticket_granting_service/mod.rs:294 | the old lifetime is the distance from the start to the end, and zero when the end comes first |
| TgsService.RenewGuardInverted | kerberos/src/ticket_granting_service/mod.rs:290-292 | the RENEW expiry check as written refuses exactly the TGTs the intended check accepts |
| TgsService.RenewExpiredAsWritten | kerberos/src/ticket_granting_service/mod.rs:290-292 | the RENEW guard as written: expired when renew-till, or zero when absent, is at or after now |
| TgsService.RenewExpired | kerberos/src/ticket_granting_service/mod.rs:290-292 | corrected (Findings row 1): expired once renew-till, or zero when absent, is before now |
| TgsService.RenewGuardCounterexample | kerberos/src/ticket_granting_service/mod.rs:290-292 | a TGT renewable for another hour is refused as written and accepted as intended; an expired one is the other way round |
| TgsService.RequestedTill | kerberos/src/ticket_granting_service/mod.rs:302-306 | a zero till means the latest representable time; any other till is kept |
| TgsService.TgsLifetime | kerberos/src/ticket_granting_service/mod.rs:282-353 | corrected (Findings row 1): the lifetime stage panics exactly when RENEWABLE-OK meets a renewable TGT without renew-till; errors arise only under RENEW (BADOPTION for a non-renewable TGT, TKT_EXPIRED past renew-till); the ticket starts now, never outlives the TGT or the requested till without RENEW, never passes renew-till under RENEW, and has a non-zero renew-till exactly when RENEWABLE is requested |
| TgsService.NewTicketWithinTgt | kerberos/src/ticket_granting_service/mod.rs:300-319 | without RENEW the new ticket ends at the earlier of the requested till and the TGT's end |
| TgsService.TgsAuthorizationData | kerberos/src/ticket_granting_service/mod.rs:355-387 | without encrypted authorization data there is none; it panics exactly when the authenticator lacks a subkey or authorization data; what is returned is the authenticator's entries followed by those sealed under the subkey; the protocol errors are ETYPE_NOSUPP and MODIFIED |
| TgsService.ReplyEncPartAsWritten | kerberos/src/ticket_granting_service/mod.rs:460-484 | as written, the reply part is sealed under the subkey when there is one and otherwise under the newly generated session key |
| TgsService.ReplyEncPart | kerberos/src/ticket_granting_service/mod.rs:460-484 | the reply part opens to its encoding under the subkey when there is one and otherwise under the TGT's session key, the keys the client holds |
| TgsService.ReplyKeyCounterexample | kerberos/src/ticket_granting_service/mod.rs:477-484 | without a subkey the reply as written does not open under the TGT's session key, the only key the client holds; the corrected reply does |
| TgsService.ReplyKeysAgreeWithSubkey | kerberos/src/ticket_granting_service/mod.rs:470-476 | with a subkey the written and the corrected reply are the same |
| TgsService.NewTicketPart | kerberos/src/ticket_granting_service/mod.rs:389-400 | the new ticket part carries the computed flags, the new session key, the TGT's realm, transited path, authtime and addresses, the authenticator's client, and the computed times and authorization data |
| TgsService.NewReplyPart | kerberos/src/ticket_granting_service/mod.rs:427-458 | the reply part repeats the ticket's key, flags and end time, the request's nonce and server, the TGT's authtime and starttime, the last-request entries for the client (none when unknown), and a renew-till only on a renewable ticket |
| TgsService.AssembleReply | kerberos/src/ticket_granting_service/mod.rs:400-492 | corrected (Findings row 5): the reply is a TGS-REP (type 13) without padata for the TGT's client, with a ticket for the requested server in the TGT's realm |
| TgsService.OpenRepPart | kerberos/src/ticket_granting_service/mod.rs:460-484 | a reply part that opens was sealed under that etype and key as the encoding of that part |
| TgsService.TgsReplyConsistent | kerberos/src/ticket_granting_service/mod.rs:114-493 | corrected (Findings row 5): every reply for an accepted request has a ticket that opens under the server's key and a reply part that opens under the subkey or the TGT's session key; both carry the fresh session key, the same flags and end time; the reply echoes the nonce, the ticket names the authenticated client and starts now |
| TgsService.SelectEtype | kerberos/src/ticket_granting_service/mod.rs:208-214 | the scan returns the first requested etype the service supports |
| TgsService.ComputeLifetime | kerberos/src/ticket_granting_service/mod.rs:282-353 | corrected (Findings row 1): the lifetime stage with its mutable rtime computes exactly TgsLifetime |
| TgsService.HandleTgsReq | kerberos/src/ticket_granting_service/mod.rs:114-493 | corrected (Findings rows 1 and 5): the handler, with a flags builder and local address variables, returns exactly the reply TgsReply defines |
| TgsService.TgsReply | kerberos/src/ticket_granting_service/mod.rs:114-493 | corrected (Findings rows 1 and 5): the handler's guards in source order and the reply they lead to; `TgsReplyConsistent` proves what a reply carries |
| TgsService.SetOptionFlags | kerberos/src/ticket_granting_service/mod.rs:218-263 | the flag-setting stage leaves exactly the option flags on the builder and the addresses the reply repeats |
| TgsService.Assemble | kerberos/src/ticket_granting_service/mod.rs:389-492 | corrected (Findings row 5): building and sealing the ticket and the reply part gives exactly AssembleReply |
| TtlLru.Find | kerberos_infra/src/server/infra/cache/mod.rs:59 | the lookup finds an entry of the key, and finds none exactly when no entry has that key |
| TtlLru.RemoveKey | kerberos_infra/src/server/infra/cache/mod.rs:64 | popping a key never adds entries |
| TtlLru.RemoveKeyFind | kerberos_infra/src/server/infra/cache/mod.rs:64 | popping a key loses that key and keeps every other key's entry |
| TtlLru.RemoveKeyDistinct | kerberos_infra/src/server/infra/cache/mod.rs:64 | popping keeps keys distinct and removes exactly one entry when the key was present, none otherwise |
| TtlLru.RemoveKeyLengthAbsent | kerberos_infra/src/server/infra/cache/mod.rs:64 | popping an absent key changes nothing |
| TtlLru.FindAppend | kerberos_infra/src/server/infra/cache/mod.rs:76 | after an entry is put at the most-recent end, a key's entry is its old one, or the new entry if the key was absent |
| TtlLru.DistinctAppend | kerberos_infra/src/server/infra/cache/mod.rs:76 | putting an entry for an absent key keeps keys distinct |
| TtlLru.DistinctTail | kerberos_infra/src/server/infra/cache/mod.rs:75 | evicting the least recently used entry keeps keys distinct |
| TtlLru.Age | kerberos_infra/src/server/infra/cache/mod.rs:61 | the elapsed time added to the stamp is the current instant |
| TtlLru.CachePutValid | kerberos_infra/src/server/infra/cache/mod.rs:72-82 | a put keeps the cache within its capacity with distinct keys |
| TtlLru.CacheGetValid | kerberos_infra/src/server/infra/cache/mod.rs:57-70 | a get keeps the cache within its capacity with distinct keys |
| TtlLru.CacheGet | kerberos_infra/src/server/infra/cache/mod.rs:57-70 | a missing key is `MissingKey` and changes nothing; a present one moves to the most-recent end and is returned while younger than the ttl, else is popped as `ValueExpired`; `PutThenGet` and the expiry lemmas are its laws |
| TtlLru.CachePut | kerberos_infra/src/server/infra/cache/mod.rs:72-82 | a full cache pops its least recently used entry, then the new entry stamped now replaces the key's at the most-recent end; `CachePutValid` and `FullPutEvictsLru` are its laws |
| TtlLru.PutThenGet | kerberos_infra/src/server/infra/cache/mod.rs:57-104 | a value put is returned by a get of its key while younger than the ttl |
| TtlLru.PutStampsNow | kerberos_infra/src/server/infra/cache/mod.rs:76-79 | a put stores the value stamped with the instant of the call |
| TtlLru.ExpiredGetRemoves | kerberos_infra/src/server/infra/cache/mod.rs:60-116 | a get of an entry at least ttl old is ValueExpired and pops it, so the next get is MissingKey |
| TtlLru.AbsentGetMissing | kerberos_infra/src/server/infra/cache/mod.rs:68 | a get of an absent key is MissingKey and leaves the cache unchanged |
| TtlLru.FullPutEvictsLru | kerberos_infra/src/server/infra/cache/mod.rs:74-127 | a put into a full cache evicts the least recently used entry (unless that is the key put), leaving capacity entries, or one fewer when the key was present elsewhere |
| TtlLru.PutKeepsOthers | kerberos_infra/src/server/infra/cache/mod.rs:72-82 | a put leaves every other key's entry as it was, except the evicted one |
| ServerCache.Cache.From | kerberos_infra/src/server/infra/cache/mod.rs:38-49 | a new cache is empty with the settings' capacity and ttl |
| ServerCache.Cache.Get | kerberos_infra/src/server/infra/cache/mod.rs:57-70 | a get returns and leaves what the recency-ordered cache model prescribes, keeping the cache valid |
| ServerCache.Cache.Put | kerberos_infra/src/server/infra/cache/mod.rs:72-82 | a put always succeeds and leaves what the model prescribes, keeping the cache valid |
| InfraCache.Cache.New | kerberos-infra/src/cache/mod.rs:16-26 | a new cache is empty with the given capacity and ttl |
| InfraCache.Cache.Get | kerberos-infra/src/cache/mod.rs:32-45 | a get returns and leaves what the recency-ordered cache model prescribes, keeping the cache valid |
| InfraCache.Cache.Put | kerberos-infra/src/cache/mod.rs:47-57 | a put always succeeds and leaves what the model prescribes, keeping the cache valid |
| Database.Lookup | kerberos/src/database/mod.rs:20-23 | a key reads as its stored value, and as nothing exactly when absent |
| Database.Database.New | kerberos/src/database/mod.rs:9-13 | a new database is empty |
| Database.Database.Insert | kerberos/src/database/mod.rs:15-18 | inserting stores the pair, replacing any earlier value of the key |
| Database.Database.Get | kerberos/src/database/mod.rs:20-23 | get answers the stored value of the key, if any |
| Database.Database.Delete | kerberos/src/database/mod.rs:25-28 | delete removes the key and nothing else |
| Database.Database.ContainsKey | kerberos/src/database/mod.rs:30-33 | a key is contained exactly when get finds a value for it |
| Database.InsertThenGet | kerberos/src/database/mod.rs:15-23 | after insert the key reads as the new value, and every other key as before |
| Database.DeleteThenGet | kerberos/src/database/mod.rs:20-28 | after delete the key is absent, and every other key reads as before |
| TagLength.ParseHeader | kerberos_infra/src/server/infra/host/utils.rs:47-64 | a header is read exactly when the input holds the two octets and, in long form, the length octets the low seven bits count; short form gives the second octet as length over two header octets |
| TagLength.BigEndianOctetsValue | kerberos_infra/src/server/infra/host/utils.rs:57 | the big-endian fold of a number's minimal octets gives the number back |
| TagLength.BigEndianOctetsCount | kerberos_infra/src/server/infra/host/utils.rs:54-57 | a length under 2^32 takes at most four length octets |
| TagLength.HeaderOfEncodedLength | kerberos_infra/src/server/infra/host/utils.rs:47-64 | reading the header of an identifier octet, definite-form length octets and any content gives back exactly that length and those header octets |
| TagLength.IndefiniteLengthIsZero | kerberos_infra/src/server/infra/host/utils.rs:53-58 | the indefinite-form octet 0x80 reads no length octets and gives length zero |
| TagLength.Zeros | kerberos_infra/src/server/infra/host/utils.rs:63 | the message buffer is that many zero octets |
| TagLength.FoldLength | kerberos_infra/src/server/infra/host/utils.rs:57 | the fold over the length octets computes their big-endian value |
| TagLength.BigEndian | kerberos_infra/src/server/infra/host/utils.rs:57 | the fold `acc * 256 + x` over the length octets; `BigEndianOctetsValue` inverts it |
| TagLength.LengthOctets | kerberos_infra/src/server/infra/host/utils.rs:53-58 | the definite-form length octets the reader expects: one octet exactly below 128, at most five in all |
| HostUtils.ExtractBytesOrDelegateToRouter | kerberos_infra/src/server/infra/host/utils.rs:26-36 | bytes pass unchanged, an actionable error becomes its reply, any other error goes on unchanged, so no actionable error is left |
| HostUtils.ExtractIdempotent | kerberos_infra/src/server/infra/host/utils.rs:26-36 | routing a result twice is routing it once |
| HostUtils.ReadHeader | kerberos_infra/src/server/infra/host/utils.rs:47-64 | on a connection, the reader fails exactly when the stream ends inside the header, with UnexpectedEof; otherwise it returns a zero buffer of the content length |
| HostUtils.TagLengthStreamReader.From | kerberos_infra/src/server/infra/host/utils.rs:78-85 | a new reader has read nothing from its connection |
| HostUtils.TagLengthStreamReader.ReadNext | kerberos_infra/src/server/infra/host/utils.rs:66-71 | reading n octets succeeds exactly when that many remain, appends them to the record and consumes them; otherwise UnexpectedEof and the record is unchanged |
| HostUtils.TagLengthStreamReader.TryInto | kerberos_infra/src/server/infra/host/utils.rs:47-64 | the stepwise reader returns exactly the header read the connection determines, with the header octets recorded |
| ClientStreamReader.ReadHeader | kerberos-infra/src/client/utils.rs:14-31 | on a connection, the client reader fails exactly when the stream ends inside the header; otherwise it returns a zero buffer of the content length |
| ClientStreamReader.TagLengthStreamReader.From | kerberos-infra/src/client/utils.rs:45-55 | a new reader has read nothing from its connection |
| ClientStreamReader.TagLengthStreamReader.ReadAndRecordNext | kerberos-infra/src/client/utils.rs:33-38 | reading n octets succeeds exactly when that many remain, appends them to the record and consumes them; otherwise the stream has ended and the record is unchanged |
| ClientStreamReader.TagLengthStreamReader.TryInto | kerberos-infra/src/client/utils.rs:14-31 | the stepwise reader returns exactly the header read the connection determines, with the header octets recorded |
| ServerUtils.Ascii | kerberos-infra/src/server/errors.rs:16 | a message's reply holds one octet per character, the character's code |
| ServerUtils.FromMessage | kerberos-infra/src/server/errors.rs:13-19 | a message becomes an actionable error whose reply is the message's octets |
| ServerUtils.EntryMessagesDistinct | kerberos-infra/src/server/tcp/builder.rs:31-34 | the three missing-entry errors a server builder raises are three different replies |
| ServerUtils.ExtractBytesOrDelegateToRouter | kerberos-infra/src/server/utils.rs:23-33 | bytes pass unchanged, an actionable error becomes its reply, any other error goes on unchanged, so no actionable error is left |
| ServerUtils.ExtractIdempotent | kerberos-infra/src/server/utils.rs:23-33 | routing a result twice is routing it once |
| SocketAddrs.SplitDots | kerberos-infra/src/server/tcp/builder.rs:36-37 | a host splits into at least one dot-separated piece |
| SocketAddrs.ParseOctet | kerberos-infra/src/server/tcp/builder.rs:36-37 | an accepted piece is one to three digits without a leading zero, and its value is below 256 |
| SocketAddrs.ParseIpv4 | kerberos-infra/src/server/tcp/builder.rs:36-37 | a host parses exactly when it has four pieces that are all octets, giving four values below 256 |
| SocketAddrs.ParseSocketAddr | kerberos-infra/src/server/tcp/builder.rs:36-37 | host:port parses exactly when the host does, and keeps the port and the host's octets |
| SocketAddrs.Digit | kerberos-infra/src/server/tcp/builder.rs:36 | a digit below ten is a decimal digit character of that value |
| SocketAddrs.ParseFormatOctet | kerberos-infra/src/server/tcp/builder.rs:36-37 | a formatted octet holds no dot and parses back to itself |
| SocketAddrs.SplitNoDot | kerberos-infra/src/server/tcp/builder.rs:36-37 | a piece without a dot is a single piece |
| SocketAddrs.SplitAfterPiece | kerberos-infra/src/server/tcp/builder.rs:36-37 | a dot after a dot-free prefix ends the first piece |
| SocketAddrs.ParseFormatIpv4 | kerberos-infra/src/server/tcp/builder.rs:36-37 | every dotted-decimal address parses back to the same four octets |
| SocketAddrs.FormatIpv4 | kerberos-infra/src/server/tcp/builder.rs:36-37 | the dotted-decimal text of four octets, the form the builders' URL takes; `ParseFormatIpv4` parses it back |
| SocketAddrs.HostNameRefused | kerberos-infra/src/server/tcp/builder.rs:36-37 | a host name such as localhost is not an address |
| Protocols.AsStr | kerberos_infra/src/server/config/protocol.rs:9-16 | UDP is named "udp" and TCP "tcp" |
| Protocols.Parse | kerberos_infra/src/server/config/protocol.rs:18-30 | exactly "udp" and "tcp" are protocols, each the one it names; anything else is refused with a message naming the value |
| Protocols.ParseAsStr | kerberos_infra/src/server/config/protocol.rs:9-30 | every protocol's name reads back as that protocol |
| Protocols.AsStrParse | kerberos_infra/src/server/config/protocol.rs:9-30 | every accepted name is the name of the protocol it reads as |
| Protocols.UpperCaseRefused | kerberos_infra/src/server/config/protocol.rs:24-27 | names are case-sensitive: "UDP", "TCP" and "Tcp" are refused |
| InfraHostBuilder.New | kerberos_infra/src/server/infra/host/builder.rs:63-72 | a new builder has the settings' host and ports and no receivers |
| InfraHostBuilder.SetAsReceiver | kerberos_infra/src/server/infra/host/builder.rs:74-77 | setting the AS receiver changes nothing else |
| InfraHostBuilder.SetTgsReceiver | kerberos_infra/src/server/infra/host/builder.rs:79-82 | setting the TGS receiver changes nothing else |
| InfraHostBuilder.Validate | kerberos_infra/src/server/infra/host/builder.rs:84-106 | MissingReceiver exactly when a receiver is missing; InvalidPort exactly when both are set and a port is 0 or the two are equal; InvalidUrl exactly when those pass and the host does not parse; otherwise the AS and TGS entry points on their own ports with their own receivers |
| InfraHostBuilder.Boxed | kerberos_infra/src/server/infra/host/builder.rs:123-137 | a TCP or UDP host is built exactly when validation succeeds, on the validated entry points; otherwise validation's error |
| InfraHostBuilder.BuiltHostUsesSettings | kerberos_infra/src/server/infra/host/builder.rs:63-137 | settings with a parsable host and usable ports, and both receivers, give a host listening on the configured ports, whichever receiver is set first |
| InfraHostBuilder.MissingReceiverRefused | kerberos_infra/src/server/infra/host/builder.rs:84-106 | a builder missing either receiver never builds |
| InfraHostBuilder.LocalSettingsBuild | kerberos_infra/src/server/infra/host/builder.rs:109-121 | the local test settings (127.0.0.1, AS 88, TGS 89) build a host |
| ServerHostBuilder.New | kerberos-infra/src/server/infra/host/builder.rs:11-20 | a new builder has the settings' host and ports and no receivers |
| ServerHostBuilder.AsReceiver | kerberos-infra/src/server/infra/host/builder.rs:22-25 | setting the AS receiver changes nothing else |
| ServerHostBuilder.TgsReceiver | kerberos-infra/src/server/infra/host/builder.rs:27-30 | setting the TGS receiver changes nothing else |
| ServerHostBuilder.Validate | kerberos-infra/src/server/infra/host/builder.rs:32-49 | each combination of missing receivers gives its own message; with both, an unparsable host aborts with the address error, and otherwise the entry points use the configured ports and their own receivers |
| ServerHostBuilder.Build | kerberos-infra/src/server/infra/host/builder.rs:74-91 | a TCP or UDP host is built exactly when validation succeeds, on the validated entry points |
| ServerHostBuilder.PortsNotChecked | kerberos-infra/src/server/infra/host/builder.rs:32-49 | no port is refused: with both receivers and a parsable host even port 0, or one port for both services, builds on exactly the ports given |
| ServerBuilders.New | kerberos-infra/src/server/tcp/builder.rs:11-18 | a new TCP or UDP server builder has its url and no entries |
| ServerBuilders.AsEntry | kerberos-infra/src/server/tcp/builder.rs:20-23 | setting the AS entry changes nothing else |
| ServerBuilders.TgtEntry | kerberos-infra/src/server/tcp/builder.rs:25-28 | setting the TGS entry changes nothing else |
| ServerBuilders.Build | kerberos-infra/src/server/tcp/builder.rs:30-47 | each combination of missing entries gives its own message; with both, an unparsable url aborts with the address error, and otherwise the server keeps its transport, listens on the entries' ports and hands them their receivers |
| ServerBuilders.BuiltServerUsesEntries | kerberos-infra/src/server/udp/builder.rs:30-47 | for either transport, a server built with both entries on a parsable url listens on the given ports with the given receivers |
| ServerBuilders.MissingAsEntryFails | kerberos-infra/src/server/tcp/builder.rs:33 | a builder given only its TGS entry fails with the missing-AS message |
| SrvCacheErrors.FromCacheErr | kerberos_app_srv/src/utils.rs:18-26 | a missing key stays a missing key, an expired value becomes Expired, and only a full cache is Internal |
| AuthCache.Contains | kerberos_app_srv/src/auth_cache/auth_cache.rs:21-27 | a user is authenticated with a sequence number exactly when that user is stored with that number |
| AuthCache.ApplicationAuthenticationCache.New | kerberos_app_srv/src/auth_cache/auth_cache.rs:10-14 | a new cache is empty |
| AuthCache.ApplicationAuthenticationCache.Store | kerberos_app_srv/src/auth_cache/auth_cache.rs:16-19 | storing records the user's number, replacing an earlier one |
| AuthCache.ApplicationAuthenticationCache.ContainsEntry | kerberos_app_srv/src/auth_cache/auth_cache.rs:21-27 | contains answers whether the user is stored with that number |
| AuthCache.StoreThenContains | kerberos_app_srv/src/auth_cache/auth_cache.rs:16-27 | after a store the user is contained with that number and no other, and other users read as before |
| AuthCache.NeverStoredNotContained | kerberos_app_srv/src/auth_cache/auth_cache.rs:21-27 | a user never stored is not authenticated with any number |
| MapReplayCache.KeyOf | kerberos_app_srv/src/replay_cache/replay_cache.rs:26-31 | an entry's key is an encoding that decodes back to the entry |
| MapReplayCache.AppServerReplayCache.New | kerberos_app_srv/src/replay_cache/replay_cache.rs:13-19 | a new replay cache is empty |
| MapReplayCache.AppServerReplayCache.Store | kerberos_app_srv/src/replay_cache/replay_cache.rs:25-28 | storing marks the entry's encoding as seen and always succeeds |
| MapReplayCache.AppServerReplayCache.Contain | kerberos_app_srv/src/replay_cache/replay_cache.rs:30-33 | contain answers whether the entry's encoding was seen, and always succeeds |
| MapReplayCache.ContainedIffStored | kerberos_app_srv/src/replay_cache/replay_cache.rs:25-33 | from an empty cache, an entry is contained exactly when it was one of those stored |
| MapReplayCache.StoreAllKeys | kerberos_app_srv/src/replay_cache/replay_cache.rs:25-33 | after a series of stores an entry is contained exactly when it was before or was stored |
| MapReplayCache.StoreIdempotent | kerberos_app_srv/src/replay_cache/replay_cache.rs:25-28 | storing an entry twice is storing it once, and it is then contained |
| MapReplayCache.StoreAll | kerberos_app_srv/src/replay_cache/replay_cache.rs:25-28 | the map after storing each entry in order; `StoreAllKeys` states which entries it contains |
| MapClientAddressStorage.SenderOf | kerberos_app_srv/src/client_address_storage/mod.rs:30-34 | the sender of a stored request is its stored address; any other request panics |
| MapClientAddressStorage.AppServerClientStorage.New | kerberos_app_srv/src/client_address_storage/mod.rs:14-18 | a new storage is empty |
| MapClientAddressStorage.AppServerClientStorage.Store | kerberos_app_srv/src/client_address_storage/mod.rs:20-25 | storing records the address under the request's encoding, replacing an earlier one |
| MapClientAddressStorage.AppServerClientStorage.GetSenderOfPacket | kerberos_app_srv/src/client_address_storage/mod.rs:30-34 | the lookup returns the stored sender, or panics for a request never stored |
| MapClientAddressStorage.StoreThenGet | kerberos_app_srv/src/client_address_storage/mod.rs:20-34 | after a store the request's sender is the stored address, and every other request's sender is as before |
| MapClientAddressStorage.UnknownRequestPanics | kerberos_app_srv/src/client_address_storage/mod.rs:32 | the sender of a request never stored is a panic |
| MapSessionStorage.MapDerToString | kerberos_app_srv/src/session_storage/session_storage.rs:66-72 | the conversion returns the octets exactly when they are well-formed UTF-8, and panics otherwise |
| MapSessionStorage.AsciiThenContinuation | kerberos_app_srv/src/session_storage/session_storage.rs:69 | ASCII octets followed by a continuation octet are not UTF-8, whatever follows |
| MapSessionStorage.LengthLeadOctet | kerberos_app_srv/src/session_storage/session_storage.rs:67 | a short-form DER length is one ASCII octet; a long-form one starts with a continuation octet |
| MapSessionStorage.SessionKeyNeverUtf8 | kerberos_app_srv/src/session_storage/session_storage.rs:40-72 | the encoding of every session request is not UTF-8, so the key conversion panics on every get and store |
| MapSessionStorage.SessionKey | kerberos_app_srv/src/session_storage/session_storage.rs:40-43 | a client's session key is an encoding that decodes back to its name and realm |
| MapSessionStorage.SessionOf | kerberos_app_srv/src/session_storage/session_storage.rs:33-54 | a session is found exactly when its client's key is stored, and carries that client and the stored key and sequence number |
| MapSessionStorage.ApplicationSessionStorage.New | kerberos_app_srv/src/session_storage/session_storage.rs:22-28 | a new storage is empty |
| MapSessionStorage.ApplicationSessionStorage.GetSession | kerberos_app_srv/src/session_storage/session_storage.rs:33-54 | corrected (Findings row 3): get answers the stored session of the client, never failing |
| MapSessionStorage.ApplicationSessionStorage.StoreSession | kerberos_app_srv/src/session_storage/session_storage.rs:55-63 | corrected (Findings row 3): store records the session key and sequence number under the client's key, never failing |
| MapSessionStorage.StoreThenGet | kerberos_app_srv/src/session_storage/session_storage.rs:33-63 | after a store the client's session is the one stored, replacing any earlier one, and every other client's is as before |
| MapSessionStorage.NeverStoredNone | kerberos_app_srv/src/session_storage/session_storage.rs:45-53 | a client with no stored session has none |
| CachedSessionStorage.SessionLookup | kerberos_app_srv/src/session_storage.rs:35-58 | a session is found exactly when the cache returns its client's entry within the ttl, and names that client; an expired or missing one is none |
| CachedSessionStorage.ApplicationSessionStorage.New | kerberos_app_srv/src/session_storage.rs:22-29 | a new storage is an empty cache of capacity 100 and ttl 3600 seconds |
| CachedSessionStorage.ApplicationSessionStorage.GetSession | kerberos_app_srv/src/session_storage.rs:35-58 | get answers and leaves what the cached lookup prescribes, never an error |
| CachedSessionStorage.ApplicationSessionStorage.StoreSession | kerberos_app_srv/src/session_storage.rs:60-73 | store puts the key and sequence number under the client's encoding, always succeeding |
| CachedSessionStorage.StoreThenGetWithinTtl | kerberos_app_srv/src/session_storage.rs:35-73 | a session stored is found, with its key and number, until the ttl has passed |
| CachedSessionStorage.ExpiredSessionNone | kerberos_app_srv/src/session_storage.rs:47-56 | a session looked up after the ttl is not found, and is removed |
| CachedReplayCache.ReplayContain | kerberos_app_srv/src/replay_cache.rs:32-43 | contain is true exactly when the cache returns the entry within the ttl, otherwise the converted cache error; it is never false |
| CachedReplayCache.AppServerReplayCache.New | kerberos_app_srv/src/replay_cache.rs:11-18 | a new replay cache is an empty cache of capacity 100 and ttl 3600 seconds |
| CachedReplayCache.AppServerReplayCache.Store | kerberos_app_srv/src/replay_cache.rs:24-30 | store puts the entry's encoding, always succeeding |
| CachedReplayCache.AppServerReplayCache.Contain | kerberos_app_srv/src/replay_cache.rs:32-43 | contain answers and leaves what the cached lookup prescribes |
| CachedReplayCache.StoreThenContainWithinTtl | kerberos_app_srv/src/replay_cache.rs:24-43 | a stored entry is contained until the ttl has passed |
| CachedReplayCache.UnknownEntryIsError | kerberos_app_srv/src/replay_cache.rs:40 | an entry never stored is the error MissingKey, not false |
| CachedReplayCache.ExpiredEntryIsError | kerberos_app_srv/src/replay_cache.rs:40 | an entry asked for after the ttl is the error Expired |
| CachedClientAddressStorage.SenderLookup | kerberos_app_srv/src/client_address_storage.rs:38-44 | the sender is found exactly when the cache returns it within the ttl, otherwise the converted cache error |
| CachedClientAddressStorage.AppServerClientStorage.New | kerberos_app_srv/src/client_address_storage.rs:11-17 | a new storage is an empty cache of capacity 100 and ttl 3600 seconds |
| CachedClientAddressStorage.AppServerClientStorage.Store | kerberos_app_srv/src/client_address_storage.rs:19-31 | store puts the address under the request's encoding, always succeeding |
| CachedClientAddressStorage.AppServerClientStorage.GetSenderOfPacket | kerberos_app_srv/src/client_address_storage.rs:38-44 | the lookup answers and leaves what the cached lookup prescribes |
| CachedClientAddressStorage.StoreThenGetWithinTtl | kerberos_app_srv/src/client_address_storage.rs:19-44 | a stored address is the request's sender until the ttl has passed |
| CachedClientAddressStorage.UnknownRequestMissing | kerberos_app_srv/src/client_address_storage.rs:41 | a request never stored is the error MissingKey |
| CachedClientAddressStorage.ExpiredRequestIsError | kerberos_app_srv/src/client_address_storage.rs:41 | a request looked up after the ttl is the error Expired |

## Left out

- The C# application server: every one of its methods throws `NotImplementedException`, so there is nothing to model.
- Network I/O: TCP and UDP hosts, routers, entries, clients and transports, the `tokio` loops, and a built server's shutdown channel. The model keeps what they compute, not how they move bytes.
- `handle_result_at_router` in both utils files (kerberos_infra/src/server/infra/host/utils.rs:7-24, kerberos-infra/src/server/utils.rs:5-21): it only logs.
- Concurrency: mutexes, `RwLock`s and `async`. Calls are sequential, so `lock().unwrap()` and `try_lock().unwrap()` never panic.
- Cryptography (kerberos/src/algo.rs): AES-GCM and SHA-1 are symbolic.
  - A decryption fails exactly when the key differs from the sealing key.
  - The failure of an encryption, and the `unwrap`s on its result, are not modelled.
- DER encoding by the `der` crate: symbolic, and it never fails. So none of these is ever produced:
  - the `Internal` error of a failed `to_der` in the application server's stores;
  - `AppServerReplayCacheError`;
  - `ApplicationSessionStorageError`.
- kerberos/src/client/as_exchange.rs:97-99: `receive_krb_error` is `todo!()`, so the handling of a KRB_ERROR reply is not modelled.
- The application service's `map_err(|_| panic!("cc"))` calls (kerberos/src/application_authentication_service/mod.rs:240-284): none of them is reached, because the modelled stores never fail after the replay entry is stored.
- The commented-out replay check (kerberos/src/application_authentication_service/mod.rs:187-200): a replayed KRB_AP_REQ is not refused, and no property claims it is.
- Eagerly built errors: the eager `ok_or(build_protocol_error(..))` arguments also write the error code into the shared error builder. No later error observes this, so it is not modelled.
- `TgsService.TgsLifetime`: `kdc_time + old_life` is unbounded, so a sum past the latest representable time is not modelled. It uses the corrected renew guard `TgsService.RenewExpired` (Findings row 1): TKT_EXPIRED only once renew-till has passed.
- `TgsService.Elapsed`: the source subtracts two KerberosTime values at kerberos/src/ticket_granting_service/mod.rs:294, but that subtraction's definition is not part of this model. It is modelled as a saturating difference, zero when the end comes first.
- `KrbSafeSpec.Build`: the source's `Err(&format!(..))` at messages/src/krb_safe_spec/mod.rs:161-175 returns a reference to a temporary string, which the Rust compiler would reject. The model returns the message text it evidently means.
- `TgsService.TgsReply`: the `expect` on an empty list of cryptosystems is never reached. A request passes the guards only after one of the service's cryptosystems matched.
- `AuthService.AuthenticationService.HandleKrbApReq`: models the corrected service (Findings rows 2 and 4), and takes as input the sender's address, which the source never has. As written, any request whose ticket lists an address panics (`AuthService.AddressCheckAsWrittenPanicsWithAddresses`), and an accepted request's reply cannot be opened by the client as an EncAPRepPart (`AuthService.ApReplyAsWrittenUndecodable`).
- `TgsService.HandleTgsReq` and `TgsService.TgsReply`: model the corrected service (Findings rows 1 and 5). As written, a RENEW of a TGT that is still renewable is refused as KRB_AP_ERR_TKT_EXPIRED (`TgsService.RenewGuardCounterexample`). A reply to a request without a subkey is sealed under the fresh session key, which the client does not hold (`TgsService.ReplyKeyCounterexample`).
- `MapSessionStorage.ApplicationSessionStorage.GetSession` and `StoreSession`: model the corrected storage (Findings row 3). As written, every call panics (`MapSessionStorage.SessionKeyNeverUtf8`).
- `ClientEnviron.ClientEnv.SaveAsReply`, `SaveTgsReply`, `SaveTgsReplyWithPart`, `SaveSubkey` and `SaveSeqNumber` always succeed. The trait's `save_*` methods return a `Result`, so a failing environment is not modelled here. `ApExchange.ReceiveApReply` is the exception: it takes its two saves' failures as inputs.
- `ClientEnviron.GetCrypto`, `GetChecksumHash` and `GetClientKey` fail only on an unsupported type. The other getters (names, realms, KDC options, etypes and the clock) are fields of `ClientSettings` or inputs, and never fail, so no exchange reports a `ClientEnvError` raised by them.
- `HostUtils.ReadHeader` and `ClientStreamReader.ReadHeader`: lengths are unbounded naturals.
  - The `usize` overflow of the fold over more than eight length octets is not modelled.
  - Neither is the failure to allocate a huge buffer.
- `SocketAddrs.ParseSocketAddr`: only dotted-decimal IPv4 hosts parse. IPv6 literals and host names are treated as addresses that do not parse.
- kerberos-infra/src/server/infra/host/error.rs is not part of this model. The older host builder's errors are modelled on `KrbInfraError` of kerberos-infra/src/server/errors.rs.
- `KrbInfraCltErr`, the error type of the client stream reader, is not part of this model. A read past the end of the stream is its single error `StreamEnded`.
- Source version mismatches:
  - kerberos/src/client/tgs_exchange.rs:35 calls `prepare_ap_request` with two arguments, and line 102 calls `save_tgs_reply` with one. The model reads them as "no checksum material" and "save the reply only; the saved decrypted part stays as it was" (`ClientEnviron.ClientEnv.SaveTgsReply`). So after a TGS exchange the next `prepare_ap_request` carries the new ticket but is sealed under the session key of the previously saved reply part, and fails when none was saved, not under the new ticket's session key (`TgsExchange.ApRequestAfterTgsExchange`).
  - The client's `ClientError` lacks some variants the client code uses. They are added.
  - `UserSessionEntry` lacks the `sequence_number` field the stores read and write. It is added.
  - The map-backed address storage returns a bare `HostAddress` (kerberos_app_srv/src/client_address_storage/mod.rs:30), while the application service matches on a `Result` (kerberos/src/application_authentication_service/mod.rs:65). The model keeps each as written: the map storage panics on an unknown request, and the service takes a result.
- Unwired and thin code: the older message files that messages/src/lib.rs does not declare are left out. So are the configuration loading, the database adapters, the HTTP handlers, the client UI and the test doubles.
- Getters are the datatypes' destructors, with nothing to prove on their own.

## Findings

| source | as written | input that shows it | evidently intended | confidence | as-written member | corrected member |
|---|---|---|---|---|---|---|
| kerberos/src/ticket_granting_service/mod.rs:290-292 | a RENEW request is refused as KRB_AP_ERR_TKT_EXPIRED when `renew_till >= kdc_time`, that is, while the TGT is still renewable | a renewable TGT with renew-till 7200 renewed at time 3600 is refused, and one with renew-till 0 is accepted (`TgsService.RenewGuardCounterexample`) | refuse only once the renew-till time has passed (section 3.3.3.1 of RFC 4120) | not executed | TgsService.RenewExpiredAsWritten | TgsService.RenewExpired |
| kerberos/src/authentication_service/mod.rs:143-154 | the argument of `.or(..)` is evaluated eagerly and calls `search_for_addresses`, which is `unimplemented!()` (lines 81-83), whenever the ticket lists addresses | any ticket with one address panics the service, even when empty-address tickets are accepted (`AuthService.AddressCheckAsWrittenPanicsWithAddresses`) | pass when empty-address tickets are accepted or the ticket lists the sender's address, else KRB_AP_ERR_BADADDR | not executed | AuthService.AddressCheckAsWritten | AuthService.AddressCheck |
| kerberos_app_srv/src/session_storage/session_storage.rs:66-72 | the session key is the DER encoding converted by `String::from_utf8(..).unwrap()` | every session request: its encoding starts 0x30, a length, 0x30, a length, 0xA0, and 0xA0 cannot start a UTF-8 character, so every `get_session` and `store_session` panics (`MapSessionStorage.SessionKeyNeverUtf8`) | key the map by the encoded octets, as the cache-backed storage in kerberos_app_srv/src/session_storage.rs does | not executed | MapSessionStorage.MapDerToString | MapSessionStorage.StoreThenGet |
| kerberos/src/authentication_service/mod.rs:187-208 | the KRB_AP_REP's encrypted part is an encrypted Authenticator | any accepted request: the client's `receive_ap_reply` cannot decode the reply as an EncAPRepPart (`AuthService.ApReplyAsWrittenUndecodable`) | encrypt an EncAPRepPart echoing ctime and cusec (section 5.5.2 of RFC 4120) | not executed | AuthService.ApReplyAsWritten | AuthService.ApReply |
| kerberos/src/ticket_granting_service/mod.rs:470-484 | without an authenticator subkey, the reply part is encrypted under the newly generated session key | a request without a subkey: the client holds only the TGT session key and cannot open the reply, unless the fresh key happens to equal it (`TgsService.ReplyKeyCounterexample`) | encrypt under the TGT's session key (section 3.3.3 of RFC 4120) | not executed | TgsService.ReplyEncPartAsWritten | TgsService.ReplyEncPart |
