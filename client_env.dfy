/**
 * The client's environment (kerberos/src/client/client_env.rs) and error type
 * (kerberos/src/client/client_error.rs). The environment is a class whose
 * immutable settings play the role of the trait's configuration getters and
 * whose mutable `saved` record holds what the `save_*` methods store.
 */
module ClientEnviron {
  import opened Wrappers
  import opened Flags
  import opened KerberosTypes

  /**
   * `ClientError`, with every variant the exchanges construct (the snapshot's
   * enum lacks `InvalidKdcReq`, `ResponseModified`, `ClockSkewError` and
   * `MutualAuthenticationFailed`, which the exchange code uses).
   */
  datatype ClientError =
    | ClientEnvError(message: string)
    | CryptographyError
    | PrepareRequestError(message: string)
    | InvalidKdcReq(message: string)
    | ResponseModified
    | ClockSkewError
    | MutualAuthenticationFailed
    | EncodeError
    | DecodeError
    | GenericError(message: string)

  /**
   * What the trait's getters return: names and realms, the KDC options to
   * request, the etypes to offer, the etypes and checksum types for which
   * `get_crypto` and `get_checksum_hash` have an implementation, and the
   * client's long-term keys by etype.
   */
  datatype ClientSettings = ClientSettings(
    clientName: KerberosString,
    clientRealm: Realm,
    serverName: KerberosString,
    serverRealm: Realm,
    kdcOptions: KerberosFlags,
    supportedEtypes: seq<int>,
    cryptoEtypes: set<int>,
    checksumTypes: set<int>,
    clientKeys: map<int, EncryptionKey>)

  /** The state behind `save_as_reply`, `save_tgs_reply`, `save_subkey` and `save_seq_number`. */
  datatype Saved = Saved(
    asReply: Option<KdcRep>,
    asReplyEncPart: Option<EncKdcRepPart>,
    tgsReply: Option<KdcRep>,
    tgsReplyEncPart: Option<EncKdcRepPart>,
    subkey: Option<EncryptionKey>,
    seqNumber: Option<int>)

  const NothingSaved := Saved(None, None, None, None, None, None)

  /** `get_crypto(etype)`: the cryptosystem of that etype, named by the etype itself. */
  function GetCrypto(s: ClientSettings, etype: int): (r: Result<int, ClientError>)
    ensures r.Ok? <==> etype in s.cryptoEtypes
    ensures r.Ok? ==> r.value == etype
    ensures r.Err? ==> r.error.ClientEnvError?
  {
    if etype in s.cryptoEtypes then Ok(etype) else Err(ClientEnvError("unsupported encryption type"))
  }

  /** `get_checksum_hash(t)`. */
  function GetChecksumHash(s: ClientSettings, cksumtype: int): (r: Result<int, ClientError>)
    ensures r.Ok? <==> cksumtype in s.checksumTypes
    ensures r.Ok? ==> r.value == cksumtype
    ensures r.Err? ==> r.error.ClientEnvError?
  {
    if cksumtype in s.checksumTypes then Ok(cksumtype) else Err(ClientEnvError("unsupported checksum type"))
  }

  /** `get_client_key(etype)`. */
  function GetClientKey(s: ClientSettings, etype: int): (r: Result<EncryptionKey, ClientError>)
    ensures r.Ok? <==> etype in s.clientKeys
    ensures r.Ok? ==> r.value == s.clientKeys[etype]
    ensures r.Err? ==> r.error.ClientEnvError?
  {
    if etype in s.clientKeys then Ok(s.clientKeys[etype]) else Err(ClientEnvError("no key for encryption type"))
  }

  /** A saved-state getter: the stored value, or an environment error when nothing was saved. */
  function GetSaved<T>(o: Option<T>, what: string): (r: Result<T, ClientError>)
    ensures r.Ok? <==> o.Some?
    ensures r.Ok? ==> r.value == o.value
    ensures r.Err? ==> r.error == ClientEnvError(what)
  {
    if o.Some? then Ok(o.value) else Err(ClientEnvError(what))
  }

  /** An implementation of the `ClientEnv` trait that keeps what it is asked to save. */
  class ClientEnv {
    const settings: ClientSettings
    var saved: Saved

    constructor (settings: ClientSettings)
      ensures this.settings == settings && saved == NothingSaved
    {
      this.settings := settings;
      saved := NothingSaved;
    }

    /** `save_as_reply(data, data_part)`. */
    method SaveAsReply(rep: KdcRep, part: EncKdcRepPart)
      modifies this
      ensures saved == old(saved).(asReply := Some(rep), asReplyEncPart := Some(part))
    {
      saved := saved.(asReply := Some(rep), asReplyEncPart := Some(part));
    }

    /**
     * `save_tgs_reply(data)`: the call site passes the reply only, so the
     * saved encrypted part stays as it was.
     */
    method SaveTgsReply(rep: KdcRep)
      modifies this
      ensures saved == old(saved).(tgsReply := Some(rep))
    {
      saved := saved.(tgsReply := Some(rep));
    }

    /** `save_tgs_reply(data, data_part)` as the trait declares it. */
    method SaveTgsReplyWithPart(rep: KdcRep, part: EncKdcRepPart)
      modifies this
      ensures saved == old(saved).(tgsReply := Some(rep), tgsReplyEncPart := Some(part))
    {
      saved := saved.(tgsReply := Some(rep), tgsReplyEncPart := Some(part));
    }

    /** `save_subkey(key)`. */
    method SaveSubkey(key: EncryptionKey)
      modifies this
      ensures saved == old(saved).(subkey := Some(key))
    {
      saved := saved.(subkey := Some(key));
    }

    /** `save_seq_number(n)`. */
    method SaveSeqNumber(n: int)
      modifies this
      ensures saved == old(saved).(seqNumber := Some(n))
    {
      saved := saved.(seqNumber := Some(n));
    }
  }
}
