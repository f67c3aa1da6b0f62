/**
 * kerberos-infra/src/server/utils.rs: the routing of a handler's result in
 * the older server crate. An error is `KrbInfraError` of
 * kerberos-infra/src/server/errors.rs; the cause of an abort is kept only
 * as the kind of error it wraps.
 */
module ServerUtils {
  import opened Wrappers

  /** The errors `KrbInfraError::Aborted` may carry (`io::Error`, `AddrParseError`, any boxed error). */
  datatype AbortCause = Io | AddrParse | Other

  /** `KrbInfraError`. */
  datatype KrbInfraError = Actionable(reply: seq<bv8>) | Aborted(cause: Option<AbortCause>) | Ignorable

  /**
   * The octets of a message, one per character: the UTF-8 encoding of the
   * ASCII messages the servers raise.
   */
  function Ascii(s: string): (r: seq<bv8>)
    ensures |r| == |s|
    ensures forall i :: 0 <= i < |s| ==> r[i] == (s[i] as int % 256) as bv8
  {
    seq(|s|, i requires 0 <= i < |s| => (s[i] as int % 256) as bv8)
  }

  /** `From<&str>`: a message becomes an actionable error whose reply is the message itself. */
  function FromMessage(s: string): (e: KrbInfraError)
    ensures e.Actionable? && e.reply == Ascii(s)
  {
    Actionable(Ascii(s))
  }

  /** `From<AddrParseError>`: an address that does not parse aborts with that cause. */
  const AddrParseAbort: KrbInfraError := Aborted(Some(AddrParse))

  /** The messages the builders raise when an entry point is missing. */
  const BothMissing := "Both entry points have not been set for the server"
  const AsMissing := "AS entry point has not been set for the server"
  const TgtMissing := "TGT entry point has not been set for the server"

  /** The three missing-entry errors are three different replies. */
  lemma EntryMessagesDistinct()
    ensures FromMessage(BothMissing) != FromMessage(AsMissing)
    ensures FromMessage(BothMissing) != FromMessage(TgtMissing)
    ensures FromMessage(AsMissing) != FromMessage(TgtMissing)
  {
    assert |BothMissing| == 50 && |AsMissing| == 46 && |TgtMissing| == 47;
  }

  /**
   * `extract_bytes_or_delegate_to_router`: bytes pass, an actionable
   * error's reply is sent as if it were the result, an abort or an
   * ignorable error goes to the router unchanged.
   */
  function ExtractBytesOrDelegateToRouter(result: Result<seq<bv8>, KrbInfraError>): (r: Result<seq<bv8>, KrbInfraError>)
    ensures result.Ok? ==> r == result
    ensures result.Err? && result.error.Actionable? ==> r == Ok(result.error.reply)
    ensures result.Err? && !result.error.Actionable? ==> r == result
    ensures r.Err? ==> !r.error.Actionable?
  {
    match result
    case Ok(bytes) => Ok(bytes)
    case Err(Actionable(reply)) => Ok(reply)
    case Err(e) => Err(e)
  }

  /** The router sees only errors it has to log or drop, so a second pass changes nothing. */
  lemma ExtractIdempotent(result: Result<seq<bv8>, KrbInfraError>)
    ensures ExtractBytesOrDelegateToRouter(ExtractBytesOrDelegateToRouter(result)) == ExtractBytesOrDelegateToRouter(result)
  {
  }
}
