/**
 * kerberos_infra/src/server/infra/host/utils.rs: the routing of a handler's
 * result to the bytes a host sends back, and the reader of the
 * tag-and-length header of an incoming TCP message. The connection is the
 * sequence of octets it will deliver; reading past its end is the
 * `UnexpectedEof` error of `read_exact`.
 */
module HostUtils {
  import opened Wrappers
  import opened TagLength

  /** The `io::Error` kinds the reader can meet. */
  datatype IoError = UnexpectedEof

  /** `HostError`; the cause of an abort is kept only when it is an I/O error. */
  datatype HostError = Actionable(reply: seq<bv8>) | Aborted(cause: Option<IoError>) | Ignorable

  /**
   * `extract_bytes_or_delegate_to_router`: bytes pass, an actionable
   * error's reply is sent as if it were the result, every other error goes
   * to the router unchanged.
   */
  function ExtractBytesOrDelegateToRouter(result: Result<seq<bv8>, HostError>): (r: Result<seq<bv8>, HostError>)
    ensures result.Ok? ==> r == result
    ensures result.Err? && result.error.Actionable? ==> r == Ok(result.error.reply)
    ensures result.Err? && !result.error.Actionable? ==> r == result
    ensures r.Err? ==> !r.error.Actionable?
  {
    match result
    case Ok(bytes) => Ok(bytes)
    case Err(Actionable(reply)) => Ok(reply)
    case Err(e) => Err(e)
  }

  /** Applying it twice is applying it once. */
  lemma ExtractIdempotent(result: Result<seq<bv8>, HostError>)
    ensures ExtractBytesOrDelegateToRouter(ExtractBytesOrDelegateToRouter(result)) == ExtractBytesOrDelegateToRouter(result)
  {
  }

  /**
   * What `try_into` returns on a connection delivering `input`: a zero
   * buffer of the content length with the header octets read, or the abort
   * of a connection that ends inside the header.
   */
  function ReadHeader(input: seq<bv8>): (r: Result<(seq<bv8>, seq<bv8>), HostError>)
    ensures r.Err? <==> ParseHeader(input).None?
    ensures r.Err? ==> r.error == Aborted(Some(UnexpectedEof))
    ensures r.Ok? ==> |r.value.0| == ParseHeader(input).value.contentLength
                      && r.value.1 == ParseHeader(input).value.headerOctets
  {
    match ParseHeader(input)
    case None => Err(Aborted(Some(UnexpectedEof)))
    case Some(h) => Ok((Zeros(h.contentLength), h.headerOctets))
  }

  /** `TagLengthStreamReader`: the unread rest of the connection and the octets read so far. */
  class TagLengthStreamReader {
    /** Everything the connection delivers, from the first octet. */
    ghost const received: seq<bv8>
    var stream: seq<bv8>
    var innerBuffer: seq<bv8>

    /** The octets read, followed by those not yet read, are what the connection delivers. */
    ghost predicate Valid()
      reads this
    {
      innerBuffer + stream == received
    }

    /** `From<&mut TcpStream>`: nothing read yet. */
    constructor From(stream: seq<bv8>)
      ensures Valid() && innerBuffer == [] && this.stream == stream && received == stream
    {
      received := stream;
      this.stream := stream;
      innerBuffer := [];
    }

    /** `read_next(len)`: `read_exact` of `len` octets, recorded at the end of the buffer. */
    method ReadNext(len: nat) returns (r: Result<(), HostError>)
      requires Valid()
      modifies this
      ensures Valid()
      ensures r.Ok? <==> len <= |old(stream)|
      ensures r.Ok? ==> innerBuffer == old(innerBuffer) + old(stream)[..len] && stream == old(stream)[len..]
      ensures r.Err? ==> r.error == Aborted(Some(UnexpectedEof)) && innerBuffer == old(innerBuffer)
                         && stream == old(stream)
    {
      if |stream| < len {
        return Err(Aborted(Some(UnexpectedEof)));
      }
      var buffer := stream[..len];
      assert stream == buffer + stream[len..];
      stream := stream[len..];
      innerBuffer := innerBuffer + buffer;
      r := Ok(());
    }

    /** The long-form half of `try_into`: the `n` length octets after the two read, folded. */
    method ReadLengthOctets(ghost input: seq<bv8>, n: nat) returns (r: Result<nat, HostError>)
      requires Valid() && |input| >= 2 && innerBuffer == input[..2] && stream == input[2..]
      requires LongForm(input[1]) && n == LowSeven(input[1])
      modifies this
      ensures Valid()
      ensures r.Err? <==> ParseHeader(input).None?
      ensures r.Err? ==> r.error == Aborted(Some(UnexpectedEof))
      ensures r.Ok? ==> ParseHeader(input) == Some(Header(r.value, innerBuffer))
    {
      var more := ReadNext(n);
      if more.Err? {
        return Err(more.error);
      }
      PrefixSplit(input, n);
      var length := FoldLength(innerBuffer[2..]);
      LongHeader(input);
      r := Ok(length);
    }

    /**
     * `try_into`: the two header octets, then the long-form length octets
     * if any; a zero buffer of the content length and the header octets
     * read, or the abort of a connection that ended first.
     */
    method TryInto() returns (r: Result<(seq<bv8>, seq<bv8>), HostError>)
      requires Valid() && innerBuffer == []
      modifies this
      ensures Valid()
      ensures r == ReadHeader(old(stream))
      ensures r.Ok? ==> innerBuffer == r.value.1
    {
      ghost var input := stream;
      var first := ReadNext(2);
      if first.Err? {
        return Err(first.error);
      }
      assert innerBuffer == input[..2];
      var lenByte := innerBuffer[1];
      var expected: nat;
      if LongForm(lenByte) {
        var more := ReadLengthOctets(input, LowSeven(lenByte));
        if more.Err? {
          return Err(more.error);
        }
        expected := more.value;
      } else {
        expected := LowSeven(lenByte);
        ShortHeader(input);
      }
      assert ParseHeader(input) == Some(Header(expected, innerBuffer));
      r := Ok((Zeros(expected), innerBuffer));
    }
  }
}
