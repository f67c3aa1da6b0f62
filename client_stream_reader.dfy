/**
 * kerberos-infra/src/client/utils.rs: the TCP client's reader of the
 * tag-and-length header of a reply. The connection is the sequence of
 * octets it will deliver; the client's error type for a failed read is not
 * part of this model and is a single `StreamEnded`.
 */
module ClientStreamReader {
  import opened Wrappers
  import opened TagLength

  /** A `read_exact` that met the end of the connection. */
  datatype ClientReadError = StreamEnded

  /**
   * What `try_into` returns on a connection delivering `input`: a zero
   * buffer of the content length with the header octets read, or the abort
   * of a connection that ends inside the header.
   */
  function ReadHeader(input: seq<bv8>): (r: Result<(seq<bv8>, seq<bv8>), ClientReadError>)
    ensures r.Err? <==> ParseHeader(input).None?
    ensures r.Err? ==> r.error == StreamEnded
    ensures r.Ok? ==> |r.value.0| == ParseHeader(input).value.contentLength
                      && r.value.1 == ParseHeader(input).value.headerOctets
  {
    match ParseHeader(input)
    case None => Err(StreamEnded)
    case Some(h) => Ok((Zeros(h.contentLength), h.headerOctets))
  }

  /** `TagLengthStreamReader`: the unread rest of the connection and the octets read so far. */
  class TagLengthStreamReader {
    /** Everything the connection delivers, from the first octet. */
    ghost const received: seq<bv8>
    var stream: seq<bv8>
    var innerBuffer: seq<bv8>

    /** The octets read, followed by those not yet read, are what the connection delivers. */
    ghost predicate Valid()
      reads this
    {
      innerBuffer + stream == received
    }

    /** `From<&mut &mut TcpStream>`: nothing read yet. */
    constructor From(stream: seq<bv8>)
      ensures Valid() && innerBuffer == [] && this.stream == stream && received == stream
    {
      received := stream;
      this.stream := stream;
      innerBuffer := [];
    }

    /** `read_and_record_next(len)`: `read_exact` of `len` octets, recorded at the end of the buffer. */
    method ReadAndRecordNext(len: nat) returns (r: Result<(), ClientReadError>)
      requires Valid()
      modifies this
      ensures Valid()
      ensures r.Ok? <==> len <= |old(stream)|
      ensures r.Ok? ==> innerBuffer == old(innerBuffer) + old(stream)[..len] && stream == old(stream)[len..]
      ensures r.Err? ==> r.error == StreamEnded && innerBuffer == old(innerBuffer)
                         && stream == old(stream)
    {
      if |stream| < len {
        return Err(StreamEnded);
      }
      var buffer := stream[..len];
      assert stream == buffer + stream[len..];
      stream := stream[len..];
      innerBuffer := innerBuffer + buffer;
      r := Ok(());
    }

    /** The long-form half of `try_into`: the `n` length octets after the two read, folded. */
    method ReadLengthOctets(ghost input: seq<bv8>, n: nat) returns (r: Result<nat, ClientReadError>)
      requires Valid() && |input| >= 2 && innerBuffer == input[..2] && stream == input[2..]
      requires LongForm(input[1]) && n == LowSeven(input[1])
      modifies this
      ensures Valid()
      ensures r.Err? <==> ParseHeader(input).None?
      ensures r.Err? ==> r.error == StreamEnded
      ensures r.Ok? ==> ParseHeader(input) == Some(Header(r.value, innerBuffer))
    {
      var more := ReadAndRecordNext(n);
      if more.Err? {
        return Err(more.error);
      }
      PrefixSplit(input, n);
      var length := FoldLength(innerBuffer[2..]);
      LongHeader(input);
      r := Ok(length);
    }

    /**
     * `try_into`: the two header octets, then the long-form length octets
     * if any; a zero buffer of the content length and the header octets
     * read, or the abort of a connection that ended first.
     */
    method TryInto() returns (r: Result<(seq<bv8>, seq<bv8>), ClientReadError>)
      requires Valid() && innerBuffer == []
      modifies this
      ensures Valid()
      ensures r == ReadHeader(old(stream))
      ensures r.Ok? ==> innerBuffer == r.value.1
    {
      ghost var input := stream;
      var first := ReadAndRecordNext(2);
      if first.Err? {
        return Err(first.error);
      }
      assert innerBuffer == input[..2];
      var lenByte := innerBuffer[1];
      var expected: nat;
      if LongForm(lenByte) {
        var more := ReadLengthOctets(input, LowSeven(lenByte));
        if more.Err? {
          return Err(more.error);
        }
        expected := more.value;
      } else {
        expected := LowSeven(lenByte);
        ShortHeader(input);
      }
      assert ParseHeader(input) == Some(Header(expected, innerBuffer));
      r := Ok((Zeros(expected), innerBuffer));
    }
  }
}
