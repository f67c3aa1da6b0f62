/** Octets as the numbers they stand for. */
module OctetValues {
  /** An octet converted from a number below 256 converts back to it. */
  lemma OctetValue(k: nat)
    requires k < 256
    ensures (k as bv8) as nat == k
  {
  }
}

/**
 * The tag-and-length header the TCP hosts and the TCP client read before a
 * message (the identifier and length octets of X.690, sections 8.1.2 and
 * 8.1.3): two octets, and when the second has bit 8 set, as many further
 * length octets as its low seven bits say, read as a big-endian number.
 */
module TagLength {
  import opened Wrappers
  import opened OctetValues

  /** The `fold(0, |acc, x| acc * 256 + x)` over length octets. */
  function BigEndian(bs: seq<bv8>): nat {
    if |bs| == 0 then 0 else BigEndian(bs[..|bs| - 1]) * 256 + bs[|bs| - 1] as nat
  }

  /** What a successful `try_into` finds: the content length and the header octets it read. */
  datatype Header = Header(contentLength: nat, headerOctets: seq<bv8>)

  /** Bit 8 of the second header octet: the long form, with length octets following. */
  predicate LongForm(b: bv8) {
    b & 0x80 == 0x80
  }

  /** The low seven bits of the second header octet, as a number. */
  function LowSeven(b: bv8): nat {
    (b & 0x7F) as nat
  }

  /** Bit 8 of an octet and its low seven bits, as numbers. */
  lemma LengthOctetBits(b: bv8)
    ensures !LongForm(b) <==> (b as nat) < 128
    ensures !LongForm(b) ==> LowSeven(b) == b as nat
    ensures LongForm(b) ==> LowSeven(b) == b as nat - 128
  {
  }

  /**
   * The header at the start of `input`, or `None` when the stream ends
   * before it does. A second octet with bit 8 clear is the length itself
   * (short form); otherwise its low seven bits count the length octets
   * that follow (long form; 0x80, the indefinite form, reads none and
   * gives length zero).
   */
  function ParseHeader(input: seq<bv8>): (r: Option<Header>)
    ensures r.Some? ==> |input| >= 2 && |r.value.headerOctets| <= |input|
                        && r.value.headerOctets == input[..|r.value.headerOctets|]
    ensures r.Some? && !LongForm(input[1]) ==> r.value == Header(input[1] as nat, input[..2])
    ensures r.Some? && LongForm(input[1]) ==>
              var n := LowSeven(input[1]);
              2 + n <= |input| && r.value == Header(BigEndian(input[2..2 + n]), input[..2 + n])
    ensures r.None? <==> |input| < 2 || (LongForm(input[1]) && |input| < 2 + LowSeven(input[1]))
  {
    if |input| < 2 then None
    else
      var lb := input[1];
      if LongForm(lb) then
        var n := LowSeven(lb);
        if |input| < 2 + n then None else Some(Header(BigEndian(input[2..2 + n]), input[..2 + n]))
      else
        LengthOctetBits(lb);
        Some(Header(LowSeven(lb), input[..2]))
  }

  /** A short-form header: the second octet is the length. */
  lemma ShortHeader(input: seq<bv8>)
    requires |input| >= 2 && !LongForm(input[1])
    ensures ParseHeader(input) == Some(Header(LowSeven(input[1]), input[..2]))
  {
    LengthOctetBits(input[1]);
  }

  /** A long-form header whose length octets have all arrived. */
  lemma LongHeader(input: seq<bv8>)
    requires |input| >= 2 && LongForm(input[1]) && 2 + LowSeven(input[1]) <= |input|
    ensures var n := LowSeven(input[1]);
            ParseHeader(input) == Some(Header(BigEndian(input[2..2 + n]), input[..2 + n]))
  {
  }

  /** The two header octets followed by the next `n` are the first `2 + n`. */
  lemma PrefixSplit(input: seq<bv8>, n: nat)
    requires 2 + n <= |input|
    ensures input[..2] + input[2..][..n] == input[..2 + n]
    ensures (input[..2] + input[2..][..n])[2..] == input[2..2 + n]
  {
    assert input[..2] + input[2..][..n] == input[..2 + n];
  }

  /** The minimal big-endian octets of `n` (at least one). */
  function BigEndianOctets(n: nat): (bs: seq<bv8>)
    ensures |bs| >= 1
    decreases n
  {
    if n < 256 then [n as bv8] else BigEndianOctets(n / 256) + [(n % 256) as bv8]
  }

  lemma {:induction false} BigEndianOctetsValue(n: nat)
    ensures BigEndian(BigEndianOctets(n)) == n
    decreases n
  {
    var bs := BigEndianOctets(n);
    if n < 256 {
      OctetValue(n);
    } else {
      BigEndianOctetsValue(n / 256);
      assert bs[..|bs| - 1] == BigEndianOctets(n / 256);
      OctetValue(n % 256);
      assert bs[|bs| - 1] as nat == n % 256;
    }
  }

  /** The octet count grows by one per factor of 256. */
  lemma {:induction false} BigEndianOctetsCount(n: nat)
    requires n < 0x1_0000_0000
    ensures |BigEndianOctets(n)| <= 4
  {
    if n >= 256 {
      var n1 := n / 256;
      assert |BigEndianOctets(n)| == |BigEndianOctets(n1)| + 1;
      if n1 >= 256 {
        var n2 := n1 / 256;
        assert |BigEndianOctets(n1)| == |BigEndianOctets(n2)| + 1;
        if n2 >= 256 {
          var n3 := n2 / 256;
          assert n3 < 256;
          assert |BigEndianOctets(n2)| == |BigEndianOctets(n3)| + 1;
        }
      }
    }
  }

  /**
   * The definite-form length octets of X.690 section 8.1.3 for a length
   * under 2^32: one octet below 128, else 0x80 plus the count, followed by
   * the minimal big-endian octets.
   */
  function LengthOctets(n: nat): (bs: seq<bv8>)
    requires n < 0x1_0000_0000
    ensures n < 128 <==> |bs| == 1
    ensures 1 <= |bs| <= 5
  {
    if n < 128 then [n as bv8]
    else
      BigEndianOctetsCount(n);
      [0x80 | |BigEndianOctets(n)| as bv8] + BigEndianOctets(n)
  }

  /** Reading the header of an identifier octet, definite length octets and anything after gives back the length. */
  lemma HeaderOfEncodedLength(tag: bv8, n: nat, rest: seq<bv8>)
    requires n < 0x1_0000_0000
    ensures ParseHeader([tag] + LengthOctets(n) + rest) == Some(Header(n, [tag] + LengthOctets(n)))
  {
    if n < 128 {
      ShortEncodedLength(tag, n, rest);
    } else {
      LongEncodedLength(tag, n, rest);
    }
  }

  lemma ShortEncodedLength(tag: bv8, n: nat, rest: seq<bv8>)
    requires n < 128
    ensures ParseHeader([tag] + LengthOctets(n) + rest) == Some(Header(n, [tag] + LengthOctets(n)))
  {
    var input := [tag] + [n as bv8] + rest;
    OctetValue(n);
    LengthOctetBits(n as bv8);
    HeaderSlices([tag, n as bv8], [], rest);
    assert input == [tag, n as bv8] + [] + rest;
    ShortHeader(input);
  }

  lemma LongEncodedLength(tag: bv8, n: nat, rest: seq<bv8>)
    requires 128 <= n < 0x1_0000_0000
    ensures ParseHeader([tag] + LengthOctets(n) + rest) == Some(Header(n, [tag] + LengthOctets(n)))
  {
    var be := BigEndianOctets(n);
    BigEndianOctetsCount(n);
    BigEndianOctetsValue(n);
    var lead := 0x80 | |be| as bv8;
    assert LengthOctets(n) == [lead] + be;
    CountOctetBits(|be|);
    HeaderSlices([tag, lead], be, rest);
    Regroup(tag, lead, be, rest);
    LongHeader([tag, lead] + be + rest);
  }

  lemma Regroup(a: bv8, b: bv8, be: seq<bv8>, rest: seq<bv8>)
    ensures [a] + ([b] + be) + rest == [a, b] + be + rest
  {
    assert [a, b] == [a] + [b];
  }

  /** The second octet of a long-form length announces one to four length octets. */
  lemma CountOctetBits(c: nat)
    requires 1 <= c <= 4
    ensures LongForm(0x80 | c as bv8) && LowSeven(0x80 | c as bv8) == c
  {
    if c == 1 {} else if c == 2 {} else if c == 3 {} else {}
  }

  /** The slices a long-form read takes of two header octets, the length octets and the rest. */
  lemma HeaderSlices(h: seq<bv8>, be: seq<bv8>, rest: seq<bv8>)
    requires |h| == 2
    ensures (h + be + rest)[1] == h[1]
    ensures (h + be + rest)[2..2 + |be|] == be && (h + be + rest)[..2 + |be|] == h + be
  {
    assert (h + be + rest)[..2 + |be|] == h + be;
  }

  /** The indefinite-form octet 0x80 reads no further octets and gives length zero. */
  lemma IndefiniteLengthIsZero(input: seq<bv8>)
    requires |input| >= 2 && input[1] == 0x80
    ensures ParseHeader(input) == Some(Header(0, input[..2]))
  {
    assert input[2..2] == [];
  }

  /** A buffer of `n` zero octets, `vec![0u8; n]`. */
  function Zeros(n: nat): (z: seq<bv8>)
    ensures |z| == n && forall i :: 0 <= i < n ==> z[i] == 0
  {
    seq(n, _ => 0 as bv8)
  }

  /** The `fold` over the length octets, as a loop. */
  method FoldLength(bs: seq<bv8>) returns (n: nat)
    ensures n == BigEndian(bs)
  {
    n := 0;
    var i := 0;
    while i < |bs|
      invariant 0 <= i <= |bs|
      invariant n == BigEndian(bs[..i])
    {
      assert bs[..i + 1][..i] == bs[..i];
      n := n * 256 + bs[i] as nat;
      i := i + 1;
    }
    assert bs[..|bs|] == bs;
  }
}
