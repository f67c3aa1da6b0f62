/**
 * The socket addresses the server builders make by formatting a host and a
 * port as `host:port` and parsing the result as a `SocketAddr`. The host
 * is an IPv4 address in dotted-decimal form: four decimal octets separated
 * by dots, each of one to three digits, at most 255, with no leading zero.
 */
module SocketAddrs {
  import opened Wrappers

  /** A `u16` port number. */
  type Port = p: nat | p < 0x1_0000

  /** A parsed socket address: the four octets of the IPv4 host and the port. */
  datatype SocketAddr = SocketAddr(ip: seq<nat>, port: Port)

  predicate IsDigit(c: char) {
    '0' <= c <= '9'
  }

  /** The value of a string of decimal digits, most significant first. */
  function DecimalValue(s: string): nat
    requires forall i :: 0 <= i < |s| ==> IsDigit(s[i])
  {
    if |s| == 0 then 0
    else
      var last := s[|s| - 1];
      assert IsDigit(last);
      DecimalValue(s[..|s| - 1]) * 10 + (last as int - '0' as int)
  }

  /** The pieces of `s` between its dots, in order; a string without a dot is one piece. */
  function SplitDots(s: string): (r: seq<string>)
    ensures |r| >= 1
    decreases |s|
  {
    if |s| == 0 then [""]
    else
      var rest := SplitDots(s[1..]);
      if s[0] == '.' then [""] + rest
      else [[s[0]] + rest[0]] + rest[1..]
  }

  /** One decimal octet of an IPv4 address, or `None` when the piece is not one. */
  function ParseOctet(c: string): (r: Option<nat>)
    ensures r.Some? ==> r.value < 256
    ensures r.Some? ==> 1 <= |c| <= 3 && (|c| == 1 || c[0] != '0')
  {
    if 1 <= |c| <= 3 && (forall i :: 0 <= i < |c| ==> IsDigit(c[i])) && (|c| == 1 || c[0] != '0')
       && DecimalValue(c) < 256
    then Some(DecimalValue(c))
    else None
  }

  /** The octets of a dotted-decimal IPv4 address, or `None` when `s` is not one. */
  function ParseIpv4(s: string): (r: Option<seq<nat>>)
    ensures r.Some? ==> |r.value| == 4 && forall i :: 0 <= i < 4 ==> r.value[i] < 256
    ensures r.Some? <==> |SplitDots(s)| == 4 && forall i :: 0 <= i < 4 ==> ParseOctet(SplitDots(s)[i]).Some?
  {
    var parts := SplitDots(s);
    if |parts| == 4 && forall i :: 0 <= i < 4 ==> ParseOctet(parts[i]).Some? then
      Some([ParseOctet(parts[0]).value, ParseOctet(parts[1]).value,
            ParseOctet(parts[2]).value, ParseOctet(parts[3]).value])
    else None
  }

  /**
   * `format!("{}:{}", host, port).parse::<SocketAddr>()`: the port is
   * written in decimal and read back unchanged, so the address parses
   * exactly when the host does.
   */
  function ParseSocketAddr(host: string, port: Port): (r: Option<SocketAddr>)
    ensures r.Some? <==> ParseIpv4(host).Some?
    ensures r.Some? ==> r.value.port == port && r.value.ip == ParseIpv4(host).value
  {
    match ParseIpv4(host)
    case None => None
    case Some(ip) => Some(SocketAddr(ip, port))
  }

  /** The decimal digit of `d`. */
  function Digit(d: nat): (c: char)
    requires d < 10
    ensures IsDigit(c) && c as int - '0' as int == d
  {
    ('0' as int + d) as char
  }

  /** The shortest decimal form of an octet, as `Display` writes it. */
  function FormatOctet(n: nat): (s: string)
    requires n < 256
  {
    if n < 10 then [Digit(n)]
    else if n < 100 then [Digit(n / 10), Digit(n % 10)]
    else [Digit(n / 100), Digit(n / 10 % 10), Digit(n % 10)]
  }

  /** Two pieces joined by a dot. */
  function Dotted(a: string, b: string): string {
    a + "." + b
  }

  /** The dotted-decimal form of four octets. */
  function FormatIpv4(ip: seq<nat>): string
    requires |ip| == 4 && forall i :: 0 <= i < 4 ==> ip[i] < 256
  {
    Dotted(FormatOctet(ip[0]), Dotted(FormatOctet(ip[1]), Dotted(FormatOctet(ip[2]), FormatOctet(ip[3]))))
  }

  /** A formatted octet parses back to itself and holds no dot. */
  lemma ParseFormatOctet(n: nat)
    requires n < 256
    ensures ParseOctet(FormatOctet(n)) == Some(n)
    ensures forall i :: 0 <= i < |FormatOctet(n)| ==> FormatOctet(n)[i] != '.'
  {
    if n < 10 {
      OneDigitValue(n);
      DigitsOctet(FormatOctet(n), n);
    } else if n < 100 {
      TwoDigitOctet(n);
    } else {
      ThreeDigitOctet(n);
    }
  }

  /** Up to three digits without a leading zero, worth under 256, are an octet. */
  lemma DigitsOctet(c: string, v: nat)
    requires 1 <= |c| <= 3 && (forall i :: 0 <= i < |c| ==> IsDigit(c[i])) && (|c| == 1 || c[0] != '0')
    requires DecimalValue(c) == v < 256
    ensures ParseOctet(c) == Some(v)
    ensures forall i :: 0 <= i < |c| ==> c[i] != '.'
  {
  }

  lemma TwoDigitOctet(n: nat)
    requires 10 <= n < 100
    ensures ParseOctet(FormatOctet(n)) == Some(n)
    ensures forall i :: 0 <= i < |FormatOctet(n)| ==> FormatOctet(n)[i] != '.'
  {
    TwoDigitValue(n / 10, n % 10);
    DigitsOctet(FormatOctet(n), n);
  }

  lemma ThreeDigitOctet(n: nat)
    requires 100 <= n < 256
    ensures ParseOctet(FormatOctet(n)) == Some(n)
    ensures forall i :: 0 <= i < |FormatOctet(n)| ==> FormatOctet(n)[i] != '.'
  {
    ThreeDigitValue(n / 100, n / 10 % 10, n % 10);
    assert (n / 100 * 10 + n / 10 % 10) * 10 + n % 10 == n;
    DigitsOctet(FormatOctet(n), n);
  }

  lemma OneDigitValue(d: nat)
    requires d < 10
    ensures DecimalValue([Digit(d)]) == d
  {
    assert [Digit(d)][..0] == [];
  }

  lemma TwoDigitValue(d1: nat, d0: nat)
    requires d1 < 10 && d0 < 10
    ensures DecimalValue([Digit(d1), Digit(d0)]) == d1 * 10 + d0
  {
    assert [Digit(d1), Digit(d0)][..1] == [Digit(d1)];
    OneDigitValue(d1);
  }

  lemma ThreeDigitValue(d2: nat, d1: nat, d0: nat)
    requires d2 < 10 && d1 < 10 && d0 < 10
    ensures DecimalValue([Digit(d2), Digit(d1), Digit(d0)]) == (d2 * 10 + d1) * 10 + d0
  {
    assert [Digit(d2), Digit(d1), Digit(d0)][..2] == [Digit(d2), Digit(d1)];
    TwoDigitValue(d2, d1);
  }

  /** A string without a dot is a single piece. */
  lemma {:induction false} SplitNoDot(a: string)
    requires forall i :: 0 <= i < |a| ==> a[i] != '.'
    ensures SplitDots(a) == [a]
    decreases |a|
  {
    if |a| > 0 {
      SplitNoDot(a[1..]);
      assert [a[0]] + a[1..] == a;
    }
  }

  /** A dot after a dot-free prefix ends the first piece. */
  lemma {:induction false} SplitAfterPiece(a: string, b: string)
    requires forall i :: 0 <= i < |a| ==> a[i] != '.'
    ensures SplitDots(Dotted(a, b)) == [a] + SplitDots(b)
    decreases |a|
  {
    if |a| == 0 {
      assert a + "." + b == ['.'] + b;
      assert (['.'] + b)[1..] == b;
    } else {
      assert Dotted(a, b)[1..] == Dotted(a[1..], b);
      SplitAfterPiece(a[1..], b);
      assert [a[0]] + a[1..] == a;
    }
  }

  /** Four dot-free pieces joined by dots split back into those pieces. */
  lemma SplitFour(a: string, b: string, c: string, d: string)
    requires forall i :: 0 <= i < |a| ==> a[i] != '.'
    requires forall i :: 0 <= i < |b| ==> b[i] != '.'
    requires forall i :: 0 <= i < |c| ==> c[i] != '.'
    requires forall i :: 0 <= i < |d| ==> d[i] != '.'
    ensures SplitDots(Dotted(a, Dotted(b, Dotted(c, d)))) == [a, b, c, d]
  {
    SplitNoDot(d);
    SplitAfterPiece(c, d);
    SplitAfterPiece(b, Dotted(c, d));
    SplitAfterPiece(a, Dotted(b, Dotted(c, d)));
  }

  /** A string splitting into four octets parses to them. */
  lemma ParsePieces(s: string, ip: seq<nat>)
    requires |ip| == 4 && |SplitDots(s)| == 4
    requires forall i :: 0 <= i < 4 ==> ParseOctet(SplitDots(s)[i]) == Some(ip[i])
    ensures ParseIpv4(s) == Some(ip)
  {
    assert [ip[0], ip[1], ip[2], ip[3]] == ip;
  }

  /** Every address the host formats parses back to the same four octets. */
  lemma ParseFormatIpv4(ip: seq<nat>)
    requires |ip| == 4 && forall i :: 0 <= i < 4 ==> ip[i] < 256
    ensures ParseIpv4(FormatIpv4(ip)) == Some(ip)
  {
    var a, b, c, d := FormatOctet(ip[0]), FormatOctet(ip[1]), FormatOctet(ip[2]), FormatOctet(ip[3]);
    ParseFormatOctet(ip[0]);
    ParseFormatOctet(ip[1]);
    ParseFormatOctet(ip[2]);
    ParseFormatOctet(ip[3]);
    SplitFour(a, b, c, d);
    var parts := SplitDots(FormatIpv4(ip));
    forall i | 0 <= i < 4
      ensures ParseOctet(parts[i]) == Some(ip[i])
    {
      if i == 0 {} else if i == 1 {} else if i == 2 {} else {}
    }
    ParsePieces(FormatIpv4(ip), ip);
  }

  /** The loopback address is written `127.0.0.1`. */
  lemma LoopbackFormat()
    ensures FormatIpv4([127, 0, 0, 1]) == "127.0.0.1"
  {
    assert FormatOctet(127) == "127" && FormatOctet(0) == "0" && FormatOctet(1) == "1";
    assert Dotted("0", "1") == "0.1";
    assert Dotted("0", "0.1") == "0.0.1";
    assert Dotted("127", "0.0.1") == "127.0.0.1";
  }

  /** `127.0.0.1` parses as the loopback address. */
  lemma LoopbackParses()
    ensures ParseIpv4("127.0.0.1") == Some([127, 0, 0, 1])
  {
    LoopbackFormat();
    ParseFormatIpv4([127, 0, 0, 1]);
  }

  /** A host name is not an IPv4 address: `localhost` does not parse. */
  lemma HostNameRefused()
    ensures ParseIpv4("localhost").None?
  {
    SplitNoDot("localhost");
  }
}
