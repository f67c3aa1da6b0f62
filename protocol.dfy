/**
 * kerberos_infra/src/server/config/protocol.rs: the transport a host is
 * configured with, and its name in the configuration.
 */
module Protocols {
  import opened Wrappers

  datatype Protocol = Udp | Tcp

  /** `as_str`: the lower-case name. */
  function AsStr(p: Protocol): (s: string)
    ensures p.Udp? <==> s == "udp"
    ensures p.Tcp? <==> s == "tcp"
  {
    match p
    case Udp => "udp"
    case Tcp => "tcp"
  }

  /**
   * `Deserialize`: exactly the names "udp" and "tcp", with no change of
   * case, are protocols; any other string is refused with a message that
   * names it.
   */
  function Parse(value: string): (r: Result<Protocol, string>)
    ensures r.Ok? <==> value == "udp" || value == "tcp"
    ensures r == Ok(Udp) <==> value == "udp"
    ensures r == Ok(Tcp) <==> value == "tcp"
    ensures r.Err? ==> r.error == "This protocol is not supported: " + value
  {
    if value == "udp" then Ok(Udp)
    else if value == "tcp" then Ok(Tcp)
    else Err("This protocol is not supported: " + value)
  }

  /** Every protocol's name is read back as that protocol. */
  lemma ParseAsStr(p: Protocol)
    ensures Parse(AsStr(p)) == Ok(p)
  {
  }

  /** Every accepted name is the name of the protocol it is read as. */
  lemma AsStrParse(value: string)
    requires Parse(value).Ok?
    ensures AsStr(Parse(value).value) == value
  {
  }

  /** Parsing is case-sensitive: an upper-case name is refused. */
  lemma UpperCaseRefused()
    ensures Parse("UDP").Err? && Parse("TCP").Err? && Parse("Tcp").Err?
  {
  }
}
