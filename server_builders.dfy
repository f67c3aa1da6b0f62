/**
 * kerberos-infra/src/server/tcp/builder.rs and
 * kerberos-infra/src/server/udp/builder.rs: the builders of the older
 * crate's TCP and UDP servers, which take each entry point as a port and
 * its receiver. The two files are the same code over different server
 * types, so one builder carries the transport it builds. The shutdown
 * channel a built server holds is not modelled.
 */
module ServerBuilders {
  import opened Wrappers
  import opened SocketAddrs
  import opened Protocols
  import opened ServerUtils

  /** `TcpServerBuilder<A, T>` or `UdpServerBuilder<A, T>`. */
  datatype ServerBuilder<A, T> = ServerBuilder(
    transport: Protocol, url: string, asEntry: Option<(Port, A)>, tgtEntry: Option<(Port, T)>)

  /** A built `TcpServer` or `UdpServer`: its two addresses with their receivers. */
  datatype Server<A, T> = Server(transport: Protocol, asEntry: (SocketAddr, A), tgtEntry: (SocketAddr, T))

  /** `TcpServerBuilder::new` (`transport` Tcp) and `UdpServerBuilder::new` (Udp): the url, no entries. */
  function New<A, T>(transport: Protocol, url: string): (b: ServerBuilder<A, T>)
    ensures b.transport == transport && b.url == url && b.asEntry.None? && b.tgtEntry.None?
  {
    ServerBuilder(transport, url, None, None)
  }

  /** `as_entry`: sets the AS port and receiver and nothing else. */
  function AsEntry<A, T>(b: ServerBuilder<A, T>, port: Port, receiver: A): (r: ServerBuilder<A, T>)
    ensures r.asEntry == Some((port, receiver))
    ensures r.transport == b.transport && r.url == b.url && r.tgtEntry == b.tgtEntry
  {
    b.(asEntry := Some((port, receiver)))
  }

  /** `tgt_entry`: sets the TGS port and receiver and nothing else. */
  function TgtEntry<A, T>(b: ServerBuilder<A, T>, port: Port, receiver: T): (r: ServerBuilder<A, T>)
    ensures r.tgtEntry == Some((port, receiver))
    ensures r.transport == b.transport && r.url == b.url && r.asEntry == b.asEntry
  {
    b.(tgtEntry := Some((port, receiver)))
  }

  /**
   * `build`: each combination of missing entries has its own message; with
   * both set, the addresses carry the entries' ports and the server their
   * receivers, and a url that does not parse aborts.
   */
  function Build<A, T>(b: ServerBuilder<A, T>): (r: Result<Server<A, T>, KrbInfraError>)
    ensures b.asEntry.None? && b.tgtEntry.None? <==> r == Err(FromMessage(BothMissing))
    ensures b.asEntry.None? && b.tgtEntry.Some? <==> r == Err(FromMessage(AsMissing))
    ensures b.asEntry.Some? && b.tgtEntry.None? <==> r == Err(FromMessage(TgtMissing))
    ensures r == Err(AddrParseAbort) <==> b.asEntry.Some? && b.tgtEntry.Some? && ParseIpv4(b.url).None?
    ensures r.Ok? ==> r.value.transport == b.transport
    ensures r.Ok? ==> r.value.asEntry == (SocketAddr(ParseIpv4(b.url).value, b.asEntry.value.0), b.asEntry.value.1)
    ensures r.Ok? ==> r.value.tgtEntry == (SocketAddr(ParseIpv4(b.url).value, b.tgtEntry.value.0), b.tgtEntry.value.1)
  {
    EntryMessagesDistinct();
    match (b.asEntry, b.tgtEntry)
    case (None, None) => Err(FromMessage(BothMissing))
    case (None, Some(_)) => Err(FromMessage(AsMissing))
    case (Some(_), None) => Err(FromMessage(TgtMissing))
    case (Some((asPort, asReceiver)), Some((tgtPort, tgtReceiver))) =>
      match ParseSocketAddr(b.url, asPort)
      case None => Err(AddrParseAbort)
      case Some(asAddr) => (
        match ParseSocketAddr(b.url, tgtPort)
        case None => Err(AddrParseAbort)
        case Some(tgtAddr) => Ok(Server(b.transport, (asAddr, asReceiver), (tgtAddr, tgtReceiver))))
  }

  /**
   * A server built with both entries on a parsable url listens on the given
   * ports with the given receivers, for either transport and in either
   * order of the setters.
   */
  lemma BuiltServerUsesEntries<A, T>(transport: Protocol, url: string, asPort: Port, a: A, tgtPort: Port, t: T)
    requires ParseIpv4(url).Some?
    ensures var s := Build(TgtEntry(AsEntry(New(transport, url), asPort, a), tgtPort, t));
            s.Ok? && s.value.transport == transport
            && s.value.asEntry.0.port == asPort && s.value.asEntry.1 == a
            && s.value.tgtEntry.0.port == tgtPort && s.value.tgtEntry.1 == t
    ensures Build(TgtEntry(AsEntry(New(transport, url), asPort, a), tgtPort, t))
         == Build(AsEntry(TgtEntry(New(transport, url), tgtPort, t), asPort, a))
  {
  }

  /** A builder given only its TGS entry fails with the missing-AS message, as the tests expect. */
  lemma MissingAsEntryFails<A, T>(transport: Protocol, url: string, tgtPort: Port, t: T)
    ensures Build(TgtEntry(New<A, T>(transport, url), tgtPort, t)) == Err(FromMessage(AsMissing))
  {
  }
}
