/**
 * kerberos-infra/src/server/infra/host/builder.rs: the older crate's
 * builder of a KDC host. It tells the three ways of missing a receiver
 * apart and does not check the ports. Its error type is declared in
 * kerberos-infra/src/server/infra/host/error.rs, which is not part of this
 * model; it is taken to convert messages and address errors as
 * `KrbInfraError` of kerberos-infra/src/server/errors.rs does.
 */
module ServerHostBuilder {
  import opened Wrappers
  import opened SocketAddrs
  import opened Protocols
  import opened ServerUtils

  /** `ServerSettings`: the settings the builder reads. */
  datatype ServerSettings = ServerSettings(protocol: Protocol, host: string, asPort: Port, tgsPort: Port)

  datatype EntryPoint<R> = EntryPoint(addr: SocketAddr, receiver: R)

  /** `HostBuilder`. */
  datatype HostBuilder<R> = HostBuilder(
    url: string, asPort: Port, tgsPort: Port, asReceiver: Option<R>, tgsReceiver: Option<R>)

  /** A built `TcpHost` or `UdpHost`. */
  datatype Host<R> = Host(transport: Protocol, asEntry: EntryPoint<R>, tgsEntry: EntryPoint<R>)

  /** `HostBuilder::new`: url and ports from the settings, no receivers. */
  function New<R>(settings: ServerSettings): (b: HostBuilder<R>)
    ensures b.url == settings.host && b.asPort == settings.asPort && b.tgsPort == settings.tgsPort
    ensures b.asReceiver.None? && b.tgsReceiver.None?
  {
    HostBuilder(settings.host, settings.asPort, settings.tgsPort, None, None)
  }

  /** `as_receiver`: sets the AS receiver and nothing else. */
  function AsReceiver<R>(b: HostBuilder<R>, receiver: R): (r: HostBuilder<R>)
    ensures r.asReceiver == Some(receiver)
    ensures r.url == b.url && r.asPort == b.asPort && r.tgsPort == b.tgsPort && r.tgsReceiver == b.tgsReceiver
  {
    b.(asReceiver := Some(receiver))
  }

  /** `tgs_receiver`: sets the TGS receiver and nothing else. */
  function TgsReceiver<R>(b: HostBuilder<R>, receiver: R): (r: HostBuilder<R>)
    ensures r.tgsReceiver == Some(receiver)
    ensures r.url == b.url && r.asPort == b.asPort && r.tgsPort == b.tgsPort && r.asReceiver == b.asReceiver
  {
    b.(tgsReceiver := Some(receiver))
  }

  /**
   * `validate`: each combination of missing receivers has its own message;
   * with both set, the entry points use the configured ports as they are,
   * and a host that does not parse aborts.
   */
  function Validate<R>(b: HostBuilder<R>): (r: Result<(EntryPoint<R>, EntryPoint<R>), KrbInfraError>)
    ensures b.asReceiver.None? && b.tgsReceiver.None? <==> r == Err(FromMessage(BothMissing))
    ensures b.asReceiver.None? && b.tgsReceiver.Some? <==> r == Err(FromMessage(AsMissing))
    ensures b.asReceiver.Some? && b.tgsReceiver.None? <==> r == Err(FromMessage(TgtMissing))
    ensures r == Err(AddrParseAbort) <==> b.asReceiver.Some? && b.tgsReceiver.Some? && ParseIpv4(b.url).None?
    ensures r.Ok? ==> r.value.0 == EntryPoint(SocketAddr(ParseIpv4(b.url).value, b.asPort), b.asReceiver.value)
    ensures r.Ok? ==> r.value.1 == EntryPoint(SocketAddr(ParseIpv4(b.url).value, b.tgsPort), b.tgsReceiver.value)
  {
    EntryMessagesDistinct();
    match (b.asReceiver, b.tgsReceiver)
    case (None, None) => Err(FromMessage(BothMissing))
    case (None, Some(_)) => Err(FromMessage(AsMissing))
    case (Some(_), None) => Err(FromMessage(TgtMissing))
    case (Some(asReceiver), Some(tgsReceiver)) =>
      match ParseSocketAddr(b.url, b.asPort)
      case None => Err(AddrParseAbort)
      case Some(asAddr) => (
        match ParseSocketAddr(b.url, b.tgsPort)
        case None => Err(AddrParseAbort)
        case Some(tgsAddr) => Ok((EntryPoint(asAddr, asReceiver), EntryPoint(tgsAddr, tgsReceiver))))
  }

  /** `build_tcp` and `build_udp`: a host of the given transport on the validated entry points. */
  function Build<R>(b: HostBuilder<R>, transport: Protocol): (r: Result<Host<R>, KrbInfraError>)
    ensures r.Err? <==> Validate(b).Err?
    ensures r.Err? ==> r.error == Validate(b).error
    ensures r.Ok? ==> r.value == Host(transport, Validate(b).value.0, Validate(b).value.1)
  {
    match Validate(b)
    case Err(e) => Err(e)
    case Ok((asEntry, tgsEntry)) => Ok(Host(transport, asEntry, tgsEntry))
  }

  /**
   * No port is refused: with both receivers and a parsable host, even port
   * 0 or one port for both services builds, on exactly the ports given.
   */
  lemma PortsNotChecked<R>(settings: ServerSettings, asReceiver: R, tgsReceiver: R, transport: Protocol)
    requires ParseIpv4(settings.host).Some?
    ensures var h := Build(TgsReceiver(AsReceiver(New(settings), asReceiver), tgsReceiver), transport);
            h.Ok? && h.value.asEntry.addr.port == settings.asPort && h.value.tgsEntry.addr.port == settings.tgsPort
            && h.value.asEntry.receiver == asReceiver && h.value.tgsEntry.receiver == tgsReceiver
  {
  }
}
