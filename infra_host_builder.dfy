/**
 * kerberos_infra/src/server/infra/host/builder.rs: the builder of a KDC
 * host, which checks that both receivers are set and that the two ports
 * are usable before it makes the two entry points. A receiver is a value
 * of type `R` that the builder only stores and hands on.
 */
module InfraHostBuilder {
  import opened Wrappers
  import opened SocketAddrs
  import opened Protocols

  /** `HostSettings` of kerberos_infra/src/server/config/host.rs. */
  datatype HostSettings = HostSettings(protocol: Protocol, host: string, tgsPort: Port, asPort: Port)

  datatype HostBuilderError = MissingReceiver | InvalidPort | InvalidUrl

  /** An address and the receiver that serves it. */
  datatype EntryPoint<R> = EntryPoint(addr: SocketAddr, receiver: R)

  /** `HostBuilder<T>`. */
  datatype HostBuilder<R> = HostBuilder(
    url: string, asPort: Port, tgsPort: Port, asReceiver: Option<R>, tgsReceiver: Option<R>)

  /** A built `TcpHost` or `UdpHost`: its transport and its two entry points. */
  datatype Host<R> = Host(transport: Protocol, asEntry: EntryPoint<R>, tgsEntry: EntryPoint<R>)

  /** `HostBuilder::new`: host and ports from the settings, no receivers. */
  function New<R>(settings: HostSettings): (b: HostBuilder<R>)
    ensures b.url == settings.host && b.asPort == settings.asPort && b.tgsPort == settings.tgsPort
    ensures b.asReceiver.None? && b.tgsReceiver.None?
  {
    HostBuilder(settings.host, settings.asPort, settings.tgsPort, None, None)
  }

  /** `set_as_receiver`: sets the AS receiver and nothing else. */
  function SetAsReceiver<R>(b: HostBuilder<R>, receiver: R): (r: HostBuilder<R>)
    ensures r.asReceiver == Some(receiver)
    ensures r.url == b.url && r.asPort == b.asPort && r.tgsPort == b.tgsPort && r.tgsReceiver == b.tgsReceiver
  {
    b.(asReceiver := Some(receiver))
  }

  /** `set_tgs_receiver`: sets the TGS receiver and nothing else. */
  function SetTgsReceiver<R>(b: HostBuilder<R>, receiver: R): (r: HostBuilder<R>)
    ensures r.tgsReceiver == Some(receiver)
    ensures r.url == b.url && r.asPort == b.asPort && r.tgsPort == b.tgsPort && r.asReceiver == b.asReceiver
  {
    b.(tgsReceiver := Some(receiver))
  }

  /** The ports a host can listen on: neither is 0 and they differ. */
  predicate PortsUsable(asPort: Port, tgsPort: Port) {
    asPort != 0 && tgsPort != 0 && asPort != tgsPort
  }

  /**
   * `validate`: a missing receiver first, then unusable ports, then a
   * host that does not parse; otherwise the AS and TGS entry points on
   * their configured ports with their own receivers.
   */
  function Validate<R>(b: HostBuilder<R>): (r: Result<(EntryPoint<R>, EntryPoint<R>), HostBuilderError>)
    ensures r == Err(MissingReceiver) <==> b.asReceiver.None? || b.tgsReceiver.None?
    ensures r == Err(InvalidPort) <==> b.asReceiver.Some? && b.tgsReceiver.Some? && !PortsUsable(b.asPort, b.tgsPort)
    ensures r == Err(InvalidUrl) <==>
              b.asReceiver.Some? && b.tgsReceiver.Some? && PortsUsable(b.asPort, b.tgsPort) && ParseIpv4(b.url).None?
    ensures r.Ok? ==> r.value.0 == EntryPoint(SocketAddr(ParseIpv4(b.url).value, b.asPort), b.asReceiver.value)
    ensures r.Ok? ==> r.value.1 == EntryPoint(SocketAddr(ParseIpv4(b.url).value, b.tgsPort), b.tgsReceiver.value)
  {
    match (b.asReceiver, b.tgsReceiver)
    case (Some(asReceiver), Some(tgsReceiver)) =>
      if b.asPort == 0 || b.tgsPort == 0 || b.asPort == b.tgsPort then Err(InvalidPort)
      else (
        match ParseSocketAddr(b.url, b.asPort)
        case None => Err(InvalidUrl)
        case Some(asAddr) => (
          match ParseSocketAddr(b.url, b.tgsPort)
          case None => Err(InvalidUrl)
          case Some(tgsAddr) => Ok((EntryPoint(asAddr, asReceiver), EntryPoint(tgsAddr, tgsReceiver)))))
    case _ => Err(MissingReceiver)
  }

  /** `boxed_tcp` and `boxed_udp`: a host of the given transport on the validated entry points. */
  function Boxed<R>(b: HostBuilder<R>, transport: Protocol): (r: Result<Host<R>, HostBuilderError>)
    ensures r.Err? <==> Validate(b).Err?
    ensures r.Err? ==> r.error == Validate(b).error
    ensures r.Ok? ==> r.value == Host(transport, Validate(b).value.0, Validate(b).value.1)
  {
    match Validate(b)
    case Err(e) => Err(e)
    case Ok((asEntry, tgsEntry)) => Ok(Host(transport, asEntry, tgsEntry))
  }

  /**
   * A host built from settings with a parsable host, usable ports and both
   * receivers listens on the configured ports and serves each with its own
   * receiver, in whichever order the receivers were set.
   */
  lemma BuiltHostUsesSettings<R>(settings: HostSettings, asReceiver: R, tgsReceiver: R, transport: Protocol)
    requires PortsUsable(settings.asPort, settings.tgsPort) && ParseIpv4(settings.host).Some?
    ensures var h := Boxed(SetTgsReceiver(SetAsReceiver(New(settings), asReceiver), tgsReceiver), transport);
            h.Ok? && h.value.asEntry.addr.port == settings.asPort && h.value.tgsEntry.addr.port == settings.tgsPort
            && h.value.asEntry.receiver == asReceiver && h.value.tgsEntry.receiver == tgsReceiver
    ensures Boxed(SetTgsReceiver(SetAsReceiver(New(settings), asReceiver), tgsReceiver), transport)
         == Boxed(SetAsReceiver(SetTgsReceiver(New(settings), tgsReceiver), asReceiver), transport)
  {
  }

  /** A builder missing either receiver never builds, whatever its ports and host. */
  lemma MissingReceiverRefused<R>(settings: HostSettings, receiver: R, transport: Protocol)
    ensures Boxed(SetTgsReceiver(New(settings), receiver), transport) == Err(MissingReceiver)
    ensures Boxed(SetAsReceiver(New(settings), receiver), transport) == Err(MissingReceiver)
    ensures Boxed(New<R>(settings), transport) == Err(MissingReceiver)
  {
  }

  /** The local test settings, 127.0.0.1 with AS on 88 and TGS on 89, build a host. */
  lemma LocalSettingsBuild<R>(asReceiver: R, tgsReceiver: R)
    ensures var b := SetTgsReceiver(SetAsReceiver(New(HostSettings(Tcp, "127.0.0.1", 89, 88)), asReceiver), tgsReceiver);
            Boxed(b, Tcp).Ok? && Boxed(b, Tcp).value.asEntry.addr == SocketAddr([127, 0, 0, 1], 88)
            && Boxed(b, Tcp).value.tgsEntry.addr == SocketAddr([127, 0, 0, 1], 89)
  {
    var settings := HostSettings(Tcp, "127.0.0.1", 89, 88);
    LoopbackParses();
    BuiltHostUsesSettings(settings, asReceiver, tgsReceiver, Tcp);
  }
}
