/** The configuration record of the tunnel (internal/config/config.go) and its
    validation. Go `int` and `time.Duration` fields are unbounded `int`s here
    (a duration is a count of nanoseconds); they are carried along but never
    read by `Validate`. */
module Config {
  import opened Wrappers
  import opened ConfigErrors

  const ServerMode: string := "server"
  const ClientMode: string := "client"

  /** A server-side port mapping. */
  datatype PortMap = PortMap(protocol: string, bind: string, target: string)

  /** A client-side connection path. */
  datatype ConnectionPath = ConnectionPath(
    transport: string,
    address: string,
    poolSize: int,
    aggressivePool: bool,
    retryInterval: int,
    dialTimeout: int)

  datatype TLSConfig = TLSConfig(
    enabled: bool,
    certFile: string,
    keyFile: string,
    caFile: string,
    insecure: bool)

  datatype KCPConfig = KCPConfig(
    noDelay: int,
    interval: int,
    resend: int,
    nc: int,
    sndWnd: int,
    rcvWnd: int,
    mtu: int)

  datatype WebSocketConfig = WebSocketConfig(
    readBufferSize: int,
    writeBufferSize: int,
    compression: bool)

  datatype TransportConfig = TransportConfig(
    kind: string,
    tls: TLSConfig,
    kcp: KCPConfig,
    webSocket: WebSocketConfig)

  datatype EncryptionConfig = EncryptionConfig(psk: string, algorithm: string)

  datatype MultiplexerConfig = MultiplexerConfig(
    enabled: bool,
    keepAlive: int,
    maxReceiveBuffer: int,
    maxStreamBuffer: int,
    frameSize: int,
    version: int)

  /** Obfuscation settings; the floating-point burst chance is not modelled. */
  datatype ObfuscationConfig = ObfuscationConfig(
    enabled: bool,
    minPadding: int,
    maxPadding: int,
    minDelay: int,
    maxDelay: int)

  datatype HTTPMimicConfig = HTTPMimicConfig(
    enabled: bool,
    fakeDomain: string,
    fakePath: string,
    userAgent: string,
    chunkedEncoding: bool,
    sessionCookie: bool,
    customHeaders: seq<string>)

  datatype PerformanceConfig = PerformanceConfig(
    tcpNoDelay: bool,
    tcpKeepAlive: int,
    tcpReadBuffer: int,
    tcpWriteBuffer: int,
    maxConnections: int,
    cleanupInterval: int,
    sessionTimeout: int,
    connectionTimeout: int,
    streamTimeout: int,
    maxUdpFlows: int,
    udpFlowTimeout: int,
    udpBufferSize: int)

  /** The complete configuration. */
  datatype Config = Config(
    mode: string,
    verbose: bool,
    profile: string,
    listen: string,
    maps: seq<PortMap>,
    paths: seq<ConnectionPath>,
    transport: TransportConfig,
    encryption: EncryptionConfig,
    multiplexer: MultiplexerConfig,
    obfuscation: ObfuscationConfig,
    httpMimic: HTTPMimicConfig,
    performance: PerformanceConfig)

  /** True when the configuration runs the tunnel's public end. */
  function IsServer(c: Config): (r: bool)
    ensures r ==> !IsClient(c)
  {
    c.mode == ServerMode
  }

  /** True when the configuration runs the end behind the firewall. */
  function IsClient(c: Config): (r: bool)
    ensures r ==> c.mode != ServerMode
  {
    c.mode == ClientMode
  }

  /** What a configuration must satisfy to be accepted, stated per mode:
      a known mode, a listen address for a server, at least one path for a
      client, and a pre-shared key in every case. */
  predicate WellFormed(c: Config) {
    && (IsServer(c) || IsClient(c))
    && (IsServer(c) ==> |c.listen| > 0)
    && (IsClient(c) ==> |c.paths| > 0)
    && |c.encryption.psk| > 0
  }

  /** Checks the configuration and returns the first problem found, or `None`
      (Go's `nil`) when there is none. */
  function Validate(c: Config): (r: Option<ConfigError>)
    ensures r == None <==> WellFormed(c)
    // never ErrInvalidConfig or ErrLoadConfig: those belong to the loader
    ensures r.Some? ==> r.value in ValidationErrors
  {
    if c.mode != ServerMode && c.mode != ClientMode then Some(ErrInvalidMode)
    else if c.mode == ServerMode && c.listen == "" then Some(ErrMissingListen)
    else if c.mode == ClientMode && |c.paths| == 0 then Some(ErrMissingPaths)
    else if c.encryption.psk == "" then Some(ErrMissingPSK)
    else None
  }
}
