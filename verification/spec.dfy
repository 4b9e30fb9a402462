/** The operator's own monitor representation (internal/kuma/spec.go). A Go pointer to a
    sub-spec is an Option; the monitor type is a Go string and so may hold anything. */
module Spec {
  import opened Wrappers

  const TYPE_HTTP := "HTTP"
  const TYPE_TCP := "TCP"
  const TYPE_PING := "Ping"
  const TYPE_DNS := "DNS"
  const TYPE_GAMEDIG := "Gamedig"
  const TYPE_PUSH := "Push"

  datatype HTTPSpec = HTTPSpec(
    url: string,
    verb: string,
    acceptedStatusCodes: seq<string>,
    timeout: int,
    maxRedirects: int,
    ignoreTLS: bool,
    cacheBust: bool,
    expiryNotification: bool,
    domainExpiryNotification: bool,
    headers: string,
    body: string,
    authMethod: string,
    basicAuthUsername: string,
    basicAuthPassword: string,
    bearerToken: string,
    oauthClientID: string,
    oauthClientSecret: string,
    oauthTokenURL: string,
    oauthScopes: string,
    oauthAudience: string)

  datatype TCPSpec = TCPSpec(
    host: string,
    port: int,
    tlsMode: string,
    expectedSSLAlert: string,
    expiryNotification: bool,
    domainExpiryNotification: bool)

  datatype PingSpec = PingSpec(host: string, timeout: int, packetSize: int, domainExpiryNotification: bool)

  datatype DNSSpec = DNSSpec(
    host: string,
    resolverServer: string,
    resolveType: string,
    port: int,
    domainExpiryNotification: bool)

  datatype GamedigSpec = GamedigSpec(
    host: string,
    port: int,
    game: string,
    givenPortOnly: bool,
    domainExpiryNotification: bool,
    token: string)

  datatype PushSpec = PushSpec(token: string)

  datatype MonitorSpec = MonitorSpec(
    kind: string,
    name: string,
    interval: int,
    retryInterval: int,
    maxRetries: int,
    description: string,
    resendInterval: int,
    upsideDown: bool,
    notificationIDs: seq<int>,
    groupID: Option<int>,
    proxyID: Option<int>,
    http: Option<HTTPSpec>,
    tcp: Option<TCPSpec>,
    ping: Option<PingSpec>,
    dns: Option<DNSSpec>,
    gamedig: Option<GamedigSpec>,
    push: Option<PushSpec>)

  /** The sub-spec that `kind` selects is present. */
  predicate WellFormed(s: MonitorSpec) {
    || (s.kind == TYPE_HTTP && s.http.Some?)
    || (s.kind == TYPE_TCP && s.tcp.Some?)
    || (s.kind == TYPE_PING && s.ping.Some?)
    || (s.kind == TYPE_DNS && s.dns.Some?)
    || (s.kind == TYPE_GAMEDIG && s.gamedig.Some?)
    || (s.kind == TYPE_PUSH && s.push.Some?)
  }

  /** A host and the monitor it should map to (derive.DesiredMonitor). */
  datatype DesiredMonitor = DesiredMonitor(host: string, spec: MonitorSpec)
}
