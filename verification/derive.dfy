/** Desired monitors of an Ingress, an HTTPRoute or a Service (internal/derive). The
    annotation overrides are taken as parsed values. */
module Derive {
  import opened Wrappers
  import opened Spec
  import opened Strconv

  datatype HTTPOverrides = HTTPOverrides(
    host: string,
    port: string,
    scheme: string,
    path: string,
    acceptedStatusCodes: seq<string>,
    timeout: int,
    maxRedirects: int,
    ignoreTLS: bool,
    cacheBust: bool,
    expiryNotification: bool,
    domainExpiryNotification: bool,
    headers: string,
    body: string)

  datatype TCPOverrides = TCPOverrides(
    host: string,
    port: string,
    tlsMode: string,
    expectedSSLAlert: string,
    expiryNotification: bool,
    domainExpiryNotification: bool)

  datatype PingOverrides = PingOverrides(host: string, timeout: int, packetSize: int, domainExpiryNotification: bool)

  datatype DNSOverrides = DNSOverrides(
    host: string,
    port: int,
    resolverServer: string,
    resolveType: string,
    domainExpiryNotification: bool)

  datatype GamedigOverrides = GamedigOverrides(
    host: string,
    port: string,
    game: string,
    givenPortOnly: bool,
    domainExpiryNotification: bool)

  datatype Overrides = Overrides(
    name: string,
    kind: string,
    interval: int,
    retryInterval: int,
    maxRetries: int,
    description: string,
    resendInterval: int,
    upsideDown: bool,
    notifications: seq<string>,
    group: string,
    proxy: int,
    tags: seq<string>,
    http: HTTPOverrides,
    tcp: TCPOverrides,
    ping: PingOverrides,
    dns: DNSOverrides,
    gamedig: GamedigOverrides)

  datatype Port = Port(number: int, name: string)

  /** The user's routing rules, as far as a derivation reads them. */
  datatype Routes =
    | Ingress(namespace: string, name: string, ruleHosts: seq<string>, tls: seq<seq<string>>)
    | HTTPRoute(namespace: string, name: string, hostnames: seq<string>)
    | Service(namespace: string, name: string, ports: seq<Port>)

  function Hosts(desired: seq<DesiredMonitor>): set<string> {
    set i | 0 <= i < |desired| :: desired[i].host
  }

  ghost predicate DistinctHosts(desired: seq<DesiredMonitor>) {
    forall i, j :: 0 <= i < j < |desired| ==> desired[i].host != desired[j].host
  }

  // ----------------------------------------------------------- distinct hosts

  /** The non-empty hosts in the order of their first occurrence. */
  function FirstOccurrences(hosts: seq<string>): seq<string> {
    if hosts == [] then []
    else
      var before := FirstOccurrences(hosts[..|hosts| - 1]);
      var host := hosts[|hosts| - 1];
      if host == "" || host in before then before else before + [host]
  }

  lemma {:induction false} FirstOccurrencesExact(hosts: seq<string>)
    ensures forall h :: h in FirstOccurrences(hosts) <==> h in hosts && h != ""
    ensures forall i, j :: 0 <= i < j < |FirstOccurrences(hosts)| ==>
              FirstOccurrences(hosts)[i] != FirstOccurrences(hosts)[j]
  {
    if hosts != [] {
      FirstOccurrencesExact(hosts[..|hosts| - 1]);
      assert hosts == hosts[..|hosts| - 1] + [hosts[|hosts| - 1]];
    }
  }

  /** Later hosts come after earlier ones. */
  lemma {:induction false} FirstOccurrencesGrow(hosts: seq<string>, k: nat)
    requires k <= |hosts|
    ensures FirstOccurrences(hosts[..k]) <= FirstOccurrences(hosts)
  {
    if k == |hosts| {
      assert hosts[..k] == hosts;
    } else {
      FirstOccurrencesGrow(hosts[..|hosts| - 1], k);
      assert hosts[..|hosts| - 1][..k] == hosts[..k];
    }
  }

  // --------------------------------------------------------- HTTP derivations

  function OrElse(s: string, default: string): string {
    if s == "" then default else s
  }

  function HTTPMonitorSpec(name: string, scheme: string, host: string, ov: Overrides): MonitorSpec {
    MonitorSpec(
      TYPE_HTTP, name, ov.interval, ov.retryInterval, ov.maxRetries, ov.description, ov.resendInterval,
      ov.upsideDown, [], None, if ov.proxy != 0 then Some(ov.proxy) else None,
      Some(HTTPSpec(
        scheme + "://" + host + OrElse(ov.http.path, "/"), "", ov.http.acceptedStatusCodes, ov.http.timeout,
        ov.http.maxRedirects, ov.http.ignoreTLS, ov.http.cacheBust, ov.http.expiryNotification,
        ov.http.domainExpiryNotification, ov.http.headers, ov.http.body, "", "", "", "", "", "", "", "", "")),
      None, None, None, None, None)
  }

  function IngressMonitor(namespace: string, name: string, tlsHosts: set<string>, host: string, ov: Overrides): DesiredMonitor {
    var scheme := OrElse(ov.http.scheme, if host in tlsHosts then "https" else "http");
    DesiredMonitor(host, HTTPMonitorSpec(OrElse(ov.name, namespace + "/" + name + "/" + host), scheme, host, ov))
  }

  function HTTPRouteMonitor(namespace: string, name: string, host: string, ov: Overrides): DesiredMonitor {
    DesiredMonitor(host, HTTPMonitorSpec(OrElse(ov.name, namespace + "/" + name + "/" + host),
                                         OrElse(ov.http.scheme, "https"), host, ov))
  }

  function IngressDesired(namespace: string, name: string, tlsHosts: set<string>, hosts: seq<string>, ov: Overrides): seq<DesiredMonitor> {
    seq(|hosts|, i requires 0 <= i < |hosts| => IngressMonitor(namespace, name, tlsHosts, hosts[i], ov))
  }

  function HTTPRouteDesired(namespace: string, name: string, hosts: seq<string>, ov: Overrides): seq<DesiredMonitor> {
    seq(|hosts|, i requires 0 <= i < |hosts| => HTTPRouteMonitor(namespace, name, hosts[i], ov))
  }

  function TLSHosts(tls: seq<seq<string>>): set<string> {
    set i, j | 0 <= i < |tls| && 0 <= j < |tls[i]| :: tls[i][j]
  }

  // ------------------------------------------------------- Service derivation

  function DefaultHost(namespace: string, name: string, override: string): string {
    OrElse(override, name + "." + namespace + ".svc.cluster.local")
  }

  function FindPort(ports: seq<Port>, matches: Port -> bool): Option<int> {
    if ports == [] then None
    else if matches(ports[0]) then Some(ports[0].number)
    else FindPort(ports[1..], matches)
  }

  /** strconv.ParseInt with 32 bits decides whether the override is a port number. */
  function ResolveServicePort(ports: seq<Port>, override: string): Option<int> {
    if override == "" then
      if |ports| == 1 then Some(ports[0].number) else None
    else
      match ParseIntIn(override, -0x8000_0000, 0x7FFF_FFFF)
      case Some(n) => FindPort(ports, (p: Port) => p.number == n)
      case None => FindPort(ports, (p: Port) => p.name == override)
  }

  function ServiceMonitors(namespace: string, name: string, ports: seq<Port>, ov: Overrides): Result<seq<DesiredMonitor>> {
    var kind := OrElse(ov.kind, "HTTP");
    var spec := MonitorSpec(
      kind, OrElse(ov.name, namespace + "/" + name), ov.interval, ov.retryInterval, ov.maxRetries,
      ov.description, ov.resendInterval, ov.upsideDown, [], None,
      if ov.proxy != 0 then Some(ov.proxy) else None, None, None, None, None, None, None);
    if kind == TYPE_HTTP then
      var host := DefaultHost(namespace, name, ov.http.host);
      match ResolveServicePort(ports, ov.http.port)
      case None => Err
      case Some(port) =>
        var url := OrElse(ov.http.scheme, "http") + "://" + host + ":" + FormatInt(port) + OrElse(ov.http.path, "/");
        Ok([DesiredMonitor(host, spec.(http := Some(HTTPSpec(
          url, "", ov.http.acceptedStatusCodes, ov.http.timeout, ov.http.maxRedirects, ov.http.ignoreTLS,
          ov.http.cacheBust, ov.http.expiryNotification, ov.http.domainExpiryNotification, ov.http.headers,
          ov.http.body, "", "", "", "", "", "", "", "", ""))))])
    else if kind == TYPE_TCP then
      var host := DefaultHost(namespace, name, ov.tcp.host);
      match ResolveServicePort(ports, ov.tcp.port)
      case None => Err
      case Some(port) =>
        Ok([DesiredMonitor(host, spec.(tcp := Some(TCPSpec(
          host, port, ov.tcp.tlsMode, ov.tcp.expectedSSLAlert, ov.tcp.expiryNotification,
          ov.tcp.domainExpiryNotification))))])
    else if kind == TYPE_PING then
      var host := DefaultHost(namespace, name, ov.ping.host);
      Ok([DesiredMonitor(host, spec.(ping := Some(PingSpec(
        host, ov.ping.timeout, ov.ping.packetSize, ov.ping.domainExpiryNotification))))])
    else if kind == TYPE_DNS then
      var host := DefaultHost(namespace, name, ov.dns.host);
      Ok([DesiredMonitor(host, spec.(dns := Some(DNSSpec(
        host, ov.dns.resolverServer, ov.dns.resolveType, ov.dns.port, ov.dns.domainExpiryNotification))))])
    else if kind == TYPE_GAMEDIG then
      if ov.gamedig.game == "" then Err
      else
        var host := DefaultHost(namespace, name, ov.gamedig.host);
        match ResolveServicePort(ports, ov.gamedig.port)
        case None => Err
        case Some(port) =>
          Ok([DesiredMonitor(host, spec.(gamedig := Some(GamedigSpec(
            host, port, ov.gamedig.game, ov.gamedig.givenPortOnly, ov.gamedig.domainExpiryNotification, ""))))])
    else Err
  }

  lemma FindPortExact(ports: seq<Port>, matches: Port -> bool)
    ensures FindPort(ports, matches).Some? <==> exists p :: p in ports && matches(p)
    ensures FindPort(ports, matches).Some? ==>
              exists i :: 0 <= i < |ports| && matches(ports[i]) && ports[i].number == FindPort(ports, matches).value
                          && forall j :: 0 <= j < i ==> !matches(ports[j])
  {
    if ports != [] && !matches(ports[0]) {
      FindPortExact(ports[1..], matches);
      if FindPort(ports, matches).Some? {
        var i :| 0 <= i < |ports[1..]| && matches(ports[1..][i]) && ports[1..][i].number == FindPort(ports, matches).value
                 && forall j :: 0 <= j < i ==> !matches(ports[1..][j]);
        assert matches(ports[i + 1]) && forall j :: 0 <= j < i + 1 ==> !matches(ports[j]);
      }
    }
  }

  /** The port an override names: by number if it is one, otherwise by name. */
  predicate Names(override: string, p: Port) {
    match ParseIntIn(override, -0x8000_0000, 0x7FFF_FFFF)
    case Some(n) => p.number == n
    case None => p.name == override
  }

  /** The i-th port is the first one the override names. */
  ghost predicate FirstNamed(ports: seq<Port>, override: string, i: int) {
    0 <= i < |ports| && Names(override, ports[i]) && forall j :: 0 <= j < i ==> !Names(override, ports[j])
  }

  lemma FirstNamedIsFound(ports: seq<Port>, override: string)
    requires override != ""
    ensures ResolveServicePort(ports, override).Some? <==> exists p :: p in ports && Names(override, p)
    ensures ResolveServicePort(ports, override).Some? ==>
              exists i :: FirstNamed(ports, override, i) && ports[i].number == ResolveServicePort(ports, override).value
  {
    match ParseIntIn(override, -0x8000_0000, 0x7FFF_FFFF)
    case Some(n) => FoundIsFirst(ports, override, (p: Port) => p.number == n);
    case None => FoundIsFirst(ports, override, (p: Port) => p.name == override);
  }

  lemma FoundIsFirst(ports: seq<Port>, override: string, matches: Port -> bool)
    requires forall p :: matches(p) <==> Names(override, p)
    ensures FindPort(ports, matches).Some? <==> exists p :: p in ports && Names(override, p)
    ensures FindPort(ports, matches).Some? ==>
              exists i :: FirstNamed(ports, override, i) && ports[i].number == FindPort(ports, matches).value
  {
    FindPortExact(ports, matches);
    if FindPort(ports, matches).Some? {
      var i :| 0 <= i < |ports| && matches(ports[i]) && ports[i].number == FindPort(ports, matches).value
               && forall j :: 0 <= j < i ==> !matches(ports[j]);
      assert FirstNamed(ports, override, i);
    }
  }

  /** Exactly which port is checked: without an override the only one, with one the first that
      it names; and none in every other case. */
  lemma ResolvedPort(ports: seq<Port>, override: string, port: int)
    ensures ResolveServicePort(ports, override) == Some(port) <==>
              (if override == "" then |ports| == 1 && ports[0].number == port
               else exists i :: FirstNamed(ports, override, i) && ports[i].number == port)
    ensures ResolveServicePort(ports, override) == None <==>
              (if override == "" then |ports| != 1 else forall p :: p in ports ==> !Names(override, p))
  {
    if override != "" {
      FirstNamedIsFound(ports, override);
      forall i | FirstNamed(ports, override, i)
        ensures ResolveServicePort(ports, override) == Some(ports[i].number)
      {
        assert ports[i] in ports;
        var k :| FirstNamed(ports, override, k) && ports[k].number == ResolveServicePort(ports, override).value;
        assert i == k;
      }
    }
  }

  // --------------------------------------------------------------- all sources

  function DesiredMonitors(routes: Routes, ov: Overrides): Result<seq<DesiredMonitor>> {
    match routes
    case Ingress(namespace, name, ruleHosts, tls) =>
      Ok(IngressDesired(namespace, name, TLSHosts(tls), FirstOccurrences(ruleHosts), ov))
    case HTTPRoute(namespace, name, hostnames) =>
      Ok(HTTPRouteDesired(namespace, name, FirstOccurrences(hostnames), ov))
    case Service(namespace, name, ports) => ServiceMonitors(namespace, name, ports, ov)
  }

  ghost predicate AllWellFormed(desired: seq<DesiredMonitor>) {
    forall i :: 0 <= i < |desired| ==> WellFormed(desired[i].spec)
  }

  lemma ServiceMonitorsWellFormed(namespace: string, name: string, ports: seq<Port>, ov: Overrides)
    requires ServiceMonitors(namespace, name, ports, ov).Ok?
    ensures |ServiceMonitors(namespace, name, ports, ov).value| == 1
    ensures WellFormed(ServiceMonitors(namespace, name, ports, ov).value[0].spec)
  {}

  /** What the reconciler relies on: one well-formed monitor per host, never two for one host. */
  lemma DesiredAreDistinct(routes: Routes, ov: Overrides)
    requires DesiredMonitors(routes, ov).Ok?
    ensures DistinctHosts(DesiredMonitors(routes, ov).value)
    ensures AllWellFormed(DesiredMonitors(routes, ov).value)
    ensures routes.Ingress? ==> Hosts(DesiredMonitors(routes, ov).value) == set h | h in routes.ruleHosts && h != ""
    ensures routes.HTTPRoute? ==> Hosts(DesiredMonitors(routes, ov).value) == set h | h in routes.hostnames && h != ""
  {
    match routes
    case Ingress(namespace, name, ruleHosts, tls) => IngressAreDistinct(namespace, name, ruleHosts, tls, ov);
    case HTTPRoute(namespace, name, hostnames) => HTTPRouteAreDistinct(namespace, name, hostnames, ov);
    case Service(namespace, name, ports) => ServiceMonitorsWellFormed(namespace, name, ports, ov);
  }

  // ------------------------------------------------ what a derived monitor says

  /** The fields every derived monitor takes from the overrides. */
  predicate CommonContent(s: MonitorSpec, kind: string, name: string, ov: Overrides) {
    && s.kind == kind && s.name == name
    && s.interval == ov.interval && s.retryInterval == ov.retryInterval && s.maxRetries == ov.maxRetries
    && s.description == ov.description && s.resendInterval == ov.resendInterval && s.upsideDown == ov.upsideDown
    && s.notificationIDs == [] && s.groupID == None
    && s.proxyID == (if ov.proxy == 0 then None else Some(ov.proxy))
    && (s.http.Some? <==> kind == "HTTP") && (s.tcp.Some? <==> kind == "TCP") && (s.ping.Some? <==> kind == "Ping")
    && (s.dns.Some? <==> kind == "DNS") && (s.gamedig.Some? <==> kind == "Gamedig") && s.push == None
  }

  /** An HTTP check of this URL with the options given, and without credentials. */
  predicate HTTPContent(h: HTTPSpec, url: string, ov: HTTPOverrides) {
    && h.url == url && h.verb == "" && h.acceptedStatusCodes == ov.acceptedStatusCodes
    && h.timeout == ov.timeout && h.maxRedirects == ov.maxRedirects
    && h.ignoreTLS == ov.ignoreTLS && h.cacheBust == ov.cacheBust
    && h.expiryNotification == ov.expiryNotification && h.domainExpiryNotification == ov.domainExpiryNotification
    && h.headers == ov.headers && h.body == ov.body
    && h.authMethod == h.basicAuthUsername == h.basicAuthPassword == h.bearerToken == ""
    && h.oauthClientID == h.oauthClientSecret == h.oauthTokenURL == h.oauthScopes == h.oauthAudience == ""
  }

  /** Some tls entry lists the host. */
  predicate Listed(tls: seq<seq<string>>, host: string) {
    exists entry :: entry in tls && host in entry
  }

  lemma ListedExact(tls: seq<seq<string>>, host: string)
    ensures host in TLSHosts(tls) <==> Listed(tls, host)
  {
    if Listed(tls, host) {
      var entry :| entry in tls && host in entry;
      var i :| 0 <= i < |tls| && tls[i] == entry;
      var j :| 0 <= j < |entry| && entry[j] == host;
      assert tls[i][j] == host;
    }
    if host in TLSHosts(tls) {
      var i, j :| 0 <= i < |tls| && 0 <= j < |tls[i]| && tls[i][j] == host;
      assert tls[i] in tls && host in tls[i];
    }
  }

  /** The monitor of an Ingress host checks that host, over https exactly if a tls entry lists
      it or the override says so. */
  lemma IngressContent(namespace: string, name: string, ruleHosts: seq<string>, tls: seq<seq<string>>, ov: Overrides, i: nat)
    requires i < |DesiredMonitors(Ingress(namespace, name, ruleHosts, tls), ov).value|
    ensures
      var (host, s) := var dm := DesiredMonitors(Ingress(namespace, name, ruleHosts, tls), ov).value[i]; (dm.host, dm.spec);
      var scheme := if ov.http.scheme != "" then ov.http.scheme else if Listed(tls, host) then "https" else "http";
      && host in ruleHosts
      && CommonContent(s, "HTTP", if ov.name != "" then ov.name else namespace + "/" + name + "/" + host, ov)
      && HTTPContent(s.http.value, scheme + "://" + host + (if ov.http.path != "" then ov.http.path else "/"), ov.http)
  {
    FirstOccurrencesExact(ruleHosts);
    var host := FirstOccurrences(ruleHosts)[i];
    assert host in FirstOccurrences(ruleHosts);
    ListedExact(tls, host);
  }

  lemma HTTPRouteContent(namespace: string, name: string, hostnames: seq<string>, ov: Overrides, i: nat)
    requires i < |DesiredMonitors(HTTPRoute(namespace, name, hostnames), ov).value|
    ensures
      var (host, s) := var dm := DesiredMonitors(HTTPRoute(namespace, name, hostnames), ov).value[i]; (dm.host, dm.spec);
      && host in hostnames
      && CommonContent(s, "HTTP", if ov.name != "" then ov.name else namespace + "/" + name + "/" + host, ov)
      && HTTPContent(s.http.value, (if ov.http.scheme != "" then ov.http.scheme else "https") + "://" + host
                                   + (if ov.http.path != "" then ov.http.path else "/"), ov.http)
  {
    FirstOccurrencesExact(hostnames);
    assert FirstOccurrences(hostnames)[i] in FirstOccurrences(hostnames);
  }

  /** The port to check: the only one, or the first the override names. */
  ghost predicate Chosen(ports: seq<Port>, override: string, port: int) {
    if override == "" then |ports| == 1 && ports[0].number == port
    else exists i :: FirstNamed(ports, override, i) && ports[i].number == port
  }

  predicate Has(ports: seq<Port>, override: string) {
    if override == "" then |ports| == 1 else exists p :: p in ports && Names(override, p)
  }

  function ServiceURL(host: string, port: int, ov: HTTPOverrides): string {
    (if ov.scheme != "" then ov.scheme else "http") + "://" + host + ":" + FormatInt(port) + (if ov.path != "" then ov.path else "/")
  }

  /** The type-specific part of a Service's monitor. */
  ghost predicate ServiceDetails(ports: seq<Port>, ov: Overrides, host: string, s: MonitorSpec) {
    match s.kind
    case "HTTP" => exists port :: Chosen(ports, ov.http.port, port) && s.http.Some? && HTTPContent(s.http.value, ServiceURL(host, port, ov.http), ov.http)
    case "TCP" => exists port :: Chosen(ports, ov.tcp.port, port) && s.tcp == Some(TCPSpec(
        host, port, ov.tcp.tlsMode, ov.tcp.expectedSSLAlert, ov.tcp.expiryNotification, ov.tcp.domainExpiryNotification))
    case "Ping" => s.ping == Some(PingSpec(host, ov.ping.timeout, ov.ping.packetSize, ov.ping.domainExpiryNotification))
    case "DNS" => s.dns == Some(DNSSpec(host, ov.dns.resolverServer, ov.dns.resolveType, ov.dns.port, ov.dns.domainExpiryNotification))
    case "Gamedig" => ov.gamedig.game != "" && exists port :: Chosen(ports, ov.gamedig.port, port) && s.gamedig == Some(GamedigSpec(
        host, port, ov.gamedig.game, ov.gamedig.givenPortOnly, ov.gamedig.domainExpiryNotification, ""))
    case _ => false
  }

  /** The host given for this kind of check. */
  function GivenHost(kind: string, ov: Overrides): string {
    match kind
    case "HTTP" => ov.http.host
    case "TCP" => ov.tcp.host
    case "Ping" => ov.ping.host
    case "DNS" => ov.dns.host
    case _ => ov.gamedig.host
  }

  lemma ChosenPort(ports: seq<Port>, override: string)
    ensures ResolveServicePort(ports, override).Some? <==> Has(ports, override)
    ensures Has(ports, override) ==> Chosen(ports, override, ResolveServicePort(ports, override).value)
  {
    var found := ResolveServicePort(ports, override);
    ResolvedPort(ports, override, if found.Some? then found.value else 0);
  }

  /** A Service derives a monitor exactly if its kind is known, a port can be chosen where the
      kind needs one, and a Gamedig check names its game. */
  lemma ServiceDerives(namespace: string, name: string, ports: seq<Port>, ov: Overrides)
    ensures
      var kind := if ov.kind == "" then "HTTP" else ov.kind;
      ServiceMonitors(namespace, name, ports, ov).Ok? <==>
        || (kind == "HTTP" && Has(ports, ov.http.port))
        || (kind == "TCP" && Has(ports, ov.tcp.port))
        || kind == "Ping" || kind == "DNS"
        || (kind == "Gamedig" && ov.gamedig.game != "" && Has(ports, ov.gamedig.port))
  {
    ChosenPort(ports, ov.http.port);
    ChosenPort(ports, ov.tcp.port);
    ChosenPort(ports, ov.gamedig.port);
  }

  lemma ServiceCommon(namespace: string, name: string, ports: seq<Port>, ov: Overrides)
    requires ServiceMonitors(namespace, name, ports, ov).Ok?
    ensures |ServiceMonitors(namespace, name, ports, ov).value| == 1
    ensures
      var kind, dm := if ov.kind == "" then "HTTP" else ov.kind, ServiceMonitors(namespace, name, ports, ov).value[0];
      && CommonContent(dm.spec, kind, if ov.name != "" then ov.name else namespace + "/" + name, ov)
      && dm.host == (if GivenHost(kind, ov) == "" then name + "." + namespace + ".svc.cluster.local" else GivenHost(kind, ov))
  {}

  /** That monitor checks the Service's in-cluster name, or the host given, on the chosen port. */
  lemma ServiceContent(namespace: string, name: string, ports: seq<Port>, ov: Overrides)
    requires ServiceMonitors(namespace, name, ports, ov).Ok?
    ensures |ServiceMonitors(namespace, name, ports, ov).value| == 1
    ensures
      var kind, dm := if ov.kind == "" then "HTTP" else ov.kind, ServiceMonitors(namespace, name, ports, ov).value[0];
      && CommonContent(dm.spec, kind, if ov.name != "" then ov.name else namespace + "/" + name, ov)
      && dm.host == (if GivenHost(kind, ov) == "" then name + "." + namespace + ".svc.cluster.local" else GivenHost(kind, ov))
      && ServiceDetails(ports, ov, dm.host, dm.spec)
  {
    ServiceCommon(namespace, name, ports, ov);
    var dm := ServiceMonitors(namespace, name, ports, ov).value[0];
    if dm.spec.kind == TYPE_HTTP {
      ChosenPort(ports, ov.http.port);
      var port := ResolveServicePort(ports, ov.http.port).value;
      assert HTTPContent(dm.spec.http.value, ServiceURL(dm.host, port, ov.http), ov.http);
    } else if dm.spec.kind == TYPE_TCP {
      ChosenPort(ports, ov.tcp.port);
    } else if dm.spec.kind == TYPE_GAMEDIG {
      ChosenPort(ports, ov.gamedig.port);
    }
  }

  lemma OneMonitorPerHost(hosts: seq<string>, desired: seq<DesiredMonitor>)
    requires |desired| == |FirstOccurrences(hosts)|
    requires forall i :: 0 <= i < |desired| ==> desired[i].host == FirstOccurrences(hosts)[i]
    ensures DistinctHosts(desired) && Hosts(desired) == set h | h in hosts && h != ""
  {
    FirstOccurrencesExact(hosts);
    var wanted := set h | h in hosts && h != "";
    forall h | h in wanted
      ensures h in Hosts(desired)
    {
      var i :| 0 <= i < |desired| && FirstOccurrences(hosts)[i] == h;
      assert desired[i].host == h;
    }
    forall h | h in Hosts(desired)
      ensures h in wanted
    {
      assert h in FirstOccurrences(hosts);
    }
  }

  lemma IngressAreDistinct(namespace: string, name: string, ruleHosts: seq<string>, tls: seq<seq<string>>, ov: Overrides)
    ensures
      var desired := DesiredMonitors(Ingress(namespace, name, ruleHosts, tls), ov).value;
      DistinctHosts(desired) && AllWellFormed(desired) && Hosts(desired) == set h | h in ruleHosts && h != ""
  {
    OneMonitorPerHost(ruleHosts, DesiredMonitors(Ingress(namespace, name, ruleHosts, tls), ov).value);
  }

  lemma HTTPRouteAreDistinct(namespace: string, name: string, hostnames: seq<string>, ov: Overrides)
    ensures
      var desired := DesiredMonitors(HTTPRoute(namespace, name, hostnames), ov).value;
      DistinctHosts(desired) && AllWellFormed(desired) && Hosts(desired) == set h | h in hostnames && h != ""
  {
    OneMonitorPerHost(hostnames, DesiredMonitors(HTTPRoute(namespace, name, hostnames), ov).value);
  }

  // ------------------------------------------------------ the loops as written

  method IngressMonitors(namespace: string, name: string, ruleHosts: seq<string>, tls: seq<seq<string>>, ov: Overrides)
    returns (out: seq<DesiredMonitor>)
    ensures DesiredMonitors(Ingress(namespace, name, ruleHosts, tls), ov) == Ok(out)
  {
    var tlsHosts: set<string> := {};
    for i := 0 to |tls|
      invariant tlsHosts == TLSHosts(tls[..i])
    {
      for j := 0 to |tls[i]|
        invariant tlsHosts == TLSHosts(tls[..i]) + set k | 0 <= k < j :: tls[i][k]
      {
        tlsHosts := tlsHosts + {tls[i][j]};
      }
      AddTLSHosts(tls, i);
    }
    assert tls[..|tls|] == tls;
    var seen: set<string> := {};
    out := [];
    ghost var hosts: seq<string> := [];
    for i := 0 to |ruleHosts|
      invariant hosts == FirstOccurrences(ruleHosts[..i])
      invariant forall h :: h in seen <==> h in hosts
      invariant |out| == |hosts|
      invariant forall k :: 0 <= k < |out| ==> out[k] == IngressMonitor(namespace, name, tlsHosts, hosts[k], ov)
    {
      var host := ruleHosts[i];
      assert ruleHosts[..i + 1][..i] == ruleHosts[..i];
      if host == "" || host in seen {
        continue;
      }
      seen := seen + {host};
      var scheme := if host in tlsHosts then "https" else "http";
      if ov.http.scheme != "" {
        scheme := ov.http.scheme;
      }
      var monitorName := OrElse(ov.name, namespace + "/" + name + "/" + host);
      out := out + [DesiredMonitor(host, HTTPMonitorSpec(monitorName, scheme, host, ov))];
      hosts := hosts + [host];
    }
    assert ruleHosts[..|ruleHosts|] == ruleHosts;
    assert out == IngressDesired(namespace, name, tlsHosts, hosts, ov);
  }

  lemma AddTLSHosts(tls: seq<seq<string>>, i: nat)
    requires i < |tls|
    ensures TLSHosts(tls[..i + 1]) == TLSHosts(tls[..i]) + set k | 0 <= k < |tls[i]| :: tls[i][k]
  {
    var longer := tls[..i + 1];
    assert forall k :: 0 <= k < |tls[i]| ==> longer[i][k] in TLSHosts(longer);
    assert forall a, b :: 0 <= a < i && 0 <= b < |tls[a]| ==> longer[a][b] in TLSHosts(longer);
    assert forall a, b :: 0 <= a < i && 0 <= b < |tls[a]| ==> tls[..i][a][b] in TLSHosts(tls[..i]);
  }

  method HTTPRouteMonitors(namespace: string, name: string, hostnames: seq<string>, ov: Overrides)
    returns (out: seq<DesiredMonitor>)
    ensures DesiredMonitors(HTTPRoute(namespace, name, hostnames), ov) == Ok(out)
  {
    var scheme := "https";
    if ov.http.scheme != "" {
      scheme := ov.http.scheme;
    }
    var seen: set<string> := {};
    out := [];
    ghost var hosts: seq<string> := [];
    for i := 0 to |hostnames|
      invariant hosts == FirstOccurrences(hostnames[..i])
      invariant forall h :: h in seen <==> h in hosts
      invariant |out| == |hosts|
      invariant forall k :: 0 <= k < |out| ==> out[k] == HTTPRouteMonitor(namespace, name, hosts[k], ov)
    {
      var host := hostnames[i];
      assert hostnames[..i + 1][..i] == hostnames[..i];
      if host == "" || host in seen {
        continue;
      }
      seen := seen + {host};
      var monitorName := OrElse(ov.name, namespace + "/" + name + "/" + host);
      out := out + [DesiredMonitor(host, HTTPMonitorSpec(monitorName, scheme, host, ov))];
      hosts := hosts + [host];
    }
    assert hostnames[..|hostnames|] == hostnames;
    assert out == HTTPRouteDesired(namespace, name, hosts, ov);
  }
}
