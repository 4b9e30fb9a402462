/** Translation between MonitorSpec and Kuma's wire monitors, and the drift relation
    (internal/kuma/translate.go). */
module Translate {
  import opened Wrappers
  import opened Spec
  import opened Iteration
  import Float64
  import Strconv

  // ---------------------------------------------------------------- wire format

  /** The fields every Kuma monitor has, as far as the operator uses them. */
  datatype Base = Base(
    id: int,
    name: string,
    interval: int,
    retryInterval: int,
    maxRetries: int,
    description: Option<string>,
    resendInterval: int,
    upsideDown: bool,
    notificationIDs: seq<int>,
    parent: Option<int>,
    proxyID: Option<int>)

  /** The type-specific part. `Other` stands for every type the operator does not manage;
      "group" is one of them. */
  datatype Details =
    | HTTP(
        url: string,
        verb: string,
        acceptedStatusCodes: seq<string>,
        seconds: real,
        maxRedirects: int,
        ignoreTLS: bool,
        cacheBust: bool,
        expiryNotification: bool,
        domainExpiryNotification: bool,
        headers: string,
        body: string,
        authMethod: string,
        basicAuthUser: string,
        basicAuthPass: string,
        bearerToken: string,
        oauthClientID: string,
        oauthClientSecret: string,
        oauthTokenURL: string,
        oauthScopes: string,
        oauthAudience: string,
        oauthAuthMethod: string)
    | TCPPort(
        hostname: string,
        port: int,
        expiryNotification: bool,
        domainExpiryNotification: bool,
        smtpSecurity: Option<string>,
        expectedTLSAlert: Option<string>)
    | Ping(hostname: string, packetSize: int, domainExpiryNotification: bool, pingTimeout: Option<real>)
    | DNS(hostname: string, resolverServer: string, resolveType: string, port: int, domainExpiryNotification: bool)
    | GameDig(
        hostname: string,
        port: int,
        game: string,
        givenPortOnly: bool,
        domainExpiryNotification: bool,
        token: Option<string>)
    | Push(pushToken: string)
    | Other(typeName: string)

  datatype Wire = Wire(base: Base, details: Details)

  // ------------------------------------------------------------------ conversion

  function OrDefault(v: int, default: int): int {
    if v == 0 then default else v
  }

  function NormalizeSpec(spec: MonitorSpec): MonitorSpec {
    var s := spec.(interval := OrDefault(spec.interval, 60), retryInterval := OrDefault(spec.retryInterval, 60));
    if s.kind == TYPE_HTTP && s.http.Some? then
      var h := s.http.value;
      s.(http := Some(h.(
        acceptedStatusCodes := if h.acceptedStatusCodes == [] then ["200-299"] else h.acceptedStatusCodes,
        verb := if h.verb == "" then "GET" else h.verb)))
    else if s.kind == TYPE_DNS && s.dns.Some? then
      var d := s.dns.value;
      s.(dns := Some(d.(resolveType := if d.resolveType == "" then "A" else d.resolveType)))
    else s
  }

  function OAuthAuthMethodFor(authMethod: string): string {
    if authMethod == "oauth2-cc" then "client_secret_basic" else ""
  }

  function NonEmpty(s: string): Option<string> {
    if s == "" then None else Some(s)
  }

  function OrEmpty(s: Option<string>): string {
    if s.Some? then s.value else ""
  }

  function WireBase(id: int, s: MonitorSpec): Base {
    Base(id, s.name, s.interval, s.retryInterval, s.maxRetries, NonEmpty(s.description),
         s.resendInterval, s.upsideDown, s.notificationIDs, s.groupID, s.proxyID)
  }

  function WireDetails(s: MonitorSpec): Result<Details> {
    if s.kind == TYPE_HTTP then
      if s.http.None? then Err
      else
        var h := s.http.value;
        Ok(HTTP(
          h.url, h.verb, h.acceptedStatusCodes, Float64.FromInt64(h.timeout), h.maxRedirects, h.ignoreTLS,
          h.cacheBust, h.expiryNotification, h.domainExpiryNotification, h.headers, h.body, h.authMethod,
          h.basicAuthUsername, h.basicAuthPassword, h.bearerToken, h.oauthClientID, h.oauthClientSecret,
          h.oauthTokenURL, h.oauthScopes, h.oauthAudience, OAuthAuthMethodFor(h.authMethod)))
    else if s.kind == TYPE_TCP then
      if s.tcp.None? then Err
      else
        var t := s.tcp.value;
        Ok(TCPPort(t.host, t.port, t.expiryNotification, t.domainExpiryNotification,
                   NonEmpty(t.tlsMode), NonEmpty(t.expectedSSLAlert)))
    else if s.kind == TYPE_PING then
      if s.ping.None? then Err
      else
        var p := s.ping.value;
        var timeout := Float64.FromInt64(p.timeout);
        Ok(Ping(p.host, p.packetSize, p.domainExpiryNotification, if timeout != 0.0 then Some(timeout) else None))
    else if s.kind == TYPE_DNS then
      if s.dns.None? then Err
      else
        var d := s.dns.value;
        Ok(DNS(d.host, d.resolverServer, d.resolveType, d.port, d.domainExpiryNotification))
    else if s.kind == TYPE_GAMEDIG then
      if s.gamedig.None? then Err
      else
        var g := s.gamedig.value;
        Ok(GameDig(g.host, g.port, g.game, g.givenPortOnly, g.domainExpiryNotification, NonEmpty(g.token)))
    else if s.kind == TYPE_PUSH then
      if s.push.None? || s.push.value.token == "" then Err
      else Ok(Push(s.push.value.token))
    else Err
  }

  function ToBremlMonitor(id: int, spec: MonitorSpec): Result<Wire> {
    var s := NormalizeSpec(spec);
    match WireDetails(s)
    case Err => Err
    case Ok(details) => Ok(Wire(WireBase(id, s), details))
  }

  function FromBremlMonitor(w: Wire): Result<MonitorSpec> {
    var b := w.base;
    var s := MonitorSpec("", b.name, b.interval, b.retryInterval, b.maxRetries, OrEmpty(b.description),
                         b.resendInterval, b.upsideDown, b.notificationIDs, b.parent, b.proxyID,
                         None, None, None, None, None, None);
    match w.details
    case HTTP(_, _, _, _, _, _, _, _, _, _, _, _, _, _, _, _, _, _, _, _, _) =>
      var d := w.details;
      Ok(s.(kind := TYPE_HTTP, http := Some(HTTPSpec(
        d.url, d.verb, d.acceptedStatusCodes, Float64.SecondsFromKuma(d.seconds), d.maxRedirects, d.ignoreTLS,
        d.cacheBust, d.expiryNotification, d.domainExpiryNotification, d.headers, d.body, d.authMethod,
        d.basicAuthUser, d.basicAuthPass, d.bearerToken, d.oauthClientID, d.oauthClientSecret,
        d.oauthTokenURL, d.oauthScopes, d.oauthAudience))))
    case TCPPort(host, port, expiry, domainExpiry, security, alert) =>
      Ok(s.(kind := TYPE_TCP, tcp := Some(TCPSpec(host, port, OrEmpty(security), OrEmpty(alert), expiry, domainExpiry))))
    case Ping(host, size, domainExpiry, timeout) =>
      Ok(s.(kind := TYPE_PING, ping := Some(PingSpec(
        host, if timeout.Some? then Float64.SecondsFromKuma(timeout.value) else 0, size, domainExpiry))))
    case DNS(host, server, resolveType, port, domainExpiry) =>
      Ok(s.(kind := TYPE_DNS, dns := Some(DNSSpec(host, server, resolveType, port, domainExpiry))))
    case GameDig(host, port, game, givenPortOnly, domainExpiry, token) =>
      Ok(s.(kind := TYPE_GAMEDIG,
            gamedig := Some(GamedigSpec(host, port, game, givenPortOnly, domainExpiry, OrEmpty(token)))))
    case Push(token) =>
      Ok(s.(kind := TYPE_PUSH, push := Some(PushSpec(token))))
    case Other(_) => Err
  }

  /** Equality of two notification lists as multisets: what the counting loop decides. */
  predicate EqualInt64Sets(a: seq<int>, b: seq<int>) {
    multiset(a) == multiset(b)
  }

  predicate SameCommon(d: MonitorSpec, l: MonitorSpec) {
    && d.kind == l.kind && d.name == l.name && d.interval == l.interval
    && d.retryInterval == l.retryInterval && d.maxRetries == l.maxRetries
    && d.description == l.description && d.resendInterval == l.resendInterval
    && d.upsideDown == l.upsideDown
    && EqualInt64Sets(d.notificationIDs, l.notificationIDs)
    && d.groupID == l.groupID && d.proxyID == l.proxyID
  }

  predicate SameSelected(d: MonitorSpec, l: MonitorSpec) {
    if d.kind == TYPE_HTTP then d.http.Some? && d.http == l.http
    else if d.kind == TYPE_TCP then d.tcp.Some? && d.tcp == l.tcp
    else if d.kind == TYPE_PING then d.ping.Some? && d.ping == l.ping
    else if d.kind == TYPE_DNS then d.dns.Some? && d.dns == l.dns
    else if d.kind == TYPE_GAMEDIG then d.gamedig.Some? && d.gamedig == l.gamedig
    else if d.kind == TYPE_PUSH then d.push.Some? && d.push == l.push
    else false
  }

  /** Whether two specs describe the same configuration: the drift relation. */
  predicate Equivalent(desired: MonitorSpec, live: MonitorSpec) {
    var d, l := NormalizeSpec(desired), NormalizeSpec(live);
    SameCommon(d, l) && SameSelected(d, l)
  }

  // ------------------------------------------------------- the counting loop

  function Get(m: map<int, int>, v: int): int {
    if v in m then m[v] else 0
  }

  /** Whether every counter is zero, looking at the counters in any order. */
  method AllZero(counts: map<int, int>) returns (zero: bool)
    ensures zero <==> forall v :: Get(counts, v) == 0
  {
    var order := AnyOrder(counts.Keys);
    for i := 0 to |order|
      invariant forall v :: v in order[..i] ==> Get(counts, v) == 0
    {
      if counts[order[i]] != 0 {
        assert Get(counts, order[i]) != 0;
        return false;
      }
      assert order[..i + 1] == order[..i] + [order[i]];
    }
    assert order[..|order|] == order;
    return true;
  }

  /** equalInt64Sets as written: count up over `a`, down over `b`, look for a leftover. */
  method EqualInt64SetsLoop(a: seq<int>, b: seq<int>) returns (equal: bool)
    ensures equal <==> EqualInt64Sets(a, b)
  {
    if |a| != |b| {
      assert |multiset(a)| == |a| && |multiset(b)| == |b|;
      return false;
    }
    var seen: map<int, int> := map[];
    for i := 0 to |a|
      invariant forall v :: Get(seen, v) == multiset(a[..i])[v]
    {
      seen := seen[a[i] := Get(seen, a[i]) + 1];
      assert a[..i + 1] == a[..i] + [a[i]];
    }
    assert a[..|a|] == a;
    for i := 0 to |b|
      invariant forall v :: Get(seen, v) + multiset(b[..i])[v] == multiset(a)[v]
    {
      seen := seen[b[i] := Get(seen, b[i]) - 1];
      assert b[..i + 1] == b[..i] + [b[i]];
    }
    assert b[..|b|] == b;
    equal := AllZero(seen);
    if equal {
      assert forall v :: multiset(a)[v] == multiset(b)[v];
      assert multiset(a) == multiset(b);
    } else {
      var v :| Get(seen, v) != 0;
      assert multiset(a)[v] != multiset(b)[v];
    }
  }

  // ------------------------------------------------- Equivalent is an equivalence

  /** Reflexive exactly on the specs whose selected sub-spec is present; on every other
      spec even an untouched monitor looks drifted. */
  lemma EquivalentReflexive(s: MonitorSpec)
    ensures Equivalent(s, s) <==> WellFormed(s)
  {}

  lemma EquivalentSymmetric(a: MonitorSpec, b: MonitorSpec)
    ensures Equivalent(a, b) ==> Equivalent(b, a)
  {}

  lemma EquivalentTransitive(a: MonitorSpec, b: MonitorSpec, c: MonitorSpec)
    requires Equivalent(a, b) && Equivalent(b, c)
    ensures Equivalent(a, c)
  {}

  // --------------------------------------------------- Equivalent and the wire

  /** The timeout the selected sub-spec carries; zero where there is none. */
  function Timeout(s: MonitorSpec): int {
    if s.kind == TYPE_HTTP && s.http.Some? then s.http.value.timeout
    else if s.kind == TYPE_PING && s.ping.Some? then s.ping.value.timeout
    else 0
  }

  /** The same wire monitor up to the order of its notification channels. */
  predicate SameWire(a: Wire, b: Wire) {
    && EqualInt64Sets(a.base.notificationIDs, b.base.notificationIDs)
    && a.(base := a.base.(notificationIDs := [])) == b.(base := b.base.(notificationIDs := []))
  }

  /** Conversion accepts a spec exactly when its sub-spec is there and a Push has a token. */
  lemma AcceptedIff(id: int, s: MonitorSpec)
    ensures ToBremlMonitor(id, s).Ok? <==> WellFormed(s) && (s.kind == TYPE_PUSH ==> s.push.value.token != "")
  {}

  /** Two accepted sub-specs of one type with timeouts binary64 holds are sent alike only
      when they are the same. */
  lemma DetailsInjective(a: MonitorSpec, b: MonitorSpec)
    requires WireDetails(a).Ok? && WireDetails(b).Ok? && a.kind == b.kind
    requires Float64.FromInt64(Timeout(a)) == Float64.FromInt64(Timeout(b)) <==> Timeout(a) == Timeout(b)
    ensures WireDetails(a) == WireDetails(b) <==> SameSelected(a, b)
  {
    if a.kind == TYPE_HTTP {
    } else if a.kind == TYPE_TCP {
    } else if a.kind == TYPE_PING {
    } else if a.kind == TYPE_DNS {
    } else if a.kind == TYPE_GAMEDIG {
    } else {
    }
  }

  lemma DetailsTellType(a: MonitorSpec, b: MonitorSpec)
    requires WireDetails(a).Ok? && WireDetails(a) == WireDetails(b)
    ensures a.kind == b.kind
  {}

  lemma NormalizeKeepsTimeout(s: MonitorSpec)
    ensures Timeout(NormalizeSpec(s)) == Timeout(s) && NormalizeSpec(s).kind == s.kind
    ensures WellFormed(NormalizeSpec(s)) == WellFormed(s)
  {}

  lemma KernelOfNormal(id: int, a: MonitorSpec, b: MonitorSpec)
    requires WireDetails(a).Ok? && WireDetails(b).Ok?
    requires Float64.FromInt64(Timeout(a)) == Float64.FromInt64(Timeout(b)) <==> Timeout(a) == Timeout(b)
    ensures SameCommon(a, b) && SameSelected(a, b)
       <==> SameWire(Wire(WireBase(id, a), WireDetails(a).value), Wire(WireBase(id, b), WireDetails(b).value))
  {
    if a.kind == b.kind {
      DetailsInjective(a, b);
    } else if WireDetails(a) == WireDetails(b) {
      DetailsTellType(a, b);
    }
  }

  /** The spec with another timeout, where its type has one. */
  function WithTimeout(s: MonitorSpec, timeout: int): MonitorSpec {
    if s.kind == TYPE_HTTP && s.http.Some? then s.(http := Some(s.http.value.(timeout := timeout)))
    else if s.kind == TYPE_PING && s.ping.Some? then s.(ping := Some(s.ping.value.(timeout := timeout)))
    else s
  }

  lemma SentAlike(id: int, s: MonitorSpec, timeout: int)
    requires ToBremlMonitor(id, s).Ok? && Float64.FromInt64(Timeout(s)) == Float64.FromInt64(timeout)
    ensures ToBremlMonitor(id, WithTimeout(s, timeout)) == ToBremlMonitor(id, s)
  {}

  lemma SentTimeout(id: int, a: MonitorSpec, b: MonitorSpec)
    requires ToBremlMonitor(id, a).Ok? && ToBremlMonitor(id, b).Ok?
    requires SameWire(ToBremlMonitor(id, a).value, ToBremlMonitor(id, b).value)
    ensures a.kind == b.kind && Float64.FromInt64(Timeout(a)) == Float64.FromInt64(Timeout(b))
  {
    NormalizeKeepsTimeout(a);
    NormalizeKeepsTimeout(b);
    DetailsTellType(NormalizeSpec(a), NormalizeSpec(b));
  }

  lemma TimeoutSet(a: MonitorSpec, b: MonitorSpec)
    requires WellFormed(a) && a.kind == b.kind && WellFormed(b)
    ensures Timeout(WithTimeout(a, Timeout(b))) == Timeout(b) && WithTimeout(a, Timeout(a)) == a
  {}

  lemma KernelOfSameTimeout(id: int, a: MonitorSpec, b: MonitorSpec)
    requires ToBremlMonitor(id, a).Ok? && ToBremlMonitor(id, b).Ok? && Timeout(a) == Timeout(b)
    ensures Equivalent(a, b) <==> SameWire(ToBremlMonitor(id, a).value, ToBremlMonitor(id, b).value)
  {
    NormalizeKeepsTimeout(a);
    NormalizeKeepsTimeout(b);
    KernelOfNormal(id, NormalizeSpec(a), NormalizeSpec(b));
  }

  lemma EquivalentTimeouts(a: MonitorSpec, b: MonitorSpec)
    requires Equivalent(a, b)
    ensures a.kind == b.kind && Timeout(a) == Timeout(b)
  {
    NormalizeKeepsTimeout(a);
    NormalizeKeepsTimeout(b);
  }

  /** What the wire tells apart, for all accepted specs: they send the same wire monitor exactly
      when their timeouts are the same binary64 number and, given the same timeout, they are
      Equivalent. */
  lemma WireKernel(id: int, a: MonitorSpec, b: MonitorSpec)
    requires ToBremlMonitor(id, a).Ok? && ToBremlMonitor(id, b).Ok?
    ensures SameWire(ToBremlMonitor(id, a).value, ToBremlMonitor(id, b).value)
       <==> (Float64.FromInt64(Timeout(a)) == Float64.FromInt64(Timeout(b)) && Equivalent(WithTimeout(a, Timeout(b)), b))
  {
    AcceptedIff(id, a);
    AcceptedIff(id, b);
    var c := WithTimeout(a, Timeout(b));
    if SameWire(ToBremlMonitor(id, a).value, ToBremlMonitor(id, b).value) {
      SentTimeout(id, a, b);
    }
    if Equivalent(c, b) {
      EquivalentTimeouts(c, b);
    }
    if Float64.FromInt64(Timeout(a)) == Float64.FromInt64(Timeout(b)) && a.kind == b.kind {
      SentAlike(id, a, Timeout(b));
      TimeoutSet(a, b);
      KernelOfSameTimeout(id, c, b);
    }
  }

  /** An int64 that binary64 holds. */
  predicate Holds(timeout: int) {
    Strconv.IsInt64(timeout) && Float64.Representable(timeout)
  }

  /** Equivalent is the kernel of the conversion together with equality of timeouts; so for
      timeouts binary64 holds it is exactly the kernel. */
  lemma EquivalentIsKernel(id: int, a: MonitorSpec, b: MonitorSpec)
    requires ToBremlMonitor(id, a).Ok? && ToBremlMonitor(id, b).Ok?
    ensures
      var same := SameWire(ToBremlMonitor(id, a).value, ToBremlMonitor(id, b).value);
      && (Equivalent(a, b) <==> same && Timeout(a) == Timeout(b))
      && (Holds(Timeout(a)) && Holds(Timeout(b)) ==> (Equivalent(a, b) <==> same))
  {
    if Equivalent(a, b) {
      EquivalentTimeouts(a, b);
    }
    if Timeout(a) == Timeout(b) {
      KernelOfSameTimeout(id, a, b);
    }
    if SameWire(ToBremlMonitor(id, a).value, ToBremlMonitor(id, b).value) {
      SentTimeout(id, a, b);
    }
    if Holds(Timeout(a)) && Holds(Timeout(b)) {
      Float64.TimeoutsDistinct(Timeout(a), Timeout(b));
    }
  }

  /** Exactly when Equivalent is not the kernel: two different timeouts that are one binary64
      number, in specs that are otherwise Equivalent. */
  lemma KernelFailsExactly(id: int, a: MonitorSpec, b: MonitorSpec)
    requires ToBremlMonitor(id, a).Ok? && ToBremlMonitor(id, b).Ok?
    ensures !(Equivalent(a, b) <==> SameWire(ToBremlMonitor(id, a).value, ToBremlMonitor(id, b).value))
       <==> (Timeout(a) != Timeout(b) && Float64.FromInt64(Timeout(a)) == Float64.FromInt64(Timeout(b))
             && Equivalent(WithTimeout(a, Timeout(b)), b))
  {
    WireKernel(id, a, b);
    EquivalentIsKernel(id, a, b);
  }

  /** Beyond binary64's integers the conversion is not injective: two different timeouts
      send the same wire monitor although they are not Equivalent. */
  lemma KernelFailsBeyondBinary64(id: int, s: MonitorSpec)
    requires s.kind == TYPE_PING && s.ping.Some?
    ensures
      var a := s.(ping := Some(s.ping.value.(timeout := Float64.TWO_TO_53)));
      var b := s.(ping := Some(s.ping.value.(timeout := Float64.TWO_TO_53 + 1)));
      ToBremlMonitor(id, a) == ToBremlMonitor(id, b) && !Equivalent(a, b)
  {}

  /** What Kuma gives back for a monitor that was sent: everything, except that a Push
      payload carries no proxy. */
  function Stored(w: Wire): Wire {
    if w.details.Push? then w.(base := w.base.(proxyID := None)) else w
  }

  /** The spec with every sub-spec its type does not select cleared. */
  function Selected(s: MonitorSpec): MonitorSpec {
    s.(http := if s.kind == TYPE_HTTP then s.http else None,
       tcp := if s.kind == TYPE_TCP then s.tcp else None,
       ping := if s.kind == TYPE_PING then s.ping else None,
       dns := if s.kind == TYPE_DNS then s.dns else None,
       gamedig := if s.kind == TYPE_GAMEDIG then s.gamedig else None,
       push := if s.kind == TYPE_PUSH then s.push else None)
  }

  function NormalForm(s: MonitorSpec): MonitorSpec {
    Selected(NormalizeSpec(s))
  }

  /** What a spec must satisfy to come back from Kuma unchanged: a timeout that binary64
      holds, and no proxy on a Push monitor. */
  predicate Faithful(s: MonitorSpec) {
    Float64.Representable(Timeout(s)) && (s.kind == TYPE_PUSH ==> s.proxyID.None?)
  }

  predicate IsNormal(s: MonitorSpec) {
    NormalizeSpec(s) == s
  }

  /** What comes back for a normal spec is normal again. */
  lemma LiveIsNormal(id: int, s: MonitorSpec)
    requires WireDetails(s).Ok? && IsNormal(s)
    ensures
      var back := FromBremlMonitor(Stored(Wire(WireBase(id, s), WireDetails(s).value)));
      back.Ok? && IsNormal(back.value)
  {
    if s.kind == TYPE_HTTP {
    } else if s.kind == TYPE_DNS {
    } else {
    }
  }

  /** The spec that comes back: the selected part, with the timeout as binary64 holds it
      and without the proxy of a Push monitor. */
  function Returned(s: MonitorSpec, timeout: int): MonitorSpec {
    var c := Selected(s).(proxyID := if s.kind == TYPE_PUSH then None else s.proxyID);
    if c.http.Some? then c.(http := Some(c.http.value.(timeout := timeout)))
    else if c.ping.Some? then c.(ping := Some(c.ping.value.(timeout := timeout)))
    else c
  }

  lemma TimedComesBackAs(id: int, s: MonitorSpec)
    requires WireDetails(s).Ok? && (s.kind == TYPE_HTTP || s.kind == TYPE_PING)
    requires Float64.FromInt64(Timeout(s)) == 0.0 ==> Float64.SecondsFromKuma(Float64.FromInt64(Timeout(s))) == 0
    ensures FromBremlMonitor(Wire(WireBase(id, s), WireDetails(s).value))
         == Ok(Returned(s, Float64.SecondsFromKuma(Float64.FromInt64(Timeout(s)))))
  {}

  lemma UntimedComesBackAs(id: int, s: MonitorSpec, timeout: int)
    requires WireDetails(s).Ok? && s.kind != TYPE_HTTP && s.kind != TYPE_PING
    ensures FromBremlMonitor(Stored(Wire(WireBase(id, s), WireDetails(s).value))) == Ok(Returned(s, timeout))
  {
    if s.kind == TYPE_TCP {
    } else if s.kind == TYPE_DNS {
    } else if s.kind == TYPE_GAMEDIG {
    } else {
    }
  }

  lemma ComesBackAs(id: int, s: MonitorSpec)
    requires WireDetails(s).Ok?
    requires Float64.FromInt64(Timeout(s)) == 0.0 ==> Float64.SecondsFromKuma(Float64.FromInt64(Timeout(s))) == 0
    ensures FromBremlMonitor(Stored(Wire(WireBase(id, s), WireDetails(s).value)))
         == Ok(Returned(s, Float64.SecondsFromKuma(Float64.FromInt64(Timeout(s)))))
  {
    if s.kind == TYPE_HTTP || s.kind == TYPE_PING {
      TimedComesBackAs(id, s);
    } else {
      UntimedComesBackAs(id, s, Float64.SecondsFromKuma(Float64.FromInt64(Timeout(s))));
    }
  }

  lemma ReturnedMatches(s: MonitorSpec, timeout: int)
    requires WellFormed(s)
    ensures
      var same := (s.kind == TYPE_HTTP || s.kind == TYPE_PING ==> timeout == Timeout(s))
                  && (s.kind == TYPE_PUSH ==> s.proxyID.None?);
      && (SameCommon(s, Returned(s, timeout)) && SameSelected(s, Returned(s, timeout)) <==> same)
      && (same ==> Returned(s, timeout) == Selected(s))
  {
    if s.kind == TYPE_HTTP {
    } else if s.kind == TYPE_PING {
    } else {
    }
  }

  lemma RoundTripOfNormal(id: int, s: MonitorSpec)
    requires WireDetails(s).Ok?
    requires Float64.SecondsFromKuma(Float64.FromInt64(Timeout(s))) == Timeout(s) <==> Float64.Representable(Timeout(s))
    requires Float64.FromInt64(Timeout(s)) == 0.0 <==> Timeout(s) == 0
    requires Float64.Representable(0)
    ensures
      var back := FromBremlMonitor(Stored(Wire(WireBase(id, s), WireDetails(s).value)));
      && back.Ok?
      && (SameCommon(s, back.value) && SameSelected(s, back.value) <==> Faithful(s))
      && (Faithful(s) ==> back.value == Selected(s))
  {
    ComesBackAs(id, s);
    ReturnedMatches(s, Float64.SecondsFromKuma(Float64.FromInt64(Timeout(s))));
  }

  /** Round trip: an accepted spec comes back from Kuma equivalent to itself exactly when
      it is faithful, and then it comes back as its normal form. An accepted spec that is
      not faithful therefore reads as drifted after every correction. */
  lemma RoundTrip(id: int, s: MonitorSpec)
    requires ToBremlMonitor(id, s).Ok?
    requires Strconv.IsInt64(Timeout(s))
    ensures
      var back := FromBremlMonitor(Stored(ToBremlMonitor(id, s).value));
      && back.Ok?
      && (Equivalent(s, back.value) <==> Faithful(s))
      && (Faithful(s) ==> back.value == NormalForm(s))
  {
    Float64.TimeoutSurvives(Timeout(s));
    Float64.ZeroIsZero(Timeout(s));
    NormalizeKeepsTimeout(s);
    RoundTripOfNormal(id, NormalizeSpec(s));
    LiveIsNormal(id, NormalizeSpec(s));
  }

  lemma OrderDoesNotMatter(w: Wire, returned: Wire)
    requires SameWire(returned, w) && FromBremlMonitor(w).Ok?
    ensures FromBremlMonitor(returned).Ok?
    ensures FromBremlMonitor(returned).value == FromBremlMonitor(w).value.(notificationIDs := returned.base.notificationIDs)
    ensures EqualInt64Sets(FromBremlMonitor(w).value.notificationIDs, FromBremlMonitor(returned).value.notificationIDs)
  {}

  lemma ReorderedIsEquivalent(s: MonitorSpec, back: MonitorSpec, channels: seq<int>)
    requires EqualInt64Sets(back.notificationIDs, channels)
    ensures Equivalent(s, back.(notificationIDs := channels)) <==> Equivalent(s, back)
  {
    NormalizeKeepsChannels(back, channels);
    ReorderedIsSame(NormalizeSpec(s), NormalizeSpec(back), channels);
  }

  lemma NormalizeKeepsChannels(s: MonitorSpec, channels: seq<int>)
    ensures NormalizeSpec(s.(notificationIDs := channels)) == NormalizeSpec(s).(notificationIDs := channels)
    ensures NormalizeSpec(s).notificationIDs == s.notificationIDs
  {}

  lemma ReorderedIsSame(d: MonitorSpec, l: MonitorSpec, channels: seq<int>)
    requires EqualInt64Sets(l.notificationIDs, channels)
    ensures SameCommon(d, l.(notificationIDs := channels)) <==> SameCommon(d, l)
    ensures SameSelected(d, l.(notificationIDs := channels)) <==> SameSelected(d, l)
  {}

  /** The same whatever order Kuma returns the channels in. */
  lemma RoundTripUpToOrder(id: int, s: MonitorSpec, returned: Wire)
    requires ToBremlMonitor(id, s).Ok? && Strconv.IsInt64(Timeout(s))
    requires SameWire(returned, Stored(ToBremlMonitor(id, s).value))
    ensures FromBremlMonitor(returned).Ok?
    ensures Equivalent(s, FromBremlMonitor(returned).value) <==> Faithful(s)
  {
    RoundTrip(id, s);
    var w := Stored(ToBremlMonitor(id, s).value);
    OrderDoesNotMatter(w, returned);
    ReorderedIsEquivalent(s, FromBremlMonitor(w).value, returned.base.notificationIDs);
  }

  // --------------------------------------------------------- listing monitors

  /** realClient.ExistingSpecs: one monitor of a type the operator does not know makes the
      whole listing fail. */
  method ExistingSpecs(monitors: seq<Wire>) returns (r: Result<map<int, MonitorSpec>>)
    ensures r.Ok? <==> forall w :: w in monitors ==> !w.details.Other?
    ensures r.Ok? ==> r.value.Keys == set w | w in monitors :: w.base.id
    ensures r.Ok? ==> forall id :: id in r.value ==>
              exists w :: w in monitors && w.base.id == id && FromBremlMonitor(w) == Ok(r.value[id])
  {
    var specs: map<int, MonitorSpec> := map[];
    for i := 0 to |monitors|
      invariant forall w :: w in monitors[..i] ==> !w.details.Other?
      invariant specs.Keys == set w | w in monitors[..i] :: w.base.id
      invariant forall id :: id in specs ==>
                  exists w :: w in monitors && w.base.id == id && FromBremlMonitor(w) == Ok(specs[id])
    {
      var spec := FromBremlMonitor(monitors[i]);
      if spec.Err? {
        return Err;
      }
      assert monitors[..i + 1] == monitors[..i] + [monitors[i]];
      specs := specs[monitors[i].base.id := spec.value];
    }
    assert monitors[..|monitors|] == monitors;
    return Ok(specs);
  }

  /** realClient.FindGroup: the first group monitor with that name. */
  method FindGroup(monitors: seq<Wire>, name: string) returns (found: Option<int>)
    ensures found.Some? <==> exists w :: w in monitors && w.details == Other("group") && w.base.name == name
    ensures found.Some? ==>
              exists w :: w in monitors && w.details == Other("group") && w.base.name == name && w.base.id == found.value
  {
    for i := 0 to |monitors|
      invariant forall w :: w in monitors[..i] ==> !(w.details == Other("group") && w.base.name == name)
    {
      if monitors[i].details == Other("group") && monitors[i].base.name == name {
        return Some(monitors[i].base.id);
      }
      assert monitors[..i + 1] == monitors[..i] + [monitors[i]];
    }
    assert monitors[..|monitors|] == monitors;
    return None;
  }

  /** A group the operator can resolve is itself a monitor ExistingSpecs cannot list: while
      a resource's group exists, every drift check against that Kuma fails. */
  method GroupBreaksDriftCheck(monitors: seq<Wire>, name: string) returns (group: Option<int>, live: Result<map<int, MonitorSpec>>)
    ensures group.Some? ==> live.Err?
  {
    group := FindGroup(monitors, name);
    live := ExistingSpecs(monitors);
  }
}
