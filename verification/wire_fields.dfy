/** What a spec becomes on the wire, field by field, and what the drift relation tells apart,
    both in terms of the spec as given and of the five defaults Kuma applies to unset fields
    (internal/kuma/translate.go). */
module WireFields {
  import opened Wrappers
  import opened Spec
  import opened Translate
  import Float64

  /** The value given, or the default where none is. */
  predicate StandsFor<T(==)>(used: T, given: T, unset: T, default: T) {
    && (given != unset ==> used == given)
    && (given == unset ==> used == default)
  }

  /** Two values that mean the same once an unset one takes the default. */
  predicate SameOrDefault<T(==)>(a: T, b: T, unset: T, default: T) {
    a == b || (a == unset && b == default) || (a == default && b == unset)
  }

  predicate Optional(used: Option<string>, given: string) {
    if given == "" then used.None? else used == Some(given)
  }

  // ------------------------------------------------------------------ what is sent

  predicate CarriesBase(b: Base, s: MonitorSpec) {
    && b.name == s.name && b.maxRetries == s.maxRetries && b.resendInterval == s.resendInterval
    && b.upsideDown == s.upsideDown && b.notificationIDs == s.notificationIDs
    && b.parent == s.groupID && b.proxyID == s.proxyID
    && Optional(b.description, s.description)
    && StandsFor(b.interval, s.interval, 0, 60)
    && StandsFor(b.retryInterval, s.retryInterval, 0, 60)
  }

  predicate CarriesHTTP(d: Details, h: HTTPSpec) {
    && d.HTTP?
    && StandsFor(d.verb, h.verb, "", "GET")
    && StandsFor(d.acceptedStatusCodes, h.acceptedStatusCodes, [], ["200-299"])
    && d.url == h.url && d.seconds == Float64.FromInt64(h.timeout) && d.maxRedirects == h.maxRedirects
    && d.ignoreTLS == h.ignoreTLS && d.cacheBust == h.cacheBust && d.expiryNotification == h.expiryNotification
    && d.domainExpiryNotification == h.domainExpiryNotification && d.headers == h.headers && d.body == h.body
    && d.authMethod == h.authMethod && d.basicAuthUser == h.basicAuthUsername && d.basicAuthPass == h.basicAuthPassword
    && d.bearerToken == h.bearerToken && d.oauthClientID == h.oauthClientID && d.oauthClientSecret == h.oauthClientSecret
    && d.oauthTokenURL == h.oauthTokenURL && d.oauthScopes == h.oauthScopes && d.oauthAudience == h.oauthAudience
    && d.oauthAuthMethod == (if h.authMethod == "oauth2-cc" then "client_secret_basic" else "")
  }

  predicate CarriesTCP(d: Details, t: TCPSpec) {
    && d.TCPPort? && d.hostname == t.host && d.port == t.port
    && d.expiryNotification == t.expiryNotification && d.domainExpiryNotification == t.domainExpiryNotification
    && Optional(d.smtpSecurity, t.tlsMode) && Optional(d.expectedTLSAlert, t.expectedSSLAlert)
  }

  predicate CarriesPing(d: Details, p: PingSpec) {
    && d.Ping? && d.hostname == p.host && d.packetSize == p.packetSize
    && d.domainExpiryNotification == p.domainExpiryNotification
    && d.pingTimeout == (if p.timeout == 0 then None else Some(Float64.FromInt64(p.timeout)))
  }

  predicate CarriesDNS(d: Details, n: DNSSpec) {
    && d.DNS? && d.hostname == n.host && d.resolverServer == n.resolverServer && d.port == n.port
    && d.domainExpiryNotification == n.domainExpiryNotification
    && StandsFor(d.resolveType, n.resolveType, "", "A")
  }

  predicate CarriesGamedig(d: Details, g: GamedigSpec) {
    && d.GameDig? && d.hostname == g.host && d.port == g.port && d.game == g.game
    && d.givenPortOnly == g.givenPortOnly && d.domainExpiryNotification == g.domainExpiryNotification
    && Optional(d.token, g.token)
  }

  predicate CarriesDetails(d: Details, s: MonitorSpec) {
    || (s.kind == "HTTP" && s.http.Some? && CarriesHTTP(d, s.http.value))
    || (s.kind == "TCP" && s.tcp.Some? && CarriesTCP(d, s.tcp.value))
    || (s.kind == "Ping" && s.ping.Some? && CarriesPing(d, s.ping.value))
    || (s.kind == "DNS" && s.dns.Some? && CarriesDNS(d, s.dns.value))
    || (s.kind == "Gamedig" && s.gamedig.Some? && CarriesGamedig(d, s.gamedig.value))
    || (s.kind == "Push" && s.push.Some? && s.push.value.token != "" && d == Push(s.push.value.token))
  }

  lemma NormalDetails(s: MonitorSpec, d: Details)
    ensures WireDetails(NormalizeSpec(s)) == Ok(d) <==> CarriesDetails(d, s)
  {
    if s.kind == TYPE_HTTP {
    } else if s.kind == TYPE_DNS {
    } else if s.kind == TYPE_PING && s.ping.Some? {
      Float64.ZeroIsZero(s.ping.value.timeout);
    } else if s.kind == TYPE_TCP {
    } else if s.kind == TYPE_GAMEDIG {
    } else {
    }
  }

  /** The wire monitor of a spec is the one that carries exactly the spec's own fields, with the
      defaults where a field is unset. */
  lemma SentFields(id: int, s: MonitorSpec, w: Wire)
    ensures ToBremlMonitor(id, s) == Ok(w) <==> w.base.id == id && CarriesBase(w.base, s) && CarriesDetails(w.details, s)
  {
    NormalDetails(s, w.details);
  }

  // ------------------------------------------------------------- what is told apart

  predicate SameHTTP(a: HTTPSpec, b: HTTPSpec) {
    && a.(verb := "", acceptedStatusCodes := []) == b.(verb := "", acceptedStatusCodes := [])
    && SameOrDefault(a.verb, b.verb, "", "GET")
    && SameOrDefault(a.acceptedStatusCodes, b.acceptedStatusCodes, [], ["200-299"])
  }

  predicate SameDNS(a: DNSSpec, b: DNSSpec) {
    && a.(resolveType := "") == b.(resolveType := "")
    && SameOrDefault(a.resolveType, b.resolveType, "", "A")
  }

  /** The common fields, intervals apart. */
  predicate SameRest(a: MonitorSpec, b: MonitorSpec) {
    && a.kind == b.kind && a.name == b.name && a.maxRetries == b.maxRetries && a.description == b.description
    && a.resendInterval == b.resendInterval && a.upsideDown == b.upsideDown
    && multiset(a.notificationIDs) == multiset(b.notificationIDs)
    && a.groupID == b.groupID && a.proxyID == b.proxyID
  }

  predicate SameFields(a: MonitorSpec, b: MonitorSpec) {
    && SameRest(a, b)
    && SameOrDefault(a.interval, b.interval, 0, 60)
    && SameOrDefault(a.retryInterval, b.retryInterval, 0, 60)
  }

  predicate SameDetails(a: MonitorSpec, b: MonitorSpec) {
    || (a.kind == "HTTP" && a.http.Some? && b.http.Some? && SameHTTP(a.http.value, b.http.value))
    || (a.kind == "TCP" && a.tcp.Some? && a.tcp == b.tcp)
    || (a.kind == "Ping" && a.ping.Some? && a.ping == b.ping)
    || (a.kind == "DNS" && a.dns.Some? && b.dns.Some? && SameDNS(a.dns.value, b.dns.value))
    || (a.kind == "Gamedig" && a.gamedig.Some? && a.gamedig == b.gamedig)
    || (a.kind == "Push" && a.push.Some? && a.push == b.push)
  }

  /** Two of the given values give the same once defaults are filled in. */
  lemma SameStandIn<T>(a: T, b: T, x: T, y: T, unset: T, default: T)
    requires StandsFor(x, a, unset, default) && StandsFor(y, b, unset, default)
    ensures x == y <==> SameOrDefault(a, b, unset, default)
  {}

  lemma NormalHTTP(s: MonitorSpec)
    requires s.kind == "HTTP" && s.http.Some?
    ensures
      var n := NormalizeSpec(s).http;
      && n.Some? && n.value.(verb := "", acceptedStatusCodes := []) == s.http.value.(verb := "", acceptedStatusCodes := [])
      && StandsFor(n.value.verb, s.http.value.verb, "", "GET")
      && StandsFor(n.value.acceptedStatusCodes, s.http.value.acceptedStatusCodes, [], ["200-299"])
  {}

  lemma SameNormalHTTP(a: MonitorSpec, b: MonitorSpec)
    requires a.kind == "HTTP" && b.kind == "HTTP" && a.http.Some? && b.http.Some?
    ensures NormalizeSpec(a).http == NormalizeSpec(b).http <==> SameHTTP(a.http.value, b.http.value)
  {
    NormalHTTP(a);
    NormalHTTP(b);
    var g, h, m, n := a.http.value, b.http.value, NormalizeSpec(a).http.value, NormalizeSpec(b).http.value;
    SameStandIn(g.verb, h.verb, m.verb, n.verb, "", "GET");
    SameStandIn(g.acceptedStatusCodes, h.acceptedStatusCodes, m.acceptedStatusCodes, n.acceptedStatusCodes, [], ["200-299"]);
    assert m == n <==> m.(verb := "", acceptedStatusCodes := []) == n.(verb := "", acceptedStatusCodes := [])
                       && m.verb == n.verb && m.acceptedStatusCodes == n.acceptedStatusCodes;
  }

  /** Normalizing touches nothing but the two intervals and the sub-spec of the type. */
  lemma NormalCommon(s: MonitorSpec)
    ensures
      var n := NormalizeSpec(s);
      && n.(interval := 0, retryInterval := 0, http := None, dns := None) == s.(interval := 0, retryInterval := 0, http := None, dns := None)
      && StandsFor(n.interval, s.interval, 0, 60) && StandsFor(n.retryInterval, s.retryInterval, 0, 60)
      && (s.kind != "HTTP" ==> n.http == s.http) && (s.kind != "DNS" ==> n.dns == s.dns)
  {}

  lemma NormalRest(s: MonitorSpec, n: MonitorSpec)
    requires n.(interval := 0, retryInterval := 0, http := None, dns := None) == s.(interval := 0, retryInterval := 0, http := None, dns := None)
    ensures
      && n.kind == s.kind && n.name == s.name && n.maxRetries == s.maxRetries && n.description == s.description
      && n.resendInterval == s.resendInterval && n.upsideDown == s.upsideDown && n.notificationIDs == s.notificationIDs
      && n.groupID == s.groupID && n.proxyID == s.proxyID
  {}

  lemma SameNormalCommon(a: MonitorSpec, b: MonitorSpec)
    ensures SameCommon(NormalizeSpec(a), NormalizeSpec(b)) <==> SameFields(a, b)
  {
    var m, n := NormalizeSpec(a), NormalizeSpec(b);
    NormalCommon(a);
    NormalCommon(b);
    NormalRest(a, m);
    NormalRest(b, n);
    SameStandIn(a.interval, b.interval, m.interval, n.interval, 0, 60);
    SameStandIn(a.retryInterval, b.retryInterval, m.retryInterval, n.retryInterval, 0, 60);
  }

  lemma SameNormalSelected(a: MonitorSpec, b: MonitorSpec)
    requires a.kind == b.kind
    ensures SameSelected(NormalizeSpec(a), NormalizeSpec(b)) <==> SameDetails(a, b)
  {
    if a.kind == TYPE_HTTP {
      if a.http.Some? && b.http.Some? {
        SameNormalHTTP(a, b);
      }
    } else if a.kind == TYPE_DNS {
    } else {
    }
  }

  /** Two specs are Equivalent exactly if every field that counts is the same, where an unset
      field is the same as its default and the order of channels does not count. */
  lemma EquivalentFields(a: MonitorSpec, b: MonitorSpec)
    ensures Equivalent(a, b) <==> SameFields(a, b) && SameDetails(a, b)
  {
    SameNormalCommon(a, b);
    if a.kind == b.kind {
      SameNormalSelected(a, b);
    }
  }

  /** So no default hides an edit: where both specs say something, they say the same. */
  lemma NothingHidden(a: MonitorSpec, b: MonitorSpec)
    requires Equivalent(a, b)
    ensures a.interval != 0 && b.interval != 0 ==> a.interval == b.interval
    ensures a.retryInterval != 0 && b.retryInterval != 0 ==> a.retryInterval == b.retryInterval
    ensures a.kind == "HTTP" ==>
              var g, h := a.http.value, b.http.value;
              && (g.verb != "" && h.verb != "" ==> g.verb == h.verb)
              && (g.acceptedStatusCodes != [] && h.acceptedStatusCodes != [] ==> g.acceptedStatusCodes == h.acceptedStatusCodes)
    ensures a.kind == "DNS" ==>
              var g, h := a.dns.value, b.dns.value;
              g.resolveType != "" && h.resolveType != "" ==> g.resolveType == h.resolveType
  {
    EquivalentFields(a, b);
  }

  /** A spec is its own normal form exactly if nothing that has a default is unset. */
  lemma NormalMeansSet(s: MonitorSpec)
    ensures NormalizeSpec(s) == s
       <==> && s.interval != 0 && s.retryInterval != 0
            && (s.kind == "HTTP" && s.http.Some? ==> s.http.value.verb != "" && s.http.value.acceptedStatusCodes != [])
            && (s.kind == "DNS" && s.dns.Some? ==> s.dns.value.resolveType != "")
  {}
}
