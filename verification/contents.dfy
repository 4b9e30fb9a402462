/** What is in Kuma once a resource is settled, read off what the user wrote: the whole way from
    annotations and routing rules, or from a Monitor's spec and Secrets, to the live monitor. */
module Contents {
  import opened Wrappers
  import opened Spec
  import opened Store
  import opened Tracking
  import HM = HostMachine
  import HI = HostInvariant
  import HQ = HostQuiescence
  import HU = HostUpserts
  import MM = MonitorMachine
  import MQ = MonitorQuiescence
  import Derive
  import MonitorSecrets
  import References
  import Tags
  import Translate
  import WireFields

  // ------------------------------------------------------------ channels and group

  /** The ids are those of exactly the named channels, each once and in order. */
  ghost predicate NamesChannels(known: map<string, int>, names: seq<string>, ids: seq<int>) {
    && (forall n :: n in names ==> n in known)
    && (forall i, j :: 0 <= i < j < |ids| ==> ids[i] < ids[j])
    && (forall id :: id in ids <==> exists n :: n in names && known[n] == id)
  }

  predicate NamesGroup(groups: map<string, int>, name: string, id: Option<int>) {
    if name == "" then id == None else name in groups && id == Some(groups[name])
  }

  lemma ChannelsNamed(known: map<string, int>, names: seq<string>, ids: seq<int>)
    requires References.ResolveNotifications(known, names) == Some(ids)
    ensures NamesChannels(known, names, ids)
  {
    References.ChannelIDsExact(known, names);
    forall n | n in names
      ensures n in known && known[n] in ids
    {
      var i :| 0 <= i < |names| && names[i] == n;
      assert names[i] in known && known[names[i]] == known[n];
    }
    forall id | id in ids
      ensures exists n :: n in names && known[n] == id
    {
      var i :| 0 <= i < |names| && known[names[i]] == id;
      assert names[i] in names;
    }
  }

  // ------------------------------------------------------------- a routed resource

  predicate OptedIn(optInByDefault: bool, enabled: Option<string>) {
    if optInByDefault then enabled != Some("false") else enabled == Some("true")
  }

  /** A tag the resource is to carry: a default one, one of its own, or one of a label whose key
      some pattern matches. */
  ghost predicate Tagged(defaults: seq<string>, own: seq<string>, labels: map<string, string>, patterns: seq<string -> bool>, tag: string) {
    || tag in defaults || tag in own
    || exists key, i :: key in labels && 0 <= i < |patterns| && patterns[i](key) && tag == key + "=" + labels[key]
  }

  lemma LabelTagged(labels: map<string, string>, patterns: seq<string -> bool>, tag: string)
    ensures tag in Tags.LabelTags(labels, patterns)
       <==> exists key, i :: key in labels && 0 <= i < |patterns| && patterns[i](key) && tag == key + "=" + labels[key]
  {
    if tag in Tags.LabelTags(labels, patterns) {
      var key :| key in labels && Tags.MatchesAny(patterns, key) && tag == key + "=" + labels[key];
      var i :| 0 <= i < |patterns| && patterns[i](key);
    }
    if key, i :| key in labels && 0 <= i < |patterns| && patterns[i](key) && tag == key + "=" + labels[key] {
      assert Tags.MatchesAny(patterns, key);
    }
  }

  /** A plan comes from an opted-in resource: one entry per derived monitor, each with the ids of
      the named channels and group, and exactly the tags asked for. */
  lemma PlanContents(cfg: HM.Config, k: Kuma, r: HM.Resource, plan: HM.Plan, tag: string)
    requires HQ.OnPlan(cfg, k, r, plan)
    ensures !r.deleting && OptedIn(cfg.optInByDefault, r.manifest.enabled) && r.manifest.overrides.Some?
    ensures
      var ov := r.manifest.overrides.value;
      && Derive.DesiredMonitors(r.manifest.routes, ov).Ok?
      && var derived := Derive.DesiredMonitors(r.manifest.routes, ov).value;
         |plan.desired| == |derived|
         && forall i :: 0 <= i < |derived| ==> PlannedAs(k, ov, derived[i], plan.desired[i])
    ensures tag in plan.tags <==> Tagged(cfg.defaultTags, r.manifest.overrides.value.tags, r.manifest.labels, cfg.labelPatterns, tag)
  {
    var ov := r.manifest.overrides.value;
    var channels := References.ResolveNotifications(k.notifications, ov.notifications).value;
    ChannelsNamed(k.notifications, ov.notifications, channels);
    LabelTagged(r.manifest.labels, cfg.labelPatterns, tag);
  }

  /** Exactly when there is something to work towards: the resource is live and opted in, what it
      says makes sense, and Kuma knows the names. */
  lemma PlanExists(cfg: HM.Config, k: Kuma, r: HM.Resource)
    ensures
      (exists plan :: HQ.OnPlan(cfg, k, r, plan)) <==>
        && !r.deleting && OptedIn(cfg.optInByDefault, r.manifest.enabled)
        && r.ids.IDs? && r.manifest.overrides.Some?
        && var ov := r.manifest.overrides.value;
           && Derive.DesiredMonitors(r.manifest.routes, ov).Ok?
           && (forall n :: n in ov.notifications ==> n in k.notifications) && (ov.group == "" || ov.group in k.groups)
  {
    if r.manifest.overrides.Some? {
      var ov := r.manifest.overrides.value;
      assert References.AllKnown(k.notifications, ov.notifications) <==> forall n :: n in ov.notifications ==> n in k.notifications;
    }
    var now := HQ.PlanNow(cfg, k, r);
    if now.Some? && HQ.Wanted(cfg, r) {
      assert HQ.OnPlan(cfg, k, r, now.value);
    }
  }

  /** The derived monitor with its channels and group filled in. */
  ghost predicate PlannedAs(k: Kuma, ov: Derive.Overrides, derived: DesiredMonitor, planned: DesiredMonitor) {
    && planned.host == derived.host
    && planned.spec == derived.spec.(notificationIDs := planned.spec.notificationIDs, groupID := planned.spec.groupID)
    && NamesChannels(k.notifications, ov.notifications, planned.spec.notificationIDs)
    && NamesGroup(k.groups, ov.group, planned.spec.groupID)
  }

  /** What the user asks for on this host. */
  ghost predicate AsksFor(routes: Derive.Routes, ov: Derive.Overrides, host: string, s: MonitorSpec) {
    match routes
    case Ingress(namespace, name, ruleHosts, tls) =>
      var scheme := if ov.http.scheme != "" then ov.http.scheme else if Derive.Listed(tls, host) then "https" else "http";
      && host in ruleHosts && host != ""
      && Derive.CommonContent(s, "HTTP", if ov.name != "" then ov.name else namespace + "/" + name + "/" + host, ov)
      && Derive.HTTPContent(s.http.value, scheme + "://" + host + (if ov.http.path != "" then ov.http.path else "/"), ov.http)
    case HTTPRoute(namespace, name, hostnames) =>
      && host in hostnames && host != ""
      && Derive.CommonContent(s, "HTTP", if ov.name != "" then ov.name else namespace + "/" + name + "/" + host, ov)
      && Derive.HTTPContent(s.http.value, (if ov.http.scheme != "" then ov.http.scheme else "https") + "://" + host
                                          + (if ov.http.path != "" then ov.http.path else "/"), ov.http)
    case Service(namespace, name, ports) =>
      var kind := if ov.kind == "" then "HTTP" else ov.kind;
      && host == (if Derive.GivenHost(kind, ov) == "" then name + "." + namespace + ".svc.cluster.local" else Derive.GivenHost(kind, ov))
      && Derive.CommonContent(s, kind, if ov.name != "" then ov.name else namespace + "/" + name, ov)
      && Derive.ServiceDetails(ports, ov, host, s)
  }

  lemma DerivedAsks(routes: Derive.Routes, ov: Derive.Overrides, i: nat)
    requires Derive.DesiredMonitors(routes, ov).Ok? && i < |Derive.DesiredMonitors(routes, ov).value|
    ensures
      var dm := Derive.DesiredMonitors(routes, ov).value[i];
      AsksFor(routes, ov, dm.host, dm.spec)
  {
    match routes
    case Ingress(namespace, name, ruleHosts, tls) =>
      Derive.IngressContent(namespace, name, ruleHosts, tls, ov, i);
      Derive.FirstOccurrencesExact(ruleHosts);
      assert Derive.FirstOccurrences(ruleHosts)[i] in Derive.FirstOccurrences(ruleHosts);
    case HTTPRoute(namespace, name, hostnames) =>
      Derive.HTTPRouteContent(namespace, name, hostnames, ov, i);
      Derive.FirstOccurrencesExact(hostnames);
      assert Derive.FirstOccurrences(hostnames)[i] in Derive.FirstOccurrences(hostnames);
    case Service(namespace, name, ports) => Derive.ServiceContent(namespace, name, ports, ov);
  }

  /** The live monitor is what `s` says, with these channels and group, where an unset field may
      stand for its default. */
  ghost predicate LiveAs(k: Kuma, notifications: seq<string>, group: string, s: MonitorSpec, live: MonitorSpec) {
    exists channels, g ::
      && NamesChannels(k.notifications, notifications, channels) && NamesGroup(k.groups, group, g)
      && WireFields.SameFields(s.(notificationIDs := channels, groupID := g), live)
      && WireFields.SameDetails(s, live)
  }

  lemma PlannedIsLive(k: Kuma, ov: Derive.Overrides, derived: DesiredMonitor, planned: DesiredMonitor, live: MonitorSpec)
    requires PlannedAs(k, ov, derived, planned) && Translate.Equivalent(planned.spec, live)
    ensures LiveAs(k, ov.notifications, ov.group, derived.spec, live)
  {
    WireFields.EquivalentFields(planned.spec, live);
    var s := derived.spec.(notificationIDs := planned.spec.notificationIDs, groupID := planned.spec.groupID);
    assert WireFields.SameFields(s, live) && WireFields.SameDetails(derived.spec, live);
  }

  /** In a settled state every tracked host's monitor exists in Kuma and is what the user asks for
      on that host, field by field. */
  lemma SettledContents(cfg: HM.Config, who: Owner, l: HM.Local, r: HM.Resource, plan: HM.Plan, host: string)
    requires HM.CollisionFree(cfg) && HI.Inv(cfg, who, l) && HQ.Settled(cfg, l, r, plan) && r.ids.IDs? && host in r.ids.m
    ensures r.manifest.overrides.Some? && IDOf(r.ids.m[host]) in l.kuma.monitors
    ensures exists s ::
      && AsksFor(r.manifest.routes, r.manifest.overrides.value, host, s)
      && LiveAs(l.kuma, r.manifest.overrides.value.notifications, r.manifest.overrides.value.group, s,
                l.kuma.monitors[IDOf(r.ids.m[host])])
  {
    var ov := r.manifest.overrides.value;
    var derived := Derive.DesiredMonitors(r.manifest.routes, ov).value;
    PlanContents(cfg, l.kuma, r, plan, "");
    HQ.PlanHasIDs(cfg, l.kuma, r, plan);
    assert HI.HashSound(cfg, r.hash, r.ids.m);
    assert host in Derive.Hosts(plan.desired);
    HU.SpecForIsDesired(plan.desired, host);
    var spec := HM.SpecFor(plan.desired, host).value;
    var i :| 0 <= i < |plan.desired| && plan.desired[i] == DesiredMonitor(host, spec);
    assert HM.Matches(spec, plan.existing[host], l.kuma.monitors);
    DerivedAsks(r.manifest.routes, ov, i);
    PlannedIsLive(l.kuma, ov, derived[i], plan.desired[i], l.kuma.monitors[IDOf(r.ids.m[host])]);
  }

  lemma SameHosts(a: seq<DesiredMonitor>, b: seq<DesiredMonitor>)
    requires |a| == |b| && forall i :: 0 <= i < |a| ==> a[i].host == b[i].host
    ensures Derive.Hosts(a) == Derive.Hosts(b)
  {
    forall h | h in Derive.Hosts(a)
      ensures h in Derive.Hosts(b)
    {
      var i :| 0 <= i < |a| && a[i].host == h;
      assert b[i].host == h;
    }
  }

  /** And the tracked hosts are exactly those the user asks for. */
  lemma SettledHosts(cfg: HM.Config, who: Owner, l: HM.Local, r: HM.Resource, plan: HM.Plan)
    requires HM.CollisionFree(cfg) && HI.Inv(cfg, who, l) && HQ.Settled(cfg, l, r, plan) && r.ids.IDs?
    ensures
      match r.manifest.routes
      case Ingress(_, _, ruleHosts, _) => r.ids.m.Keys == set h | h in ruleHosts && h != ""
      case HTTPRoute(_, _, hostnames) => r.ids.m.Keys == set h | h in hostnames && h != ""
      case Service(_, _, _) => |r.ids.m.Keys| == 1
  {
    var derived := Derive.DesiredMonitors(r.manifest.routes, r.manifest.overrides.value).value;
    PlanContents(cfg, l.kuma, r, plan, "");
    SameHosts(plan.desired, derived);
    assert HI.HashSound(cfg, r.hash, r.ids.m);
    Derive.DesiredAreDistinct(r.manifest.routes, r.manifest.overrides.value);
    if r.manifest.routes.Service? {
      Derive.ServiceMonitorsWellFormed(r.manifest.routes.namespace, r.manifest.routes.name, r.manifest.routes.ports, r.manifest.overrides.value);
      assert Derive.Hosts(derived) == {derived[0].host};
    }
  }

  // --------------------------------------------------------------------- a Monitor

  /** In a settled state the tracked monitor is the Monitor's spec, field by field, with the
      present value of each referenced Secret in its own field. */
  lemma SettledMonitorContents(l: MM.Local, m: MM.Monitor, desired: MonitorSpec)
    requires MQ.Settled(l, m, desired)
    ensures IDOf(m.monitorID) in l.kuma.monitors
    ensures MonitorSecrets.Placed(m.spec, desired, {l.secrets})
    ensures LiveAs(l.kuma, m.spec.notifications, m.spec.group, desired, l.kuma.monitors[IDOf(m.monitorID)])
  {
    MonitorSecrets.ServedIsPlaced(l.kuma, l.secrets, m, desired);
    ChannelsNamed(l.kuma.notifications, m.spec.notifications, desired.notificationIDs);
    var live := l.kuma.monitors[IDOf(m.monitorID)];
    WireFields.EquivalentFields(desired, live);
    assert desired.(notificationIDs := desired.notificationIDs, groupID := desired.groupID) == desired;
    assert NamesGroup(l.kuma.groups, m.spec.group, desired.groupID);
  }

  lemma MonitorTags(cfg: MM.Config, m: MM.Monitor, tag: string)
    ensures tag in MM.TagNames(cfg, m) <==> Tagged(cfg.defaultTags, m.spec.tags, m.labels, cfg.labelPatterns, tag)
  {
    LabelTagged(m.labels, cfg.labelPatterns, tag);
  }
}
