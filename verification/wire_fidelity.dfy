/** Every spec the operator syncs reads back from Kuma as equivalent to itself, exactly when
    binary64 holds its timeout: this is what keeps a settled resource settled on a real Kuma,
    which stores the wire form. */
module WireFidelity {
  import opened Wrappers
  import opened Spec
  import opened Translate
  import Float64
  import Strconv
  import Derive
  import HostMachine
  import MM = MonitorMachine
  import MI = MonitorInvariant
  import HQ = HostQuiescence
  import HU = HostUpserts
  import MQ = MonitorQuiescence
  import Tracking

  /** What ExistingSpecs reads back for a spec sent as monitor `id`. */
  function ReadBack(id: int, s: MonitorSpec): Result<MonitorSpec>
    requires ToBremlMonitor(id, s).Ok?
  {
    FromBremlMonitor(Stored(ToBremlMonitor(id, s).value))
  }

  lemma MonitorReadsBack(id: int, spec: MM.CRSpec, s: MonitorSpec)
    requires MM.Admitted(spec) && MI.Converts(spec, s)
    requires Strconv.IsInt64(Timeout(s)) && (s.kind == TYPE_PUSH ==> s.push.Some? && s.push.value.token != "")
    ensures ToBremlMonitor(id, s).Ok? && ReadBack(id, s).Ok?
    ensures Equivalent(s, ReadBack(id, s).value) <==> Float64.Representable(Timeout(s))
  {
    assert WellFormed(s) && (s.kind == TYPE_PUSH ==> s.proxyID.None?);
    AcceptedIff(id, s);
    RoundTrip(id, s);
  }

  lemma DerivedIsNoPush(routes: Derive.Routes, ov: Derive.Overrides, i: nat)
    requires Derive.DesiredMonitors(routes, ov).Ok? && i < |Derive.DesiredMonitors(routes, ov).value|
    ensures
      var s := Derive.DesiredMonitors(routes, ov).value[i].spec;
      s.kind != TYPE_PUSH && WellFormed(s)
  {
    Derive.DesiredAreDistinct(routes, ov);
  }

  lemma HostReadsBack(id: int, routes: Derive.Routes, ov: Derive.Overrides, channels: seq<int>, group: Option<int>, i: nat)
    requires Derive.DesiredMonitors(routes, ov).Ok? && i < |Derive.DesiredMonitors(routes, ov).value|
    requires
      var s := HostMachine.WithReferences(Derive.DesiredMonitors(routes, ov).value, channels, group)[i].spec;
      Strconv.IsInt64(Timeout(s))
    ensures
      var s := HostMachine.WithReferences(Derive.DesiredMonitors(routes, ov).value, channels, group)[i].spec;
      && ToBremlMonitor(id, s).Ok? && ReadBack(id, s).Ok?
      && (Equivalent(s, ReadBack(id, s).value) <==> Float64.Representable(Timeout(s)))
  {
    var derived := Derive.DesiredMonitors(routes, ov).value;
    var s := HostMachine.WithReferences(derived, channels, group)[i].spec;
    DerivedIsNoPush(routes, ov, i);
    assert s == derived[i].spec.(notificationIDs := channels, groupID := group);
    AcceptedIff(id, s);
    RoundTrip(id, s);
  }

  // ------------------------------------------------ the drift check on what is read back

  /** The listing a drift check gets from a Kuma that stores the wire form. */
  function ReadListing(monitors: map<int, MonitorSpec>): map<int, MonitorSpec> {
    map id | id in monitors && ToBremlMonitor(id, monitors[id]).Ok? && ReadBack(id, monitors[id]).Ok? ::
      ReadBack(id, monitors[id]).value
  }

  /** A spec a wire monitor can carry. */
  predicate Sendable(s: MonitorSpec) {
    && WellFormed(s) && Strconv.IsInt64(Timeout(s))
    && (s.kind == TYPE_PUSH ==> s.proxyID.None? && s.push.value.token != "")
  }

  lemma EquivalentIsSendable(s: MonitorSpec, live: MonitorSpec)
    requires Sendable(s) && Equivalent(s, live)
    ensures Sendable(live) && Timeout(live) == Timeout(s)
  {
    EquivalentTimeouts(s, live);
    NormalizeKeepsTimeout(live);
  }

  /** A monitor that matches its spec still matches when read back, exactly if binary64 holds
      the timeout. */
  lemma MatchReadsBack(s: MonitorSpec, id: int, monitors: map<int, MonitorSpec>)
    requires Sendable(s) && id in monitors && Equivalent(s, monitors[id])
    ensures id in ReadListing(monitors)
    ensures Equivalent(s, ReadListing(monitors)[id]) <==> Float64.Representable(Timeout(s))
  {
    var live := monitors[id];
    EquivalentIsSendable(s, live);
    AcceptedIff(id, live);
    RoundTrip(id, live);
    var back := ReadBack(id, live).value;
    if Equivalent(s, back) {
      EquivalentSymmetric(s, live);
      EquivalentTransitive(live, s, back);
    }
    if Equivalent(live, back) {
      EquivalentTransitive(s, live, back);
    }
  }

  lemma PlannedIsSendable(cfg: HostMachine.Config, l: HostMachine.Local, r: HostMachine.Resource, plan: HostMachine.Plan, h: string)
    requires HQ.Settled(cfg, l, r, plan) && HostMachine.SpecFor(plan.desired, h).Some?
    requires Strconv.IsInt64(Timeout(HostMachine.SpecFor(plan.desired, h).value))
    ensures Sendable(HostMachine.SpecFor(plan.desired, h).value)
  {
    HU.SpecForIsDesired(plan.desired, h);
    var s := HostMachine.SpecFor(plan.desired, h).value;
    var i :| 0 <= i < |plan.desired| && plan.desired[i] == DesiredMonitor(h, s);
    DerivedIsNoPush(r.manifest.routes, r.manifest.overrides.value, i);
  }

  /** The timeout of the spec a host maps to. */
  function HostTimeout(plan: HostMachine.Plan, h: string): int
    requires HostMachine.SpecFor(plan.desired, h).Some?
  {
    Timeout(HostMachine.SpecFor(plan.desired, h).value)
  }

  /** In a settled state the drift check passes on the listing read back from the wire too,
      exactly if binary64 holds the timeout of every tracked host; otherwise it never does. */
  lemma SettledReadsBack(cfg: HostMachine.Config, l: HostMachine.Local, r: HostMachine.Resource, plan: HostMachine.Plan)
    requires HQ.Settled(cfg, l, r, plan)
    requires forall h :: HostMachine.SpecFor(plan.desired, h).Some? ==> Strconv.IsInt64(HostTimeout(plan, h))
    ensures HostMachine.SpecsMatch(plan.desired, plan.existing, ReadListing(l.kuma.monitors))
       <==> forall h :: h in plan.existing && HostMachine.SpecFor(plan.desired, h).Some? ==>
              Float64.Representable(HostTimeout(plan, h))
  {
    var live, back := l.kuma.monitors, ReadListing(l.kuma.monitors);
    forall h | h in plan.existing && HostMachine.SpecFor(plan.desired, h).Some?
      ensures HostMachine.Matches(HostMachine.SpecFor(plan.desired, h).value, plan.existing[h], back)
         <==> Float64.Representable(HostTimeout(plan, h))
    {
      PlannedIsSendable(cfg, l, r, plan, h);
      assert HostMachine.Matches(HostMachine.SpecFor(plan.desired, h).value, plan.existing[h], live);
      MatchReadsBack(HostMachine.SpecFor(plan.desired, h).value, Tracking.IDOf(plan.existing[h]), live);
    }
  }

  /** The same for a settled Monitor. */
  lemma SettledMonitorReadsBack(l: MM.Local, m: MM.Monitor, desired: MonitorSpec)
    requires MQ.Settled(l, m, desired) && MM.Admitted(m.spec) && Strconv.IsInt64(Timeout(desired))
    requires desired.push.Some? ==> desired.push.value.token != ""
    ensures
      var id := Tracking.IDOf(m.monitorID);
      && id in ReadListing(l.kuma.monitors)
      && (Equivalent(desired, ReadListing(l.kuma.monitors)[id]) <==> Float64.Representable(Timeout(desired)))
  {
    assert Sendable(desired);
    MatchReadsBack(desired, Tracking.IDOf(m.monitorID), l.kuma.monitors);
  }
}
