/** The reconcile of a routed resource as the code performs it, call by call
    (internal/controller/host_reconciler.go, internal/controller/sync.go). Every method ends
    in the phase of the state machine that its calls lead to, whatever others do meanwhile. */
module HostReconciler {
  import opened Wrappers
  import opened Spec
  import opened Strconv
  import opened Store
  import opened Tracking
  import opened HostMachine
  import opened Server
  import opened Iteration
  import S = System
  import Derive
  import References
  import Tags
  import Translate
  import HostUpserts
  import Quiescence
  import Cleanup
  import HostLeaving

  // ------------------------------------------------------------ loops over maps

  /** The part of `m` that a loop in this order has not visited yet. */
  function Rest<V>(m: map<string, V>, order: seq<string>, i: nat): map<string, V>
    requires i <= |order|
  {
    map h | h in m && h in order[i..] :: m[h]
  }

  lemma RestStart<V>(m: map<string, V>, order: seq<string>, keys: set<string>)
    requires Enumerates(order, keys) && m.Keys <= keys
    ensures Rest(m, order, 0) == m
  {
    assert order[0..] == order;
  }

  lemma RestStep<V>(m: map<string, V>, order: seq<string>, keys: set<string>, i: nat)
    requires Enumerates(order, keys) && i < |order|
    ensures Rest(m, order, i + 1) == Rest(m, order, i) - {order[i]}
    ensures order[i] in m ==> order[i] in Rest(m, order, i)
    ensures order[i] !in m ==> Rest(m, order, i + 1) == Rest(m, order, i)
  {
    var rest := order[i + 1..];
    assert order[i..] == [order[i]] + rest;
    assert order[i] !in rest by {
      assert forall j :: 0 <= j < |rest| ==> rest[j] != order[i];
    }
    assert forall h :: h in order[i..] <==> h == order[i] || h in rest;
  }

  lemma RestEnd<V>(m: map<string, V>, order: seq<string>)
    ensures Rest(m, order, |order|) == map[]
  {}

  // -------------------------------------------------------------------- pieces

  /** The specs by host: of several entries for one host the last. */
  method ByHostName(desired: seq<DesiredMonitor>) returns (byHost: map<string, MonitorSpec>)
    ensures forall h :: h in byHost <==> SpecFor(desired, h).Some?
    ensures forall h :: h in byHost ==> SpecFor(desired, h) == Some(byHost[h])
  {
    byHost := map[];
    for i := 0 to |desired|
      invariant forall h :: h in byHost <==> SpecFor(desired[..i], h).Some?
      invariant forall h :: h in byHost ==> SpecFor(desired[..i], h) == Some(byHost[h])
    {
      byHost := byHost[desired[i].host := desired[i].spec];
      assert desired[..i + 1][..i] == desired[..i];
    }
    assert desired[..|desired|] == desired;
  }

  /** specsMatch, for every order in which the tracked hosts come. */
  method SpecsMatchLoop(desired: seq<DesiredMonitor>, existing: map<string, string>, live: map<int, MonitorSpec>) returns (matches: bool)
    ensures matches == SpecsMatch(desired, existing, live)
  {
    var byHost := ByHostName(desired);
    var order := AnyOrder(existing.Keys);
    for i := 0 to |order|
      invariant forall j :: 0 <= j < i && order[j] in byHost ==> Matches(byHost[order[j]], existing[order[j]], live)
    {
      var host := order[i];
      if host !in byHost {
        continue;
      }
      if ParseInt(existing[host]).None? {
        return false;
      }
      var id := IDOf(existing[host]);
      if id !in live || !Translate.Equivalent(byHost[host], live[id]) {
        return false;
      }
    }
    return true;
  }

  /** The loop that sets the resolved references on every desired monitor, in place. */
  method AttachReferences(desired: array<DesiredMonitor>, channels: seq<int>, group: Option<int>)
    modifies desired
    ensures desired[..] == WithReferences(old(desired[..]), channels, group)
  {
    for i := 0 to desired.Length
      invariant forall j :: i <= j < desired.Length ==> desired[j] == old(desired[j])
      invariant forall j :: 0 <= j < i ==>
                  desired[j] == DesiredMonitor(old(desired[j]).host, old(desired[j]).spec.(notificationIDs := channels, groupID := group))
    {
      desired[i] := DesiredMonitor(desired[i].host, desired[i].spec.(notificationIDs := channels, groupID := group));
    }
  }

  method Attached(derived: seq<DesiredMonitor>, channels: seq<int>, group: Option<int>) returns (desired: seq<DesiredMonitor>)
    ensures desired == WithReferences(derived, channels, group)
  {
    var slice := new DesiredMonitor[|derived|](i requires 0 <= i < |derived| => derived[i]);
    assert slice[..] == derived;
    AttachReferences(slice, channels, group);
    return slice[..];
  }

  /** The tag names of the resource's monitors. */
  method MergedTags(cfg: Config, ov: Derive.Overrides, labels: map<string, string>) returns (names: seq<string>)
    ensures TagNames(cfg, ov, labels) == set t | t in names
  {
    var derived := Tags.DeriveLabelTags(labels, cfg.labelPatterns);
    names := Tags.MergeTagsLoop([cfg.defaultTags, ov.tags, derived]);
    Tags.MergeTagsExact([cfg.defaultTags, ov.tags, derived]);
    MergedMembers(cfg, ov, labels, derived, names);
  }

  lemma MergedMembers(cfg: Config, ov: Derive.Overrides, labels: map<string, string>, derived: seq<string>, names: seq<string>)
    requires forall t :: t in derived <==> t in Tags.LabelTags(labels, cfg.labelPatterns)
    requires
      var sources := [cfg.defaultTags, ov.tags, derived];
      forall t :: t in names <==> exists i :: 0 <= i < |sources| && t in sources[i]
    ensures TagNames(cfg, ov, labels) == set t | t in names
  {
    var sources := [cfg.defaultTags, ov.tags, derived];
    assert sources[0] == cfg.defaultTags && sources[1] == ov.tags && sources[2] == derived;
    forall t
      ensures t in TagNames(cfg, ov, labels) <==> t in names
    {}
  }

  // ------------------------------------------------------------------- sync loops

  /** syncMonitors: one Upsert per desired host, then one Delete per host dropped. */
  method SyncMonitors(w: Server, key: Key, plan: Plan, ghost snap: Resource) returns (r: Result<map<string, string>>)
    requires w.Valid(ByHost(key)) && HostIn(w.s, key, snap, Upserts(plan, 0, map[]))
    modifies w
    ensures w.Valid(ByHost(key)) && old(w.log) <= w.log
    ensures r.Err? ==> HostIn(w.s, key, snap, Ended(Error))
    ensures r.Ok? ==> HostIn(w.s, key, snap, Reading(Keep(plan, r.value), 1))
  {
    var wanted: set<string> := {};
    var newIDs: map<string, string> := map[];
    for i := 0 to |plan.desired|
      invariant w.Valid(ByHost(key)) && old(w.log) <= w.log
      invariant HostIn(w.s, key, snap, Upserts(plan, i, newIDs))
      invariant wanted == Derive.Hosts(plan.desired[..i])
    {
      var dm := plan.desired[i];
      var id := if dm.host in plan.existing then IDOf(plan.existing[dm.host]) else 0;
      var upserted := w.Upsert(key, id, dm.spec, dm.host, snap, Upserting(plan, i, newIDs));
      if upserted.Err? {
        return Err;
      }
      newIDs := newIDs[dm.host := FormatInt(upserted.value)];
      HostUpserts.HostsStep(plan.desired, i);
      wanted := wanted + {dm.host};
    }
    assert plan.desired[..|plan.desired|] == plan.desired;
    var ok := RemoveDropped(w, key, plan, newIDs, wanted, snap);
    return if ok then Ok(newIDs) else Err;
  }

  method RemoveDropped(w: Server, key: Key, plan: Plan, newIDs: map<string, string>, wanted: set<string>, ghost snap: Resource)
    returns (ok: bool)
    requires w.Valid(ByHost(key)) && HostIn(w.s, key, snap, Removals(plan, newIDs, Dropped(plan)))
    requires wanted == Derive.Hosts(plan.desired)
    modifies w
    ensures w.Valid(ByHost(key)) && old(w.log) <= w.log
    ensures HostIn(w.s, key, snap, if ok then Reading(Keep(plan, newIDs), 1) else Ended(Error))
  {
    var order := AnyOrder(plan.existing.Keys);
    RestStart(Dropped(plan), order, plan.existing.Keys);
    for i := 0 to |order|
      invariant w.Valid(ByHost(key)) && old(w.log) <= w.log
      invariant HostIn(w.s, key, snap, Removals(plan, newIDs, Rest(Dropped(plan), order, i)))
    {
      RestStep(Dropped(plan), order, plan.existing.Keys, i);
      var host := order[i];
      if host in wanted || ParseInt(plan.existing[host]).None? {
        continue;
      }
      var deleted := w.Delete(key, IDOf(plan.existing[host]), host, snap,
                              Removing(plan, newIDs, Rest(Dropped(plan), order, i)));
      if !deleted {
        return false;
      }
    }
    RestEnd(Dropped(plan), order);
    return true;
  }

  /** reconcileDrift: one Upsert per tracked host whose monitor is missing or differs. */
  method ReconcileDrift(w: Server, key: Key, plan: Plan, live: map<int, MonitorSpec>, ghost snap: Resource)
    returns (r: Result<map<string, string>>)
    requires w.Valid(ByHost(key))
    requires HostIn(w.s, key, snap, Drifts(plan, Drifted(plan.desired, plan.existing, live), plan.existing))
    modifies w
    ensures w.Valid(ByHost(key)) && old(w.log) <= w.log
    ensures r.Err? ==> HostIn(w.s, key, snap, Ended(Error))
    ensures r.Ok? ==> HostIn(w.s, key, snap, Reading(Keep(plan, r.value), 1))
  {
    var byHost := ByHostName(plan.desired);
    var newIDs := plan.existing;
    ghost var drifted := Drifted(plan.desired, plan.existing, live);
    var order := AnyOrder(plan.existing.Keys);
    RestStart(drifted, order, plan.existing.Keys);
    for i := 0 to |order|
      invariant w.Valid(ByHost(key)) && old(w.log) <= w.log
      invariant HostIn(w.s, key, snap, Drifts(plan, Rest(drifted, order, i), newIDs))
    {
      RestStep(drifted, order, plan.existing.Keys, i);
      var host := order[i];
      if host !in byHost {
        continue;
      }
      var id := IDOf(plan.existing[host]);
      if ParseInt(plan.existing[host]).Some? && id in live && Translate.Equivalent(byHost[host], live[id]) {
        continue;
      }
      var missing := ParseInt(plan.existing[host]).None? || id !in live;
      var upserted := w.Upsert(key, if missing then 0 else id, byHost[host], host, snap,
                               Drifting(plan, Rest(drifted, order, i), newIDs));
      if upserted.Err? {
        return Err;
      }
      newIDs := newIDs[host := FormatInt(upserted.value)];
    }
    RestEnd(drifted, order);
    return Ok(newIDs);
  }

  /** deleteAllMonitors. */
  method DeleteAllMonitors(w: Server, key: Key, obj: Resource) returns (ok: bool)
    requires w.Valid(ByHost(key)) && obj.ids.IDs? && HostIn(w.s, key, obj, Deletes(obj, Parseable(obj.ids.m)))
    modifies w
    ensures w.Valid(ByHost(key)) && old(w.log) <= w.log
    ensures HostIn(w.s, key, obj, if ok then AfterDeletes(obj) else Ended(Error))
  {
    var ids := obj.ids.m;
    var order := AnyOrder(ids.Keys);
    RestStart(Parseable(ids), order, ids.Keys);
    for i := 0 to |order|
      invariant w.Valid(ByHost(key)) && old(w.log) <= w.log
      invariant HostIn(w.s, key, obj, Deletes(obj, Rest(Parseable(ids), order, i)))
    {
      RestStep(Parseable(ids), order, ids.Keys, i);
      var host := order[i];
      if ParseInt(ids[host]).None? {
        continue;
      }
      var deleted := w.Delete(key, IDOf(ids[host]), host, obj, Deleting(Rest(Parseable(ids), order, i)));
      if !deleted {
        return false;
      }
    }
    RestEnd(Parseable(ids), order);
    return true;
  }

  /** What persistMonitorIDs is asked to write. */
  ghost predicate Asks(write: Write, newIDs: map<string, string>, wantFinalizer: bool, hash: string) {
    match write
    case Keep(plan, ids) => wantFinalizer && ids == newIDs && plan.hash == hash
    case Clear => !wantFinalizer && newIDs == map[] && hash == ""
  }

  /** One try of persistMonitorIDs: read, mark, update. */
  method PersistOnce(w: Server, key: Key, newIDs: map<string, string>, wantFinalizer: bool, hash: string,
                     ghost snap: Resource, ghost write: Write, ghost tries: nat)
    returns (r: UpdateResult)
    requires w.Valid(ByHost(key)) && HostIn(w.s, key, snap, Reading(write, tries)) && Asks(write, newIDs, wantFinalizer, hash)
    modifies w
    ensures w.Valid(ByHost(key)) && old(w.log) <= w.log
    ensures r == Updated ==> HostIn(w.s, key, snap, AfterWrite(write))
    ensures r == Conflicted ==> HostIn(w.s, key, snap, if tries < MAX_TRIES then Reading(write, tries + 1) else Ended(Error))
    ensures r == Refused ==> HostIn(w.s, key, snap, Ended(Error))
  {
    var got := w.Get(key, snap, write, tries);
    if got.None? {
      return Refused;
    }
    var obj := got.value;
    obj := obj.(ids := IDs(newIDs));
    obj := obj.(hash := hash);
    obj := obj.(finalizer := wantFinalizer);
    r := w.Update(key, obj, snap, write, tries, got.value);
  }

  /** persistMonitorIDs: again on a conflict, five tries in all. */
  method PersistMonitorIDs(w: Server, key: Key, newIDs: map<string, string>, wantFinalizer: bool, hash: string,
                           ghost snap: Resource, ghost write: Write)
    returns (ok: bool)
    requires w.Valid(ByHost(key)) && HostIn(w.s, key, snap, Reading(write, 1)) && Asks(write, newIDs, wantFinalizer, hash)
    modifies w
    ensures w.Valid(ByHost(key)) && old(w.log) <= w.log
    ensures HostIn(w.s, key, snap, if ok then AfterWrite(write) else Ended(Error))
  {
    var tries := 1;
    var r := PersistOnce(w, key, newIDs, wantFinalizer, hash, snap, write, tries);
    while r == Conflicted && tries < MAX_TRIES
      invariant w.Valid(ByHost(key)) && old(w.log) <= w.log && 1 <= tries <= MAX_TRIES
      invariant r == Updated ==> HostIn(w.s, key, snap, AfterWrite(write))
      invariant r == Conflicted ==> HostIn(w.s, key, snap, if tries < MAX_TRIES then Reading(write, tries + 1) else Ended(Error))
      invariant r == Refused ==> HostIn(w.s, key, snap, Ended(Error))
    {
      tries := tries + 1;
      r := PersistOnce(w, key, newIDs, wantFinalizer, hash, snap, write, tries);
    }
    return r == Updated;
  }

  /** syncTagsForHosts. */
  method SyncTagsForHosts(w: Server, key: Key, ids: map<string, string>, names: seq<string>, ghost snap: Resource, ghost plan: Plan)
    returns (ok: bool)
    requires w.Valid(ByHost(key)) && HostIn(w.s, key, snap, Taggings(plan, ids, Parseable(ids)))
    requires plan.tags == set t | t in names
    modifies w
    ensures w.Valid(ByHost(key)) && old(w.log) <= w.log
    ensures HostIn(w.s, key, snap, Ended(if ok then InSync(plan, ids) else Error))
  {
    var order := AnyOrder(ids.Keys);
    RestStart(Parseable(ids), order, ids.Keys);
    for i := 0 to |order|
      invariant w.Valid(ByHost(key)) && old(w.log) <= w.log
      invariant HostIn(w.s, key, snap, Taggings(plan, ids, Rest(Parseable(ids), order, i)))
    {
      RestStep(Parseable(ids), order, ids.Keys, i);
      var host := order[i];
      if ParseInt(ids[host]).None? {
        continue;
      }
      var synced := w.SyncTags(key, IDOf(ids[host]), names, host, snap, plan, ids, Rest(Parseable(ids), order, i));
      if !synced {
        return false;
      }
    }
    RestEnd(Parseable(ids), order);
    return true;
  }

  // ----------------------------------------------------------------- the reconcile

  lemma VerdictHolds(cfg: S.Settings, init: S.State, log: seq<S.Action>, key: Key)
    ensures S.Initial(init) && CollisionFree(cfg.hosts) ==> HostLeaving.VerdictHolds(S.HostAt(S.Run(cfg, init, log), key))
  {
    if S.Initial(init) && CollisionFree(cfg.hosts) {
      Cleanup.HostVerdictsHold(cfg, init, log, key);
    }
  }

  /** The resource is being deleted: its monitors first, then the finalizer. */
  method CleanUp(w: Server, key: Key, obj: Resource) returns (verdict: Verdict)
    requires w.Valid(ByHost(key)) && obj.deleting && HostIn(w.s, key, obj, Start(w.cfg.hosts, obj))
    modifies w
    ensures w.Valid(ByHost(key)) && old(w.log) <= w.log && HostIn(w.s, key, obj, Ended(verdict))
    ensures S.Initial(w.start) && CollisionFree(w.cfg.hosts) ==> HostLeaving.VerdictHolds(S.HostAt(w.s, key))
  {
    if obj.ids.Malformed? {
      return Error;
    }
    var deleted := DeleteAllMonitors(w, key, obj);
    if !deleted {
      return Error;
    }
    if obj.finalizer {
      var updated := w.UpdateDropping(key, obj.(finalizer := false), obj);
      if !updated {
        return Error;
      }
    }
    VerdictHolds(w.cfg, w.start, w.log, key);
    return Gone;
  }

  /** The resource is opted out: its monitors are deleted and its marks cleared. */
  method OptOut(w: Server, key: Key, obj: Resource) returns (verdict: Verdict)
    requires w.Valid(ByHost(key)) && !obj.deleting && !ShouldSync(w.cfg.hosts.optInByDefault, obj.manifest.enabled)
    requires HostIn(w.s, key, obj, Start(w.cfg.hosts, obj))
    modifies w
    ensures w.Valid(ByHost(key)) && old(w.log) <= w.log && HostIn(w.s, key, obj, Ended(verdict))
    ensures S.Initial(w.start) && CollisionFree(w.cfg.hosts) ==> HostLeaving.VerdictHolds(S.HostAt(w.s, key))
  {
    if obj.ids.Malformed? {
      return Error;
    }
    if |obj.ids.m| == 0 && !obj.finalizer {
      VerdictHolds(w.cfg, w.start, w.log, key);
      return OptedOut;
    }
    var deleted := DeleteAllMonitors(w, key, obj);
    if !deleted {
      return Error;
    }
    var persisted := PersistMonitorIDs(w, key, map[], false, "", obj, Clear);
    VerdictHolds(w.cfg, w.start, w.log, key);
    return if persisted then OptedOut else Error;
  }

  /** resolveReferences; afterwards the attempt pursues a plan. */
  method ResolveReferences(w: Server, key: Key, obj: Resource, ov: Derive.Overrides, derived: seq<DesiredMonitor>)
    returns (r: Option<(seq<int>, Option<int>)>)
    requires w.Valid(ByHost(key)) && obj.ids.IDs?
    requires HostIn(w.s, key, obj, if ov.notifications != [] then AskingChannels(ov, derived)
                                   else WithChannels(w.cfg.hosts, obj, ov, derived, []))
    modifies w
    ensures w.Valid(ByHost(key)) && old(w.log) <= w.log
    ensures r.None? ==> HostIn(w.s, key, obj, Ended(Error))
    ensures r.Some? ==> HostIn(w.s, key, obj, Planned(PlanFor(w.cfg.hosts, obj, ov, derived, r.value.0, r.value.1), obj))
  {
    var channels: seq<int> := [];
    if |ov.notifications| > 0 {
      var known := w.Notifications(key, obj, ov, derived);
      if known.Err? {
        return None;
      }
      var resolved := References.ResolveNames(known.value, ov.notifications);
      if resolved.None? {
        return None;
      }
      channels := resolved.value;
    }
    var group: Option<int> := None;
    if ov.group != "" {
      var found := w.FindGroup(key, ov.group, obj, ov, derived, channels);
      if found.Err? || found.value.None? {
        return None;
      }
      group := found.value;
    }
    return Some((channels, group));
  }

  /** The fingerprint is unchanged: verify, correct what drifted, then tags. */
  method VerifyUnchanged(w: Server, key: Key, plan: Plan, names: seq<string>, ghost obj: Resource) returns (verdict: Verdict)
    requires w.Valid(ByHost(key)) && HostIn(w.s, key, obj, Listing(plan)) && plan.tags == set t | t in names
    modifies w
    ensures w.Valid(ByHost(key)) && old(w.log) <= w.log && HostIn(w.s, key, obj, Ended(verdict))
  {
    var live := w.ExistingSpecs(key, obj, plan);
    if live.Err? {
      return Error;
    }
    var matches := SpecsMatchLoop(plan.desired, plan.existing, live.value);
    if matches {
      var tagged := SyncTagsForHosts(w, key, plan.existing, names, obj, plan);
      return if tagged then InSync(plan, plan.existing) else Error;
    }
    var newIDs := ReconcileDrift(w, key, plan, live.value, obj);
    if newIDs.Err? {
      return Error;
    }
    verdict := Record(w, key, plan, newIDs.value, names, obj);
  }

  /** Persist first, tags second. */
  method Record(w: Server, key: Key, plan: Plan, newIDs: map<string, string>, names: seq<string>, ghost obj: Resource)
    returns (verdict: Verdict)
    requires w.Valid(ByHost(key)) && HostIn(w.s, key, obj, Reading(Keep(plan, newIDs), 1)) && plan.tags == set t | t in names
    modifies w
    ensures w.Valid(ByHost(key)) && old(w.log) <= w.log && HostIn(w.s, key, obj, Ended(verdict))
  {
    var persisted := PersistMonitorIDs(w, key, newIDs, true, plan.hash, obj, Keep(plan, newIDs));
    if !persisted {
      return Error;
    }
    var tagged := SyncTagsForHosts(w, key, newIDs, names, obj, plan);
    return if tagged then InSync(plan, newIDs) else Error;
  }

  /** deriveMonitors for the three kinds of resource. */
  method DeriveMonitors(routes: Derive.Routes, ov: Derive.Overrides) returns (r: Result<seq<DesiredMonitor>>)
    ensures r == Derive.DesiredMonitors(routes, ov)
  {
    match routes {
      case Ingress(namespace, name, ruleHosts, tls) =>
        var out := Derive.IngressMonitors(namespace, name, ruleHosts, tls, ov);
        return Ok(out);
      case HTTPRoute(namespace, name, hostnames) =>
        var out := Derive.HTTPRouteMonitors(namespace, name, hostnames, ov);
        return Ok(out);
      case Service(namespace, name, ports) => return Derive.ServiceMonitors(namespace, name, ports, ov);
    }
  }

  /** The resource is live and opted in. */
  method Sync(w: Server, key: Key, obj: Resource) returns (verdict: Verdict)
    requires w.Valid(ByHost(key)) && !obj.deleting && ShouldSync(w.cfg.hosts.optInByDefault, obj.manifest.enabled)
    requires HostIn(w.s, key, obj, Start(w.cfg.hosts, obj))
    modifies w
    ensures w.Valid(ByHost(key)) && old(w.log) <= w.log && HostIn(w.s, key, obj, Ended(verdict))
  {
    if obj.manifest.overrides.None? || obj.ids.Malformed? {
      return Error;
    }
    var ov := obj.manifest.overrides.value;
    var derived := DeriveMonitors(obj.manifest.routes, ov);
    if derived.Err? {
      return Error;
    }
    var references := ResolveReferences(w, key, obj, ov, derived.value);
    if references.None? {
      return Error;
    }
    verdict := Pursue(w, key, ov, derived.value, references.value.0, references.value.1, obj);
  }

  /** With everything resolved: skip, correct or sync. */
  method Pursue(w: Server, key: Key, ov: Derive.Overrides, derived: seq<DesiredMonitor>, channels: seq<int>, group: Option<int>,
                obj: Resource)
    returns (verdict: Verdict)
    requires w.Valid(ByHost(key)) && obj.ids.IDs?
    requires HostIn(w.s, key, obj, Planned(PlanFor(w.cfg.hosts, obj, ov, derived, channels, group), obj))
    modifies w
    ensures w.Valid(ByHost(key)) && old(w.log) <= w.log && HostIn(w.s, key, obj, Ended(verdict))
  {
    var desired := Attached(derived, channels, group);
    var names := MergedTags(w.cfg.hosts, ov, obj.manifest.labels);
    var hash := w.cfg.hosts.digest(desired);
    var plan := Plan(desired, hash, obj.ids.m, set t | t in names);
    if hash == obj.hash {
      verdict := VerifyUnchanged(w, key, plan, names, obj);
    } else {
      var newIDs := SyncMonitors(w, key, plan, obj);
      if newIDs.Err? {
        return Error;
      }
      verdict := Record(w, key, plan, newIDs.value, names, obj);
    }
  }

  /** One whole reconcile. Whatever others do between its calls and however these end, it is a
      run of the system: the state before, then a log of steps, its own and those of others,
      that ends with the attempt over with this verdict. */
  method Reconcile(w: Server, key: Key) returns (verdict: Option<Verdict>)
    requires w.Valid(ByHost(key)) && HostIdle(w.s, key)
    modifies w
    ensures w.Valid(ByHost(key)) && HostIdle(w.s, key) && old(w.log) <= w.log
    ensures verdict.Some? ==>
              && |old(w.log)| < |w.log| && w.log[|w.log| - 1] == S.Host(key, Finish)
              && HostEnded(S.Run(w.cfg, w.start, w.log[..|w.log| - 1]), key, verdict.value)
  {
    var got := w.HostBegin(key);
    if got.None? {
      return None;
    }
    var obj := got.value;
    var v: Verdict;
    if obj.deleting {
      v := CleanUp(w, key, obj);
    } else if !ShouldSync(w.cfg.hosts.optInByDefault, obj.manifest.enabled) {
      v := OptOut(w, key, obj);
    } else {
      v := Sync(w, key, obj);
    }
    ghost var log := w.log;
    w.HostFinish(key, obj, v);
    assert w.log[..|w.log| - 1] == log;
    return Some(v);
  }

  /** What a reconcile that returned in sync leaves behind, given its log `before + during` and
      that meanwhile nobody changed what the resource asks for, its monitors, or Kuma's
      channels and groups: a settled resource. Every later reconcile then writes nothing. */
  lemma ReconcileSettles(cfg: S.Settings, init: S.State, before: seq<S.Action>, during: seq<S.Action>, key: Key,
                         plan: Plan, ids: map<string, string>)
    requires CollisionFree(cfg.hosts) && S.Initial(init) && Quiescence.AllSpareReferences(during)
    requires HostIdle(S.Run(cfg, init, before), key)
    requires HostEnded(S.Run(cfg, init, before + during), key, InSync(plan, ids))
    requires
      var slot := S.HostSlotAt(S.Run(cfg, init, before + during), key);
      && slot.cur.Some? && slot.cur.value.manifest == slot.attempt.value.snap.manifest && !slot.cur.value.deleting
      && (forall h :: h in ids ==> IDOf(ids[h]) !in slot.attempt.value.touched)
    ensures Quiescence.HostSettled(cfg, S.Run(cfg, init, before + during + [S.Host(key, Finish)]), key, plan.(existing := ids))
    ensures ids.Keys == Derive.Hosts(plan.desired)
  {
    S.RunInv(cfg, init, before);
    RunConcat(cfg, init, before, during);
    RunOne(cfg, init, before + during, S.Host(key, Finish));
    Quiescence.HostConverges(cfg, S.Run(cfg, init, before), key, during, plan, ids);
  }
}
