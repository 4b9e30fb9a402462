/** The Upsert steps of a reconcile keep the invariant. */
module HostUpserts {
  import opened Wrappers
  import opened Spec
  import opened Strconv
  import opened Store
  import opened Tracking
  import opened HostMachine
  import opened HostInvariant
  import opened HostSteps
  import Derive
  import Translate

  lemma CanonicalAfter(k: Kuma, after: Kuma, who: Owner, ids: map<string, string>)
    requires Acted(k, after, who) && after.orphans == k.orphans && AllCanonical(k, who, ids)
    ensures AllCanonical(after, who, ids)
  {
    forall h | h in ids
      ensures Canonical(after, who, ids[h])
    {
      assert Canonical(k, who, ids[h]);
    }
  }

  /** One more host gathered, under a fresh id or under the id it had. */
  lemma GatherOne(k: Kuma, after: Kuma, who: Owner, id: int, spec: MonitorSpec, got: int,
                  created: set<int>, existing: map<string, string>, ids: map<string, string>, h: string)
    requires Upserted(k, after, who, id, spec, got) && AllCanonical(k, who, existing) && Injective(existing)
    requires Gathered(k, who, created, existing, ids)
    requires forall c :: c in created ==> Owned(k, who, c)
    requires h in ids ==> h in existing && ids[h] == existing[h]
    requires id != 0 ==> h in existing && id == IDOf(existing[h])
    ensures Gathered(after, who, created + (if id == 0 then {got} else {}), existing, ids[h := FormatInt(got)])
    ensures id != 0 ==> FormatInt(got) == existing[h]
  {
    UpsertedFacts(k, after, who, id, spec, got);
    CanonicalAfter(k, after, who, ids);
    var newIDs := ids[h := FormatInt(got)];
    var newCreated := created + (if id == 0 then {got} else {});
    if id != 0 {
      assert Canonical(k, who, existing[h]);
    } else {
      FreshIsNew(k, who, existing, got);
      FreshIsNew(k, who, ids, got);
    }
    GatheredCanonical(k, after, who, ids, h, got);
    GatheredInjective(k, who, created, existing, ids, h, id, got);
    forall c | c in newCreated
      ensures Tracks(newIDs, c) && !Tracks(existing, c)
    {
      if c in created {
        var g :| g in ids && IDOf(ids[g]) == c;
        assert g != h;
        assert newIDs[g] == ids[g];
      } else {
        assert IDOf(newIDs[h]) == got;
      }
    }
  }

  /** A fresh id is not among ids already in use. */
  lemma FreshIsNew(k: Kuma, who: Owner, ids: map<string, string>, got: int)
    requires AllCanonical(k, who, ids) && got !in k.owner
    ensures !Tracks(ids, got)
  {
    forall h | h in ids
      ensures IDOf(ids[h]) != got
    {
      assert Canonical(k, who, ids[h]);
    }
  }

  lemma GatheredCanonical(k: Kuma, after: Kuma, who: Owner, ids: map<string, string>, h: string, got: int)
    requires AllCanonical(after, who, ids) && ParseInt(FormatInt(got)) == Some(got) && Owned(after, who, got)
    ensures AllCanonical(after, who, ids[h := FormatInt(got)])
  {
    assert Canonical(after, who, FormatInt(got));
  }

  lemma GatheredInjective(k: Kuma, who: Owner, created: set<int>, existing: map<string, string>, ids: map<string, string>,
                          h: string, id: int, got: int)
    requires Gathered(k, who, created, existing, ids) && Injective(existing)
    requires ParseInt(FormatInt(got)) == Some(got)
    requires id == 0 ==> !Tracks(ids, got)
    requires id != 0 ==> h in existing && id == got == IDOf(existing[h])
    ensures Injective(ids[h := FormatInt(got)])
  {
    var newIDs := ids[h := FormatInt(got)];
    assert IDOf(newIDs[h]) == got;
    forall g | g in ids && g != h
      ensures IDOf(newIDs[g]) != got
    {
      if id != 0 && IDOf(ids[g]) == got {
        assert Tracks(existing, got);
      }
    }
  }

  lemma SpecForHost(desired: seq<DesiredMonitor>, i: nat)
    requires Derive.DistinctHosts(desired) && i < |desired|
    ensures SpecFor(desired, desired[i].host) == Some(desired[i].spec)
  {
    if i < |desired| - 1 {
      SpecForHost(desired[..|desired| - 1], i);
    }
  }

  lemma {:induction false} SpecForIsDesired(desired: seq<DesiredMonitor>, h: string)
    ensures SpecFor(desired, h).Some? ==>
              exists i :: 0 <= i < |desired| && desired[i] == DesiredMonitor(h, SpecFor(desired, h).value)
    ensures SpecFor(desired, h).Some? <==> h in Derive.Hosts(desired)
  {
    if desired != [] {
      var init := desired[..|desired| - 1];
      SpecForIsDesired(init, h);
      if SpecFor(init, h).Some? {
        var i :| 0 <= i < |init| && init[i] == DesiredMonitor(h, SpecFor(init, h).value);
        assert desired[i] == init[i];
      }
    }
  }

  // ------------------------------------------- what an Upsert leaves unchanged

  lemma ResourceAfter(cfg: Config, k: Kuma, after: Kuma, who: Owner, id: int, spec: MonitorSpec, got: int, r: Resource)
    requires Upserted(k, after, who, id, spec, got) && ResourceInv(cfg, k, who, r)
    requires !r.finalizer ==> r.ids.m == map[]
    ensures ResourceInv(cfg, after, who, r)
  {
    UpsertedFacts(k, after, who, id, spec, got);
    CanonicalAfter(k, after, who, r.ids.m);
  }

  lemma ConfiguredAfter(k: Kuma, after: Kuma, who: Owner, id: int, spec: MonitorSpec, got: int, touched: set<int>,
                        desired: seq<DesiredMonitor>, ids: map<string, string>, g: string)
    requires Upserted(k, after, who, id, spec, got) && g in ids && IDOf(ids[g]) != got
    requires ConfiguredAt(k, touched, desired, ids, g)
    ensures ConfiguredAt(after, touched, desired, ids, g)
  {
    UpsertedFacts(k, after, who, id, spec, got);
    assert SameAt(k, after, IDOf(ids[g]));
  }

  /** The upserted host is configured; the hosts gathered before still are. */
  lemma AllConfiguredAfter(k: Kuma, after: Kuma, who: Owner, id: int, spec: MonitorSpec, got: int, touched: set<int>,
                           desired: seq<DesiredMonitor>, ids: map<string, string>, h: string, hosts: set<string>)
    requires Upserted(k, after, who, id, spec, got) && ParseInt(FormatInt(got)) == Some(got)
    requires SpecFor(desired, h) == Some(spec) && WellFormed(spec)
    requires Injective(ids[h := FormatInt(got)]) && hosts <= ids.Keys && h !in hosts
    requires forall g :: g in hosts ==> ConfiguredAt(k, touched, desired, ids, g)
    ensures forall g :: g in hosts + {h} ==> ConfiguredAt(after, touched, desired, ids[h := FormatInt(got)], g)
  {
    UpsertedFacts(k, after, who, id, spec, got);
    Translate.EquivalentReflexive(spec);
    var newIDs := ids[h := FormatInt(got)];
    assert IDOf(newIDs[h]) == got;
    forall g | g in hosts
      ensures ConfiguredAt(after, touched, desired, newIDs, g)
    {
      assert IDOf(newIDs[g]) != got;
      ConfiguredAfter(k, after, who, id, spec, got, touched, desired, ids, g);
    }
  }

  lemma RestGoneAfter(k: Kuma, after: Kuma, who: Owner, id: int, spec: MonitorSpec, got: int,
                      existing: map<string, string>, ids: map<string, string>, h: string)
    requires Upserted(k, after, who, id, spec, got) && AllCanonical(k, who, existing) && Injective(existing)
    requires RestGone(k, existing, ids) && h in ids && h in existing && ids[h] == existing[h]
    requires if id == 0 then IDOf(existing[h]) !in k.monitors else id == IDOf(existing[h]) && FormatInt(got) == existing[h]
    ensures RestGone(after, existing, ids[h := FormatInt(got)])
  {
    UpsertedFacts(k, after, who, id, spec, got);
    var newIDs := ids[h := FormatInt(got)];
    forall g | g in existing && !(g in newIDs && newIDs[g] == existing[g])
      ensures IDOf(existing[g]) !in after.monitors
    {
      assert Canonical(k, who, existing[g]);
      assert IDOf(existing[g]) != got;
      assert SameAt(k, after, IDOf(existing[g]));
    }
  }

  // ------------------------------------------------------------------ one Upsert

  /** The state an Upsert reaches when it succeeds. */
  function Reached(l: Local, kuma: Kuma, created: set<int>): Local
    requires l.attempt.Some?
  {
    l.(kuma := kuma, attempt := Some(l.attempt.value.(created := l.attempt.value.created + created)))
  }

  lemma UnmarkedHasNoIDs(cfg: Config, who: Owner, l: Local)
    requires Inv(cfg, who, l) && l.attempt.Some? && Open(l.attempt.value.phase) && !l.attempt.value.snap.deleting
    ensures !l.attempt.value.snap.finalizer ==> l.attempt.value.snap.ids.m == map[]
    ensures l.cur.Some? && !l.cur.value.finalizer ==> l.cur.value.ids.m == map[]
    ensures l.attempt.value.snap.ids.m != map[] ==> l.cur.Some? && l.cur.value.ids == l.attempt.value.snap.ids
  {}

  lemma CoreAfter(cfg: Config, who: Owner, l: Local, kuma: Kuma, id: int, spec: MonitorSpec, got: int)
    requires Inv(cfg, who, l) && l.attempt.Some? && Open(l.attempt.value.phase) && !l.attempt.value.snap.deleting
    requires Upserted(l.kuma, kuma, who, id, spec, got)
    requires id != 0 ==> Tracks(l.attempt.value.snap.ids.m, id)
    ensures Core(cfg, who, Reached(l, kuma, if id == 0 then {got} else {}))
  {
    UpsertedFacts(l.kuma, kuma, who, id, spec, got);
    UnmarkedHasNoIDs(cfg, who, l);
    CoreHolds(cfg, who, l);
    if l.cur.Some? {
      ResourceAfter(cfg, l.kuma, kuma, who, id, spec, got, l.cur.value);
      if id == 0 {
        FreshIsNew(l.kuma, who, l.cur.value.ids.m, got);
      }
    }
    var after := Reached(l, kuma, if id == 0 then {got} else {});
    forall i | i in kuma.monitors && Owned(kuma, who, i)
      ensures AccountedFor(after, i)
    {
      if i != got {
        assert SameAt(l.kuma, kuma, i);
        assert AccountedFor(l, i);
      }
    }
  }

  /** A monitor whose creation was not acknowledged is an orphan at once. */
  lemma LostCore(cfg: Config, who: Owner, l: Local, kuma: Kuma, got: int)
    requires l.attempt.Some? && got !in l.attempt.value.created && Core(cfg, who, Reached(l, kuma, {got}))
    requires BelongsTo(kuma, who, got)
    ensures Core(cfg, who, l.(kuma := Orphan(kuma, {got})))
  {
    var full := Reached(l, kuma, {got});
    var after := l.(kuma := Orphan(kuma, {got}));
    OrphanActs(kuma, who, {got});
    if l.cur.Some? {
      forall h | h in l.cur.value.ids.m
        ensures Canonical(after.kuma, who, l.cur.value.ids.m[h])
      {
        assert Canonical(kuma, who, l.cur.value.ids.m[h]);
        assert Tracks(l.cur.value.ids.m, IDOf(l.cur.value.ids.m[h]));
      }
    }
    forall i | i in after.kuma.monitors && Owned(after.kuma, who, i)
      ensures AccountedFor(after, i)
    {
      assert Owned(kuma, who, i) && AccountedFor(full, i);
    }
  }

  lemma UpsertLost(cfg: Config, who: Owner, l: Local, kuma: Kuma, id: int, spec: MonitorSpec, got: int)
    requires Inv(cfg, who, l) && l.attempt.Some? && Open(l.attempt.value.phase) && !l.attempt.value.snap.deleting
    requires Upserted(l.kuma, kuma, who, id, spec, got)
    requires id != 0 ==> Tracks(l.attempt.value.snap.ids.m, id)
    ensures Good(cfg, who, l, Fail(l.(kuma := Orphan(kuma, if id == 0 then {got} else {}))))
  {
    CoreAfter(cfg, who, l, kuma, id, spec, got);
    UpsertedFacts(l.kuma, kuma, who, id, spec, got);
    if id == 0 {
      LostCore(cfg, who, l, kuma, got);
      OrphanActs(kuma, who, {got});
      ActedTwice(l.kuma, kuma, Orphan(kuma, {got}), who);
    } else {
      assert kuma.orphans + {} == kuma.orphans;
      assert l.attempt.value.created + {} == l.attempt.value.created;
    }
    GiveUp(cfg, who, l, l.(kuma := Orphan(kuma, if id == 0 then {got} else {})));
  }

  /** An Upsert that fails, or whose success goes unnoticed, ends the attempt safely. */
  lemma UpsertFails(cfg: Config, who: Owner, l: Local, id: int, spec: MonitorSpec, outcome: Outcome, ids: map<string, string>, host: string)
    requires Valid(l.kuma) && Inv(cfg, who, l) && l.attempt.Some? && Open(l.attempt.value.phase) && !l.attempt.value.snap.deleting
    requires id != 0 ==> Tracks(l.attempt.value.snap.ids.m, id) && BelongsTo(l.kuma, who, id)
    requires outcome != Succeeded || Upsert(l.kuma, who, id, spec).None?
    ensures Good(cfg, who, l, UpsertStep(l, who, id, spec, outcome, ids, host))
  {
    if Upsert(l.kuma, who, id, spec).Some? && outcome == Lost {
      var (kuma, got) := Upsert(l.kuma, who, id, spec).value;
      UpsertLost(cfg, who, l, kuma, id, spec, got);
    } else {
      FailKeeps(cfg, who, l);
    }
  }

  /** What an attempt that has recorded nothing knows about its first read. */
  ghost predicate SnapInv(cfg: Config, who: Owner, l: Local, snap: Resource) {
    snap.ids.IDs? && ResourceInv(cfg, l.kuma, who, snap) && VersionInv(l, snap) && Linked(l.cur, snap)
  }

  lemma AssembleAttempt(cfg: Config, who: Owner, l: Local, b: Attempt)
    requires l.attempt == Some(b) && Core(cfg, who, l) && SnapInv(cfg, who, l, b.snap)
    requires forall id :: id in b.created ==> Owned(l.kuma, who, id)
    requires PhaseInv(cfg, who, l, b)
    ensures Inv(cfg, who, l)
  {
    assert AttemptInv(cfg, who, l, b);
  }

  lemma CoreAt(cfg: Config, who: Owner, l: Local, phase: Phase)
    requires Core(cfg, who, l)
    ensures Core(cfg, who, At(l, phase))
  {
    assert forall i :: AccountedFor(l, i) ==> AccountedFor(At(l, phase), i);
  }

  lemma SnapAfter(cfg: Config, who: Owner, l: Local, kuma: Kuma, id: int, spec: MonitorSpec, got: int)
    requires Inv(cfg, who, l) && l.attempt.Some? && Open(l.attempt.value.phase) && !l.attempt.value.snap.deleting
    requires Upserted(l.kuma, kuma, who, id, spec, got)
    ensures
      var created := if id == 0 then {got} else {};
      && SnapInv(cfg, who, Reached(l, kuma, created), l.attempt.value.snap)
      && (forall c :: c in l.attempt.value.created + created && (id == 0 || c != got) ==> Owned(kuma, who, c))
  {
    UpsertedFacts(l.kuma, kuma, who, id, spec, got);
    UnmarkedHasNoIDs(cfg, who, l);
    ResourceAfter(cfg, l.kuma, kuma, who, id, spec, got, l.attempt.value.snap);
  }

  /** A successful Upsert leads to a state with the invariant, given that the phase it leads
      to has its own. */
  lemma UpsertSucceeds(cfg: Config, who: Owner, l: Local, kuma: Kuma, id: int, spec: MonitorSpec, got: int, phase: Phase)
    requires Inv(cfg, who, l) && l.attempt.Some? && Open(l.attempt.value.phase) && !l.attempt.value.snap.deleting
    requires Upserted(l.kuma, kuma, who, id, spec, got)
    requires id != 0 ==> Tracks(l.attempt.value.snap.ids.m, id) && got !in l.attempt.value.created
    requires
      var r := Reached(l, kuma, if id == 0 then {got} else {});
      PhaseInv(cfg, who, r, r.attempt.value.(phase := phase))
    ensures Good(cfg, who, l, At(Reached(l, kuma, if id == 0 then {got} else {}), phase))
  {
    CoreAfter(cfg, who, l, kuma, id, spec, got);
    SnapAfter(cfg, who, l, kuma, id, spec, got);
    UpsertedFacts(l.kuma, kuma, who, id, spec, got);
    var reached := Reached(l, kuma, if id == 0 then {got} else {});
    var after := At(reached, phase);
    CoreAt(cfg, who, reached, phase);
    SamePhaseInv(cfg, who, reached, after, after.attempt.value);
    AssembleAttempt(cfg, who, after, after.attempt.value);
  }

  // ------------------------------------------------------------- the two loops

  lemma HostsStep(desired: seq<DesiredMonitor>, next: nat)
    requires next < |desired|
    ensures Derive.Hosts(desired[..next + 1]) == Derive.Hosts(desired[..next]) + {desired[next].host}
    ensures Derive.DistinctHosts(desired) ==> desired[next].host !in Derive.Hosts(desired[..next])
  {
    var longer := desired[..next + 1];
    assert longer[next] == desired[next];
    assert forall i :: 0 <= i < next ==> longer[i] == desired[..next][i];
  }

  lemma UpsertingGathers(k: Kuma, kuma: Kuma, who: Owner, a: Attempt, plan: Plan, next: nat, ids: map<string, string>, id: int, got: int)
    requires Derive.DistinctHosts(plan.desired) && Derive.AllWellFormed(plan.desired)
    requires AllCanonical(k, who, plan.existing) && Injective(plan.existing)
    requires Gathered(k, who, a.created, plan.existing, ids) && (forall c :: c in a.created ==> Owned(k, who, c))
    requires UpsertInv(k, a, plan, next, ids) && next < |plan.desired|
    requires id == StoredID(plan, plan.desired[next].host)
    requires Upserted(k, kuma, who, id, plan.desired[next].spec, got)
    ensures
      var b := a.(created := a.created + if id == 0 then {got} else {});
      var newIDs := ids[plan.desired[next].host := FormatInt(got)];
      && Gathered(kuma, who, b.created, plan.existing, newIDs)
      && UpsertInv(kuma, b, plan, next + 1, newIDs)
      && AllCanonical(kuma, who, plan.existing)
  {
    var dm := plan.desired[next];
    UpsertedFacts(k, kuma, who, id, dm.spec, got);
    HostsStep(plan.desired, next);
    SpecForHost(plan.desired, next);
    if dm.host in plan.existing {
      assert Canonical(k, who, plan.existing[dm.host]);
    }
    GatherOne(k, kuma, who, id, dm.spec, got, a.created, plan.existing, ids, dm.host);
    AllConfiguredAfter(k, kuma, who, id, dm.spec, got, a.touched, plan.desired, ids, dm.host, ids.Keys);
    CanonicalAfter(k, kuma, who, plan.existing);
  }

  lemma UpsertingPhase(cfg: Config, who: Owner, l: Local, kuma: Kuma, plan: Plan, next: nat, ids: map<string, string>, id: int, got: int)
    requires Inv(cfg, who, l) && l.attempt.Some? && l.attempt.value.phase == Upserting(plan, next, ids) && next < |plan.desired|
    requires id == StoredID(plan, plan.desired[next].host)
    requires Upserted(l.kuma, kuma, who, id, plan.desired[next].spec, got)
    ensures
      var r := Reached(l, kuma, if id == 0 then {got} else {});
      PhaseInv(cfg, who, r, r.attempt.value.(phase := Upserts(plan, next + 1, ids[plan.desired[next].host := FormatInt(got)])))
  {
    UpsertingGathers(l.kuma, kuma, who, l.attempt.value, plan, next, ids, id, got);
    var r := Reached(l, kuma, if id == 0 then {got} else {});
    UpsertsPhase(cfg, who, r, r.attempt.value, plan, next + 1, ids[plan.desired[next].host := FormatInt(got)]);
  }

  /** The id a host is upserted under is 0 or one the resource tracks. */
  lemma StoredIDIsTracked(cfg: Config, who: Owner, l: Local, plan: Plan, host: string)
    requires l.attempt.Some? && AttemptInv(cfg, who, l, l.attempt.value) && Open(l.attempt.value.phase)
    requires l.attempt.value.snap.ids == IDs(plan.existing)
    ensures StoredID(plan, host) != 0 ==>
              Tracks(plan.existing, StoredID(plan, host)) && BelongsTo(l.kuma, who, StoredID(plan, host))
    ensures host !in plan.existing ==> StoredID(plan, host) == 0
  {
    if host in plan.existing {
      assert Canonical(l.kuma, who, plan.existing[host]);
    }
  }

  lemma UpsertingKeeps(cfg: Config, who: Owner, l: Local, plan: Plan, next: nat, ids: map<string, string>, outcome: Outcome)
    requires Valid(l.kuma) && Inv(cfg, who, l)
    requires l.attempt.Some? && l.attempt.value.phase == Upserting(plan, next, ids) && next < |plan.desired|
    ensures
      var dm := plan.desired[next];
      Good(cfg, who, l, UpsertStep(l, who, StoredID(plan, dm.host), dm.spec, outcome, ids, dm.host))
  {
    var dm := plan.desired[next];
    var id := StoredID(plan, dm.host);
    StoredIDIsTracked(cfg, who, l, plan, dm.host);
    if outcome != Succeeded || Upsert(l.kuma, who, id, dm.spec).None? {
      UpsertFails(cfg, who, l, id, dm.spec, outcome, ids, dm.host);
    } else {
      var (kuma, got) := Upsert(l.kuma, who, id, dm.spec).value;
      UpsertingPhase(cfg, who, l, kuma, plan, next, ids, id, got);
      UpsertSucceeds(cfg, who, l, kuma, id, dm.spec, got, Upserts(plan, next + 1, ids[dm.host := FormatInt(got)]));
    }
  }
}
