/** The Upsert steps of drift correction keep the invariant. */
module HostDrift {
  import opened Wrappers
  import opened Spec
  import opened Strconv
  import opened Store
  import opened Tracking
  import opened HostMachine
  import opened HostInvariant
  import opened HostSteps
  import opened HostUpserts

  /** The facts about one drifted host that its Upsert needs. */
  ghost predicate DriftedHost(k: Kuma, who: Owner, plan: Plan, drifted: map<string, int>, ids: map<string, string>, h: string, spec: MonitorSpec) {
    && h in drifted && h in plan.existing && h in ids && ids[h] == plan.existing[h]
    && SpecFor(plan.desired, h) == Some(spec) && WellFormed(spec)
    && (drifted[h] != 0 ==> drifted[h] == IDOf(plan.existing[h]))
    && (drifted[h] == 0 ==> IDOf(plan.existing[h]) !in k.monitors)
  }

  lemma DriftedHostHolds(cfg: Config, k: Kuma, who: Owner, a: Attempt, plan: Plan, drifted: map<string, int>, ids: map<string, string>, h: string)
    requires PlanInv(cfg, a.snap, plan) && AllCanonical(k, who, plan.existing)
    requires DriftInv(k, a, plan, drifted, ids) && Valid(k)
    requires h in drifted && SpecFor(plan.desired, h).Some?
    ensures DriftedHost(k, who, plan, drifted, ids, h, SpecFor(plan.desired, h).value)
  {
    SpecForIsDesired(plan.desired, h);
    assert Canonical(k, who, plan.existing[h]);
  }

  /** The hosts still to correct are untouched by the Upsert of another host. */
  lemma StillDrifted(k: Kuma, kuma: Kuma, who: Owner, plan: Plan, drifted: map<string, int>, ids: map<string, string>,
                     h: string, spec: MonitorSpec, got: int, g: string)
    requires AllCanonical(k, who, plan.existing) && Injective(plan.existing)
    requires DriftedHost(k, who, plan, drifted, ids, h, spec) && Upserted(k, kuma, who, drifted[h], spec, got)
    requires g in plan.existing && g != h && IDOf(plan.existing[g]) !in k.monitors
    ensures IDOf(plan.existing[g]) !in kuma.monitors
  {
    UpsertedFacts(k, kuma, who, drifted[h], spec, got);
    assert Canonical(k, who, plan.existing[g]);
    assert SameAt(k, kuma, IDOf(plan.existing[g]));
  }

  /** A host is corrected: the others that still are to be, and those that are settled. */
  lemma DriftShrinks(k: Kuma, kuma: Kuma, who: Owner, a: Attempt, plan: Plan, drifted: map<string, int>,
                     ids: map<string, string>, h: string, spec: MonitorSpec, got: int)
    requires AllCanonical(k, who, plan.existing) && Injective(plan.existing)
    requires DriftInv(k, a, plan, drifted, ids)
    requires DriftedHost(k, who, plan, drifted, ids, h, spec) && Upserted(k, kuma, who, drifted[h], spec, got)
    requires Injective(ids[h := FormatInt(got)]) && ParseInt(FormatInt(got)) == Some(got)
    requires RestGone(kuma, plan.existing, ids[h := FormatInt(got)])
    ensures DriftInv(kuma, a, plan, drifted - {h}, ids[h := FormatInt(got)])
  {
    var rest, newIDs := drifted - {h}, ids[h := FormatInt(got)];
    var settled := ids.Keys - drifted.Keys;
    AllConfiguredAfter(k, kuma, who, drifted[h], spec, got, a.touched, plan.desired, ids, h, settled);
    forall g | g in newIDs && g !in rest
      ensures ConfiguredAt(kuma, a.touched, plan.desired, newIDs, g)
    {
      assert g in settled + {h};
    }
    forall g | g in rest && rest[g] == 0 && rest[g] != IDOf(plan.existing[g])
      ensures IDOf(plan.existing[g]) !in kuma.monitors
    {
      StillDrifted(k, kuma, who, plan, drifted, ids, h, spec, got, g);
    }
  }

  /** What drift correction knows while it runs. */
  ghost predicate DriftFacts(cfg: Config, k: Kuma, who: Owner, a: Attempt, plan: Plan, drifted: map<string, int>, ids: map<string, string>) {
    && a.snap.ids.IDs? && PlanInv(cfg, a.snap, plan) && HashSound(cfg, a.snap.hash, plan.existing)
    && AllCanonical(k, who, plan.existing) && Injective(plan.existing)
    && Gathered(k, who, a.created, plan.existing, ids) && (forall c :: c in a.created ==> Owned(k, who, c))
    && DriftInv(k, a, plan, drifted, ids)
  }

  lemma DriftingFacts(cfg: Config, who: Owner, l: Local, plan: Plan, drifted: map<string, int>, ids: map<string, string>)
    requires l.attempt.Some? && AttemptInv(cfg, who, l, l.attempt.value) && l.attempt.value.phase == Drifting(plan, drifted, ids)
    ensures DriftFacts(cfg, l.kuma, who, l.attempt.value, plan, drifted, ids)
  {}

  lemma DriftingGathers(cfg: Config, k: Kuma, kuma: Kuma, who: Owner, a: Attempt, plan: Plan, drifted: map<string, int>,
                        ids: map<string, string>, h: string, spec: MonitorSpec, got: int)
    requires DriftFacts(cfg, k, who, a, plan, drifted, ids)
    requires DriftedHost(k, who, plan, drifted, ids, h, spec) && Upserted(k, kuma, who, drifted[h], spec, got)
    ensures
      var created := a.created + if drifted[h] == 0 then {got} else {};
      var newIDs := ids[h := FormatInt(got)];
      Gathered(kuma, who, created, plan.existing, newIDs) && DriftInv(kuma, a, plan, drifted - {h}, newIDs)
  {
    UpsertedFacts(k, kuma, who, drifted[h], spec, got);
    GatherOne(k, kuma, who, drifted[h], spec, got, a.created, plan.existing, ids, h);
    RestGoneAfter(k, kuma, who, drifted[h], spec, got, plan.existing, ids, h);
    DriftShrinks(k, kuma, who, a, plan, drifted, ids, h, spec, got);
  }

  lemma DriftingPhase(cfg: Config, who: Owner, l: Local, kuma: Kuma, plan: Plan, drifted: map<string, int>,
                      ids: map<string, string>, h: string, spec: MonitorSpec, got: int)
    requires l.attempt.Some? && DriftFacts(cfg, l.kuma, who, l.attempt.value, plan, drifted, ids)
    requires DriftedHost(l.kuma, who, plan, drifted, ids, h, spec) && Upserted(l.kuma, kuma, who, drifted[h], spec, got)
    ensures
      var r := Reached(l, kuma, if drifted[h] == 0 then {got} else {});
      PhaseInv(cfg, who, r, r.attempt.value.(phase := Drifts(plan, drifted - {h}, ids[h := FormatInt(got)])))
  {
    DriftingGathers(cfg, l.kuma, kuma, who, l.attempt.value, plan, drifted, ids, h, spec, got);
    var r := Reached(l, kuma, if drifted[h] == 0 then {got} else {});
    var newIDs := ids[h := FormatInt(got)];
    assert DriftInv(kuma, r.attempt.value, plan, drifted - {h}, newIDs);
    DriftsPhase(cfg, who, r, r.attempt.value, plan, drifted - {h}, newIDs);
  }

  lemma DriftIDIsTracked(cfg: Config, who: Owner, l: Local, plan: Plan, drifted: map<string, int>, ids: map<string, string>, h: string, spec: MonitorSpec)
    requires l.attempt.Some? && DriftFacts(cfg, l.kuma, who, l.attempt.value, plan, drifted, ids)
    requires DriftedHost(l.kuma, who, plan, drifted, ids, h, spec)
    ensures drifted[h] != 0 ==> Tracks(plan.existing, drifted[h]) && BelongsTo(l.kuma, who, drifted[h])
    ensures drifted[h] != 0 ==> drifted[h] !in l.attempt.value.created
  {
    assert Canonical(l.kuma, who, plan.existing[h]);
    if drifted[h] != 0 {
      assert Tracks(plan.existing, drifted[h]);
    }
  }

  lemma CorrectionKeeps(cfg: Config, who: Owner, l: Local, plan: Plan, drifted: map<string, int>, ids: map<string, string>,
                        h: string, spec: MonitorSpec, outcome: Outcome)
    requires Valid(l.kuma) && Inv(cfg, who, l)
    requires l.attempt.Some? && l.attempt.value.phase == Drifting(plan, drifted, ids)
    requires h in drifted && SpecFor(plan.desired, h) == Some(spec)
    ensures Good(cfg, who, l, UpsertStep(l, who, drifted[h], spec, outcome, ids, h))
  {
    var id := drifted[h];
    DriftingFacts(cfg, who, l, plan, drifted, ids);
    DriftedHostHolds(cfg, l.kuma, who, l.attempt.value, plan, drifted, ids, h);
    DriftIDIsTracked(cfg, who, l, plan, drifted, ids, h, spec);
    if outcome != Succeeded || Upsert(l.kuma, who, id, spec).None? {
      UpsertFails(cfg, who, l, id, spec, outcome, ids, h);
    } else {
      var (kuma, got) := Upsert(l.kuma, who, id, spec).value;
      UpsertedFacts(l.kuma, kuma, who, id, spec, got);
      DriftingPhase(cfg, who, l, kuma, plan, drifted, ids, h, spec, got);
      UpsertSucceeds(cfg, who, l, kuma, id, spec, got, Drifts(plan, drifted - {h}, ids[h := FormatInt(got)]));
    }
  }

  lemma DriftingKeeps(cfg: Config, who: Owner, l: Local, plan: Plan, drifted: map<string, int>, ids: map<string, string>,
                      h: string, outcome: Outcome)
    requires Valid(l.kuma) && Inv(cfg, who, l)
    requires l.attempt.Some? && l.attempt.value.phase == Drifting(plan, drifted, ids) && h in drifted
    ensures Good(cfg, who, l, DriftStep(l, who, plan, drifted[h], ids, h, outcome))
  {
    if SpecFor(plan.desired, h).Some? {
      CorrectionKeeps(cfg, who, l, plan, drifted, ids, h, SpecFor(plan.desired, h).value, outcome);
    }
  }
}
