/** Drift correction (reconcileDrift) is complete and minimal, for every order in which its
    loop visits hosts. */
module HostCorrection {
  import opened Wrappers
  import opened Spec
  import opened Strconv
  import opened Store
  import opened Tracking
  import opened HostMachine
  import opened HostInvariant
  import opened HostUpserts
  import HostDrift
  import opened HostSync
  import Derive
  import Translate

  /** Something is upserted exactly when the tracked hosts do not match. */
  lemma DriftedIffMismatch(desired: seq<DesiredMonitor>, existing: map<string, string>, live: map<int, MonitorSpec>)
    ensures Drifted(desired, existing, live) == map[] <==> SpecsMatch(desired, existing, live)
  {
    var drifted := Drifted(desired, existing, live);
    if drifted == map[] {
      forall h | h in existing && SpecFor(desired, h).Some?
        ensures Matches(SpecFor(desired, h).value, existing[h], live)
      {
        assert h !in drifted;
      }
    }
    if SpecsMatch(desired, existing, live) {
      assert forall h :: h !in drifted;
    }
  }

  /** A corrected host: under the id it had if its monitor was still there, otherwise under a
      fresh one; in both cases with the desired configuration. */
  ghost predicate Corrected(k0: Kuma, k: Kuma, plan: Plan, ids: map<string, string>, h: string)
    requires h in ids && h in plan.existing
  {
    && IDOf(ids[h]) in k.monitors && SpecFor(plan.desired, h) == Some(k.monitors[IDOf(ids[h])])
    && (if IDOf(plan.existing[h]) in k0.monitors then ids[h] == plan.existing[h] else IDOf(ids[h]) !in k0.owner)
  }

  /** Kuma after drift correction: every drifted host is corrected, every other host keeps its
      id, and no monitor but those of drifted hosts changed. */
  ghost predicate AllCorrected(k0: Kuma, k: Kuma, plan: Plan, ids: map<string, string>) {
    Correcting(k0, k, plan, ids, Drifted(plan.desired, plan.existing, k0.monitors).Keys)
  }

  /** The same with only the hosts in `done` corrected so far. */
  ghost predicate Correcting(k0: Kuma, k: Kuma, plan: Plan, ids: map<string, string>, done: set<string>) {
    && ids.Keys == plan.existing.Keys
    && (forall h :: h in done && h in ids ==> Corrected(k0, k, plan, ids, h))
    && (forall h :: h in ids && h !in done ==> ids[h] == plan.existing[h])
    && (forall id :: (forall h :: h in done && h in ids ==> IDOf(ids[h]) != id) ==> SameAt(k0, k, id))
  }

  /** After correction the check that found the drift finds none. */
  lemma CorrectedMatches(cfg: Config, k0: Kuma, k: Kuma, plan: Plan, ids: map<string, string>)
    requires AllCorrected(k0, k, plan, ids) && Derive.AllWellFormed(plan.desired) && Injective(ids)
    requires forall h :: h in ids ==> ParseInt(ids[h]).Some?
    ensures SpecsMatch(plan.desired, ids, k.monitors)
  {
    var drifted := Drifted(plan.desired, plan.existing, k0.monitors);
    forall h | h in ids && SpecFor(plan.desired, h).Some?
      ensures Matches(SpecFor(plan.desired, h).value, ids[h], k.monitors)
    {
      if h in drifted {
        assert Corrected(k0, k, plan, ids, h);
        SpecForIsDesired(plan.desired, h);
        Translate.EquivalentReflexive(SpecFor(plan.desired, h).value);
      } else {
        assert Matches(SpecFor(plan.desired, h).value, plan.existing[h], k0.monitors);
        assert forall g :: g in drifted && g in ids ==> IDOf(ids[g]) != IDOf(ids[h]);
        assert SameAt(k0, k, IDOf(ids[h]));
      }
    }
  }

  lemma OthersSame(k0: Kuma, k: Kuma, after: Kuma, plan: Plan, ids: map<string, string>, done: set<string>, got: int, h: string, i: int)
    requires Correcting(k0, k, plan, ids, done) && h in ids && h !in done && ParseInt(FormatInt(got)) == Some(got)
    requires forall other :: other != got ==> SameAt(k, after, other)
    requires forall g :: g in done + {h} && g in ids[h := FormatInt(got)] ==> IDOf(ids[h := FormatInt(got)][g]) != i
    ensures SameAt(k0, after, i)
  {
    var newIDs := ids[h := FormatInt(got)];
    assert h in done + {h};
    forall g | g in done && g in ids
      ensures IDOf(ids[g]) != i
    {
      assert newIDs[g] == ids[g] && g in done + {h};
    }
    assert SameAt(k0, k, i) && SameAt(k, after, i);
  }

  lemma CorrectedStay(k0: Kuma, k: Kuma, after: Kuma, plan: Plan, ids: map<string, string>, done: set<string>, got: int, h: string)
    requires Correcting(k0, k, plan, ids, done) && h in ids && h !in done && ParseInt(FormatInt(got)) == Some(got)
    requires forall other :: other != got ==> SameAt(k, after, other)
    requires Injective(ids[h := FormatInt(got)])
    ensures forall g :: g in done && g in ids ==> Corrected(k0, after, plan, ids[h := FormatInt(got)], g)
  {
    var newIDs := ids[h := FormatInt(got)];
    forall g | g in done && g in ids
      ensures Corrected(k0, after, plan, newIDs, g)
    {
      assert IDOf(newIDs[h]) == got && IDOf(newIDs[g]) != got;
      assert Corrected(k0, k, plan, ids, g) && SameAt(k, after, IDOf(ids[g]));
    }
  }

  lemma NewlyCorrected(k0: Kuma, after: Kuma, plan: Plan, ids: map<string, string>, id: int, got: int, h: string, spec: MonitorSpec)
    requires h in ids && h in plan.existing && SpecFor(plan.desired, h) == Some(spec)
    requires ParseInt(FormatInt(got)) == Some(got) && got in after.monitors && after.monitors[got] == spec
    requires if id == 0 then got !in k0.owner else got == id
    requires id == (if IDOf(plan.existing[h]) in k0.monitors then IDOf(plan.existing[h]) else 0)
    requires id != 0 ==> plan.existing[h] == FormatInt(id)
    requires IDOf(plan.existing[h]) != 0
    ensures Corrected(k0, after, plan, ids[h := FormatInt(got)], h)
  {}

  lemma RestSame(k0: Kuma, k: Kuma, after: Kuma, plan: Plan, ids: map<string, string>, done: set<string>, got: int, h: string)
    requires Correcting(k0, k, plan, ids, done) && h in ids && h !in done && ParseInt(FormatInt(got)) == Some(got)
    requires forall other :: other != got ==> SameAt(k, after, other)
    ensures
      var newIDs := ids[h := FormatInt(got)];
      forall i :: (forall g :: g in done + {h} && g in newIDs ==> IDOf(newIDs[g]) != i) ==> SameAt(k0, after, i)
  {
    var newIDs := ids[h := FormatInt(got)];
    forall i | forall g :: g in done + {h} && g in newIDs ==> IDOf(newIDs[g]) != i
      ensures SameAt(k0, after, i)
    {
      OthersSame(k0, k, after, plan, ids, done, got, h, i);
    }
  }

  lemma OneMoreDone(k0: Kuma, k: Kuma, after: Kuma, plan: Plan, ids: map<string, string>, done: set<string>, got: int, h: string)
    requires Correcting(k0, k, plan, ids, done) && h in ids && h !in done && ParseInt(FormatInt(got)) == Some(got)
    requires forall other :: other != got ==> SameAt(k, after, other)
    requires Injective(ids[h := FormatInt(got)]) && Corrected(k0, after, plan, ids[h := FormatInt(got)], h)
    ensures Correcting(k0, after, plan, ids[h := FormatInt(got)], done + {h})
  {
    CorrectedStay(k0, k, after, plan, ids, done, got, h);
    RestSame(k0, k, after, plan, ids, done, got, h);
  }

  lemma OneCorrected(k0: Kuma, k: Kuma, after: Kuma, who: Owner, plan: Plan, ids: map<string, string>, done: set<string>,
                     id: int, got: int, h: string, spec: MonitorSpec)
    requires Correcting(k0, k, plan, ids, done) && h in ids && h !in done
    requires Upserted(k, after, who, id, spec, got) && SpecFor(plan.desired, h) == Some(spec)
    requires forall i :: i in k0.owner ==> i in k.owner
    requires id == (if IDOf(plan.existing[h]) in k0.monitors then IDOf(plan.existing[h]) else 0)
    requires id != 0 ==> plan.existing[h] == FormatInt(id)
    requires IDOf(plan.existing[h]) != 0
    requires Injective(ids[h := FormatInt(got)])
    ensures Correcting(k0, after, plan, ids[h := FormatInt(got)], done + {h})
  {
    UpsertedFacts(k, after, who, id, spec, got);
    NewlyCorrected(k0, after, plan, ids, id, got, h, spec);
    OneMoreDone(k0, k, after, plan, ids, done, got, h);
  }

  /** What is upserted for each drifted host: its own monitor if it exists, else a new one. */
  ghost predicate Picked(k0: Kuma, plan: Plan, drifted: map<string, int>) {
    forall h :: h in drifted ==>
      && h in plan.existing && SpecFor(plan.desired, h).Some?
      && drifted[h] == if IDOf(plan.existing[h]) in k0.monitors then IDOf(plan.existing[h]) else 0
  }

  /** Where a drift correction of `plan` that began at `l0` stands. */
  ghost predicate Going(l0: Local, l: Local, plan: Plan, drifted: map<string, int>) {
    l.attempt.Some? ==>
      match l.attempt.value.phase
      case Drifting(p, todo, ids) =>
        && p == plan && OwnersKept(l0.kuma, l.kuma)
        && todo.Keys <= drifted.Keys && (forall h :: h in todo ==> todo[h] == drifted[h])
        && l.writes == l0.writes + |drifted| - |todo|
        && Correcting(l0.kuma, l.kuma, plan, ids, drifted.Keys - todo.Keys)
      case Reading(Keep(p, ids), tries) =>
        && p == plan && tries >= 1 && Correcting(l0.kuma, l.kuma, plan, ids, drifted.Keys)
        && (tries == 1 ==> l.writes == l0.writes + |drifted|)
      case Writing(Keep(p, ids), tries, _) => p == plan && tries >= 1 && Correcting(l0.kuma, l.kuma, plan, ids, drifted.Keys)
      case Tagging(_, _, _) => true
      case Ended(_) => true
      case _ => false
  }

  lemma DriftingLeads(cfg: Config, who: Owner, l: Local, plan: Plan, todo: map<string, int>, ids: map<string, string>, host: string,
                      spec: MonitorSpec, outcome: Outcome)
    requires l.attempt.Some? && l.attempt.value.phase == Drifting(plan, todo, ids) && host in todo
    requires SpecFor(plan.desired, host) == Some(spec)
    ensures
      var upserted := Upsert(l.kuma, who, todo[host], spec);
      var after := Step(cfg, who, l, Change(host, outcome));
      && after.attempt.Some?
      && (if outcome != Succeeded || upserted.None? then after.attempt.value.phase == Ended(Error)
          else
            && after.kuma == upserted.value.0 && after.writes == l.writes + 1
            && after.attempt.value.phase == Drifts(plan, todo - {host}, ids[host := FormatInt(upserted.value.1)]))
  {
    assert todo - {host} != todo;
  }

  lemma DriftsGoing(l0: Local, l: Local, after: Local, plan: Plan, drifted: map<string, int>, todo: map<string, int>, ids: map<string, string>,
                    newIDs: map<string, string>, host: string)
    requires l.attempt.Some? && l.attempt.value.phase == Drifting(plan, todo, ids) && host in todo && Going(l0, l, plan, drifted)
    requires after.attempt.Some? && after.attempt.value.phase == Drifts(plan, todo - {host}, newIDs) && after.writes == l.writes + 1
    requires OwnersKept(l0.kuma, after.kuma)
    requires Correcting(l0.kuma, after.kuma, plan, newIDs, drifted.Keys - todo.Keys + {host})
    ensures Going(l0, after, plan, drifted)
  {
    OneLess(drifted, todo, host);
  }

  lemma OneLess(drifted: map<string, int>, todo: map<string, int>, host: string)
    requires host in todo && todo.Keys <= drifted.Keys
    ensures |todo - {host}| == |todo| - 1 && (todo - {host}).Keys <= drifted.Keys
    ensures drifted.Keys - (todo - {host}).Keys == drifted.Keys - todo.Keys + {host}
    ensures todo - {host} == map[] ==> drifted.Keys - todo.Keys + {host} == drifted.Keys
  {
    assert (todo - {host}).Keys == todo.Keys - {host};
    assert |todo.Keys - {host}| == |todo.Keys| - 1;
  }

  lemma CorrectionSucceeds(cfg: Config, who: Owner, k0: Kuma, k: Kuma, a: Attempt, plan: Plan, drifted: map<string, int>,
                           todo: map<string, int>, ids: map<string, string>, host: string, spec: MonitorSpec, kuma: Kuma, got: int)
    requires HostDrift.DriftFacts(cfg, k, who, a, plan, todo, ids) && OwnersKept(k0, k) && Picked(k0, plan, drifted)
    requires host in todo && todo.Keys <= drifted.Keys && todo[host] == drifted[host]
    requires Correcting(k0, k, plan, ids, drifted.Keys - todo.Keys)
    requires SpecFor(plan.desired, host) == Some(spec) && Upserted(k, kuma, who, todo[host], spec, got)
    ensures Correcting(k0, kuma, plan, ids[host := FormatInt(got)], drifted.Keys - todo.Keys + {host})
    ensures OwnersKept(k0, kuma)
  {
    UpsertedFacts(k, kuma, who, todo[host], spec, got);
    assert Canonical(k, who, plan.existing[host]);
    HostDrift.DriftedHostHolds(cfg, k, who, a, plan, todo, ids, host);
    HostDrift.DriftingGathers(cfg, k, kuma, who, a, plan, todo, ids, host, spec, got);
    OneCorrected(k0, k, kuma, who, plan, ids, drifted.Keys - todo.Keys, todo[host], got, host, spec);
  }

  lemma CorrectionStep(cfg: Config, who: Owner, l0: Local, l: Local, plan: Plan, drifted: map<string, int>, todo: map<string, int>,
                       ids: map<string, string>, host: string, outcome: Outcome)
    requires Valid(l.kuma) && Inv(cfg, who, l) && Going(l0, l, plan, drifted) && Picked(l0.kuma, plan, drifted)
    requires l.attempt.Some? && l.attempt.value.phase == Drifting(plan, todo, ids) && host in todo
    ensures Going(l0, Step(cfg, who, l, Change(host, outcome)), plan, drifted)
  {
    var spec := SpecFor(plan.desired, host).value;
    DriftingLeads(cfg, who, l, plan, todo, ids, host, spec, outcome);
    if outcome == Succeeded && Upsert(l.kuma, who, todo[host], spec).Some? {
      var (kuma, got) := Upsert(l.kuma, who, todo[host], spec).value;
      DriftTarget(cfg, who, l, plan, todo, ids, host);
      CorrectionSucceeds(cfg, who, l0.kuma, l.kuma, l.attempt.value, plan, drifted, todo, ids, host, spec, kuma, got);
      DriftsGoing(l0, l, Step(cfg, who, l, Change(host, outcome)), plan, drifted, todo, ids, ids[host := FormatInt(got)], host);
    }
  }

  lemma DriftTarget(cfg: Config, who: Owner, l: Local, plan: Plan, todo: map<string, int>, ids: map<string, string>, host: string)
    requires Valid(l.kuma) && Inv(cfg, who, l)
    requires l.attempt.Some? && l.attempt.value.phase == Drifting(plan, todo, ids) && host in todo
    ensures todo[host] != 0 ==> BelongsTo(l.kuma, who, todo[host])
    ensures HostDrift.DriftFacts(cfg, l.kuma, who, l.attempt.value, plan, todo, ids)
  {
    HostDrift.DriftingFacts(cfg, who, l, plan, todo, ids);
    assert Canonical(l.kuma, who, plan.existing[host]);
  }

  lemma CorrectionOther(cfg: Config, who: Owner, l0: Local, l: Local, plan: Plan, drifted: map<string, int>, action: Action)
    requires l.attempt.Some? && Going(l0, l, plan, drifted) && action != Begin
    requires action.Change? ==> !l.attempt.value.phase.Drifting?
    ensures Going(l0, Step(cfg, who, l, action), plan, drifted)
  {
    if action.Change? && l.attempt.value.phase.Writing? {
      var phase := l.attempt.value.phase;
      CorrectionWriting(l0, l, plan, drifted, phase.write, phase.tries, phase.got, action.outcome);
    }
  }

  lemma CorrectionWriting(l0: Local, l: Local, plan: Plan, drifted: map<string, int>, write: Write, tries: nat, got: Resource, outcome: Outcome)
    requires l.attempt.Some? && l.attempt.value.phase == Writing(write, tries, got) && Going(l0, l, plan, drifted)
    ensures Going(l0, WriteStep(l, write, tries, got, outcome).(writes := l.writes + 1), plan, drifted)
  {
    WritingLeads(l, write, tries, got, outcome);
  }

  lemma CorrectionCall(cfg: Config, who: Owner, l0: Local, l: Local, plan: Plan, drifted: map<string, int>, host: string, outcome: Outcome)
    requires Valid(l.kuma) && Inv(cfg, who, l) && Going(l0, l, plan, drifted) && Picked(l0.kuma, plan, drifted)
    requires l.attempt.Some? && l.attempt.value.phase.Drifting?
    ensures Going(l0, Step(cfg, who, l, Change(host, outcome)), plan, drifted)
  {
    var todo, ids := l.attempt.value.phase.drifted, l.attempt.value.phase.ids;
    if host in todo {
      CorrectionStep(cfg, who, l0, l, plan, drifted, todo, ids, host, outcome);
    } else {
      assert ChangeStep(l, who, host, outcome) == l;
    }
  }

  lemma AnyStepGoes(cfg: Config, who: Owner, l0: Local, l: Local, plan: Plan, drifted: map<string, int>, action: Action)
    requires Valid(l.kuma) && Inv(cfg, who, l) && Going(l0, l, plan, drifted) && Picked(l0.kuma, plan, drifted)
    requires action != Begin
    ensures Going(l0, Step(cfg, who, l, action), plan, drifted)
  {
    if l.attempt.Some? {
      if action.Change? && l.attempt.value.phase.Drifting? {
        CorrectionCall(cfg, who, l0, l, plan, drifted, action.host, action.outcome);
      } else {
        CorrectionOther(cfg, who, l0, l, plan, drifted, action);
      }
    }
  }

  lemma {:induction false} CorrectionSteps(cfg: Config, who: Owner, l0: Local, plan: Plan, drifted: map<string, int>, actions: seq<Action>)
    requires CollisionFree(cfg) && Valid(l0.kuma) && Inv(cfg, who, l0) && Going(l0, l0, plan, drifted) && OneAttempt(actions)
    requires Picked(l0.kuma, plan, drifted)
    ensures Going(l0, Steps(cfg, who, l0, actions), plan, drifted)
  {
    if actions != [] {
      var init := actions[..|actions| - 1];
      CorrectionSteps(cfg, who, l0, plan, drifted, init);
      StepsKeep(cfg, who, l0, init);
      AnyStepGoes(cfg, who, l0, Steps(cfg, who, l0, init), plan, drifted, actions[|actions| - 1]);
    }
  }

  lemma GoesFromTheStart(l0: Local, plan: Plan, drifted: map<string, int>)
    requires l0.attempt.Some? && l0.attempt.value.phase == Drifting(plan, drifted, plan.existing)
    requires drifted == Drifted(plan.desired, plan.existing, l0.kuma.monitors)
    ensures Going(l0, l0, plan, drifted) && Picked(l0.kuma, plan, drifted)
  {}

  /** Drift correction that reaches the point of recording its result has corrected every
      drifted host with one Upsert each, left everything else as it was, and the drift check
      now passes. */
  lemma Correction(cfg: Config, who: Owner, l0: Local, plan: Plan, actions: seq<Action>)
    requires CollisionFree(cfg) && Valid(l0.kuma) && Inv(cfg, who, l0) && OneAttempt(actions)
    requires l0.attempt.Some?
    requires l0.attempt.value.phase == Drifting(plan, Drifted(plan.desired, plan.existing, l0.kuma.monitors), plan.existing)
    ensures
      var l := Steps(cfg, who, l0, actions);
      l.attempt.Some? && l.attempt.value.phase.Reading? ==>
        var phase := l.attempt.value.phase;
        && phase.write.Keep? && phase.write.plan == plan && AllCorrected(l0.kuma, l.kuma, plan, phase.write.ids)
        && SpecsMatch(plan.desired, phase.write.ids, l.kuma.monitors)
        && (phase.tries == 1 ==> l.writes - l0.writes == |Drifted(plan.desired, plan.existing, l0.kuma.monitors)|)
  {
    var drifted := Drifted(plan.desired, plan.existing, l0.kuma.monitors);
    GoesFromTheStart(l0, plan, drifted);
    CorrectionSteps(cfg, who, l0, plan, drifted, actions);
    StepsKeep(cfg, who, l0, actions);
    var l := Steps(cfg, who, l0, actions);
    if l.attempt.Some? && l.attempt.value.phase.Reading? {
      Concludes(cfg, who, l0.kuma, l, plan, l.attempt.value.phase.write.ids);
    }
  }

  lemma Concludes(cfg: Config, who: Owner, k0: Kuma, l: Local, plan: Plan, ids: map<string, string>)
    requires Inv(cfg, who, l) && l.attempt.Some? && l.attempt.value.phase.Reading?
    requires l.attempt.value.phase.write == Keep(plan, ids) && AllCorrected(k0, l.kuma, plan, ids)
    ensures SpecsMatch(plan.desired, ids, l.kuma.monitors)
  {
    CorrectedFacts(cfg, who, l, plan, ids);
    CorrectedMatches(cfg, k0, l.kuma, plan, ids);
  }

  lemma CorrectedFacts(cfg: Config, who: Owner, l: Local, plan: Plan, ids: map<string, string>)
    requires Inv(cfg, who, l) && l.attempt.Some? && l.attempt.value.phase.Reading?
    requires l.attempt.value.phase.write == Keep(plan, ids)
    ensures Derive.AllWellFormed(plan.desired) && Injective(ids) && forall h :: h in ids ==> ParseInt(ids[h]).Some?
  {
    assert AllCanonical(l.kuma, who, ids);
    assert forall h :: h in ids ==> Canonical(l.kuma, who, ids[h]);
  }
}
