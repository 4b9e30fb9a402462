/** The invariant survives every step of the reconcile itself, and each step changes only
    monitors of its own resource. */
module HostSteps {
  import opened Wrappers
  import opened Spec
  import opened Strconv
  import opened Store
  import opened Tracking
  import opened HostMachine
  import opened HostInvariant
  import Derive
  import References

  /** What a step of the reconcile must keep and may change. */
  ghost predicate Good(cfg: Config, who: Owner, l: Local, after: Local) {
    && Inv(cfg, who, after) && Valid(after.kuma) && Acted(l.kuma, after.kuma, who)
    && l.latest <= after.latest
  }

  // ------------------------------------------------------------ giving up

  /** The part of the invariant that does not depend on how far the attempt got. */
  ghost predicate Core(cfg: Config, who: Owner, l: Local) {
    && Valid(l.kuma)
    && (l.cur.Some? ==> l.cur.value.version <= l.latest && ResourceInv(cfg, l.kuma, who, l.cur.value))
    && Held(l.cur)
    && l.attempt.Some? && l.attempt.value.snap.ids.IDs?
    && (forall id :: id in l.attempt.value.created ==> BelongsTo(l.kuma, who, id))
    && (forall id :: id in l.attempt.value.created && l.cur.Some? ==> !Tracks(l.cur.value.ids.m, id))
    && (forall id :: id in l.kuma.monitors && Owned(l.kuma, who, id) ==> AccountedFor(l, id))
  }

  /** Giving up after anything that leaves the core intact is safe. */
  lemma GiveUp(cfg: Config, who: Owner, l: Local, reached: Local)
    requires Core(cfg, who, reached) && Acted(l.kuma, reached.kuma, who) && l.latest <= reached.latest
    ensures Good(cfg, who, l, Fail(reached))
  {
    var created := reached.attempt.value.created;
    OrphanActs(reached.kuma, who, created);
    ActedTwice(l.kuma, reached.kuma, Orphan(reached.kuma, created), who);
    var after := Fail(reached);
    if reached.cur.Some? {
      forall h | h in reached.cur.value.ids.m
        ensures Canonical(after.kuma, who, reached.cur.value.ids.m[h])
      {
        assert Canonical(reached.kuma, who, reached.cur.value.ids.m[h]);
        assert Tracks(reached.cur.value.ids.m, IDOf(reached.cur.value.ids.m[h]));
      }
    }
    forall id | id in after.kuma.monitors && Owned(after.kuma, who, id)
      ensures AccountedFor(after, id)
    {
      assert Owned(reached.kuma, who, id) && AccountedFor(reached, id);
    }
  }

  lemma CoreHolds(cfg: Config, who: Owner, l: Local)
    requires Valid(l.kuma) && Inv(cfg, who, l) && l.attempt.Some?
    ensures Core(cfg, who, l)
  {
    if l.cur.Some? {
      forall h | h in l.cur.value.ids.m
        ensures IDOf(l.cur.value.ids.m[h]) !in l.attempt.value.created
      {
        CreatedIsUntracked(cfg, who, l, h);
      }
    }
  }

  lemma FailKeeps(cfg: Config, who: Owner, l: Local)
    requires Valid(l.kuma) && Inv(cfg, who, l) && l.attempt.Some?
    ensures Good(cfg, who, l, Fail(l))
  {
    CoreHolds(cfg, who, l);
    GiveUp(cfg, who, l, l);
  }

  lemma HeldIsNew(cfg: Config, who: Owner, l: Local, a: Attempt)
    requires AttemptInv(cfg, who, l, a)
    ensures a.created != {} ==> Open(a.phase) && Linked(l.cur, a.snap)
    ensures forall id :: id in a.created ==> !Tracks(a.snap.ids.m, id)
  {}

  /** What an attempt created and did not record is not tracked by the resource. */
  lemma CreatedIsUntracked(cfg: Config, who: Owner, l: Local, h: string)
    requires Inv(cfg, who, l) && l.attempt.Some? && l.cur.Some? && h in l.cur.value.ids.m
    ensures Canonical(l.kuma, who, l.cur.value.ids.m[h])
    ensures IDOf(l.cur.value.ids.m[h]) !in l.attempt.value.created
  {
    var a := l.attempt.value;
    assert Canonical(l.kuma, who, l.cur.value.ids.m[h]);
    HeldIsNew(cfg, who, l, a);
    if a.created != {} {
      assert SameMarks(l.cur.value, a.snap) || Unmarked(l.cur.value);
      assert Tracks(a.snap.ids.m, IDOf(l.cur.value.ids.m[h]));
    }
  }

  // ---------------------------------------------- the phase a call leads to

  lemma ParseableIsAll(k: Kuma, who: Owner, ids: map<string, string>)
    requires AllCanonical(k, who, ids)
    ensures Parseable(ids) == ids
  {
    assert forall h :: h in ids ==> Canonical(k, who, ids[h]);
  }

  lemma DeletesPhase(cfg: Config, who: Owner, l: Local, a: Attempt, todo: map<string, string>)
    requires a.snap.ids.IDs? && a.created == {} && ResourceInv(cfg, l.kuma, who, a.snap) && Linked(l.cur, a.snap)
    requires forall h :: h in todo ==> h in a.snap.ids.m && todo[h] == a.snap.ids.m[h]
    requires forall h :: h in a.snap.ids.m && h !in todo ==> IDOf(a.snap.ids.m[h]) !in l.kuma.monitors
    ensures PhaseInv(cfg, who, l, a.(phase := Deletes(a.snap, todo)))
  {}

  lemma RemovalsPhase(cfg: Config, who: Owner, l: Local, a: Attempt, plan: Plan, ids: map<string, string>, todo: map<string, string>)
    requires a.snap.ids.IDs? && PlanInv(cfg, a.snap, plan)
    requires Gathered(l.kuma, who, a.created, plan.existing, ids) && RemoveInv(l.kuma, a, plan, ids, todo)
    ensures PhaseInv(cfg, who, l, a.(phase := Removals(plan, ids, todo)))
  {
    var b := a.(phase := Removals(plan, ids, todo));
    assert RemoveInv(l.kuma, b, plan, ids, todo);
    if todo == map[] {
      assert plan.desired[..|plan.desired|] == plan.desired;
      assert KeepInv(cfg, l.kuma, b, plan, ids);
    }
  }

  lemma UpsertsPhase(cfg: Config, who: Owner, l: Local, a: Attempt, plan: Plan, next: nat, ids: map<string, string>)
    requires a.snap.ids.IDs? && PlanInv(cfg, a.snap, plan) && AllCanonical(l.kuma, who, plan.existing)
    requires Gathered(l.kuma, who, a.created, plan.existing, ids) && UpsertInv(l.kuma, a, plan, next, ids)
    ensures PhaseInv(cfg, who, l, a.(phase := Upserts(plan, next, ids)))
  {
    var b := a.(phase := Upserts(plan, next, ids));
    assert UpsertInv(l.kuma, b, plan, next, ids);
    if next == |plan.desired| {
      ParseableIsAll(l.kuma, who, plan.existing);
      assert plan.desired[..next] == plan.desired;
      RemovalsPhase(cfg, who, l, a, plan, ids, Dropped(plan));
    }
  }

  lemma DriftsPhase(cfg: Config, who: Owner, l: Local, a: Attempt, plan: Plan, drifted: map<string, int>, ids: map<string, string>)
    requires a.snap.ids.IDs? && PlanInv(cfg, a.snap, plan)
    requires HashSound(cfg, a.snap.hash, plan.existing)
    requires Gathered(l.kuma, who, a.created, plan.existing, ids) && DriftInv(l.kuma, a, plan, drifted, ids)
    ensures PhaseInv(cfg, who, l, a.(phase := Drifts(plan, drifted, ids)))
  {
    var b := a.(phase := Drifts(plan, drifted, ids));
    assert DriftInv(l.kuma, b, plan, drifted, ids);
    if drifted == map[] {
      assert KeepInv(cfg, l.kuma, b, plan, ids);
    }
  }

  lemma TaggingsPhase(cfg: Config, who: Owner, l: Local, a: Attempt, plan: Plan, ids: map<string, string>, todo: map<string, string>)
    requires a.snap.ids.IDs?
    requires Recorded(cfg, l.kuma, a, l.cur, plan, ids) && TagInv(l.kuma, a, plan, ids, todo)
    ensures PhaseInv(cfg, who, l, a.(phase := Taggings(plan, ids, todo)))
  {
    var b := a.(phase := Taggings(plan, ids, todo));
    assert Recorded(cfg, l.kuma, b, l.cur, plan, ids) && TagInv(l.kuma, b, plan, ids, todo);
  }

  lemma PlannedPhase(cfg: Config, who: Owner, l: Local, a: Attempt, plan: Plan)
    requires a.snap.ids.IDs? && PlanInv(cfg, a.snap, plan) && AllCanonical(l.kuma, who, plan.existing)
    requires a.created == {}
    ensures PhaseInv(cfg, who, l, a.(phase := Planned(plan, a.snap)))
  {
    if plan.hash != a.snap.hash {
      assert plan.desired[..0] == [];
      UpsertsPhase(cfg, who, l, a, plan, 0, map[]);
    }
  }

  lemma PlanIsSound(cfg: Config, snap: Resource, ov: Derive.Overrides, derived: seq<DesiredMonitor>, channels: seq<int>, group: Option<int>)
    requires snap.ids.IDs? && !snap.deleting
    requires Derive.DistinctHosts(derived) && Derive.AllWellFormed(derived)
    ensures PlanInv(cfg, snap, PlanFor(cfg, snap, ov, derived, channels, group))
  {
    var desired := WithReferences(derived, channels, group);
    assert forall i :: 0 <= i < |derived| ==> WellFormed(derived[i].spec) ==> WellFormed(desired[i].spec);
  }

  lemma ChannelsPhase(cfg: Config, who: Owner, l: Local, a: Attempt, ov: Derive.Overrides, derived: seq<DesiredMonitor>, channels: seq<int>)
    requires a.snap.ids.IDs? && !a.snap.deleting && AllCanonical(l.kuma, who, a.snap.ids.m) && a.created == {}
    requires Derive.DistinctHosts(derived) && Derive.AllWellFormed(derived)
    ensures PhaseInv(cfg, who, l, a.(phase := WithChannels(cfg, a.snap, ov, derived, channels)))
  {
    if ov.group == "" {
      PlanIsSound(cfg, a.snap, ov, derived, channels, None);
      PlannedPhase(cfg, who, l, a, PlanFor(cfg, a.snap, ov, derived, channels, None));
    }
  }

  lemma StartPhase(cfg: Config, who: Owner, l: Local, a: Attempt)
    requires ResourceInv(cfg, l.kuma, who, a.snap) && l.cur == Some(a.snap) && a.created == {}
    ensures PhaseInv(cfg, who, l, a.(phase := Start(cfg, a.snap)))
  {
    ParseableIsAll(l.kuma, who, a.snap.ids.m);
    if a.snap.deleting || !ShouldSync(cfg.optInByDefault, a.snap.manifest.enabled) {
      DeletesPhase(cfg, who, l, a, a.snap.ids.m);
    } else if a.snap.manifest.overrides.Some? {
      var ov := a.snap.manifest.overrides.value;
      if Derive.DesiredMonitors(a.snap.manifest.routes, ov).Ok? {
        Derive.DesiredAreDistinct(a.snap.manifest.routes, ov);
        ChannelsPhase(cfg, who, l, a, ov, Derive.DesiredMonitors(a.snap.manifest.routes, ov).value, []);
      }
    }
  }

  lemma BeginKeeps(cfg: Config, who: Owner, l: Local)
    requires Valid(l.kuma) && Inv(cfg, who, l)
    ensures Good(cfg, who, l, Step(cfg, who, l, Begin))
  {
    if l.attempt.None? && l.cur.Some? {
      var a := Attempt(l.cur.value, {}, {}, Start(cfg, l.cur.value));
      StartPhase(cfg, who, l, a);
      var after := Step(cfg, who, l, Begin);
      assert AttemptInv(cfg, who, after, a);
      assert forall id :: AccountedFor(l, id) ==> AccountedFor(after, id);
    }
  }

  // ------------------------------------------------------------- calls that read

  /** The phase's invariant does not look at the attempt slot itself. */
  lemma SamePhaseInv(cfg: Config, who: Owner, l: Local, after: Local, b: Attempt)
    requires b.snap.ids.IDs? && PhaseInv(cfg, who, l, b) && after == l.(attempt := Some(b))
    ensures PhaseInv(cfg, who, after, b)
  {}

  lemma MoveTo(cfg: Config, who: Owner, l: Local, phase: Phase)
    requires Valid(l.kuma) && Inv(cfg, who, l) && l.attempt.Some?
    requires PhaseInv(cfg, who, l, l.attempt.value.(phase := phase))
    requires Open(phase) ==> Open(l.attempt.value.phase)
    ensures Good(cfg, who, l, At(l, phase))
  {
    AttemptMoves(cfg, who, l, phase);
    forall id | id in l.kuma.monitors && Owned(l.kuma, who, id)
      ensures AccountedFor(At(l, phase), id)
    {
      assert AccountedFor(l, id);
    }
  }

  lemma AttemptMoves(cfg: Config, who: Owner, l: Local, phase: Phase)
    requires l.attempt.Some? && AttemptInv(cfg, who, l, l.attempt.value)
    requires PhaseInv(cfg, who, l, l.attempt.value.(phase := phase))
    requires Open(phase) ==> Open(l.attempt.value.phase)
    ensures AttemptInv(cfg, who, At(l, phase), l.attempt.value.(phase := phase))
  {
    SamePhaseInv(cfg, who, l, At(l, phase), l.attempt.value.(phase := phase));
  }

  lemma MatchedIsRecorded(cfg: Config, who: Owner, l: Local, plan: Plan)
    requires CollisionFree(cfg) && Inv(cfg, who, l) && l.attempt.Some? && l.attempt.value.phase == Listing(plan)
    requires SpecsMatch(plan.desired, plan.existing, l.kuma.monitors)
    ensures Recorded(cfg, l.kuma, l.attempt.value, l.cur, plan, plan.existing)
  {
    var a := l.attempt.value;
    assert a.snap.finalizer && SameMarks(l.cur.value, a.snap);
    forall h | h in plan.existing
      ensures ConfiguredAt(l.kuma, a.touched, plan.desired, plan.existing, h)
    {
      if SpecFor(plan.desired, h).Some? {
        assert Matches(SpecFor(plan.desired, h).value, plan.existing[h], l.kuma.monitors);
      }
    }
  }

  lemma DriftBegins(cfg: Config, who: Owner, l: Local, plan: Plan)
    requires Inv(cfg, who, l) && l.attempt.Some? && l.attempt.value.phase == Listing(plan)
    ensures Gathered(l.kuma, who, {}, plan.existing, plan.existing)
    ensures DriftInv(l.kuma, l.attempt.value, plan, Drifted(plan.desired, plan.existing, l.kuma.monitors), plan.existing)
  {
    var a := l.attempt.value;
    var drifted := Drifted(plan.desired, plan.existing, l.kuma.monitors);
    forall h | h in plan.existing && h !in drifted
      ensures ConfiguredAt(l.kuma, a.touched, plan.desired, plan.existing, h)
    {
      if SpecFor(plan.desired, h).Some? {
        assert Matches(SpecFor(plan.desired, h).value, plan.existing[h], l.kuma.monitors);
      }
    }
  }

  lemma MatchMoves(cfg: Config, who: Owner, l: Local, plan: Plan)
    requires CollisionFree(cfg) && Valid(l.kuma) && Inv(cfg, who, l)
    requires l.attempt.Some? && l.attempt.value.phase == Listing(plan)
    requires SpecsMatch(plan.desired, plan.existing, l.kuma.monitors)
    ensures Good(cfg, who, l, At(l, Taggings(plan, plan.existing, Parseable(plan.existing))))
  {
    MatchedIsRecorded(cfg, who, l, plan);
    ParseableIsAll(l.kuma, who, plan.existing);
    TaggingsPhase(cfg, who, l, l.attempt.value, plan, plan.existing, Parseable(plan.existing));
    MoveTo(cfg, who, l, Taggings(plan, plan.existing, Parseable(plan.existing)));
  }

  lemma DriftMoves(cfg: Config, who: Owner, l: Local, plan: Plan)
    requires Valid(l.kuma) && Inv(cfg, who, l)
    requires l.attempt.Some? && l.attempt.value.phase == Listing(plan)
    ensures Good(cfg, who, l, At(l, Drifts(plan, Drifted(plan.desired, plan.existing, l.kuma.monitors), plan.existing)))
  {
    var drifted := Drifted(plan.desired, plan.existing, l.kuma.monitors);
    DriftBegins(cfg, who, l, plan);
    DriftsPhase(cfg, who, l, l.attempt.value, plan, drifted, plan.existing);
    MoveTo(cfg, who, l, Drifts(plan, drifted, plan.existing));
  }

  lemma ListingKeeps(cfg: Config, who: Owner, l: Local, plan: Plan)
    requires CollisionFree(cfg) && Valid(l.kuma) && Inv(cfg, who, l)
    requires l.attempt.Some? && l.attempt.value.phase == Listing(plan)
    ensures Good(cfg, who, l, ReadStep(cfg, l, true))
  {
    if SpecsMatch(plan.desired, plan.existing, l.kuma.monitors) {
      MatchMoves(cfg, who, l, plan);
    } else {
      DriftMoves(cfg, who, l, plan);
    }
  }

  lemma ChannelsMove(cfg: Config, who: Owner, l: Local, ov: Derive.Overrides, derived: seq<DesiredMonitor>, channels: seq<int>)
    requires Valid(l.kuma) && Inv(cfg, who, l) && l.attempt.Some? && l.attempt.value.phase == AskingChannels(ov, derived)
    ensures Good(cfg, who, l, At(l, WithChannels(cfg, l.attempt.value.snap, ov, derived, channels)))
  {
    ChannelsPhase(cfg, who, l, l.attempt.value, ov, derived, channels);
    MoveTo(cfg, who, l, WithChannels(cfg, l.attempt.value.snap, ov, derived, channels));
  }

  lemma GroupMoves(cfg: Config, who: Owner, l: Local, ov: Derive.Overrides, derived: seq<DesiredMonitor>, channels: seq<int>, group: Option<int>)
    requires Valid(l.kuma) && Inv(cfg, who, l) && l.attempt.Some? && l.attempt.value.phase == AskingGroup(ov, derived, channels)
    ensures Good(cfg, who, l, At(l, Planned(PlanFor(cfg, l.attempt.value.snap, ov, derived, channels, group), l.attempt.value.snap)))
  {
    var snap := l.attempt.value.snap;
    PlanIsSound(cfg, snap, ov, derived, channels, group);
    PlannedPhase(cfg, who, l, l.attempt.value, PlanFor(cfg, snap, ov, derived, channels, group));
    MoveTo(cfg, who, l, Planned(PlanFor(cfg, snap, ov, derived, channels, group), snap));
  }

  lemma AskingKeeps(cfg: Config, who: Owner, l: Local)
    requires Valid(l.kuma) && Inv(cfg, who, l) && l.attempt.Some?
    requires l.attempt.value.phase.AskingChannels? || l.attempt.value.phase.AskingGroup?
    ensures Good(cfg, who, l, ReadStep(cfg, l, true))
  {
    match l.attempt.value.phase {
      case AskingChannels(ov, derived) =>
        match References.ResolveNotifications(l.kuma.notifications, ov.notifications) {
          case None => FailKeeps(cfg, who, l);
          case Some(channels) => ChannelsMove(cfg, who, l, ov, derived, channels);
        }
      case AskingGroup(ov, derived, channels) =>
        match References.ResolveGroup(l.kuma.groups, ov.group) {
          case None => FailKeeps(cfg, who, l);
          case Some(group) => GroupMoves(cfg, who, l, ov, derived, channels, group);
        }
    }
  }

  lemma ReadingKeeps(cfg: Config, who: Owner, l: Local, write: Write, tries: nat)
    requires Valid(l.kuma) && Inv(cfg, who, l)
    requires l.attempt.Some? && l.attempt.value.phase == Reading(write, tries)
    ensures Good(cfg, who, l, ReadStep(cfg, l, true))
  {
    if l.cur.None? {
      FailKeeps(cfg, who, l);
    } else {
      var b := l.attempt.value.(phase := Writing(write, tries, l.cur.value));
      assert WriteInv(cfg, l.kuma, who, b, write);
      MoveTo(cfg, who, l, Writing(write, tries, l.cur.value));
    }
  }

  lemma ReadKeeps(cfg: Config, who: Owner, l: Local, ok: bool)
    requires CollisionFree(cfg) && Valid(l.kuma) && Inv(cfg, who, l) && l.attempt.Some?
    ensures Good(cfg, who, l, ReadStep(cfg, l, ok))
  {
    var phase := l.attempt.value.phase;
    if phase.AskingChannels? || phase.AskingGroup? || phase.Listing? || phase.Reading? {
      if !ok {
        FailKeeps(cfg, who, l);
      } else if phase.Listing? {
        ListingKeeps(cfg, who, l, phase.plan);
      } else if phase.Reading? {
        ReadingKeeps(cfg, who, l, phase.write, phase.tries);
      } else {
        AskingKeeps(cfg, who, l);
      }
    }
  }
}
