/** Convergence of a routed resource: an undisturbed reconcile that ends well leaves it
    settled, and a settled resource causes no more writes. */
module HostQuiescence {
  import opened Wrappers
  import opened Spec
  import opened Store
  import opened Tracking
  import opened HostMachine
  import opened HostInvariant
  import HostStability
  import HostUpserts
  import Derive
  import References

  predicate Wanted(cfg: Config, r: Resource) {
    !r.deleting && ShouldSync(cfg.optInByDefault, r.manifest.enabled)
  }

  /** What a reconcile of `r` would work towards with Kuma's channels and groups as they are. */
  function PlanNow(cfg: Config, k: Kuma, r: Resource): Option<Plan> {
    if r.ids.Malformed? || r.manifest.overrides.None? then None
    else
      var ov := r.manifest.overrides.value;
      match Derive.DesiredMonitors(r.manifest.routes, ov)
      case Err => None
      case Ok(derived) =>
        match References.ResolveNotifications(k.notifications, ov.notifications)
        case None => None
        case Some(channels) =>
          match References.ResolveGroup(k.groups, ov.group)
          case None => None
          case Some(group) => Some(PlanFor(cfg, r, ov, derived, channels, group))
  }

  // --------------------------------------------------- attempts pursue the plan

  predicate Derived(r: Resource, ov: Derive.Overrides, derived: seq<DesiredMonitor>) {
    r.ids.IDs? && r.manifest.overrides == Some(ov) && Derive.DesiredMonitors(r.manifest.routes, ov) == Ok(derived)
  }

  /** What an attempt is about to do serves the resource as it was read, as long as Kuma's
      channels and groups stay. */
  predicate Course(cfg: Config, k: Kuma, a: Attempt) {
    match a.phase
    case Deleting(_) => !Wanted(cfg, a.snap)
    case DroppingFinalizer => !Wanted(cfg, a.snap)
    case AskingChannels(ov, derived) => Wanted(cfg, a.snap) && Derived(a.snap, ov, derived) && ov.notifications != []
    case AskingGroup(ov, derived, channels) =>
      && Wanted(cfg, a.snap) && Derived(a.snap, ov, derived) && ov.group != ""
      && References.ResolveNotifications(k.notifications, ov.notifications) == Some(channels)
    case Listing(plan) => OnPlan(cfg, k, a.snap, plan)
    case Drifting(plan, _, _) => OnPlan(cfg, k, a.snap, plan)
    case Upserting(plan, _, _) => OnPlan(cfg, k, a.snap, plan)
    case Removing(plan, _, _) => OnPlan(cfg, k, a.snap, plan)
    case Reading(write, _) => WriteOnPlan(cfg, k, a.snap, write)
    case Writing(write, _, _) => WriteOnPlan(cfg, k, a.snap, write)
    case Tagging(plan, _, _) => OnPlan(cfg, k, a.snap, plan)
    case Ended(verdict) =>
      (match verdict
       case InSync(plan, _) => OnPlan(cfg, k, a.snap, plan)
       case Gone => !Wanted(cfg, a.snap)
       case OptedOut => !Wanted(cfg, a.snap)
       case Error => true)
  }

  predicate OnPlan(cfg: Config, k: Kuma, snap: Resource, plan: Plan) {
    Wanted(cfg, snap) && PlanNow(cfg, k, snap) == Some(plan)
  }

  predicate WriteOnPlan(cfg: Config, k: Kuma, snap: Resource, write: Write) {
    match write
    case Keep(plan, _) => OnPlan(cfg, k, snap, plan)
    case Clear => !Wanted(cfg, snap)
  }

  predicate OnCourse(cfg: Config, l: Local) {
    l.attempt.Some? ==> Course(cfg, l.kuma, l.attempt.value)
  }

  lemma PlannedCourse(cfg: Config, k: Kuma, a: Attempt, plan: Plan)
    requires OnPlan(cfg, k, a.snap, plan)
    ensures Course(cfg, k, a.(phase := Planned(plan, a.snap)))
  {}

  lemma ChannelsCourse(cfg: Config, k: Kuma, a: Attempt, ov: Derive.Overrides, derived: seq<DesiredMonitor>, channels: seq<int>)
    requires Wanted(cfg, a.snap) && Derived(a.snap, ov, derived)
    requires References.ResolveNotifications(k.notifications, ov.notifications) == Some(channels)
    ensures Course(cfg, k, a.(phase := WithChannels(cfg, a.snap, ov, derived, channels)))
  {
    if ov.group == "" {
      PlannedCourse(cfg, k, a, PlanFor(cfg, a.snap, ov, derived, channels, None));
    }
  }

  lemma StartCourse(cfg: Config, k: Kuma, a: Attempt)
    requires a.phase == Start(cfg, a.snap)
    ensures Course(cfg, k, a)
  {
    if Wanted(cfg, a.snap) && a.snap.manifest.overrides.Some? && a.snap.ids.IDs? {
      var ov := a.snap.manifest.overrides.value;
      var derived := Derive.DesiredMonitors(a.snap.manifest.routes, ov);
      if derived.Ok? && ov.notifications == [] {
        ChannelsCourse(cfg, k, a, ov, derived.value, []);
      }
    }
  }

  lemma ReadCourse(cfg: Config, l: Local, ok: bool)
    requires l.attempt.Some? && OnCourse(cfg, l)
    ensures OnCourse(cfg, ReadStep(cfg, l, ok))
  {
    var a := l.attempt.value;
    if ok && a.phase.AskingChannels? {
      var ov, derived := a.phase.ov, a.phase.derived;
      var channels := References.ResolveNotifications(l.kuma.notifications, ov.notifications);
      if channels.Some? {
        ChannelsCourse(cfg, l.kuma, a, ov, derived, channels.value);
      }
    } else if ok && a.phase.AskingGroup? {
      GroupCourse(cfg, l);
    }
  }

  lemma GroupCourse(cfg: Config, l: Local)
    requires l.attempt.Some? && OnCourse(cfg, l) && l.attempt.value.phase.AskingGroup?
    ensures OnCourse(cfg, ReadStep(cfg, l, true))
  {
    var a := l.attempt.value;
    var ov, derived, channels := a.phase.ov, a.phase.derived, a.phase.channels;
    var group := References.ResolveGroup(l.kuma.groups, ov.group);
    if group.Some? {
      PlannedCourse(cfg, l.kuma, a, PlanFor(cfg, a.snap, ov, derived, channels, group.value));
    }
  }

  /** Kuma's channels and groups are the same. */
  predicate SameReferences(a: Kuma, b: Kuma) {
    a.notifications == b.notifications && a.groups == b.groups
  }

  lemma CourseStable(cfg: Config, a: Kuma, b: Kuma, attempt: Attempt)
    requires SameReferences(a, b) && Course(cfg, a, attempt)
    ensures Course(cfg, b, attempt)
  {}

  /** After any step that leads nowhere or to another phase of the same course. */
  predicate Continues(cfg: Config, l: Local, after: Local)
    requires l.attempt.Some?
  {
    && SameReferences(l.kuma, after.kuma) && after.attempt.Some? && after.attempt.value.snap == l.attempt.value.snap
    && (after.attempt.value.phase == Ended(Error) || Course(cfg, l.kuma, l.attempt.value.(phase := after.attempt.value.phase)))
  }

  lemma ContinuesOnCourse(cfg: Config, l: Local, after: Local)
    requires l.attempt.Some? && Continues(cfg, l, after)
    ensures OnCourse(cfg, after)
  {
    CourseStable(cfg, l.kuma, after.kuma, l.attempt.value.(phase := after.attempt.value.phase));
    SamePhaseCourse(cfg, after.kuma, l.attempt.value, after.attempt.value);
  }

  lemma SamePhaseCourse(cfg: Config, k: Kuma, a: Attempt, b: Attempt)
    requires b.snap == a.snap && (b.phase == Ended(Error) || Course(cfg, k, a.(phase := b.phase)))
    ensures Course(cfg, k, b)
  {}

  lemma UpsertStepContinues(cfg: Config, l: Local, who: Owner, id: int, spec: MonitorSpec, outcome: Outcome, ids: map<string, string>, host: string)
    requires l.attempt.Some?
    requires forall newIDs :: Course(cfg, l.kuma, l.attempt.value.(phase := AfterUpsert(l.attempt.value.phase, host, newIDs)))
    ensures Continues(cfg, l, UpsertStep(l, who, id, spec, outcome, ids, host))
  {}

  lemma AfterUpsertCourse(cfg: Config, k: Kuma, a: Attempt, host: string, ids: map<string, string>)
    requires Course(cfg, k, a) && (a.phase.Upserting? || a.phase.Drifting?)
    ensures Course(cfg, k, a.(phase := AfterUpsert(a.phase, host, ids)))
  {}

  lemma OneUpsertCourse(cfg: Config, l: Local, who: Owner, id: int, spec: MonitorSpec, outcome: Outcome, ids: map<string, string>, host: string)
    requires l.attempt.Some? && OnCourse(cfg, l) && (l.attempt.value.phase.Upserting? || l.attempt.value.phase.Drifting?)
    ensures OnCourse(cfg, UpsertStep(l, who, id, spec, outcome, ids, host))
  {
    forall newIDs
      ensures Course(cfg, l.kuma, l.attempt.value.(phase := AfterUpsert(l.attempt.value.phase, host, newIDs)))
    {
      AfterUpsertCourse(cfg, l.kuma, l.attempt.value, host, newIDs);
    }
    UpsertStepContinues(cfg, l, who, id, spec, outcome, ids, host);
    ContinuesOnCourse(cfg, l, UpsertStep(l, who, id, spec, outcome, ids, host));
  }

  lemma UpsertCourse(cfg: Config, l: Local, who: Owner, host: string, outcome: Outcome)
    requires l.attempt.Some? && OnCourse(cfg, l) && (l.attempt.value.phase.Upserting? || l.attempt.value.phase.Drifting?)
    ensures OnCourse(cfg, ChangeStep(l, who, host, outcome))
  {
    match l.attempt.value.phase
    case Upserting(plan, next, ids) =>
      if next < |plan.desired| {
        var dm := plan.desired[next];
        OneUpsertCourse(cfg, l, who, StoredID(plan, dm.host), dm.spec, outcome, ids, dm.host);
      }
    case Drifting(plan, drifted, ids) =>
      if host in drifted && SpecFor(plan.desired, host).Some? {
        OneUpsertCourse(cfg, l, who, drifted[host], SpecFor(plan.desired, host).value, outcome, ids, host);
      }
  }

  lemma DeleteCourse(cfg: Config, l: Local, who: Owner, host: string, outcome: Outcome)
    requires l.attempt.Some? && OnCourse(cfg, l) && (l.attempt.value.phase.Deleting? || l.attempt.value.phase.Removing?)
    ensures OnCourse(cfg, ChangeStep(l, who, host, outcome))
  {}

  lemma WriteStepPhase(l: Local, write: Write, tries: nat, got: Resource, outcome: Outcome)
    requires l.attempt.Some?
    ensures
      var after := WriteStep(l, write, tries, got, outcome);
      && SameReferences(l.kuma, after.kuma) && after.attempt.Some? && after.attempt.value.snap == l.attempt.value.snap
      && var phase := after.attempt.value.phase;
         phase == Ended(Error) || phase == Reading(write, tries + 1) || phase == AfterWrite(write)
  {}

  lemma WriteStepContinues(cfg: Config, l: Local, write: Write, tries: nat, got: Resource, outcome: Outcome)
    requires l.attempt.Some? && WriteOnPlan(cfg, l.kuma, l.attempt.value.snap, write)
    ensures Continues(cfg, l, WriteStep(l, write, tries, got, outcome))
  {
    WriteStepPhase(l, write, tries, got, outcome);
  }

  lemma DropStepContinues(cfg: Config, l: Local, outcome: Outcome)
    requires l.attempt.Some? && !Wanted(cfg, l.attempt.value.snap)
    ensures Continues(cfg, l, DropFinalizerStep(l, outcome))
  {}

  lemma WriteCourse(cfg: Config, l: Local, who: Owner, host: string, outcome: Outcome)
    requires l.attempt.Some? && OnCourse(cfg, l) && (l.attempt.value.phase.Writing? || l.attempt.value.phase.DroppingFinalizer?)
    ensures OnCourse(cfg, ChangeStep(l, who, host, outcome))
  {
    match l.attempt.value.phase
    case Writing(write, tries, got) =>
      WriteStepContinues(cfg, l, write, tries, got, outcome);
      ContinuesOnCourse(cfg, l, WriteStep(l, write, tries, got, outcome));
    case DroppingFinalizer =>
      DropStepContinues(cfg, l, outcome);
      ContinuesOnCourse(cfg, l, DropFinalizerStep(l, outcome));
  }

  lemma ChangeCourse(cfg: Config, l: Local, who: Owner, host: string, outcome: Outcome)
    requires l.attempt.Some? && OnCourse(cfg, l)
    ensures OnCourse(cfg, ChangeStep(l, who, host, outcome))
  {
    var phase := l.attempt.value.phase;
    if phase.Upserting? || phase.Drifting? {
      UpsertCourse(cfg, l, who, host, outcome);
    } else if phase.Deleting? || phase.Removing? {
      DeleteCourse(cfg, l, who, host, outcome);
    } else if phase.Writing? || phase.DroppingFinalizer? {
      WriteCourse(cfg, l, who, host, outcome);
    }
  }

  /** A reconcile stays on course through every step of its own. */
  lemma StepCourse(cfg: Config, who: Owner, l: Local, action: Action)
    requires OnCourse(cfg, l)
    ensures OnCourse(cfg, Step(cfg, who, l, action))
  {
    if l.attempt.Some? {
      match action {
        case Begin =>
        case Read(ok) => ReadCourse(cfg, l, ok);
        case Change(host, outcome) => ChangeCourse(cfg, l, who, host, outcome);
        case Tag(host, ok, tags) => TagCourse(cfg, l, host, ok, tags);
        case Finish =>
        case Crash =>
      }
    } else if action.Begin? && l.cur.Some? {
      StartCourse(cfg, l.kuma, Attempt(l.cur.value, {}, {}, Start(cfg, l.cur.value)));
    }
  }

  lemma TagCourse(cfg: Config, l: Local, host: string, ok: bool, tags: set<string>)
    requires l.attempt.Some? && OnCourse(cfg, l)
    ensures OnCourse(cfg, TagStep(l, host, ok, tags))
  {}

  // -------------------------------------------------------------------- settled

  /** Phases in which an attempt does not write. */
  predicate Quiet(phase: Phase) {
    phase.AskingChannels? || phase.AskingGroup? || phase.Listing? || phase.Tagging? || phase.Ended?
  }

  /** The resource is live and opted in, its record is that of what it now asks for, every
      monitor is configured so, and no attempt in progress is about to write. */
  ghost predicate Settled(cfg: Config, l: Local, r: Resource, plan: Plan) {
    && l.cur == Some(r) && r.finalizer && OnPlan(cfg, l.kuma, r, plan)
    && r.hash == plan.hash && SpecsMatch(plan.desired, plan.existing, l.kuma.monitors)
    && (l.attempt.Some? ==>
          var a := l.attempt.value;
          && a.created == {} && Quiet(a.phase) && Course(cfg, l.kuma, a)
          && a.snap.manifest == r.manifest && SameMarks(a.snap, r))
  }

  lemma SamePlan(cfg: Config, k: Kuma, snap: Resource, r: Resource)
    requires snap.manifest == r.manifest && SameMarks(snap, r)
    ensures PlanNow(cfg, k, snap) == PlanNow(cfg, k, r)
  {}

  lemma PlanHasIDs(cfg: Config, k: Kuma, r: Resource, plan: Plan)
    requires OnPlan(cfg, k, r, plan)
    ensures r.ids == IDs(plan.existing)
  {}

  /** A course that does not write leads to no writing phase. */
  lemma PlannedIsQuiet(cfg: Config, k: Kuma, snap: Resource, ov: Derive.Overrides, derived: seq<DesiredMonitor>, channels: seq<int>, plan: Plan)
    requires OnPlan(cfg, k, snap, plan) && snap.hash == plan.hash && Derived(snap, ov, derived)
    requires References.ResolveNotifications(k.notifications, ov.notifications) == Some(channels)
    ensures Quiet(WithChannels(cfg, snap, ov, derived, channels))
    ensures References.ResolveGroup(k.groups, ov.group).Some?
            && PlanFor(cfg, snap, ov, derived, channels, References.ResolveGroup(k.groups, ov.group).value) == plan
  {}

  lemma SettledRead(cfg: Config, who: Owner, l: Local, r: Resource, plan: Plan, ok: bool)
    requires Settled(cfg, l, r, plan) && l.attempt.Some?
    ensures Settled(cfg, ReadStep(cfg, l, ok), r, plan)
  {
    var a := l.attempt.value;
    SamePlan(cfg, l.kuma, a.snap, r);
    ReadCourse(cfg, l, ok);
    assert Orphan(l.kuma, {}) == l.kuma;
    if ok && a.phase.AskingChannels? {
      var known := References.ResolveNotifications(l.kuma.notifications, a.phase.ov.notifications);
      if known.Some? {
        PlannedIsQuiet(cfg, l.kuma, a.snap, a.phase.ov, a.phase.derived, known.value, plan);
      }
    } else if ok && a.phase.AskingGroup? {
      PlannedIsQuiet(cfg, l.kuma, a.snap, a.phase.ov, a.phase.derived, a.phase.channels, plan);
    }
  }

  lemma SettledTag(cfg: Config, who: Owner, l: Local, r: Resource, plan: Plan, host: string, ok: bool, tags: set<string>)
    requires Settled(cfg, l, r, plan) && l.attempt.Some?
    ensures Settled(cfg, TagStep(l, host, ok, tags), r, plan)
  {
    TagCourse(cfg, l, host, ok, tags);
  }

  lemma SettledStart(cfg: Config, l: Local, r: Resource, plan: Plan)
    requires Settled(cfg, l, r, plan) && l.attempt.None?
    ensures Settled(cfg, l.(attempt := Some(Attempt(r, {}, {}, Start(cfg, r)))), r, plan)
  {
    var a := Attempt(r, {}, {}, Start(cfg, r));
    StartCourse(cfg, l.kuma, a);
    var ov := r.manifest.overrides.value;
    var derived := Derive.DesiredMonitors(r.manifest.routes, ov).value;
    if ov.notifications == [] {
      PlannedIsQuiet(cfg, l.kuma, r, ov, derived, [], plan);
    }
  }

  /** Reconciling a settled resource, however its calls fail, leaves it settled: no Upsert, no
      Delete and no Update is made. */
  lemma SettledStep(cfg: Config, who: Owner, l: Local, r: Resource, plan: Plan, action: Action)
    requires Settled(cfg, l, r, plan)
    ensures Settled(cfg, Step(cfg, who, l, action), r, plan) && Step(cfg, who, l, action).writes == l.writes
  {
    if l.attempt.None? {
      SettledStart(cfg, l, r, plan);
    } else {
      match action {
        case Begin =>
        case Read(ok) => SettledRead(cfg, who, l, r, plan, ok);
        case Change(host, outcome) => assert ChangeStep(l, who, host, outcome) == l;
        case Tag(host, ok, tags) => SettledTag(cfg, who, l, r, plan, host, ok, tags);
        case Finish =>
        case Crash => SettledCrash(cfg, l, r, plan);
      }
    }
  }

  lemma SettledCrash(cfg: Config, l: Local, r: Resource, plan: Plan)
    requires Settled(cfg, l, r, plan) && l.attempt.Some?
    ensures Settled(cfg, Fail(l).(attempt := None), r, plan)
  {}

  // ---------------------------------------------------------- what keeps it settled

  /** The tracked monitors keep their configuration. */
  ghost predicate TrackedSame(a: Kuma, b: Kuma, ids: map<string, string>) {
    forall h :: h in ids && IDOf(ids[h]) in a.monitors ==>
      IDOf(ids[h]) in b.monitors && b.monitors[IDOf(ids[h])] == a.monitors[IDOf(ids[h])]
  }

  /** Others acting leaves it settled unless they touch its monitors, channels or groups. */
  lemma SettledShift(cfg: Config, l: Local, r: Resource, plan: Plan, k: Kuma, latest: int, touched: set<int>)
    requires Settled(cfg, l, r, plan) && SameReferences(l.kuma, k) && TrackedSame(l.kuma, k, plan.existing)
    ensures Settled(cfg, HostStability.Shifted(l, k, latest, touched), r, plan)
  {
    forall h | h in plan.existing && SpecFor(plan.desired, h).Some?
      ensures Matches(SpecFor(plan.desired, h).value, plan.existing[h], k.monitors)
    {
      assert Matches(SpecFor(plan.desired, h).value, plan.existing[h], l.kuma.monitors);
    }
    if l.attempt.Some? {
      var b := HostStability.Shifted(l, k, latest, touched).attempt.value;
      CourseStable(cfg, l.kuma, k, l.attempt.value);
      SamePhaseCourse(cfg, k, l.attempt.value, b);
    }
  }

  /** Metadata changes by others leave it settled, under its new version. */
  lemma SettledTouch(cfg: Config, l: Local, r: Resource, plan: Plan, foreign: bool)
    requires Settled(cfg, l, r, plan)
    ensures
      var after := UserStep(l, Touch(foreign));
      after.cur.Some? && Settled(cfg, after, after.cur.value, plan) && after.writes == l.writes
  {
    var after := UserStep(l, Touch(foreign));
    SamePlan(cfg, l.kuma, r, after.cur.value);
  }

  // ------------------------------------------------------------------ convergence

  /** An attempt that ended well, and was not disturbed, leaves the resource settled: the
      tracked hosts are the desired ones, each with its monitor configured and tagged as
      desired. */
  lemma Converges(cfg: Config, who: Owner, l: Local, plan: Plan, ids: map<string, string>)
    requires CollisionFree(cfg) && Inv(cfg, who, l) && OnCourse(cfg, l)
    requires l.attempt.Some? && l.attempt.value.phase == Ended(InSync(plan, ids))
    requires l.cur.value.manifest == l.attempt.value.snap.manifest && !l.cur.value.deleting
    requires forall h :: h in ids ==> IDOf(ids[h]) !in l.attempt.value.touched
    ensures
      var l1 := l.(attempt := None);
      var now := plan.(existing := ids);
      && Settled(cfg, l1, l.cur.value, now)
      && ids.Keys == Derive.Hosts(plan.desired)
      && (forall h :: h in ids ==> SpecFor(plan.desired, h).Some? && TagsOn(l.kuma, IDOf(ids[h])) == plan.tags)
  {
    var r, now := l.cur.value, plan.(existing := ids);
    assert OnPlan(cfg, l.kuma, r, now);
    forall h | h in ids
      ensures SpecFor(plan.desired, h).Some?
      ensures Matches(SpecFor(plan.desired, h).value, ids[h], l.kuma.monitors)
    {
      HostUpserts.SpecForIsDesired(plan.desired, h);
      assert ConfiguredAt(l.kuma, l.attempt.value.touched, plan.desired, ids, h);
      assert Canonical(l.kuma, who, ids[h]);
    }
  }

  /** A reconcile of a live, opted-in resource ends in sync or with an error, never otherwise;
      and one of a deleted or opted-out resource never ends in sync. */
  lemma VerdictFits(cfg: Config, l: Local)
    requires OnCourse(cfg, l) && l.attempt.Some? && l.attempt.value.phase.Ended? && l.attempt.value.phase.verdict != Error
    ensures l.attempt.value.phase.verdict.InSync? <==> Wanted(cfg, l.attempt.value.snap)
  {}
}
