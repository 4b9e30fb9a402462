/** Whether a reconcile of a live, opted-in resource gets to its end: with its calls succeeding
    it never fails, and it can be brought to end in sync exactly if it need not list Kuma's
    monitors or Kuma's listing can be translated. */
module HostCompletion {
  import opened Wrappers
  import opened Spec
  import opened Strconv
  import opened Store
  import opened Tracking
  import opened HostMachine
  import opened HostInvariant
  import opened HostQuiescence
  import opened HostSync
  import HostStability
  import HostUpserts
  import HostCorrection
  import Derive

  predicate Succeeds(action: Action) {
    match action
    case Begin => false
    case Read(ok) => ok
    case Change(_, outcome) => outcome == Succeeded
    case Tag(_, ok, _) => ok
    case Finish => false
    case Crash => false
  }

  predicate AllSucceed(actions: seq<Action>) {
    forall i :: 0 <= i < |actions| ==> Succeeds(actions[i])
  }

  /** The operator's own client returns no listing while one monitor in it cannot be
      translated. */
  predicate Possible(l: Local, action: Action) {
    action == Read(true) && l.attempt.Some? && l.attempt.value.phase.Listing? ==> Listable(l.kuma)
  }

  ghost predicate AllPossible(cfg: Config, who: Owner, l: Local, actions: seq<Action>) {
    forall i :: 0 <= i < |actions| ==> Possible(Steps(cfg, who, l, actions[..i]), actions[i])
  }

  /** No loop of a thriving attempt is empty. */
  predicate Busy(phase: Phase) {
    match phase
    case Drifting(_, todo, _) => todo != map[]
    case Upserting(plan, next, _) => next < |plan.desired|
    case Removing(_, _, todo) => todo != map[]
    case Tagging(_, _, todo) => todo != map[]
    case _ => true
  }

  /** What the phase knows while the resource is as it was read and nothing has failed. */
  predicate Sound(cur: Option<Resource>, phase: Phase, r: Resource, plan: Plan) {
    && phase != Ended(Error) && Busy(phase)
    && (Open(phase) ==> cur == Some(r))
    && (phase.Writing? ==> phase.got == r)
    && (phase.Listing? ==> r.hash == plan.hash)
    && (phase.Drifting? ==> forall h :: h in phase.drifted ==> SpecFor(plan.desired, h).Some?)
  }

  /** The attempt pursues `plan` for the resource as it still is, and nothing has failed. */
  ghost predicate Thriving(cfg: Config, l: Local, r: Resource, plan: Plan) {
    && l.attempt.Some? && l.attempt.value.snap == r
    && OnPlan(cfg, l.kuma, r, plan) && OnCourse(cfg, l)
    && Sound(l.cur, l.attempt.value.phase, r, plan)
  }

  predicate Creating(phase: Phase) {
    phase.Upserting? || phase.Drifting?
  }

  lemma ThrivingPlan(cfg: Config, l: Local, r: Resource, plan: Plan)
    requires Thriving(cfg, l, r, plan)
    ensures
      var phase := l.attempt.value.phase;
      && !phase.Deleting? && !phase.DroppingFinalizer?
      && ((phase.Listing? || phase.Drifting? || phase.Upserting? || phase.Removing? || phase.Tagging?) ==> phase.plan == plan)
      && ((phase.Reading? || phase.Writing?) ==> phase.write.Keep? && phase.write.plan == plan)
      && (phase.Ended? ==> phase.verdict.InSync?)
  {}

  // --------------------------------------------------------- nothing fails by itself

  lemma PlannedThrives(cfg: Config, l: Local, r: Resource, plan: Plan)
    requires l.attempt.Some? && l.attempt.value.snap == r && OnPlan(cfg, l.kuma, r, plan) && l.cur == Some(r)
    requires l.attempt.value.phase == Planned(plan, r)
    ensures Thriving(cfg, l, r, plan)
  {
    PlannedCourse(cfg, l.kuma, l.attempt.value, plan);
  }

  lemma AskedThrives(cfg: Config, l: Local, r: Resource, plan: Plan)
    requires Thriving(cfg, l, r, plan) && (l.attempt.value.phase.AskingChannels? || l.attempt.value.phase.AskingGroup?)
    ensures Thriving(cfg, ReadStep(cfg, l, true), r, plan)
  {
    ReadCourse(cfg, l, true);
    var a := l.attempt.value;
    if a.phase.AskingGroup? || a.phase.ov.group == "" {
      PlannedThrives(cfg, ReadStep(cfg, l, true), r, plan);
    }
  }

  lemma ListedThrives(cfg: Config, l: Local, r: Resource, plan: Plan)
    requires Thriving(cfg, l, r, plan) && l.attempt.value.phase.Listing?
    ensures Thriving(cfg, ReadStep(cfg, l, true), r, plan)
  {
    ThrivingPlan(cfg, l, r, plan);
    ReadCourse(cfg, l, true);
  }

  lemma ReadThrives(cfg: Config, l: Local, r: Resource, plan: Plan)
    requires Thriving(cfg, l, r, plan)
    ensures Thriving(cfg, ReadStep(cfg, l, true), r, plan)
  {
    var phase := l.attempt.value.phase;
    if phase.AskingChannels? || phase.AskingGroup? {
      AskedThrives(cfg, l, r, plan);
    } else if phase.Listing? {
      ListedThrives(cfg, l, r, plan);
    } else {
      ReadCourse(cfg, l, true);
    }
  }

  /** A successful Upsert uses up at most one id. */
  lemma UpsertUses(l: Local, who: Owner, id: int, spec: MonitorSpec, ids: map<string, string>, host: string)
    requires l.attempt.Some? && l.kuma.nextID < MAX_INT64
    ensures
      var after := UpsertStep(l, who, id, spec, Succeeded, ids, host);
      var got := Upsert(l.kuma, who, id, spec).value.1;
      && after.attempt.Some? && after.attempt.value.snap == l.attempt.value.snap && after.cur == l.cur
      && SameReferences(l.kuma, after.kuma) && after.kuma.nextID <= l.kuma.nextID + 1
      && after.attempt.value.phase == AfterUpsert(l.attempt.value.phase, host, ids[host := FormatInt(got)])
  {}

  lemma UpsertingThrives(cfg: Config, who: Owner, l: Local, r: Resource, plan: Plan, host: string)
    requires Thriving(cfg, l, r, plan) && l.attempt.value.phase.Upserting? && l.kuma.nextID < MAX_INT64
    ensures Thriving(cfg, ChangeStep(l, who, host, Succeeded), r, plan)
  {
    ThrivingPlan(cfg, l, r, plan);
    ChangeCourse(cfg, l, who, host, Succeeded);
    var next, ids := l.attempt.value.phase.next, l.attempt.value.phase.ids;
    var dm := plan.desired[next];
    UpsertUses(l, who, StoredID(plan, dm.host), dm.spec, ids, dm.host);
  }

  /** A successful correction uses up one host of the loop. */
  lemma CorrectionUses(l: Local, who: Owner, plan: Plan, todo: map<string, int>, ids: map<string, string>, host: string)
    requires l.attempt.Some? && l.attempt.value.phase == Drifting(plan, todo, ids) && host in todo
    requires SpecFor(plan.desired, host).Some? && l.kuma.nextID < MAX_INT64
    ensures
      var after := ChangeStep(l, who, host, Succeeded);
      && after.attempt.Some? && after.attempt.value.snap == l.attempt.value.snap && after.cur == l.cur
      && SameReferences(l.kuma, after.kuma) && after.kuma.nextID <= l.kuma.nextID + 1
      && exists newIDs :: after.attempt.value.phase == Drifts(plan, todo - {host}, newIDs)
  {
    var spec := SpecFor(plan.desired, host).value;
    UpsertUses(l, who, todo[host], spec, ids, host);
    assert ChangeStep(l, who, host, Succeeded) == UpsertStep(l, who, todo[host], spec, Succeeded, ids, host);
  }

  lemma DriftingThrives(cfg: Config, who: Owner, l: Local, r: Resource, plan: Plan, host: string)
    requires Thriving(cfg, l, r, plan) && l.attempt.value.phase.Drifting? && l.kuma.nextID < MAX_INT64
    ensures Thriving(cfg, ChangeStep(l, who, host, Succeeded), r, plan)
  {
    ThrivingPlan(cfg, l, r, plan);
    var todo, ids := l.attempt.value.phase.drifted, l.attempt.value.phase.ids;
    if host in todo {
      CorrectionUses(l, who, plan, todo, ids, host);
      ChangeCourse(cfg, l, who, host, Succeeded);
    }
  }

  lemma WriteThrives(cfg: Config, who: Owner, l: Local, r: Resource, plan: Plan, host: string)
    requires Thriving(cfg, l, r, plan) && l.attempt.value.phase.Writing?
    ensures Thriving(cfg, ChangeStep(l, who, host, Succeeded), r, plan)
  {
    ThrivingPlan(cfg, l, r, plan);
    ChangeCourse(cfg, l, who, host, Succeeded);
  }

  lemma ChangeThrives(cfg: Config, who: Owner, l: Local, r: Resource, plan: Plan, host: string)
    requires Thriving(cfg, l, r, plan) && (Creating(l.attempt.value.phase) ==> l.kuma.nextID < MAX_INT64)
    ensures Thriving(cfg, ChangeStep(l, who, host, Succeeded), r, plan)
  {
    ThrivingPlan(cfg, l, r, plan);
    var phase := l.attempt.value.phase;
    if phase.Upserting? {
      UpsertingThrives(cfg, who, l, r, plan, host);
    } else if phase.Drifting? {
      DriftingThrives(cfg, who, l, r, plan, host);
    } else if phase.Writing? {
      WriteThrives(cfg, who, l, r, plan, host);
    } else if phase.Removing? {
      ChangeCourse(cfg, l, who, host, Succeeded);
    }
  }

  /** A successful step leads on, as long as there are ids for what it may create. */
  lemma StepThrives(cfg: Config, who: Owner, l: Local, r: Resource, plan: Plan, action: Action)
    requires Thriving(cfg, l, r, plan) && Succeeds(action)
    requires Creating(l.attempt.value.phase) ==> l.kuma.nextID < MAX_INT64
    ensures Thriving(cfg, Step(cfg, who, l, action), r, plan)
  {
    match action
    case Read(ok) => ReadThrives(cfg, l, r, plan);
    case Change(host, outcome) => ChangeThrives(cfg, who, l, r, plan, host);
    case Tag(host, ok, tags) => TagCourse(cfg, l, host, true, tags);
  }

  lemma BeginThrives(cfg: Config, who: Owner, l: Local, r: Resource, plan: Plan)
    requires l.attempt.None? && l.cur == Some(r) && OnPlan(cfg, l.kuma, r, plan)
    ensures Thriving(cfg, Step(cfg, who, l, Begin), r, plan)
  {
    var after := Step(cfg, who, l, Begin);
    StartCourse(cfg, l.kuma, Attempt(r, {}, {}, Start(cfg, r)));
    var ov := r.manifest.overrides.value;
    if ov.notifications == [] && ov.group == "" {
      PlannedThrives(cfg, after, r, plan);
    }
  }

  /** Others acting does not make it fail, whatever they do to its monitors. */
  lemma ShiftThrives(cfg: Config, l: Local, r: Resource, plan: Plan, k: Kuma, latest: int, touched: set<int>)
    requires Thriving(cfg, l, r, plan) && SameReferences(l.kuma, k)
    ensures Thriving(cfg, HostStability.Shifted(l, k, latest, touched), r, plan)
  {
    CourseStable(cfg, l.kuma, k, l.attempt.value);
    SamePhaseCourse(cfg, k, l.attempt.value, HostStability.Shifted(l, k, latest, touched).attempt.value);
  }

  // ------------------------------------------------------------------ enough ids

  /** Enough ids are left for what the attempt may still create. */
  predicate Affords(k: Kuma, phase: Phase, plan: Plan) {
    match phase
    case AskingChannels(_, _) => k.nextID + |plan.desired| <= MAX_INT64
    case AskingGroup(_, _, _) => k.nextID + |plan.desired| <= MAX_INT64
    case Listing(_) => k.nextID + |plan.desired| <= MAX_INT64
    case Drifting(_, todo, _) => k.nextID + |todo| <= MAX_INT64
    case Upserting(_, next, _) => k.nextID + |plan.desired| - next <= MAX_INT64
    case _ => true
  }

  /** The hosts are at most as many as the entries. */
  lemma {:induction false} HostCount(desired: seq<DesiredMonitor>)
    ensures |Derive.Hosts(desired)| <= |desired|
  {
    if desired != [] {
      var next := |desired| - 1;
      HostCount(desired[..next]);
      HostUpserts.HostsStep(desired, next);
      assert desired[..next + 1] == desired;
    }
  }

  lemma DriftedAreFew(desired: seq<DesiredMonitor>, existing: map<string, string>, live: map<int, MonitorSpec>)
    ensures |Drifted(desired, existing, live)| <= |desired|
  {
    var drifted := Drifted(desired, existing, live);
    forall h | h in drifted.Keys
      ensures h in Derive.Hosts(desired)
    {
      HostUpserts.SpecForIsDesired(desired, h);
    }
    HostCount(desired);
    SubsetSize(drifted.Keys, Derive.Hosts(desired));
  }

  lemma {:induction false} SubsetSize(a: set<string>, b: set<string>)
    requires a <= b
    ensures |a| <= |b|
    decreases a
  {
    if a != {} {
      var x :| x in a;
      SubsetSize(a - {x}, b - {x});
    }
  }

  lemma FewerLeft<V>(todo: map<string, V>, host: string)
    requires host in todo
    ensures |todo - {host}| == |todo| - 1
  {
    assert (todo - {host}).Keys == todo.Keys - {host};
    assert |todo.Keys - {host}| == |todo.Keys| - 1;
  }

  lemma CreatingAffords(who: Owner, l: Local, r: Resource, plan: Plan, host: string)
    requires l.attempt.Some? && Sound(l.cur, l.attempt.value.phase, r, plan) && Affords(l.kuma, l.attempt.value.phase, plan)
    requires Creating(l.attempt.value.phase) && l.attempt.value.phase.plan == plan
    ensures l.kuma.nextID < MAX_INT64
    ensures
      var after := ChangeStep(l, who, host, Succeeded);
      after.attempt.Some? && Affords(after.kuma, after.attempt.value.phase, plan)
  {
    match l.attempt.value.phase
    case Upserting(p, next, ids) =>
      var dm := plan.desired[next];
      UpsertUses(l, who, StoredID(plan, dm.host), dm.spec, ids, dm.host);
    case Drifting(p, todo, ids) =>
      assert |todo| > 0;
      if host in todo {
        FewerLeft(todo, host);
        CorrectionUses(l, who, plan, todo, ids, host);
      }
  }

  lemma ReadAffords(cfg: Config, l: Local, r: Resource, plan: Plan)
    requires Thriving(cfg, l, r, plan) && Affords(l.kuma, l.attempt.value.phase, plan)
    ensures
      var after := ReadStep(cfg, l, true);
      after.attempt.Some? && Affords(after.kuma, after.attempt.value.phase, plan)
  {
    ThrivingPlan(cfg, l, r, plan);
    ReadThrives(cfg, l, r, plan);
    ThrivingPlan(cfg, ReadStep(cfg, l, true), r, plan);
    DriftedAreFew(plan.desired, plan.existing, l.kuma.monitors);
  }

  /** Deletes, the record and tags create nothing. */
  lemma OtherAffords(cfg: Config, who: Owner, l: Local, r: Resource, plan: Plan, action: Action)
    requires l.attempt.Some? && Sound(l.cur, l.attempt.value.phase, r, plan) && !Creating(l.attempt.value.phase) && !action.Read?
    requires Affords(l.kuma, l.attempt.value.phase, plan) && Succeeds(action)
    requires !l.attempt.value.phase.Deleting? && !l.attempt.value.phase.DroppingFinalizer?
    ensures
      var after := Step(cfg, who, l, action);
      after.attempt.Some? && Affords(after.kuma, after.attempt.value.phase, plan)
  {}

  lemma StepAffords(cfg: Config, who: Owner, l: Local, r: Resource, plan: Plan, action: Action)
    requires Thriving(cfg, l, r, plan) && Affords(l.kuma, l.attempt.value.phase, plan) && Succeeds(action)
    ensures Creating(l.attempt.value.phase) ==> l.kuma.nextID < MAX_INT64
    ensures
      var after := Step(cfg, who, l, action);
      Thriving(cfg, after, r, plan) && Affords(after.kuma, after.attempt.value.phase, plan)
  {
    ThrivingPlan(cfg, l, r, plan);
    if Creating(l.attempt.value.phase) {
      CreatingAffords(who, l, r, plan, if action.Change? then action.host else "");
    }
    StepThrives(cfg, who, l, r, plan, action);
    if action.Read? {
      ReadAffords(cfg, l, r, plan);
    } else if !Creating(l.attempt.value.phase) {
      OtherAffords(cfg, who, l, r, plan, action);
    }
  }

  lemma {:induction false} StepsAfford(cfg: Config, who: Owner, l: Local, r: Resource, plan: Plan, actions: seq<Action>)
    requires Thriving(cfg, l, r, plan) && Affords(l.kuma, l.attempt.value.phase, plan) && AllSucceed(actions)
    ensures
      var after := Steps(cfg, who, l, actions);
      Thriving(cfg, after, r, plan) && Affords(after.kuma, after.attempt.value.phase, plan)
  {
    if actions != [] {
      StepsAfford(cfg, who, l, r, plan, actions[..|actions| - 1]);
      StepAffords(cfg, who, Steps(cfg, who, l, actions[..|actions| - 1]), r, plan, actions[|actions| - 1]);
    }
  }

  /** A live, opted-in resource about to be reconciled, whose names Kuma knows, with ids left. */
  ghost predicate Ready(cfg: Config, l: Local, r: Resource, plan: Plan) {
    && l.attempt.None? && l.cur == Some(r) && OnPlan(cfg, l.kuma, r, plan)
    && l.kuma.nextID + |plan.desired| <= MAX_INT64
  }

  lemma BeginAffords(cfg: Config, who: Owner, l: Local, r: Resource, plan: Plan)
    requires Ready(cfg, l, r, plan)
    ensures
      var after := Step(cfg, who, l, Begin);
      Thriving(cfg, after, r, plan) && Affords(after.kuma, after.attempt.value.phase, plan)
  {
    BeginThrives(cfg, who, l, r, plan);
    ThrivingPlan(cfg, Step(cfg, who, l, Begin), r, plan);
  }

  /** An undisturbed attempt whose calls all succeed never fails: once it is over it is in
      sync. */
  lemma SuccessEndsInSync(cfg: Config, who: Owner, l: Local, r: Resource, plan: Plan, actions: seq<Action>)
    requires Ready(cfg, l, r, plan) && AllSucceed(actions)
    ensures
      var after := Steps(cfg, who, Step(cfg, who, l, Begin), actions);
      && after.attempt.Some? && after.attempt.value.phase != Ended(Error)
      && (after.attempt.value.phase.Ended? ==> after.attempt.value.phase.verdict.InSync?)
  {
    BeginAffords(cfg, who, l, r, plan);
    StepsAfford(cfg, who, Step(cfg, who, l, Begin), r, plan, actions);
    ThrivingPlan(cfg, Steps(cfg, who, Step(cfg, who, l, Begin), actions), r, plan);
  }

  // ------------------------------------------------------------------ getting there

  /** How far an attempt is from its end: the stage it is in, and what is left of its loop. */
  function Stage(phase: Phase): nat {
    match phase
    case AskingChannels(_, _) => 8
    case AskingGroup(_, _, _) => 7
    case Listing(_) => 6
    case Drifting(_, _, _) => 5
    case Upserting(_, _, _) => 5
    case Removing(_, _, _) => 4
    case Reading(_, _) => 3
    case Writing(_, _, _) => 2
    case Tagging(_, _, _) => 1
    case _ => 0
  }

  function Left(phase: Phase): nat {
    match phase
    case Drifting(_, todo, _) => |todo|
    case Upserting(plan, next, _) => if next < |plan.desired| then |plan.desired| - next else 0
    case Removing(_, _, todo) => |todo|
    case Tagging(_, _, todo) => |todo|
    case _ => 0
  }

  predicate Nearer(after: Phase, before: Phase) {
    Stage(after) < Stage(before) || (Stage(after) == Stage(before) && Left(after) < Left(before))
  }

  lemma ReadAdvances(cfg: Config, who: Owner, l: Local, r: Resource, plan: Plan)
    requires Thriving(cfg, l, r, plan) && Thriving(cfg, Step(cfg, who, l, Read(true)), r, plan)
    requires
      var phase := l.attempt.value.phase;
      phase.AskingChannels? || phase.AskingGroup? || phase.Listing? || phase.Reading?
    ensures Nearer(Step(cfg, who, l, Read(true)).attempt.value.phase, l.attempt.value.phase)
  {}

  lemma DriftingAdvances(cfg: Config, who: Owner, l: Local, plan: Plan, todo: map<string, int>, ids: map<string, string>, host: string)
    requires l.attempt.Some? && l.attempt.value.phase == Drifting(plan, todo, ids) && host in todo
    requires SpecFor(plan.desired, host).Some? && l.kuma.nextID < MAX_INT64
    ensures
      var after := Step(cfg, who, l, Change(host, Succeeded));
      after.attempt.Some? && Nearer(after.attempt.value.phase, l.attempt.value.phase)
  {
    HostCorrection.DriftingLeads(cfg, who, l, plan, todo, ids, host, SpecFor(plan.desired, host).value, Succeeded);
    FewerLeft(todo, host);
  }

  lemma UpsertingAdvances(cfg: Config, who: Owner, l: Local, plan: Plan, next: nat, ids: map<string, string>)
    requires l.attempt.Some? && l.attempt.value.phase == Upserting(plan, next, ids) && next < |plan.desired| && l.kuma.nextID < MAX_INT64
    ensures
      var after := Step(cfg, who, l, Change("", Succeeded));
      after.attempt.Some? && Nearer(after.attempt.value.phase, l.attempt.value.phase)
  {
    UpsertingLeads(cfg, who, l, plan, next, ids, "", Succeeded);
  }

  lemma RemovingAdvances(cfg: Config, who: Owner, l: Local, plan: Plan, ids: map<string, string>, todo: map<string, string>, host: string)
    requires l.attempt.Some? && l.attempt.value.phase == Removing(plan, ids, todo) && host in todo
    ensures
      var after := Step(cfg, who, l, Change(host, Succeeded));
      after.attempt.Some? && Nearer(after.attempt.value.phase, l.attempt.value.phase)
  {
    RemovingLeads(cfg, who, l, plan, ids, todo, host, Succeeded);
    FewerLeft(todo, host);
  }

  lemma WritingAdvances(cfg: Config, who: Owner, l: Local, plan: Plan, ids: map<string, string>, tries: nat, r: Resource)
    requires l.attempt.Some? && l.attempt.value.phase == Writing(Keep(plan, ids), tries, r)
    requires l.cur == Some(r) && !r.deleting
    ensures
      var after := Step(cfg, who, l, Change("", Succeeded));
      after.attempt.Some? && Nearer(after.attempt.value.phase, l.attempt.value.phase)
  {}

  lemma CallAdvances(cfg: Config, who: Owner, l: Local, r: Resource, plan: Plan) returns (action: Action)
    requires Thriving(cfg, l, r, plan) && Affords(l.kuma, l.attempt.value.phase, plan)
    requires
      var phase := l.attempt.value.phase;
      Creating(phase) || phase.Removing? || phase.Writing?
    ensures action.Change? && Succeeds(action)
    ensures
      var after := Step(cfg, who, l, action);
      after.attempt.Some? && Nearer(after.attempt.value.phase, l.attempt.value.phase)
  {
    var host := "";
    ThrivingPlan(cfg, l, r, plan);
    if Creating(l.attempt.value.phase) {
      CreatingAffords(who, l, r, plan, host);
    }
    match l.attempt.value.phase {
      case Drifting(p, todo, ids) =>
        host :| host in todo;
        DriftingAdvances(cfg, who, l, p, todo, ids, host);
      case Removing(p, ids, todo) =>
        host :| host in todo;
        RemovingAdvances(cfg, who, l, p, ids, todo, host);
      case Upserting(p, next, ids) => UpsertingAdvances(cfg, who, l, p, next, ids);
      case Writing(write, tries, got) => WritingAdvances(cfg, who, l, plan, write.ids, tries, r);
    }
    action := Change(host, Succeeded);
  }

  /** Some successful call brings the attempt nearer to its end, one the operator's own client
      can make unless the attempt must list and Kuma's listing cannot be translated. */
  lemma Advances(cfg: Config, who: Owner, l: Local, r: Resource, plan: Plan) returns (action: Action)
    requires Thriving(cfg, l, r, plan) && Affords(l.kuma, l.attempt.value.phase, plan) && !l.attempt.value.phase.Ended?
    requires l.attempt.value.phase.Listing? ==> Listable(l.kuma)
    ensures Succeeds(action) && Possible(l, action) && (BeforeListing(l.attempt.value.phase) ==> action == Read(true))
    ensures
      var after := Step(cfg, who, l, action);
      && Thriving(cfg, after, r, plan) && Affords(after.kuma, after.attempt.value.phase, plan)
      && Nearer(after.attempt.value.phase, l.attempt.value.phase)
  {
    ThrivingPlan(cfg, l, r, plan);
    var phase := l.attempt.value.phase;
    if phase.AskingChannels? || phase.AskingGroup? || phase.Listing? || phase.Reading? {
      action := Read(true);
      StepAffords(cfg, who, l, r, plan, action);
      ReadAdvances(cfg, who, l, r, plan);
    } else if phase.Tagging? {
      var host :| host in phase.todo;
      action := Tag(host, true, {});
      StepAffords(cfg, who, l, r, plan, action);
      FewerLeft(phase.todo, host);
    } else {
      action := CallAdvances(cfg, who, l, r, plan);
      StepAffords(cfg, who, l, r, plan, action);
    }
  }

  lemma StepsSplit(cfg: Config, who: Owner, l: Local, first: Action, rest: seq<Action>)
    ensures Steps(cfg, who, l, [first] + rest) == Steps(cfg, who, Step(cfg, who, l, first), rest)
    decreases |rest|
  {
    var whole := [first] + rest;
    if rest == [] {
      assert whole == [first] && whole[..0] == [];
    } else {
      StepsSplit(cfg, who, l, first, rest[..|rest| - 1]);
      assert whole[..|whole| - 1] == [first] + rest[..|rest| - 1];
    }
  }

  lemma PossibleSplit(cfg: Config, who: Owner, l: Local, first: Action, rest: seq<Action>)
    requires Possible(l, first) && AllPossible(cfg, who, Step(cfg, who, l, first), rest)
    ensures AllPossible(cfg, who, l, [first] + rest)
  {
    var whole := [first] + rest;
    forall i | 0 <= i < |whole|
      ensures Possible(Steps(cfg, who, l, whole[..i]), whole[i])
    {
      if i > 0 {
        assert whole[..i] == [first] + rest[..i - 1];
        StepsSplit(cfg, who, l, first, rest[..i - 1]);
      }
    }
  }

  lemma AskingKeepsListable(cfg: Config, l: Local)
    requires l.attempt.Some? && (l.attempt.value.phase.AskingChannels? || l.attempt.value.phase.AskingGroup?)
    ensures Listable(ReadStep(cfg, l, true).kuma) <==> Listable(l.kuma)
  {}

  /** The attempt need not list, or can. */
  predicate Free(k: Kuma, r: Resource, plan: Plan) {
    plan.hash != r.hash || Listable(k)
  }

  predicate BeforeListing(phase: Phase) {
    Stage(phase) >= 6
  }

  lemma Finishes(cfg: Config, who: Owner, l: Local, r: Resource, plan: Plan) returns (actions: seq<Action>)
    requires Thriving(cfg, l, r, plan) && Affords(l.kuma, l.attempt.value.phase, plan)
    requires BeforeListing(l.attempt.value.phase) ==> Free(l.kuma, r, plan)
    ensures AllSucceed(actions) && AllPossible(cfg, who, l, actions) && EndsInSync(Steps(cfg, who, l, actions))
    decreases Stage(l.attempt.value.phase), Left(l.attempt.value.phase)
  {
    if l.attempt.value.phase.Ended? {
      ThrivingPlan(cfg, l, r, plan);
      actions := [];
    } else {
      var action := Advances(cfg, who, l, r, plan);
      if BeforeListing(Step(cfg, who, l, action).attempt.value.phase) {
        AskingKeepsListable(cfg, l);
      }
      var rest := Finishes(cfg, who, Step(cfg, who, l, action), r, plan);
      StepsSplit(cfg, who, l, action, rest);
      PossibleSplit(cfg, who, l, action, rest);
      actions := [action] + rest;
    }
  }

  predicate EndsInSync(l: Local) {
    l.attempt.Some? && l.attempt.value.phase.Ended? && l.attempt.value.phase.verdict.InSync?
  }

  // ------------------------------------------------------------------- getting stuck

  /** A reconcile that must list and cannot: it never gets beyond the listing. */
  ghost predicate Stuck(cfg: Config, l: Local, r: Resource, plan: Plan) {
    && l.cur == Some(r) && OnPlan(cfg, l.kuma, r, plan) && plan.hash == r.hash && !Listable(l.kuma) && OnCourse(cfg, l)
    && (l.attempt.Some? ==>
          var a := l.attempt.value;
          a.snap == r && (a.phase.AskingChannels? || a.phase.AskingGroup? || a.phase.Listing? || a.phase == Ended(Error)))
  }

  lemma AskedSticks(cfg: Config, l: Local, r: Resource, plan: Plan)
    requires Stuck(cfg, l, r, plan) && l.attempt.Some? && (l.attempt.value.phase.AskingChannels? || l.attempt.value.phase.AskingGroup?)
    ensures Stuck(cfg, ReadStep(cfg, l, true), r, plan)
  {
    ReadCourse(cfg, l, true);
  }

  /** No step the operator's own client can take gets the reconcile any further, and beginning
      again does not either. */
  lemma StepSticks(cfg: Config, who: Owner, l: Local, r: Resource, plan: Plan, action: Action)
    requires Stuck(cfg, l, r, plan) && Possible(l, action)
    ensures Stuck(cfg, Step(cfg, who, l, action), r, plan)
  {
    StepCourse(cfg, who, l, action);
    if l.attempt.None? {
      if action.Begin? {
        BeginThrives(cfg, who, l, r, plan);
      }
    } else if action.Read? && action.ok && (l.attempt.value.phase.AskingChannels? || l.attempt.value.phase.AskingGroup?) {
      AskedSticks(cfg, l, r, plan);
    }
  }

  lemma ShiftSticks(cfg: Config, l: Local, r: Resource, plan: Plan, k: Kuma, latest: int, touched: set<int>)
    requires Stuck(cfg, l, r, plan) && SameReferences(l.kuma, k) && !Listable(k)
    ensures Stuck(cfg, HostStability.Shifted(l, k, latest, touched), r, plan)
  {
    if l.attempt.Some? {
      CourseStable(cfg, l.kuma, k, l.attempt.value);
      SamePhaseCourse(cfg, k, l.attempt.value, HostStability.Shifted(l, k, latest, touched).attempt.value);
    }
  }

  lemma {:induction false} StepsStick(cfg: Config, who: Owner, l: Local, r: Resource, plan: Plan, actions: seq<Action>)
    requires Stuck(cfg, l, r, plan) && AllPossible(cfg, who, l, actions)
    ensures Stuck(cfg, Steps(cfg, who, l, actions), r, plan)
  {
    if actions != [] {
      var init := actions[..|actions| - 1];
      assert forall i :: 0 <= i < |init| ==> init[..i] == actions[..i];
      StepsStick(cfg, who, l, r, plan, init);
      StepSticks(cfg, who, Steps(cfg, who, l, init), r, plan, actions[|actions| - 1]);
    }
  }

  lemma BeginSticks(cfg: Config, who: Owner, l: Local, r: Resource, plan: Plan)
    requires Ready(cfg, l, r, plan) && !Free(l.kuma, r, plan)
    ensures Stuck(cfg, Step(cfg, who, l, Begin), r, plan)
  {
    assert Possible(l, Begin);
    StepSticks(cfg, who, l, r, plan, Begin);
  }

  /** The operator's own client can make these calls, and they end the attempt in sync. */
  ghost predicate Completes(cfg: Config, who: Owner, l: Local, actions: seq<Action>) {
    AllPossible(cfg, who, l, actions) && EndsInSync(Steps(cfg, who, l, actions))
  }

  /** A reconcile nobody disturbs can be brought to end in sync by calls the operator's own
      client can make exactly if it need not list Kuma's monitors, its hash being new, or Kuma's
      listing can be translated. */
  lemma CanEndInSync(cfg: Config, who: Owner, l: Local, r: Resource, plan: Plan)
    requires Ready(cfg, l, r, plan)
    ensures
      var begun := Step(cfg, who, l, Begin);
      (exists actions :: Completes(cfg, who, begun, actions)) <==> Free(l.kuma, r, plan)
  {
    var begun := Step(cfg, who, l, Begin);
    if Free(l.kuma, r, plan) {
      BeginAffords(cfg, who, l, r, plan);
      var actions := Finishes(cfg, who, begun, r, plan);
      assert Completes(cfg, who, begun, actions);
    } else {
      BeginSticks(cfg, who, l, r, plan);
      forall actions | AllPossible(cfg, who, begun, actions)
        ensures !Completes(cfg, who, begun, actions)
      {
        StepsStick(cfg, who, begun, r, plan, actions);
      }
    }
  }
}
