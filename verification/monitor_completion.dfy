/** Whether a reconcile of a live Monitor gets to its end: with its calls succeeding it never
    fails, and it can be brought to end in sync exactly if it need not list Kuma's monitors or
    Kuma's listing can be translated. */
module MonitorCompletion {
  import opened Wrappers
  import opened Spec
  import opened Strconv
  import opened Store
  import opened Tracking
  import opened MonitorMachine
  import opened MonitorQuiescence
  import MonitorInvariant
  import MonitorStability
  import References

  predicate Succeeds(action: Action) {
    match action
    case Begin => false
    case Read(ok) => ok
    case Change(outcome, _) => outcome == Succeeded
    case Tag(ok, _) => ok
    case Finish => false
    case Crash => false
  }

  /** The operator's own client returns no listing while one monitor in it cannot be
      translated. */
  predicate Possible(l: Local, action: Action) {
    action == Read(true) && l.attempt.Some? && l.attempt.value.phase.Listing? ==> Listable(l.kuma)
  }

  /** The steps of one attempt, in order. */
  function Steps(cfg: Config, who: Owner, l: Local, actions: seq<Action>): Local
    decreases |actions|
  {
    if actions == [] then l else Steps(cfg, who, Step(cfg, who, l, actions[0]), actions[1..])
  }

  predicate AllSucceed(actions: seq<Action>) {
    forall i :: 0 <= i < |actions| ==> Succeeds(actions[i])
  }

  predicate AllPossible(cfg: Config, who: Owner, l: Local, actions: seq<Action>)
    decreases |actions|
  {
    actions != [] ==> Possible(l, actions[0]) && AllPossible(cfg, who, Step(cfg, who, l, actions[0]), actions[1..])
  }

  /** The same Monitor apart from version, finalizers and condition. */
  predicate SameWork(a: Monitor, b: Monitor) {
    && a.spec == b.spec && a.labels == b.labels && a.generation == b.generation && a.deleting == b.deleting
    && a.monitorID == b.monitorID && a.observed == b.observed
  }

  /** What the phase knows while the Monitor is as it was read and nothing has failed. */
  predicate Sound(cur: Option<Monitor>, a: Attempt) {
    && a.phase != Ended(Error)
    && (MonitorInvariant.Open(a.phase) ==> cur == Some(a.snap))
    && (a.phase.Reading? ==> a.phase.report.Synced?)
    && (a.phase.Writing? ==> a.phase.report.Synced? && a.phase.got == a.snap)
    && (a.phase.Listing? ==> InGeneration(a.snap))
  }

  /** The attempt serves the live Monitor `m` as it still is, and nothing has failed. */
  ghost predicate Thriving(l: Local, m: Monitor, desired: MonitorSpec) {
    && l.attempt.Some? && SameWork(l.attempt.value.snap, m)
    && Serves(l.kuma, l.secrets, m, desired) && OnCourse(l)
    && Sound(l.cur, l.attempt.value)
  }

  lemma ThrivingPhase(l: Local, m: Monitor, desired: MonitorSpec)
    requires Thriving(l, m, desired)
    ensures
      var phase := l.attempt.value.phase;
      && !phase.Deleting? && !phase.DroppingFinalizer?
      && (phase.Ended? ==> phase.verdict.InSync?)
      && DesiredNow(l.kuma, l.secrets, l.attempt.value.snap) == Some(desired)
  {}

  predicate Creating(phase: Phase) {
    phase.Upserting? && phase.id == 0
  }

  // --------------------------------------------------------- nothing fails by itself

  /** A decision, or the reads before it, is sound. */
  lemma UndecidedIsSound(cur: Option<Monitor>, a: Attempt, channels: seq<int>, group: Option<int>, read: Secrets, next: nat, desired: MonitorSpec)
    requires cur == Some(a.snap)
    ensures Sound(cur, a.(phase := Decide(a.snap, desired))) && Sound(cur, a.(phase := WithSecrets(a.snap, channels, group, read, next)))
    ensures Sound(cur, a.(phase := WithGroup(a.snap, channels, group))) && Sound(cur, a.(phase := WithChannels(a.snap, channels)))
    ensures Sound(cur, a.(phase := Resolve(a.snap)))
  {}

  lemma AskedThrives(cfg: Config, l: Local, m: Monitor, desired: MonitorSpec)
    requires Thriving(l, m, desired)
    requires var p := l.attempt.value.phase; p.AskingChannels? || p.AskingGroup? || p.AskingSecrets?
    ensures Thriving(ReadStep(cfg, l, true), m, desired)
  {
    AskedCourse(cfg, l);
    var a := l.attempt.value;
    match a.phase
    case AskingChannels =>
      var channels := References.ResolveNotifications(l.kuma.notifications, a.snap.spec.notifications).value;
      UndecidedIsSound(l.cur, a, channels, None, NO_SECRETS, 0, desired);
    case AskingGroup(channels) =>
      var group := References.ResolveGroup(l.kuma.groups, a.snap.spec.group).value;
      UndecidedIsSound(l.cur, a, channels, group, NO_SECRETS, 0, desired);
    case AskingSecrets(channels, group, read, next) =>
      var ref := a.snap.spec.secretRefs[next];
      UndecidedIsSound(l.cur, a, channels, group, WithValue(read, ref, ValueOf(l.secrets, ref)), next + 1, desired);
  }

  lemma ReadThrives(cfg: Config, l: Local, m: Monitor, desired: MonitorSpec)
    requires Thriving(l, m, desired)
    ensures Thriving(ReadStep(cfg, l, true), m, desired)
  {
    var p := l.attempt.value.phase;
    if p.AskingChannels? || p.AskingGroup? || p.AskingSecrets? {
      AskedThrives(cfg, l, m, desired);
    } else {
      ReadCourse(cfg, l, true);
    }
  }

  lemma UpsertThrives(who: Owner, l: Local, m: Monitor, desired: MonitorSpec, id: int, message: string)
    requires Thriving(l, m, desired) && l.attempt.value.phase == Upserting(id, desired)
    requires id == 0 ==> l.kuma.nextID < MAX_INT64
    ensures Thriving(UpsertStep(l, who, id, desired, Succeeded, message), m, desired)
  {
    UpsertContinues(l, who, id, desired, Succeeded, message);
  }

  lemma WriteThrives(cfg: Config, l: Local, m: Monitor, desired: MonitorSpec, report: Report, tries: nat, got: Monitor)
    requires Thriving(l, m, desired) && l.attempt.value.phase == Writing(report, tries, got)
    ensures Thriving(WriteStep(cfg, l, report, tries, got, Succeeded), m, desired)
  {
    WriteContinues(cfg, l, report, tries, got, Succeeded);
  }

  lemma AddedThrives(l: Local, m: Monitor, desired: MonitorSpec)
    requires Thriving(l, m, desired) && l.attempt.value.phase.AddingFinalizer?
    ensures Thriving(FinalizerStep(l, true, Resolve(l.attempt.value.snap), Succeeded), m, desired)
  {
    AddedContinues(MonitorMachine.Config([], []), l, Succeeded);
    var snap := l.attempt.value.snap;
    var b := FinalizerStep(l, true, Resolve(snap), Succeeded).attempt.value;
    assert Resolve(b.snap) == Resolve(snap);
    UndecidedIsSound(Some(b.snap), b, [], None, NO_SECRETS, 0, desired);
  }

  lemma ChangeThrives(cfg: Config, who: Owner, l: Local, m: Monitor, desired: MonitorSpec, message: string)
    requires Thriving(l, m, desired) && (Creating(l.attempt.value.phase) ==> l.kuma.nextID < MAX_INT64)
    ensures Thriving(ChangeStep(cfg, l, who, Succeeded, message), m, desired)
  {
    ThrivingPhase(l, m, desired);
    var phase := l.attempt.value.phase;
    if phase.Upserting? {
      UpsertThrives(who, l, m, desired, phase.id, message);
    } else if phase.Writing? {
      WriteThrives(cfg, l, m, desired, phase.report, phase.tries, phase.got);
    } else if phase.AddingFinalizer? {
      AddedThrives(l, m, desired);
    }
  }

  /** A successful step leads on, as long as there is an id for the monitor it may create. */
  lemma StepThrives(cfg: Config, who: Owner, l: Local, m: Monitor, desired: MonitorSpec, action: Action)
    requires Thriving(l, m, desired) && Succeeds(action)
    requires Creating(l.attempt.value.phase) ==> l.kuma.nextID < MAX_INT64
    ensures Thriving(Step(cfg, who, l, action), m, desired)
  {
    match action
    case Read(ok) => ReadThrives(cfg, l, m, desired);
    case Change(outcome, message) => ChangeThrives(cfg, who, l, m, desired, message);
    case Tag(ok, tags) => TagCourse(l, true, tags);
  }

  lemma BeginThrives(cfg: Config, who: Owner, l: Local, m: Monitor, desired: MonitorSpec)
    requires l.attempt.None? && l.cur == Some(m) && Serves(l.kuma, l.secrets, m, desired)
    ensures Thriving(Step(cfg, who, l, Begin), m, desired)
  {
    var a := Attempt(m, {}, {}, Start(m));
    StartCourse(l.kuma, l.secrets, a);
    UndecidedIsSound(l.cur, a, [], None, NO_SECRETS, 0, desired);
  }

  /** Others acting does not make it fail, whatever they do to its monitor. */
  lemma ShiftThrives(l: Local, m: Monitor, desired: MonitorSpec, k: Kuma, latest: int, touched: set<int>)
    requires Thriving(l, m, desired) && SameReferences(l.kuma, k)
    ensures Thriving(MonitorStability.Shifted(l, k, latest, touched), m, desired)
  {
    CourseStable(l.kuma, k, l.secrets, l.attempt.value, MonitorStability.Shifted(l, k, latest, touched).attempt.value);
  }

  // ------------------------------------------------------------------ getting there

  predicate EndsInSync(l: Local) {
    l.attempt.Some? && l.attempt.value.phase.Ended? && l.attempt.value.phase.verdict.InSync?
  }

  /** How far an attempt is from its end. */
  function Stage(phase: Phase): nat {
    match phase
    case AddingFinalizer => 9
    case AskingChannels => 8
    case AskingGroup(_) => 7
    case AskingSecrets(_, _, _, _) => 6
    case Listing(_, _) => 5
    case Upserting(_, _) => 4
    case Reading(_, _) => 3
    case Writing(_, _, _) => 2
    case Tagging(_, _, _) => 1
    case _ => 0
  }

  /** The Secret references still to read. */
  function Left(a: Attempt): nat {
    match a.phase
    case AskingSecrets(_, _, _, next) => if next < |a.snap.spec.secretRefs| then |a.snap.spec.secretRefs| - next else 0
    case _ => 0
  }

  predicate Nearer(after: Attempt, before: Attempt) {
    || Stage(after.phase) < Stage(before.phase)
    || (Stage(after.phase) == Stage(before.phase) && Left(after) < Left(before))
  }

  lemma ReadAdvances(cfg: Config, l: Local, m: Monitor, desired: MonitorSpec)
    requires Thriving(l, m, desired) && Thriving(ReadStep(cfg, l, true), m, desired)
    requires var p := l.attempt.value.phase; !p.AddingFinalizer? && !p.Upserting? && !p.Writing? && !p.Tagging? && !p.Ended?
    ensures Nearer(ReadStep(cfg, l, true).attempt.value, l.attempt.value)
    ensures ReadStep(cfg, l, true).kuma == l.kuma
  {
    ThrivingPhase(l, m, desired);
  }

  lemma ChangeAdvances(cfg: Config, who: Owner, l: Local, m: Monitor, desired: MonitorSpec)
    requires Thriving(l, m, desired) && Thriving(ChangeStep(cfg, l, who, Succeeded, ""), m, desired)
    requires var p := l.attempt.value.phase; p.AddingFinalizer? || p.Upserting? || p.Writing?
    ensures Nearer(ChangeStep(cfg, l, who, Succeeded, "").attempt.value, l.attempt.value)
    ensures l.attempt.value.phase.AddingFinalizer? ==> ChangeStep(cfg, l, who, Succeeded, "").kuma == l.kuma
  {}

  /** The attempt may still come to list, or to create a monitor. */
  predicate Ahead(phase: Phase) {
    Stage(phase) >= 4
  }

  /** The reconcile need not list, or can. */
  predicate Free(k: Kuma, m: Monitor) {
    !InGeneration(m) || Listable(k)
  }

  /** Some successful call brings the attempt nearer to its end, one the operator's own client
      can make unless the attempt must list and Kuma's listing cannot be translated. */
  lemma Advances(cfg: Config, who: Owner, l: Local, m: Monitor, desired: MonitorSpec) returns (action: Action)
    requires Thriving(l, m, desired) && !l.attempt.value.phase.Ended?
    requires Ahead(l.attempt.value.phase) ==> Free(l.kuma, m) && l.kuma.nextID < MAX_INT64
    ensures Succeeds(action) && Possible(l, action)
    ensures
      var after := Step(cfg, who, l, action);
      && Thriving(after, m, desired) && Nearer(after.attempt.value, l.attempt.value)
      && (Ahead(after.attempt.value.phase) ==> after.kuma == l.kuma)
  {
    ThrivingPhase(l, m, desired);
    var phase := l.attempt.value.phase;
    if phase.AddingFinalizer? || phase.Upserting? || phase.Writing? {
      action := Change(Succeeded, "");
      StepThrives(cfg, who, l, m, desired, action);
      CallIsChange(cfg, who, l);
      ChangeThrives(cfg, who, l, m, desired, "");
      ChangeAdvances(cfg, who, l, m, desired);
    } else if phase.Tagging? {
      action := Tag(true, {});
      StepThrives(cfg, who, l, m, desired, action);
    } else {
      action := Read(true);
      StepThrives(cfg, who, l, m, desired, action);
      ReadAdvances(cfg, l, m, desired);
    }
  }

  lemma CallIsChange(cfg: Config, who: Owner, l: Local)
    requires l.attempt.Some?
    ensures
      var changed, after := ChangeStep(cfg, l, who, Succeeded, ""), Step(cfg, who, l, Change(Succeeded, ""));
      after == changed || after == changed.(writes := l.writes + 1)
  {}

  lemma Finishes(cfg: Config, who: Owner, l: Local, m: Monitor, desired: MonitorSpec) returns (actions: seq<Action>)
    requires Thriving(l, m, desired)
    requires Ahead(l.attempt.value.phase) ==> Free(l.kuma, m) && l.kuma.nextID < MAX_INT64
    ensures AllSucceed(actions) && AllPossible(cfg, who, l, actions) && EndsInSync(Steps(cfg, who, l, actions))
    decreases Stage(l.attempt.value.phase), Left(l.attempt.value)
  {
    if l.attempt.value.phase.Ended? {
      ThrivingPhase(l, m, desired);
      actions := [];
    } else {
      var action := Advances(cfg, who, l, m, desired);
      var rest := Finishes(cfg, who, Step(cfg, who, l, action), m, desired);
      actions := [action] + rest;
      assert actions[1..] == rest;
    }
  }

  // ------------------------------------------------------------------- getting stuck

  /** A reconcile that must list and cannot: it never gets beyond the listing. */
  ghost predicate Stuck(l: Local, m: Monitor, desired: MonitorSpec) {
    && l.cur.Some? && SameWork(l.cur.value, m) && InGeneration(m) && Serves(l.kuma, l.secrets, m, desired)
    && !Listable(l.kuma) && OnCourse(l)
    && (l.attempt.Some? ==>
          var a := l.attempt.value;
          && SameWork(a.snap, m)
          && (a.phase.AddingFinalizer? || a.phase.AskingChannels? || a.phase.AskingGroup? || a.phase.AskingSecrets?
              || a.phase.Listing? || a.phase == Ended(Error)))
  }

  /** Before the listing, a synced generation leads to the listing or to more reads. */
  lemma LeadsToListing(snap: Monitor, channels: seq<int>, group: Option<int>, read: Secrets, next: nat, desired: MonitorSpec)
    requires InGeneration(snap)
    ensures Stage(Decide(snap, desired)) >= 5 && Stage(WithSecrets(snap, channels, group, read, next)) >= 5
    ensures Stage(WithGroup(snap, channels, group)) >= 5 && Stage(WithChannels(snap, channels)) >= 5 && Stage(Resolve(snap)) >= 5
  {}

  lemma AskedSticks(cfg: Config, l: Local, m: Monitor, desired: MonitorSpec)
    requires Stuck(l, m, desired) && l.attempt.Some?
    requires var p := l.attempt.value.phase; p.AskingChannels? || p.AskingGroup? || p.AskingSecrets?
    ensures Stuck(ReadStep(cfg, l, true), m, desired)
  {
    AskedCourse(cfg, l);
    var a := l.attempt.value;
    match a.phase
    case AskingChannels =>
      var channels := References.ResolveNotifications(l.kuma.notifications, a.snap.spec.notifications).value;
      LeadsToListing(a.snap, channels, None, NO_SECRETS, 0, desired);
    case AskingGroup(channels) =>
      var group := References.ResolveGroup(l.kuma.groups, a.snap.spec.group).value;
      LeadsToListing(a.snap, channels, group, NO_SECRETS, 0, desired);
    case AskingSecrets(channels, group, read, next) =>
      var ref := a.snap.spec.secretRefs[next];
      LeadsToListing(a.snap, channels, group, WithValue(read, ref, ValueOf(l.secrets, ref)), next + 1, desired);
  }

  lemma AddedSticks(cfg: Config, who: Owner, l: Local, m: Monitor, desired: MonitorSpec, outcome: Outcome, message: string)
    requires Stuck(l, m, desired) && l.attempt.Some? && l.attempt.value.phase.AddingFinalizer?
    ensures Stuck(ChangeStep(cfg, l, who, outcome, message), m, desired)
  {
    ChangeCourse(cfg, l, who, outcome, message);
    LeadsToListing(l.attempt.value.snap, [], None, NO_SECRETS, 0, desired);
  }

  lemma BeginSticks(cfg: Config, who: Owner, l: Local, m: Monitor, desired: MonitorSpec)
    requires Stuck(l, m, desired) && l.attempt.None?
    ensures Stuck(Step(cfg, who, l, Begin), m, desired)
  {
    StepCourse(cfg, who, l, Begin);
    LeadsToListing(l.cur.value, [], None, NO_SECRETS, 0, desired);
  }

  /** No step the operator's own client can take gets the reconcile any further, and beginning
      again does not either. */
  lemma StepSticks(cfg: Config, who: Owner, l: Local, m: Monitor, desired: MonitorSpec, action: Action)
    requires Stuck(l, m, desired) && Possible(l, action)
    ensures Stuck(Step(cfg, who, l, action), m, desired)
  {
    if l.attempt.None? {
      BeginSticks(cfg, who, l, m, desired);
    } else {
      match action {
        case Read(ok) =>
          var p := l.attempt.value.phase;
          if ok && (p.AskingChannels? || p.AskingGroup? || p.AskingSecrets?) {
            AskedSticks(cfg, l, m, desired);
          }
        case Change(outcome, message) =>
          if l.attempt.value.phase.AddingFinalizer? {
            AddedSticks(cfg, who, l, m, desired, outcome, message);
          }
        case _ =>
      }
    }
  }

  lemma ShiftSticks(l: Local, m: Monitor, desired: MonitorSpec, k: Kuma, latest: int, touched: set<int>)
    requires Stuck(l, m, desired) && SameReferences(l.kuma, k) && !Listable(k)
    ensures Stuck(MonitorStability.Shifted(l, k, latest, touched), m, desired)
  {
    if l.attempt.Some? {
      CourseStable(l.kuma, k, l.secrets, l.attempt.value, MonitorStability.Shifted(l, k, latest, touched).attempt.value);
    }
  }

  lemma {:induction false} StepsStick(cfg: Config, who: Owner, l: Local, m: Monitor, desired: MonitorSpec, actions: seq<Action>)
    requires Stuck(l, m, desired) && AllPossible(cfg, who, l, actions)
    ensures Stuck(Steps(cfg, who, l, actions), m, desired)
    decreases |actions|
  {
    if actions != [] {
      StepSticks(cfg, who, l, m, desired, actions[0]);
      StepsStick(cfg, who, Step(cfg, who, l, actions[0]), m, desired, actions[1..]);
    }
  }

  /** The operator's own client can make these calls, and they end the attempt in sync. */
  predicate Completes(cfg: Config, who: Owner, l: Local, actions: seq<Action>) {
    AllPossible(cfg, who, l, actions) && EndsInSync(Steps(cfg, who, l, actions))
  }

  /** A reconcile of a live Monitor whose names Kuma knows, with an id left, can be brought to end
      in sync by calls the operator's own client can make exactly if it need not list Kuma's
      monitors, its generation not being synced, or Kuma's listing can be translated. */
  lemma CanEndInSync(cfg: Config, who: Owner, l: Local, m: Monitor, desired: MonitorSpec)
    requires l.attempt.None? && l.cur == Some(m) && Serves(l.kuma, l.secrets, m, desired) && l.kuma.nextID < MAX_INT64
    ensures
      var begun := Step(cfg, who, l, Begin);
      (exists actions :: Completes(cfg, who, begun, actions)) <==> Free(l.kuma, m)
  {
    var begun := Step(cfg, who, l, Begin);
    if Free(l.kuma, m) {
      BeginThrives(cfg, who, l, m, desired);
      var actions := Finishes(cfg, who, begun, m, desired);
      assert Completes(cfg, who, begun, actions);
    } else {
      BeginSticks(cfg, who, l, m, desired);
      forall actions | AllPossible(cfg, who, begun, actions)
        ensures !Completes(cfg, who, begun, actions)
      {
        StepsStick(cfg, who, begun, m, desired, actions);
      }
    }
  }
}
