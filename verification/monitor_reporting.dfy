/** What the Ready condition of a Monitor says (updateStatus in
    internal/controller/monitor_controller.go): a failed Upsert is told, and the telling stays even
    if the Upsert had taken effect after all. */
module MonitorReporting {
  import opened Wrappers
  import opened Spec
  import opened Store
  import opened Tracking
  import opened MonitorMachine
  import opened MonitorInvariant
  import opened MonitorQuiescence
  import MonitorCompletion
  import MonitorStability
  import Strconv
  import Translate

  // ----------------------------------------------------------- a failure is told

  /** The attempt is telling, or has told, that its Upsert failed, and changes nothing else. */
  predicate Telling(l: Local, m: Monitor, message: string) {
    && l.attempt.Some? && (m.deleting ==> m.finalizer || m.foreignFinalizers)
    && match l.attempt.value.phase
       case Reading(report, _) => report == Failure(message) && l.cur == Some(m)
       case Writing(report, _, got) => report == Failure(message) && l.cur == Some(m) && got == m
       case Ended(verdict) =>
         verdict == Error && l.cur.Some? && l.cur.value == m.(condition := SyncFailed(message), version := l.cur.value.version)
       case _ => false
  }

  /** An Upsert that failed, or that no id was left for, is to be told next. */
  lemma FailureIsTold(cfg: Config, who: Owner, l: Local, outcome: Outcome, message: string)
    requires Inv(who, l) && l.attempt.Some? && l.attempt.value.phase.Upserting?
    requires
      var phase := l.attempt.value.phase;
      outcome != Succeeded || Upsert(l.kuma, who, phase.id, phase.desired).None?
    ensures l.cur.Some? && Telling(Step(cfg, who, l, Change(outcome, message)), l.cur.value, message)
  {}

  lemma StepTells(cfg: Config, who: Owner, l: Local, m: Monitor, message: string, action: Action)
    requires Telling(l, m, message) && MonitorCompletion.Succeeds(action)
    ensures Telling(Step(cfg, who, l, action), m, message)
  {}

  lemma ShiftTells(l: Local, m: Monitor, message: string, k: Kuma, latest: int, touched: set<int>)
    requires Telling(l, m, message)
    ensures Telling(MonitorStability.Shifted(l, k, latest, touched), m, message)
  {}

  // ----------------------------------------------------- nothing new, nothing written

  /** The status says so already. */
  predicate Says(m: Monitor, generation: int, report: Report) {
    match report
    case Synced(id, _) =>
      m.monitorID == Strconv.FormatInt(id) && (generation == 0 || m.observed == generation) && m.condition == Ready
    case Failure(message) => m.condition == SyncFailed(message)
  }

  /** updateStatus makes an Update exactly if the status does not say so already. */
  lemma UnchangedIsNotWritten(cfg: Config, who: Owner, l: Local, report: Report, tries: nat)
    requires l.attempt.Some? && l.attempt.value.phase == Reading(report, tries) && l.cur.Some?
    ensures
      var after := Step(cfg, who, l, Read(true));
      && after.attempt.Some? && after.cur == l.cur && after.writes == l.writes
      && (after.attempt.value.phase == Writing(report, tries, l.cur.value) <==> !Says(l.cur.value, l.attempt.value.snap.generation, report))
      && (after.attempt.value.phase.Writing? || after.attempt.value.phase.Tagging? || after.attempt.value.phase == Ended(Error))
  {}

  // --------------------------------------------------------------- a stale failure

  /** A correction that takes effect but is reported as failed, and the telling of it. */
  const LOST_UPSERT := [Begin, Read(true), Change(Lost, "timeout")]
  const TELLING := [Read(true), Change(Succeeded, ""), Finish]

  lemma {:induction false} StepsConcat(cfg: Config, who: Owner, l: Local, a: seq<Action>, b: seq<Action>)
    ensures MonitorCompletion.Steps(cfg, who, l, a + b)
         == MonitorCompletion.Steps(cfg, who, MonitorCompletion.Steps(cfg, who, l, a), b)
    decreases |a|
  {
    if a == [] {
      assert a + b == b;
    } else {
      assert (a + b)[1..] == a[1..] + b;
      StepsConcat(cfg, who, Step(cfg, who, l, a[0]), a[1..], b);
    }
  }

  lemma ThreeSteps(cfg: Config, who: Owner, l: Local, a: Action, b: Action, c: Action)
    ensures MonitorCompletion.Steps(cfg, who, l, [a, b, c]) == Step(cfg, who, Step(cfg, who, Step(cfg, who, l, a), b), c)
  {
    FirstStep(cfg, who, l, a, [b, c]);
    FirstStep(cfg, who, Step(cfg, who, l, a), b, [c]);
    FirstStep(cfg, who, Step(cfg, who, Step(cfg, who, l, a), b), c, []);
    assert [a, b, c] == [a] + [b, c] && [b, c] == [b] + [c] && [c] == [c] + [];
  }

  lemma FirstStep(cfg: Config, who: Owner, l: Local, first: Action, rest: seq<Action>)
    ensures MonitorCompletion.Steps(cfg, who, l, [first] + rest) == MonitorCompletion.Steps(cfg, who, Step(cfg, who, l, first), rest)
  {
    assert ([first] + rest)[1..] == rest;
  }

  /** A live Monitor without references, synced, whose monitor somebody has changed by hand. */
  predicate Disturbed(l: Local, m: Monitor, desired: MonitorSpec) {
    && l.cur == Some(m) && l.attempt.None? && !m.deleting && m.finalizer && InGeneration(m) && m.condition == Ready
    && m.spec.notifications == [] && m.spec.group == "" && m.spec.secretRefs == []
    && desired == Desired(m.spec, [], None, NO_SECRETS) && WellFormed(desired)
    && IDOf(m.monitorID) in l.kuma.monitors && !Translate.Equivalent(desired, l.kuma.monitors[IDOf(m.monitorID)])
  }

  lemma DisturbedCorrects(cfg: Config, who: Owner, l: Local, m: Monitor, desired: MonitorSpec)
    requires Disturbed(l, m, desired)
    ensures
      var listed := Step(cfg, who, Step(cfg, who, l, Begin), Read(true));
      listed == l.(attempt := Some(Attempt(m, {}, {}, Upserting(IDOf(m.monitorID), desired))))
  {
    assert Start(m) == Listing(IDOf(m.monitorID), desired);
  }

  /** Everything but the resource itself and the attempt is as in `l`, with this monitor corrected. */
  predicate CorrectedOnly(l: Local, after: Local, id: int, desired: MonitorSpec) {
    && after.kuma.monitors == l.kuma.monitors[id := desired] && after.secrets == l.secrets
    && after.kuma.notifications == l.kuma.notifications && after.kuma.groups == l.kuma.groups
  }

  lemma UpsertIsLost(cfg: Config, who: Owner, l: Local, m: Monitor, desired: MonitorSpec)
    requires l.cur == Some(m) && l.attempt.Some? && l.attempt.value.phase == Upserting(IDOf(m.monitorID), desired)
    requires IDOf(m.monitorID) != 0
    ensures
      var lost := Step(cfg, who, l, Change(Lost, "timeout"));
      && lost.attempt.Some? && lost.attempt.value.phase == Reading(Failure("timeout"), 1) && lost.cur == l.cur
      && CorrectedOnly(l, lost, IDOf(m.monitorID), desired)
  {}

  lemma FailureIsWritten(cfg: Config, who: Owner, l: Local, m: Monitor)
    requires l.cur == Some(m) && l.attempt.Some? && l.attempt.value.phase == Reading(Failure("timeout"), 1)
    requires m.condition == Ready && !m.deleting
    ensures
      var over := Step(cfg, who, Step(cfg, who, l, Read(true)), Change(Succeeded, ""));
      && over.attempt.Some? && over.attempt.value.phase == Ended(Error)
      && over.cur.Some? && over.cur.value == m.(condition := SyncFailed("timeout"), version := over.cur.value.version)
      && over.kuma == l.kuma && over.secrets == l.secrets
  {
    var read := Step(cfg, who, l, Read(true));
    assert read == At(l, Writing(Failure("timeout"), 1, m));
  }

  lemma EndsSettled(l: Local, over: Local, m: Monitor, desired: MonitorSpec)
    requires Disturbed(l, m, desired) && CorrectedOnly(l, over, IDOf(m.monitorID), desired)
    requires over.cur.Some? && over.cur.value == m.(condition := SyncFailed("timeout"), version := over.cur.value.version)
    ensures Settled(over.(attempt := None), over.cur.value, desired)
  {
    Translate.EquivalentReflexive(desired);
  }

  /** The Upsert took effect, and its failure is about to be told. */
  predicate CorrectedUntold(l: Local, lost: Local, m: Monitor, desired: MonitorSpec) {
    && lost.attempt.Some? && lost.attempt.value.phase == Reading(Failure("timeout"), 1) && lost.cur == Some(m)
    && CorrectedOnly(l, lost, IDOf(m.monitorID), desired)
  }

  lemma FirstHalf(cfg: Config, who: Owner, l: Local, m: Monitor, desired: MonitorSpec)
    requires Disturbed(l, m, desired)
    ensures CorrectedUntold(l, MonitorCompletion.Steps(cfg, who, l, LOST_UPSERT), m, desired)
  {
    ThreeSteps(cfg, who, l, Begin, Read(true), Change(Lost, "timeout"));
    DisturbedCorrects(cfg, who, l, m, desired);
    UpsertIsLost(cfg, who, l.(attempt := Some(Attempt(m, {}, {}, Upserting(IDOf(m.monitorID), desired)))), m, desired);
  }

  lemma SecondHalf(cfg: Config, who: Owner, l: Local, lost: Local, m: Monitor, desired: MonitorSpec)
    requires Disturbed(l, m, desired) && CorrectedUntold(l, lost, m, desired)
    ensures
      var after := MonitorCompletion.Steps(cfg, who, lost, TELLING);
      after.cur.Some? && Settled(after, after.cur.value, desired) && after.cur.value.condition == SyncFailed("timeout")
  {
    ThreeSteps(cfg, who, lost, Read(true), Change(Succeeded, ""), Finish);
    FailureIsWritten(cfg, who, lost, m);
    EndsSettled(l, Step(cfg, who, Step(cfg, who, lost, Read(true)), Change(Succeeded, "")), m, desired);
  }

  /** A correction that took effect although it was reported as failed leaves the Monitor settled
      and yet marked as failed; from then on nothing is written any more, so the mark stays. */
  lemma LostCorrectionStaysFailed(cfg: Config, who: Owner, l: Local, m: Monitor, desired: MonitorSpec)
    requires Disturbed(l, m, desired)
    ensures
      var after := MonitorCompletion.Steps(cfg, who, l, LOST_UPSERT + TELLING);
      after.cur.Some? && Settled(after, after.cur.value, desired) && after.cur.value.condition == SyncFailed("timeout")
  {
    StepsConcat(cfg, who, l, LOST_UPSERT, TELLING);
    FirstHalf(cfg, who, l, m, desired);
    SecondHalf(cfg, who, l, MonitorCompletion.Steps(cfg, who, l, LOST_UPSERT), m, desired);
  }
}
