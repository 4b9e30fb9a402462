/** The one way the operator leaks monitors: an attempt that created them fails before it
    records them, and the next attempt, knowing nothing of them, creates them again. */
module Leaks {
  import opened Wrappers
  import opened Spec
  import opened Strconv
  import opened Store
  import opened Tracking
  import opened MonitorMachine
  import HostMachine
  import HostInvariant
  import Guarantees
  import MonitorCompletion
  import MonitorReporting
  import Safety

  /** A new Monitor whose finalizer has just been added, about to create its monitor. */
  ghost predicate AboutToCreate(l: Local, m: Monitor, desired: MonitorSpec) {
    && l.cur == Some(m) && m.finalizer && !m.deleting && m.monitorID == ""
    && l.attempt == Some(Attempt(m, {}, {}, Upserting(0, desired)))
    && Resolve(m) == Upserting(0, desired)
    && Valid(l.kuma) && l.kuma.nextID + 2 <= MAX_INT64
  }

  const FAILED_READ := [Change(Succeeded, ""), Read(false), Finish, Begin, Change(Succeeded, "")]

  /** The new monitor exists, and the attempt that made it is over without a record. */
  lemma Abandons(cfg: Config, who: Owner, l: Local, m: Monitor, desired: MonitorSpec)
    requires AboutToCreate(l, m, desired)
    ensures
      var created := Step(cfg, who, l, Change(Succeeded, ""));
      var over := Step(cfg, who, Step(cfg, who, created, Read(false)), Finish);
      var (kuma, first) := Upsert(l.kuma, who, 0, desired).value;
      over.cur == l.cur && over.attempt.None? && over.kuma == Orphan(kuma, {first}) && first == l.kuma.nextID + 1
  {
    var created := Step(cfg, who, l, Change(Succeeded, ""));
    var failed := Step(cfg, who, created, Read(false));
    assert created.attempt.value.phase == Reading(Synced(l.kuma.nextID + 1, desired), 1);
    assert failed == Fail(created);
  }

  lemma CreatesAgain(cfg: Config, who: Owner, l: Local, m: Monitor, desired: MonitorSpec)
    requires l.cur == Some(m) && l.attempt.None? && m.finalizer && !m.deleting && Resolve(m) == Upserting(0, desired)
    requires l.kuma.nextID < MAX_INT64
    ensures
      var after := Step(cfg, who, Step(cfg, who, l, Begin), Change(Succeeded, ""));
      after.kuma == Upsert(l.kuma, who, 0, desired).value.0
  {
    assert Step(cfg, who, l, Begin).attempt.value.phase == Upserting(0, desired);
  }

  /** Upsert succeeds and reading the Monitor back fails: the retry creates a second monitor
      with the same configuration, and the first is orphaned. */
  lemma RetryDuplicates(cfg: Config, who: Owner, l: Local, m: Monitor, desired: MonitorSpec)
    requires AboutToCreate(l, m, desired)
    ensures
      var after := MonitorCompletion.Steps(cfg, who, l, FAILED_READ);
      var first, second := l.kuma.nextID + 1, l.kuma.nextID + 2;
      && first in after.kuma.monitors && second in after.kuma.monitors
      && after.kuma.monitors[first] == desired && after.kuma.monitors[second] == desired
      && BelongsTo(after.kuma, who, first) && BelongsTo(after.kuma, who, second)
      && first in after.kuma.orphans
  {
    var created := Step(cfg, who, l, Change(Succeeded, ""));
    var failed := Step(cfg, who, created, Read(false));
    var over := Step(cfg, who, failed, Finish);
    var begun := Step(cfg, who, over, Begin);
    Abandons(cfg, who, l, m, desired);
    CreatesAgain(cfg, who, over, m, desired);
    MonitorReporting.FirstStep(cfg, who, l, Change(Succeeded, ""), [Read(false), Finish, Begin, Change(Succeeded, "")]);
    MonitorReporting.FirstStep(cfg, who, created, Read(false), [Finish, Begin, Change(Succeeded, "")]);
    MonitorReporting.FirstStep(cfg, who, failed, Finish, [Begin, Change(Succeeded, "")]);
    MonitorReporting.FirstStep(cfg, who, over, Begin, [Change(Succeeded, "")]);
    MonitorReporting.FirstStep(cfg, who, begun, Change(Succeeded, ""), []);
  }

  /** The situation arises for every admitted spec without references: created by the user,
      reconciled once. */
  lemma LeakIsReachable(cfg: Config, who: Owner, kuma: Kuma, latest: int, spec: CRSpec)
    requires Valid(kuma) && kuma.nextID + 2 <= MAX_INT64
    requires Admitted(spec) && spec.notifications == [] && spec.group == "" && spec.secretRefs == []
    ensures
      var l0 := Local(kuma, latest, None, None, NO_SECRETS, map[], 0);
      var l := MonitorCompletion.Steps(cfg, who, UserStep(l0, Create(spec, map[], false)), [Begin, Change(Succeeded, "")]);
      l.cur.Some? && AboutToCreate(l, l.cur.value, Desired(spec, [], None, NO_SECRETS))
  {
    var l0 := Local(kuma, latest, None, None, NO_SECRETS, map[], 0);
    var made := UserStep(l0, Create(spec, map[], false));
    var begun := Step(cfg, who, made, Begin);
    MonitorReporting.FirstStep(cfg, who, made, Begin, [Change(Succeeded, "")]);
    MonitorReporting.FirstStep(cfg, who, begun, Change(Succeeded, ""), []);
    assert begun.attempt.value.phase == AddingFinalizer;
    assert IDOf("") == 0;
  }

  /** Recording the ids of a routed resource fails: the read, the Update, or the last of the
      conflicts the code puts up with. */
  predicate RecordingFails(l: HostMachine.Local, action: HostMachine.Action)
    requires l.attempt.Some? && (l.attempt.value.phase.Reading? || l.attempt.value.phase.Writing?)
  {
    match l.attempt.value.phase
    case Reading(write, tries) => action.Crash? || (action.Read? && (!action.ok || l.cur.None?))
    case Writing(write, tries, got) =>
      || action.Crash?
      || (action.Change?
          && match HostMachine.AnswerTo(l.cur, got, write.Keep?)
             case NotFound => true
             case Invalid => true
             case Conflict => action.outcome.Failed? || tries >= MAX_TRIES
             case Accepted => action.outcome.Failed? || (action.outcome.Lost? && HostMachine.Marked(got, write) == got))
  }

  lemma RecordingFailsExactly(cfg: HostMachine.Config, who: Owner, l: HostMachine.Local, action: HostMachine.Action)
    requires HostInvariant.Inv(cfg, who, l) && l.attempt.Some?
    requires l.attempt.value.phase.Reading? || l.attempt.value.phase.Writing?
    ensures RecordingFails(l, action) <==> Guarantees.HostAbandoned(l, HostMachine.Step(cfg, who, l, action))
  {
    match l.attempt.value.phase
    case Reading(write, tries) =>
    case Writing(write, tries, got) =>
      if action.Change? {
        UpdateFailsExactly(l, who, write, tries, got, action.outcome);
      }
  }

  lemma UpdateFailsExactly(l: HostMachine.Local, who: Owner, write: HostMachine.Write, tries: nat, got: HostMachine.Resource, outcome: Outcome)
    requires l.attempt.Some? && l.attempt.value.phase == HostMachine.Writing(write, tries, got)
    requires l.cur.Some? ==> l.cur.value.version <= l.latest && (l.cur.value.version == got.version ==> l.cur.value == got)
    ensures
      RecordingFails(l, HostMachine.Change("", outcome)) <==>
        Guarantees.HostAbandoned(l, HostMachine.WriteStep(l, write, tries, got, outcome))
  {}

  /** The same for a routed resource: exactly when recording the ids fails, everything created
      is orphaned, still exists, and is known to no one. */
  lemma FailedPersistOrphans(cfg: HostMachine.Config, who: Owner, l: HostMachine.Local, action: HostMachine.Action)
    requires HostInvariant.Inv(cfg, who, l) && l.attempt.Some?
    requires l.attempt.value.phase.Reading? || l.attempt.value.phase.Writing?
    ensures
      var after := HostMachine.Step(cfg, who, l, action);
      && after.kuma.orphans == l.kuma.orphans + (if RecordingFails(l, action) then l.attempt.value.created else {})
      && after.kuma.monitors == l.kuma.monitors
      && (RecordingFails(l, action) ==> after.cur == l.cur)
  {
    Guarantees.HostOrphans(cfg, who, l, action);
    RecordingFailsExactly(cfg, who, l, action);
    MonitorsStay(cfg, who, l, action);
  }

  lemma MonitorsStay(cfg: HostMachine.Config, who: Owner, l: HostMachine.Local, action: HostMachine.Action)
    requires l.attempt.Some? && (l.attempt.value.phase.Reading? || l.attempt.value.phase.Writing?)
    ensures HostMachine.Step(cfg, who, l, action).kuma.monitors == l.kuma.monitors
  {
    var phase := l.attempt.value.phase;
    if action.Read? {
      Safety.HostReadSpares(cfg, l, action.ok);
    } else if action.Change? && phase.Writing? {
      Safety.HostWriteSpares(l, phase.write, phase.tries, phase.got, action.outcome);
    }
  }
}
