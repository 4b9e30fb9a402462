/** Writing the status and the finalizer keeps the invariant of a Monitor, and never
    overwrites what someone else wrote. */
module MonitorWrites {
  import opened Wrappers
  import opened Spec
  import opened Strconv
  import opened Store
  import opened Tracking
  import opened MonitorMachine
  import opened MonitorInvariant
  import opened MonitorSteps
  import opened MonitorUpserts

  // ---------------------------------------------------------------------- status

  function Committed(l: Local, report: Report, got: Monitor): Local
    requires l.attempt.Some?
  {
    Accept(l, WithStatus(got, l.attempt.value.snap.generation, report)).(attempt := Some(l.attempt.value.(created := {})))
  }

  /** One status write committed: it replaced exactly the version it was based on, and nothing
      but the status changed; in particular the Monitor is still there. */
  ghost predicate Commits(l: Local, after: Local, report: Report, got: Monitor)
    requires l.attempt.Some?
  {
    && l.cur == Some(got) && after.latest == l.latest + 1
    && after.cur == Some(WithStatus(got, l.attempt.value.snap.generation, report).(version := after.latest))
  }

  ghost predicate WritesNothing(l: Local, after: Local) {
    after.cur == l.cur && after.latest == l.latest
  }

  /** What a status write can change; a failure keeps the id and the generation. */
  lemma StatusOnly(got: Monitor, generation: int, report: Report)
    ensures
      var m := WithStatus(got, generation, report);
      && m == got.(monitorID := m.monitorID, observed := m.observed, condition := m.condition)
      && (match report
          case Failure(message) => m.monitorID == got.monitorID && m.observed == got.observed && m.condition == SyncFailed(message)
          case Synced(id, _) =>
            && ParseInt(m.monitorID) == ParseInt(FormatInt(id)) && m.condition == Ready
            && (generation == 0 ==> m.observed == got.observed) && (generation != 0 ==> m.observed == generation))
  {}

  lemma WrittenOnce(cfg: Config, l: Local, report: Report, tries: nat, got: Monitor, outcome: Outcome)
    requires l.attempt.Some? && VersionInv(l, got)
    requires l.cur.Some? && l.cur.value.deleting ==> l.cur.value.finalizer || l.cur.value.foreignFinalizers
    ensures
      var after := WriteStep(cfg, l, report, tries, got, outcome);
      && (WritesNothing(l, after) || Commits(l, after, report, got))
      && after.attempt.Some?
      && (after.attempt.value.phase.Reading? ==> WritesNothing(l, after))
  {
    if AnswerTo(l.cur, got).Accepted? {
      assert l.cur == Some(got);
    }
  }

  /** One try of updateStatus commits or writes nothing; it is tried again only if it wrote
      nothing. */
  lemma NoLostUpdate(cfg: Config, who: Owner, l: Local, report: Report, tries: nat, got: Monitor, outcome: Outcome)
    requires Inv(who, l) && l.attempt.Some? && l.attempt.value.phase == Writing(report, tries, got)
    ensures
      var after := WriteStep(cfg, l, report, tries, got, outcome);
      && (WritesNothing(l, after) || Commits(l, after, report, got))
      && after.attempt.Some?
      && (after.attempt.value.phase.Reading? ==> WritesNothing(l, after))
  {
    WrittenOnce(cfg, l, report, tries, got, outcome);
  }

  ghost predicate WritePending(who: Owner, l: Local, report: Report, tries: nat, got: Monitor) {
    Valid(l.kuma) && Inv(who, l) && l.attempt.Some? && l.attempt.value.phase == Writing(report, tries, got)
  }

  lemma SyncedStatus(who: Owner, l: Local, id: int, desired: MonitorSpec, got: Monitor)
    requires l.attempt.Some? && SyncedInv(who, l, l.attempt.value, id, desired)
    requires SnapInv(who, l, l.attempt.value.snap) && l.cur == Some(got) && MonitorInv(l.kuma, who, l.sent, got)
    ensures
      var m := WithStatus(got, l.attempt.value.snap.generation, Synced(id, desired));
      MonitorInv(l.kuma, who, l.sent, m) && Tracks(m, id) && m.finalizer
  {}

  lemma FailedStatus(who: Owner, k: Kuma, sent: map<int, Sent>, got: Monitor, generation: int, message: string, version: int)
    requires MonitorInv(k, who, sent, got)
    ensures MonitorInv(k, who, sent, WithStatus(got, generation, Failure(message)).(version := version))
  {}

  lemma NewVersion(who: Owner, k: Kuma, sent: map<int, Sent>, m: Monitor, version: int)
    requires MonitorInv(k, who, sent, m)
    ensures MonitorInv(k, who, sent, m.(version := version))
  {}

  /** Whatever exists of the resource's monitors is the one the status names. */
  lemma NothingForgotten(who: Owner, l: Local, id: int, desired: MonitorSpec, i: int)
    requires Inv(who, l) && l.attempt.Some? && SyncedInv(who, l, l.attempt.value, id, desired)
    requires l.cur.Some? && Linked(l.cur, l.attempt.value.snap)
    requires i in l.kuma.monitors && Owned(l.kuma, who, i)
    ensures i == id
  {
    assert AccountedFor(l, i);
    if i !in l.attempt.value.created {
      assert Tracks(l.attempt.value.snap, i);
    }
  }

  lemma SyncedCommits(who: Owner, l: Local, id: int, desired: MonitorSpec, tries: nat, got: Monitor)
    requires WritePending(who, l, Synced(id, desired), tries, got) && AnswerTo(l.cur, got).Accepted?
    ensures
      var c := Committed(l, Synced(id, desired), got);
      Core(who, c) && Recorded(c, c.attempt.value, id, desired)
  {
    var a := l.attempt.value;
    var m := WithStatus(got, a.snap.generation, Synced(id, desired));
    var c := Committed(l, Synced(id, desired), got);
    SyncedStatus(who, l, id, desired, got);
    NewVersion(who, l.kuma, l.sent, m, c.latest);
    assert c.cur == Some(m.(version := c.latest));
    forall i | i in l.kuma.monitors && Owned(l.kuma, who, i)
      ensures AccountedFor(c, i)
    {
      NothingForgotten(who, l, id, desired, i);
    }
  }

  lemma FailureCommits(who: Owner, l: Local, message: string, tries: nat, got: Monitor)
    requires WritePending(who, l, Failure(message), tries, got) && AnswerTo(l.cur, got).Accepted?
    ensures Core(who, Committed(l, Failure(message), got))
  {
    var a := l.attempt.value;
    var c := Committed(l, Failure(message), got);
    FailedStatus(who, l.kuma, l.sent, got, a.snap.generation, message, c.latest);
    forall i | i in l.kuma.monitors && Owned(l.kuma, who, i)
      ensures AccountedFor(c, i)
    {
      assert AccountedFor(l, i);
      FailedStatusAccounts(who, l, message, tries, got, i);
    }
  }

  lemma FailedStatusAccounts(who: Owner, l: Local, message: string, tries: nat, got: Monitor, i: int)
    requires WritePending(who, l, Failure(message), tries, got) && AnswerTo(l.cur, got).Accepted?
    requires i in l.kuma.monitors && Owned(l.kuma, who, i)
    ensures AccountedFor(Committed(l, Failure(message), got), i)
  {
    assert AccountedFor(l, i) && l.attempt.value.created == {};
    assert Tracks(got, i);
  }

  lemma CommitSucceeds(cfg: Config, who: Owner, l: Local, c: Local, report: Report, got: Monitor)
    requires Core(who, c) && c.attempt.value.created == {} && Acted(l.kuma, c.kuma, who) && l.latest <= c.latest
    requires report.Synced? ==> Recorded(c, c.attempt.value, report.id, report.desired)
    ensures Good(who, l, At(c, AfterStatus(cfg, report, got)))
  {
    var phase := AfterStatus(cfg, report, got);
    var after := At(c, phase);
    CoreAt(who, c, phase);
    assert report.Synced? ==> Recorded(after, after.attempt.value, report.id, report.desired);
    Assemble(who, l, after, after.attempt.value);
  }

  lemma CommitKeeps(cfg: Config, who: Owner, l: Local, report: Report, tries: nat, got: Monitor, outcome: Outcome)
    requires WritePending(who, l, report, tries, got) && AnswerTo(l.cur, got).Accepted? && !outcome.Failed?
    ensures Good(who, l, WriteStep(cfg, l, report, tries, got, outcome))
  {
    var c := Committed(l, report, got);
    if report.Synced? {
      SyncedCommits(who, l, report.id, report.desired, tries, got);
    } else {
      FailureCommits(who, l, report.message, tries, got);
    }
    assert Acted(l.kuma, c.kuma, who) && l.latest <= c.latest;
    if outcome.Lost? {
      GiveUp(who, l, c);
    } else {
      CommitSucceeds(cfg, who, l, c, report, got);
    }
  }

  lemma RetryKeeps(who: Owner, l: Local, report: Report, tries: nat, got: Monitor)
    requires WritePending(who, l, report, tries, got) && l.cur.Some?
    ensures Good(who, l, At(l, Reading(report, tries + 1)))
  {
    ReadingPhase(who, l, l.attempt.value, report, tries + 1);
    MoveTo(who, l, Reading(report, tries + 1));
  }

  /** What became of a status write: committed, to be tried again, or given up. */
  lemma WritingLeads(cfg: Config, l: Local, report: Report, tries: nat, got: Monitor, outcome: Outcome)
    requires l.attempt.Some?
    ensures
      var answer, after := AnswerTo(l.cur, got), WriteStep(cfg, l, report, tries, got, outcome);
      || (answer.Accepted? && !outcome.Failed?)
      || (answer.Conflict? && l.cur.Some? && after == At(l, Reading(report, tries + 1)))
      || after == Fail(l)
  {}

  lemma WritingKeeps(cfg: Config, who: Owner, l: Local, report: Report, tries: nat, got: Monitor, outcome: Outcome)
    requires WritePending(who, l, report, tries, got)
    ensures Good(who, l, WriteStep(cfg, l, report, tries, got, outcome))
  {
    WritingLeads(cfg, l, report, tries, got, outcome);
    if AnswerTo(l.cur, got).Accepted? && !outcome.Failed? {
      CommitKeeps(cfg, who, l, report, tries, got, outcome);
    } else if WriteStep(cfg, l, report, tries, got, outcome) == Fail(l) {
      FailKeeps(who, l);
    } else {
      RetryKeeps(who, l, report, tries, got);
    }
  }

  // ------------------------------------------------------------------- finalizer

  ghost predicate FinalizerPending(who: Owner, l: Local, finalizer: bool) {
    && Valid(l.kuma) && Inv(who, l) && l.attempt.Some?
    && l.attempt.value.phase == (if finalizer then AddingFinalizer else DroppingFinalizer)
  }

  lemma FinalizerCore(who: Owner, l: Local, finalizer: bool)
    requires FinalizerPending(who, l, finalizer) && AnswerTo(l.cur, l.attempt.value.snap).Accepted?
    ensures l.cur == Some(l.attempt.value.snap)
    ensures Core(who, Accept(l, l.attempt.value.snap.(finalizer := finalizer)))
  {
    var snap := l.attempt.value.snap;
    assert l.cur == Some(snap);
    assert MonitorInv(l.kuma, who, l.sent, snap.(finalizer := finalizer));
    var after := Accept(l, snap.(finalizer := finalizer));
    NewVersion(who, l.kuma, l.sent, snap.(finalizer := finalizer), after.latest);
    forall i | i in l.kuma.monitors && Owned(l.kuma, who, i)
      ensures AccountedFor(after, i)
    {
      assert AccountedFor(l, i);
    }
  }

  /** The attempt goes on with the version its own Update made. */
  lemma Refreshed(who: Owner, l: Local, snap: Monitor, phase: Phase)
    requires Core(who, l) && l.attempt.value.created == {}
    ensures Core(who, l.(attempt := Some(l.attempt.value.(snap := snap, phase := phase))))
  {
    var after := l.(attempt := Some(l.attempt.value.(snap := snap, phase := phase)));
    assert forall id :: AccountedFor(l, id) ==> AccountedFor(after, id);
  }

  lemma AddedKeeps(cfg: Config, who: Owner, l: Local)
    requires FinalizerPending(who, l, true) && AnswerTo(l.cur, l.attempt.value.snap).Accepted?
    ensures Good(who, l, FinalizerStep(l, true, Resolve(l.attempt.value.snap), Succeeded))
  {
    var snap := l.attempt.value.snap;
    FinalizerCore(who, l, true);
    var recorded := Accept(l, snap.(finalizer := true));
    var now := snap.(finalizer := true, version := recorded.latest);
    assert recorded.cur == Some(now);
    Refreshed(who, recorded, now, Resolve(snap));
    var after := FinalizerStep(l, true, Resolve(snap), Succeeded);
    var b := after.attempt.value;
    assert b.snap == now && Resolve(snap) == Resolve(now);
    ResolvedPhase(who, after, b);
    assert SnapInv(who, after, now);
    Assemble(who, l, after, b);
  }

  lemma ResolvedPhase(who: Owner, l: Local, b: Attempt)
    requires Undecided(who, l, b) && b.phase == Resolve(b.snap)
    ensures PhaseInv(who, l, b)
  {
    ResolvePhase(who, l, b);
  }

  lemma DroppedKeeps(cfg: Config, who: Owner, l: Local)
    requires FinalizerPending(who, l, false) && AnswerTo(l.cur, l.attempt.value.snap).Accepted?
    ensures Good(who, l, FinalizerStep(l, false, Ended(Gone), Succeeded))
  {
    var snap := l.attempt.value.snap;
    FinalizerCore(who, l, false);
    var recorded := Accept(l, snap.(finalizer := false));
    var after := FinalizerStep(l, false, Ended(Gone), Succeeded);
    Refreshed(who, recorded, after.attempt.value.snap, Ended(Gone));
    Assemble(who, l, after, after.attempt.value);
  }

  lemma FinalizerKeeps(cfg: Config, who: Owner, l: Local, finalizer: bool, outcome: Outcome)
    requires FinalizerPending(who, l, finalizer)
    ensures
      Good(who, l, FinalizerStep(l, finalizer, if finalizer then Resolve(l.attempt.value.snap) else Ended(Gone), outcome))
  {
    if !AnswerTo(l.cur, l.attempt.value.snap).Accepted? || outcome.Failed? {
      FailKeeps(who, l);
    } else if outcome.Lost? {
      FinalizerCore(who, l, finalizer);
      GiveUp(who, l, Accept(l, l.attempt.value.snap.(finalizer := finalizer)));
    } else if finalizer {
      AddedKeeps(cfg, who, l);
    } else {
      DroppedKeeps(cfg, who, l);
    }
  }

  // ------------------------------------------------------------------ every step

  lemma WritesDoNotMatter(who: Owner, l: Local, after: Local, writes: nat)
    requires Good(who, l, after)
    ensures Good(who, l, after.(writes := writes))
  {
    var other := after.(writes := writes);
    assert forall i :: AccountedFor(after, i) ==> AccountedFor(other, i);
    if after.attempt.Some? {
      SamePhaseWrites(who, after, other, after.attempt.value);
    }
  }

  lemma SamePhaseWrites(who: Owner, l: Local, other: Local, a: Attempt)
    requires other == l.(writes := other.writes) && AttemptInv(who, l, a)
    ensures AttemptInv(who, other, a)
  {
    if (a.phase.Reading? || a.phase.Writing?) && a.phase.report.Synced? {
      assert SyncedInv(who, l, a, a.phase.report.id, a.phase.report.desired);
      assert SyncedInv(who, other, a, a.phase.report.id, a.phase.report.desired);
    }
  }

  lemma AddingCall(cfg: Config, who: Owner, l: Local, outcome: Outcome, message: string)
    requires FinalizerPending(who, l, true)
    ensures Good(who, l, ChangeStep(cfg, l, who, outcome, message))
  {
    if l.cur.Some? && l.cur.value.deleting {
      FailKeeps(who, l);
    } else {
      FinalizerKeeps(cfg, who, l, true, outcome);
    }
  }

  lemma ChangeKeeps(cfg: Config, who: Owner, l: Local, outcome: Outcome, message: string)
    requires Valid(l.kuma) && Inv(who, l) && l.attempt.Some?
    ensures Good(who, l, ChangeStep(cfg, l, who, outcome, message))
  {
    var phase := l.attempt.value.phase;
    if phase.Deleting? {
      DeletingKeeps(cfg, who, l, phase.id, outcome, message);
    } else if phase.DroppingFinalizer? {
      FinalizerKeeps(cfg, who, l, false, outcome);
    } else if phase.AddingFinalizer? {
      AddingCall(cfg, who, l, outcome, message);
    } else if phase.Upserting? {
      UpsertingKeeps(who, l, phase.id, phase.desired, outcome, message);
    } else if phase.Writing? {
      WritingKeeps(cfg, who, l, phase.report, phase.tries, phase.got, outcome);
    } else {
      assert ChangeStep(cfg, l, who, outcome, message) == l;
    }
  }

  /** A changing call counts as one, whatever it leads to. */
  lemma Counted(who: Owner, l: Local, changed: Local)
    requires Good(who, l, changed)
    ensures Good(who, l, if changed == l then l else changed.(writes := l.writes + 1))
  {
    WritesDoNotMatter(who, l, changed, l.writes + 1);
  }

  lemma CallKeeps(cfg: Config, who: Owner, l: Local, outcome: Outcome, message: string)
    requires Valid(l.kuma) && Inv(who, l) && l.attempt.Some?
    ensures Good(who, l, Step(cfg, who, l, Change(outcome, message)))
  {
    var changed := ChangeStep(cfg, l, who, outcome, message);
    assert Step(cfg, who, l, Change(outcome, message)) == if changed == l then l else changed.(writes := l.writes + 1);
    ChangeKeeps(cfg, who, l, outcome, message);
    Counted(who, l, changed);
  }

  lemma EndKeeps(cfg: Config, who: Owner, l: Local)
    requires Valid(l.kuma) && Inv(who, l)
    ensures Good(who, l, Step(cfg, who, l, Finish)) && Good(who, l, Step(cfg, who, l, Crash))
  {
    if l.attempt.Some? {
      FailKeeps(who, l);
      FinishKeeps(who, l, Fail(l));
      if l.attempt.value.phase.Ended? {
        FinishKeeps(who, l, l);
      }
    }
  }

  lemma FinishKeeps(who: Owner, l: Local, ended: Local)
    requires Valid(l.kuma) && Valid(ended.kuma) && Inv(who, ended) && ended.attempt.Some? && ended.attempt.value.created == {}
    requires Acted(l.kuma, ended.kuma, who) && l.latest <= ended.latest
    ensures Good(who, l, ended.(attempt := None))
  {
    assert forall i :: AccountedFor(ended, i) ==> AccountedFor(ended.(attempt := None), i);
  }

  /** Every step of the reconcile keeps the invariant and changes no monitor of others. */
  lemma StepKeeps(cfg: Config, who: Owner, l: Local, action: Action)
    requires Valid(l.kuma) && Inv(who, l)
    ensures Good(who, l, Step(cfg, who, l, action))
  {
    match action {
      case Begin => BeginKeeps(cfg, who, l);
      case Read(ok) =>
        if l.attempt.Some? {
          ReadKeeps(cfg, who, l, ok);
        }
      case Change(outcome, message) =>
        if l.attempt.Some? {
          CallKeeps(cfg, who, l, outcome, message);
        }
      case Tag(ok, tags) =>
        if l.attempt.Some? && l.attempt.value.phase.Tagging? {
          TaggingKeeps(who, l, ok, tags);
        }
      case Finish => EndKeeps(cfg, who, l);
      case Crash => EndKeeps(cfg, who, l);
    }
  }
}
