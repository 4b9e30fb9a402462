/** The invariant of a Monitor survives everything others do: other resources' reconciles,
    hand edits in Kuma, and users editing the Monitor or its Secrets. */
module MonitorStability {
  import opened Wrappers
  import opened Spec
  import opened Store
  import opened Tracking
  import opened MonitorMachine
  import opened MonitorInvariant

  function Shifted(l: Local, kuma: Kuma, latest: int, touched: set<int>): Local {
    l.(kuma := kuma, latest := latest,
       attempt := if l.attempt.None? then None
                  else Some(l.attempt.value.(touched := l.attempt.value.touched + touched)))
  }

  lemma MonitorStable(a: Kuma, b: Kuma, who: Owner, touched: set<int>, sent: map<int, Sent>, m: Monitor)
    requires Moved(a, b, who, touched) && MonitorInv(a, who, sent, m)
    ensures MonitorInv(b, who, sent, m)
    ensures TrackedGone(a, m) ==> TrackedGone(b, m)
  {
    if m.monitorID != "" {
      assert BelongsTo(a, who, IDOf(m.monitorID));
    }
  }

  lemma ConfiguredStable(a: Kuma, b: Kuma, who: Owner, before: set<int>, touched: set<int>, desired: MonitorSpec, id: int)
    requires Moved(a, b, who, touched) && BelongsTo(a, who, id) && Configured(a, before, desired, id)
    ensures Configured(b, before + touched, desired, id)
  {
    assert id !in touched ==> SameAt(a, b, id);
  }

  lemma SyncedStable(who: Owner, l: Local, k: Kuma, latest: int, touched: set<int>, a: Attempt, id: int, desired: MonitorSpec)
    requires Moved(l.kuma, k, who, touched) && SyncedInv(who, l, a, id, desired) && MonitorInv(l.kuma, who, l.sent, a.snap)
    ensures SyncedInv(who, Shifted(l, k, latest, touched), a.(touched := a.touched + touched), id, desired)
  {
    ConfiguredStable(l.kuma, k, who, a.touched, touched, desired, id);
    MonitorStable(l.kuma, k, who, touched, l.sent, a.snap);
  }

  lemma ReportPhaseStable(who: Owner, l: Local, k: Kuma, latest: int, touched: set<int>, a: Attempt, report: Report)
    requires Moved(l.kuma, k, who, touched) && MonitorInv(l.kuma, who, l.sent, a.snap) && ReportInv(who, l, a, report)
    ensures ReportInv(who, Shifted(l, k, latest, touched), a.(touched := a.touched + touched), report)
  {
    if report.Synced? {
      SyncedStable(who, l, k, latest, touched, a, report.id, report.desired);
    }
  }

  lemma EarlyPhaseStable(who: Owner, l: Local, k: Kuma, latest: int, touched: set<int>, a: Attempt)
    requires PhaseInv(who, l, a) && Open(a.phase) && !a.phase.Reading? && !a.phase.Writing?
    requires TrackedGone(l.kuma, a.snap) ==> TrackedGone(k, a.snap)
    ensures PhaseInv(who, Shifted(l, k, latest, touched), a.(touched := a.touched + touched))
  {}

  lemma OpenPhaseStable(who: Owner, l: Local, k: Kuma, latest: int, touched: set<int>, a: Attempt)
    requires Moved(l.kuma, k, who, touched) && l.latest <= latest
    requires SnapInv(who, l, a.snap) && PhaseInv(who, l, a) && Open(a.phase)
    ensures PhaseInv(who, Shifted(l, k, latest, touched), a.(touched := a.touched + touched))
  {
    match a.phase
    case Reading(report, _) => ReportPhaseStable(who, l, k, latest, touched, a, report);
    case Writing(report, _, _) => ReportPhaseStable(who, l, k, latest, touched, a, report);
    case _ =>
      MonitorStable(l.kuma, k, who, touched, l.sent, a.snap);
      EarlyPhaseStable(who, l, k, latest, touched, a);
  }

  lemma RecordedPhaseStable(who: Owner, l: Local, k: Kuma, latest: int, touched: set<int>, a: Attempt)
    requires Moved(l.kuma, k, who, touched) && l.latest <= latest && CurInv(who, l)
    requires PhaseInv(who, l, a) && !Open(a.phase)
    ensures PhaseInv(who, Shifted(l, k, latest, touched), a.(touched := a.touched + touched))
  {
    match a.phase
    case Tagging(id, desired, tags) => ConfiguredStable(l.kuma, k, who, a.touched, touched, desired, id);
    case Ended(verdict) =>
      match verdict
      case Gone =>
        if a.snap.monitorID != "" {
          assert BelongsTo(l.kuma, who, IDOf(a.snap.monitorID));
        }
      case InSync(id, desired, tags) =>
        ConfiguredStable(l.kuma, k, who, a.touched, touched, desired, id);
        assert id !in touched ==> SameAt(l.kuma, k, id);
      case Error =>
  }

  lemma AttemptStable(who: Owner, l: Local, k: Kuma, latest: int, touched: set<int>, a: Attempt)
    requires Moved(l.kuma, k, who, touched) && l.latest <= latest && CurInv(who, l)
    requires AttemptInv(who, l, a)
    ensures AttemptInv(who, Shifted(l, k, latest, touched), a.(touched := a.touched + touched))
  {
    if Open(a.phase) {
      OpenPhaseStable(who, l, k, latest, touched, a);
      MonitorStable(l.kuma, k, who, touched, l.sent, a.snap);
    } else {
      RecordedPhaseStable(who, l, k, latest, touched, a);
    }
  }

  /** Others acting keeps the invariant. */
  lemma ShiftKeeps(who: Owner, l: Local, k: Kuma, latest: int, touched: set<int>)
    requires Valid(l.kuma) && Moved(l.kuma, k, who, touched) && l.latest <= latest && Inv(who, l)
    ensures Inv(who, Shifted(l, k, latest, touched))
  {
    if l.cur.Some? {
      MonitorStable(l.kuma, k, who, touched, l.sent, l.cur.value);
    }
    if l.attempt.Some? {
      AttemptStable(who, l, k, latest, touched, l.attempt.value);
    }
    forall id | id in k.monitors && Owned(k, who, id)
      ensures AccountedFor(Shifted(l, k, latest, touched), id)
    {
      assert BelongsTo(l.kuma, who, id) && Owned(l.kuma, who, id);
      assert AccountedFor(l, id);
    }
  }

  /** What the user's step can make of a Monitor. */
  ghost predicate Revised(old_: Monitor, new_: Monitor) {
    && new_.monitorID == old_.monitorID && new_.observed == old_.observed && new_.finalizer == old_.finalizer
    && old_.generation <= new_.generation
    && (new_.generation == old_.generation ==> new_.spec == old_.spec && new_.deleting == old_.deleting)
    && (old_.deleting ==> new_.deleting) && Admitted(new_.spec)
  }

  lemma UserStepShape(l: Local, action: UserAction)
    requires l.cur.Some? ==> l.cur.value.version <= l.latest && Admitted(l.cur.value.spec)
    ensures
      var after := UserStep(l, action);
      && after == l.(cur := after.cur, latest := after.latest, secrets := after.secrets) && l.latest <= after.latest
      && (after.cur == l.cur
          || (after.cur.None? && l.cur.Some? && !l.cur.value.finalizer)
          || (after.cur.Some? && l.latest < after.cur.value.version <= after.latest
              && if l.cur.Some? then Revised(l.cur.value, after.cur.value)
                 else (exists spec, labels, foreign ::
                         Admitted(spec)
                         && after.cur.value == Monitor(after.latest, 1, false, false, foreign, labels, spec, "", 0, NoCondition))))
  {}

  /** The part of the shape that the attempt depends on. */
  ghost predicate CurMoved(l: Local, after: Local) {
    || after.cur == l.cur
    || (after.cur.None? && l.cur.Some? && !l.cur.value.finalizer)
    || (after.cur.Some? && l.latest < after.cur.value.version
        && if l.cur.Some? then Revised(l.cur.value, after.cur.value)
           else after.cur.value.monitorID == "" && !after.cur.value.finalizer)
  }

  lemma LinkedStable(l: Local, after: Local, snap: Monitor)
    requires CurMoved(l, after) && l.latest <= after.latest && VersionInv(l, snap) && Linked(l.cur, snap)
    ensures VersionInv(after, snap) && Linked(after.cur, snap)
  {}

  lemma UserPhase(who: Owner, l: Local, after: Local, a: Attempt)
    requires CurMoved(l, after) && after == l.(cur := after.cur, latest := after.latest, secrets := after.secrets) && l.latest <= after.latest
    requires PhaseInv(who, l, a)
    ensures PhaseInv(who, after, a)
  {
    if (a.phase.Reading? || a.phase.Writing?) && a.phase.report.Synced? {
      assert SyncedInv(who, l, a, a.phase.report.id, a.phase.report.desired);
      assert SyncedInv(who, after, a, a.phase.report.id, a.phase.report.desired);
    }
  }

  lemma UserAttempt(who: Owner, l: Local, after: Local, a: Attempt)
    requires CurMoved(l, after) && after == l.(cur := after.cur, latest := after.latest, secrets := after.secrets) && l.latest <= after.latest
    requires AttemptInv(who, l, a)
    ensures AttemptInv(who, after, a)
  {
    UserPhase(who, l, after, a);
    if Open(a.phase) {
      LinkedStable(l, after, a.snap);
    }
  }

  lemma UserKeeps(who: Owner, l: Local, action: UserAction)
    requires Inv(who, l)
    ensures Inv(who, UserStep(l, action))
  {
    UserStepShape(l, action);
    var after := UserStep(l, action);
    if l.attempt.Some? {
      UserAttempt(who, l, after, l.attempt.value);
    }
    forall id | id in l.kuma.monitors && Owned(l.kuma, who, id)
      ensures AccountedFor(after, id)
    {
      assert AccountedFor(l, id);
    }
  }
}
