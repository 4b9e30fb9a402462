/** The calls that change Kuma keep the invariant of a Monitor. */
module MonitorUpserts {
  import opened Wrappers
  import opened Spec
  import opened Strconv
  import opened Store
  import opened Tracking
  import opened MonitorMachine
  import opened MonitorInvariant
  import opened MonitorSteps
  import Translate

  // --------------------------------------------------------------------- upserts

  /** A Monitor whose generation was not yet synced, or whose spec `desired` converts, keeps its
      invariant when `desired` is sent. */
  lemma MonitorAfter(k: Kuma, after: Kuma, who: Owner, id: int, desired: MonitorSpec, got: int, sent: map<int, Sent>, m: Monitor,
                     source: CRSpec)
    requires Upserted(k, after, who, id, desired, got) && MonitorInv(k, who, sent, m) && m.finalizer
    requires id == 0 || Tracks(m, id)
    requires m.observed == m.generation ==> m.spec == source && Converts(source, desired)
    ensures MonitorInv(after, who, sent[got := Sent(source, desired)], m)
    ensures id == 0 ==> !Tracks(m, got) && (TrackedGone(k, m) ==> TrackedGone(after, m))
  {
    UpsertedFacts(k, after, who, id, desired, got);
    if m.monitorID != "" {
      assert Owned(k, who, IDOf(m.monitorID));
    }
  }

  /** The state an Upsert reaches when it succeeds. */
  function Reached(l: Local, kuma: Kuma, desired: MonitorSpec, got: int, created: set<int>): Local
    requires l.attempt.Some?
  {
    l.(kuma := kuma, sent := l.sent[got := Sent(l.attempt.value.snap.spec, desired)], attempt := Some(l.attempt.value.(created := created)))
  }

  ghost predicate UpsertPending(who: Owner, l: Local, id: int, desired: MonitorSpec) {
    Valid(l.kuma) && Inv(who, l) && l.attempt.Some? && l.attempt.value.phase == Upserting(id, desired)
  }

  lemma CurAfter(who: Owner, l: Local, id: int, desired: MonitorSpec, kuma: Kuma, got: int)
    requires UpsertPending(who, l, id, desired) && Upserted(l.kuma, kuma, who, id, desired, got)
    ensures l.cur.Some? && MonitorInv(kuma, who, l.sent[got := Sent(l.attempt.value.snap.spec, desired)], l.cur.value)
    ensures id == 0 ==> !Tracks(l.cur.value, got)
  {
    MonitorAfter(l.kuma, kuma, who, id, desired, got, l.sent, l.cur.value, l.attempt.value.snap.spec);
  }

  lemma CoreAfter(who: Owner, l: Local, id: int, desired: MonitorSpec, kuma: Kuma, got: int)
    requires UpsertPending(who, l, id, desired) && Upserted(l.kuma, kuma, who, id, desired, got)
    ensures Core(who, Reached(l, kuma, desired, got, if id == 0 then {got} else {}))
    ensures Acted(l.kuma, kuma, who)
  {
    UpsertedFacts(l.kuma, kuma, who, id, desired, got);
    CurAfter(who, l, id, desired, kuma, got);
    AccountedAfter(who, l, id, desired, kuma, got);
  }

  lemma AccountedAfter(who: Owner, l: Local, id: int, desired: MonitorSpec, kuma: Kuma, got: int)
    requires UpsertPending(who, l, id, desired) && Upserted(l.kuma, kuma, who, id, desired, got) && l.cur.Some?
    ensures
      var after := Reached(l, kuma, desired, got, if id == 0 then {got} else {});
      forall i :: i in kuma.monitors && Owned(kuma, who, i) ==> AccountedFor(after, i)
  {
    UpsertedFacts(l.kuma, kuma, who, id, desired, got);
    var after := Reached(l, kuma, desired, got, if id == 0 then {got} else {});
    forall i | i in kuma.monitors && Owned(kuma, who, i)
      ensures AccountedFor(after, i)
    {
      if i != got {
        assert SameAt(l.kuma, kuma, i);
        assert AccountedFor(l, i);
      }
    }
  }

  lemma SyncedAfter(who: Owner, l: Local, id: int, desired: MonitorSpec, kuma: Kuma, got: int)
    requires UpsertPending(who, l, id, desired) && Upserted(l.kuma, kuma, who, id, desired, got)
    ensures
      var r := Reached(l, kuma, desired, got, if id == 0 then {got} else {});
      && SnapInv(who, r, r.attempt.value.snap)
      && SyncedInv(who, r, r.attempt.value, got, desired)
  {
    var snap := l.attempt.value.snap;
    UpsertedFacts(l.kuma, kuma, who, id, desired, got);
    MonitorAfter(l.kuma, kuma, who, id, desired, got, l.sent, snap, snap.spec);
    ConvertedIsWellFormed(snap.spec, desired);
    Translate.EquivalentReflexive(desired);
    CanonicalText(got);
    if id != 0 {
      assert Owned(l.kuma, who, id);
    }
  }

  lemma CanonicalText(id: int)
    ensures ParseInt(FormatInt(id)) == Some(id) ==> FormatInt(id) != ""
  {}

  lemma ConvertedIsWellFormed(spec: CRSpec, s: MonitorSpec)
    requires Admitted(spec) && Converts(spec, s)
    ensures WellFormed(s)
  {}

  lemma UpsertSucceeds(who: Owner, l: Local, id: int, desired: MonitorSpec, kuma: Kuma, got: int)
    requires UpsertPending(who, l, id, desired) && Upserted(l.kuma, kuma, who, id, desired, got)
    ensures Good(who, l, At(Reached(l, kuma, desired, got, if id == 0 then {got} else {}), Reading(Synced(got, desired), 1)))
  {
    var r := Reached(l, kuma, desired, got, if id == 0 then {got} else {});
    var after := At(r, Reading(Synced(got, desired), 1));
    CoreAfter(who, l, id, desired, kuma, got);
    SyncedAfter(who, l, id, desired, kuma, got);
    UpsertedFacts(l.kuma, kuma, who, id, desired, got);
    CoreAt(who, r, Reading(Synced(got, desired), 1));
    assert PhaseInv(who, r, after.attempt.value) by {
      assert SyncedInv(who, r, after.attempt.value, got, desired);
    }
    SamePhaseInv(who, r, after, after.attempt.value);
    Assemble(who, l, after, after.attempt.value);
  }

  lemma LostSnap(who: Owner, l: Local, id: int, desired: MonitorSpec, kuma: Kuma, got: int, message: string)
    requires UpsertPending(who, l, id, desired) && Upserted(l.kuma, kuma, who, id, desired, got)
    ensures
      var r := Reached(l, kuma, desired, got, if id == 0 then {got} else {});
      SnapInv(who, At(Fail(r), Reading(Failure(message), 1)), l.attempt.value.snap)
  {
    var created := if id == 0 then {got} else {};
    var snap := l.attempt.value.snap;
    MonitorAfter(l.kuma, kuma, who, id, desired, got, l.sent, snap, snap.spec);
    OrphanedCur(kuma, who, l.sent[got := Sent(snap.spec, desired)], snap, created);
  }

  /** An Upsert whose success goes unnoticed: a monitor created is an orphan at once. */
  lemma UpsertLost(who: Owner, l: Local, id: int, desired: MonitorSpec, kuma: Kuma, got: int, message: string)
    requires UpsertPending(who, l, id, desired) && Upserted(l.kuma, kuma, who, id, desired, got)
    ensures
      var r := Reached(l, kuma, desired, got, if id == 0 then {got} else {});
      Good(who, l, At(Fail(r), Reading(Failure(message), 1)))
  {
    var r := Reached(l, kuma, desired, got, if id == 0 then {got} else {});
    CoreAfter(who, l, id, desired, kuma, got);
    GiveUp(who, l, r);
    CoreHolds(who, Fail(r));
    CoreAt(who, Fail(r), Reading(Failure(message), 1));
    LostSnap(who, l, id, desired, kuma, got, message);
    var after := At(Fail(r), Reading(Failure(message), 1));
    Assemble(who, l, after, after.attempt.value);
  }

  lemma UpsertingKeeps(who: Owner, l: Local, id: int, desired: MonitorSpec, outcome: Outcome, message: string)
    requires UpsertPending(who, l, id, desired)
    ensures Good(who, l, UpsertStep(l, who, id, desired, outcome, message))
  {
    TrackedBelongs(who, l, id, desired);
    if Upsert(l.kuma, who, id, desired).None? || outcome.Failed? {
      MoveTo(who, l, Reading(Failure(message), 1));
    } else {
      var (kuma, got) := Upsert(l.kuma, who, id, desired).value;
      if outcome.Succeeded? {
        UpsertSucceeds(who, l, id, desired, kuma, got);
      } else {
        UpsertLost(who, l, id, desired, kuma, got, message);
      }
    }
  }

  lemma TrackedBelongs(who: Owner, l: Local, id: int, desired: MonitorSpec)
    requires UpsertPending(who, l, id, desired)
    ensures id != 0 ==> BelongsTo(l.kuma, who, id)
    ensures l.attempt.value.created == {}
  {}

  // --------------------------------------------------------------------- deletes

  lemma DeletedMonitor(k: Kuma, who: Owner, id: int, sent: map<int, Sent>, m: Monitor)
    requires MonitorInv(k, who, sent, m)
    ensures MonitorInv(Delete(k, id), who, sent, m)
    ensures Tracks(m, id) ==> TrackedGone(Delete(k, id), m)
  {}

  lemma DeleteCore(who: Owner, l: Local, id: int)
    requires Valid(l.kuma) && Inv(who, l) && l.attempt.Some? && BelongsTo(l.kuma, who, id)
    ensures Core(who, l.(kuma := Delete(l.kuma, id))) && Acted(l.kuma, Delete(l.kuma, id), who)
  {
    CoreHolds(who, l);
    DeleteActs(l.kuma, who, id);
    var after := l.(kuma := Delete(l.kuma, id));
    if l.cur.Some? {
      DeletedMonitor(l.kuma, who, id, l.sent, l.cur.value);
    }
    forall i | i in after.kuma.monitors && Owned(after.kuma, who, i)
      ensures AccountedFor(after, i)
    {
      assert AccountedFor(l, i);
    }
  }

  lemma DeletingKeeps(cfg: Config, who: Owner, l: Local, id: int, outcome: Outcome, message: string)
    requires Valid(l.kuma) && Inv(who, l) && l.attempt.Some? && l.attempt.value.phase == Deleting(id)
    ensures Good(who, l, ChangeStep(cfg, l, who, outcome, message))
  {
    var snap := l.attempt.value.snap;
    var deleted := l.(kuma := Delete(l.kuma, id));
    assert BelongsTo(l.kuma, who, id);
    match outcome {
      case Failed => FailKeeps(who, l);
      case Lost =>
        DeleteCore(who, l, id);
        GiveUp(who, l, deleted);
      case Succeeded =>
        DeleteCore(who, l, id);
        DeletedMonitor(l.kuma, who, id, l.sent, snap);
        CoreAt(who, deleted, AfterDelete(snap));
        var after := At(deleted, AfterDelete(snap));
        assert PhaseInv(who, after, after.attempt.value);
        Assemble(who, l, after, after.attempt.value);
    }
  }

  // ------------------------------------------------------------------------ tags

  lemma TaggedMonitor(k: Kuma, who: Owner, id: int, tags: set<string>, sent: map<int, Sent>, m: Monitor)
    requires MonitorInv(k, who, sent, m)
    ensures MonitorInv(SetTags(k, id, tags), who, sent, m)
  {}

  lemma TagCore(who: Owner, l: Local, id: int, tags: set<string>)
    requires Valid(l.kuma) && Inv(who, l) && l.attempt.Some? && BelongsTo(l.kuma, who, id)
    ensures Core(who, l.(kuma := SetTags(l.kuma, id, tags))) && Acted(l.kuma, SetTags(l.kuma, id, tags), who)
  {
    CoreHolds(who, l);
    SetTagsActs(l.kuma, who, id, tags);
    var after := l.(kuma := SetTags(l.kuma, id, tags));
    if l.cur.Some? {
      TaggedMonitor(l.kuma, who, id, tags, l.sent, l.cur.value);
    }
    forall i | i in after.kuma.monitors && Owned(after.kuma, who, i)
      ensures AccountedFor(after, i)
    {
      assert AccountedFor(l, i);
    }
  }

  lemma TaggingKeeps(who: Owner, l: Local, ok: bool, tags: set<string>)
    requires Valid(l.kuma) && Inv(who, l) && l.attempt.Some? && l.attempt.value.phase.Tagging?
    ensures Good(who, l, TagStep(l, ok, tags))
  {
    var phase := l.attempt.value.phase;
    var id, desired, wanted := phase.id, phase.desired, phase.tags;
    assert BelongsTo(l.kuma, who, id);
    if ok {
      TagCore(who, l, id, wanted);
      var tagged := l.(kuma := SetTags(l.kuma, id, wanted));
      var after := At(tagged, Ended(InSync(id, desired, wanted)));
      CoreAt(who, tagged, Ended(InSync(id, desired, wanted)));
      assert Recorded(after, after.attempt.value, id, desired);
      Assemble(who, l, after, after.attempt.value);
    } else {
      TagCore(who, l, id, tags);
      GiveUp(who, l, l.(kuma := SetTags(l.kuma, id, tags)));
    }
  }
}
