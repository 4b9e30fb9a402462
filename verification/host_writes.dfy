/** Recording the result on the resource keeps the invariant, and never overwrites what
    someone else wrote. */
module HostWrites {
  import opened Wrappers
  import opened Spec
  import opened Store
  import opened Tracking
  import opened HostMachine
  import opened HostInvariant
  import opened HostSteps
  import opened HostUpserts
  import opened HostDeletes
  import HostDrift

  /** The state an accepted Update of persistMonitorIDs reaches. */
  function Committed(l: Local, write: Write, got: Resource): Local
    requires l.attempt.Some?
  {
    Accept(l, Marked(got, write)).(attempt := Some(l.attempt.value.(created := {})))
  }

  /** One Update committed: it replaced exactly the version it was based on, and the new
      version differs from it only in the operator's marks, or the resource is gone because it
      was deleted and nothing held it any more. */
  ghost predicate Commits(l: Local, after: Local, write: Write, got: Resource) {
    && l.cur == Some(got) && after.latest == l.latest + 1
    && (after.cur == Some(Marked(got, write).(version := after.latest))
        || (after.cur.None? && write.Clear? && got.deleting && !got.foreignFinalizers))
  }

  ghost predicate WritesNothing(l: Local, after: Local) {
    after.cur == l.cur && after.latest == l.latest
  }

  lemma WrittenOnce(l: Local, write: Write, tries: nat, got: Resource, outcome: Outcome)
    requires l.attempt.Some? && VersionInv(l, got)
    ensures
      var after := WriteStep(l, write, tries, got, outcome);
      && (WritesNothing(l, after) || Commits(l, after, write, got))
      && after.attempt.Some? && (after.attempt.value.phase.Reading? ==> WritesNothing(l, after))
  {}

  lemma SuccessIsRecorded(l: Local, write: Write, tries: nat, got: Resource, outcome: Outcome)
    requires l.attempt.Some? && VersionInv(l, got)
    ensures
      var after := WriteStep(l, write, tries, got, outcome);
      && after.attempt.Some?
      && (after.attempt.value.phase == AfterWrite(write) ==>
            if after.cur.None? then write.Clear? else SameMarks(after.cur.value, Marked(got, write)))
  {}

  /** One try of persistMonitorIDs commits or writes nothing; it is tried again only if it wrote
      nothing, and it reports success only if the marks are recorded. */
  lemma NoLostUpdate(cfg: Config, who: Owner, l: Local, write: Write, tries: nat, got: Resource, outcome: Outcome)
    requires Inv(cfg, who, l) && l.attempt.Some? && l.attempt.value.phase == Writing(write, tries, got)
    ensures
      var after := WriteStep(l, write, tries, got, outcome);
      && (WritesNothing(l, after) || Commits(l, after, write, got))
      && after.attempt.Some?
      && (after.attempt.value.phase.Reading? ==> WritesNothing(l, after))
      && (after.attempt.value.phase == AfterWrite(write) ==>
            if after.cur.None? then write.Clear? else SameMarks(after.cur.value, Marked(got, write)))
  {
    WrittenOnce(l, write, tries, got, outcome);
    SuccessIsRecorded(l, write, tries, got, outcome);
  }

  lemma KeepIsSound(cfg: Config, k: Kuma, who: Owner, a: Attempt, plan: Plan, ids: map<string, string>, got: Resource)
    requires CollisionFree(cfg) && WriteInv(cfg, k, who, a, Keep(plan, ids))
    ensures ResourceInv(cfg, k, who, Marked(got, Keep(plan, ids)))
  {
    assert HashSound(cfg, plan.hash, ids);
  }

  lemma ClearIsSound(cfg: Config, k: Kuma, who: Owner, got: Resource)
    requires CollisionFree(cfg)
    ensures ResourceInv(cfg, k, who, Marked(got, Clear))
  {
    assert HashSound(cfg, "", map[]);
  }

  /** Everything the resource tracked before is carried over or gone. */
  lemma NothingForgotten(cfg: Config, who: Owner, l: Local, write: Write, i: int)
    requires Inv(cfg, who, l) && l.attempt.Some? && Open(l.attempt.value.phase)
    requires WriteInv(cfg, l.kuma, who, l.attempt.value, write) && l.cur.Some?
    requires i in l.kuma.monitors && Owned(l.kuma, who, i)
    ensures write.Keep? && Tracks(write.ids, i)
  {
    var a := l.attempt.value;
    assert AccountedFor(l, i);
    if i !in a.created {
      var h :| h in l.cur.value.ids.m && IDOf(l.cur.value.ids.m[h]) == i;
      assert l.cur.value.ids == a.snap.ids;
      assert write.Keep? && h in write.ids && write.ids[h] == write.plan.existing[h];
    }
  }

  lemma CommittedCore(cfg: Config, who: Owner, l: Local, write: Write, tries: nat, got: Resource)
    requires CollisionFree(cfg) && Valid(l.kuma) && Inv(cfg, who, l)
    requires l.attempt.Some? && l.attempt.value.phase == Writing(write, tries, got)
    requires AnswerTo(l.cur, got, write.Keep?).Accepted?
    ensures Core(cfg, who, Committed(l, write, got))
    ensures write.Keep? ==> Committed(l, write, got).cur.Some?
                            && SameMarks(Committed(l, write, got).cur.value, Marked(got, write))
    ensures write.Clear? ==> Committed(l, write, got).cur.None? || Unmarked(Committed(l, write, got).cur.value)
    ensures l.latest <= Committed(l, write, got).latest && Committed(l, write, got).kuma == l.kuma
  {
    var a := l.attempt.value;
    assert got == l.cur.value;
    if write.Keep? {
      KeepIsSound(cfg, l.kuma, who, a, write.plan, write.ids, got);
    } else {
      ClearIsSound(cfg, l.kuma, who, got);
    }
    var after := Committed(l, write, got);
    forall i | i in l.kuma.monitors && Owned(l.kuma, who, i)
      ensures AccountedFor(after, i)
    {
      NothingForgotten(cfg, who, l, write, i);
    }
  }

  lemma CommittedPhase(cfg: Config, who: Owner, l: Local, write: Write, tries: nat, got: Resource)
    requires CollisionFree(cfg) && Valid(l.kuma) && Inv(cfg, who, l)
    requires l.attempt.Some? && l.attempt.value.phase == Writing(write, tries, got)
    requires AnswerTo(l.cur, got, write.Keep?).Accepted?
    ensures
      var c := Committed(l, write, got);
      PhaseInv(cfg, who, c, c.attempt.value.(phase := AfterWrite(write)))
  {
    CommittedCore(cfg, who, l, write, tries, got);
    var c := Committed(l, write, got);
    if write.Keep? {
      var plan, ids := write.plan, write.ids;
      ParseableIsAll(l.kuma, who, ids);
      assert Recorded(cfg, c.kuma, c.attempt.value, c.cur, plan, ids);
      TaggingsPhase(cfg, who, c, c.attempt.value, plan, ids, Parseable(ids));
    }
  }

  lemma WritingKeeps(cfg: Config, who: Owner, l: Local, write: Write, tries: nat, got: Resource, outcome: Outcome)
    requires CollisionFree(cfg) && Valid(l.kuma) && Inv(cfg, who, l)
    requires l.attempt.Some? && l.attempt.value.phase == Writing(write, tries, got)
    ensures Good(cfg, who, l, WriteStep(l, write, tries, got, outcome))
  {
    match AnswerTo(l.cur, got, write.Keep?) {
      case Conflict =>
        if outcome.Failed? || tries >= MAX_TRIES {
          FailKeeps(cfg, who, l);
        } else {
          RetryKeeps(cfg, who, l, write, tries, got);
        }
      case Accepted =>
        if outcome.Failed? {
          FailKeeps(cfg, who, l);
        } else {
          CommitKeeps(cfg, who, l, write, tries, got, outcome);
        }
      case _ => FailKeeps(cfg, who, l);
    }
  }

  lemma RetryKeeps(cfg: Config, who: Owner, l: Local, write: Write, tries: nat, got: Resource)
    requires Valid(l.kuma) && Inv(cfg, who, l)
    requires l.attempt.Some? && l.attempt.value.phase == Writing(write, tries, got)
    ensures Good(cfg, who, l, At(l, Reading(write, tries + 1)))
  {
    assert WriteInv(cfg, l.kuma, who, l.attempt.value.(phase := Reading(write, tries + 1)), write);
    MoveTo(cfg, who, l, Reading(write, tries + 1));
  }

  lemma CommitKeeps(cfg: Config, who: Owner, l: Local, write: Write, tries: nat, got: Resource, outcome: Outcome)
    requires CollisionFree(cfg) && Valid(l.kuma) && Inv(cfg, who, l)
    requires l.attempt.Some? && l.attempt.value.phase == Writing(write, tries, got)
    requires AnswerTo(l.cur, got, write.Keep?).Accepted? && !outcome.Failed?
    ensures Good(cfg, who, l, WriteStep(l, write, tries, got, outcome))
  {
    var c := Committed(l, write, got);
    CommittedCore(cfg, who, l, write, tries, got);
    if outcome.Lost? {
      GiveUp(cfg, who, l, c);
    } else {
      CommittedPhase(cfg, who, l, write, tries, got);
      var after := At(c, AfterWrite(write));
      CoreAt(cfg, who, c, AfterWrite(write));
      SamePhaseInv(cfg, who, c, after, after.attempt.value);
      AssembleRecorded(cfg, who, after, after.attempt.value);
    }
  }

  // ------------------------------------------------------- dropping the finalizer

  lemma DroppedCore(cfg: Config, who: Owner, l: Local)
    requires Valid(l.kuma) && Inv(cfg, who, l) && l.attempt.Some? && l.attempt.value.phase == DroppingFinalizer
    requires AnswerTo(l.cur, l.attempt.value.snap, false).Accepted?
    ensures Core(cfg, who, Accept(l, l.attempt.value.snap.(finalizer := false)))
  {
    var snap := l.attempt.value.snap;
    assert l.cur == Some(snap);
    var after := Accept(l, snap.(finalizer := false));
    forall i | i in l.kuma.monitors && Owned(l.kuma, who, i)
      ensures AccountedFor(after, i)
    {
      assert AccountedFor(l, i);
    }
  }

  lemma DroppedPhase(cfg: Config, who: Owner, l: Local)
    requires Valid(l.kuma) && Inv(cfg, who, l) && l.attempt.Some? && l.attempt.value.phase == DroppingFinalizer
    requires AnswerTo(l.cur, l.attempt.value.snap, false).Accepted?
    ensures
      var after := At(Accept(l, l.attempt.value.snap.(finalizer := false)), Ended(Gone));
      PhaseInv(cfg, who, after, after.attempt.value) && after.attempt.value.created == {}
  {}

  lemma DroppedKeeps(cfg: Config, who: Owner, l: Local)
    requires Valid(l.kuma) && Inv(cfg, who, l) && l.attempt.Some? && l.attempt.value.phase == DroppingFinalizer
    requires AnswerTo(l.cur, l.attempt.value.snap, false).Accepted?
    ensures Good(cfg, who, l, At(Accept(l, l.attempt.value.snap.(finalizer := false)), Ended(Gone)))
  {
    var dropped := Accept(l, l.attempt.value.snap.(finalizer := false));
    var after := At(dropped, Ended(Gone));
    DroppedCore(cfg, who, l);
    CoreAt(cfg, who, dropped, Ended(Gone));
    DroppedPhase(cfg, who, l);
    AssembleRecorded(cfg, who, after, after.attempt.value);
  }

  lemma DroppingKeeps(cfg: Config, who: Owner, l: Local, outcome: Outcome)
    requires Valid(l.kuma) && Inv(cfg, who, l) && l.attempt.Some? && l.attempt.value.phase == DroppingFinalizer
    ensures Good(cfg, who, l, DropFinalizerStep(l, outcome))
  {
    var snap := l.attempt.value.snap;
    if !AnswerTo(l.cur, snap, false).Accepted? || outcome.Failed? {
      FailKeeps(cfg, who, l);
    } else if outcome.Lost? {
      DroppedCore(cfg, who, l);
      GiveUp(cfg, who, l, Accept(l, snap.(finalizer := false)));
    } else {
      DroppedKeeps(cfg, who, l);
    }
  }

  // ---------------------------------------------------------------- every step

  lemma WritesDoNotMatter(cfg: Config, who: Owner, l: Local, after: Local, writes: nat)
    requires Good(cfg, who, l, after)
    ensures Good(cfg, who, l, after.(writes := writes))
  {
    var other := after.(writes := writes);
    assert forall i :: AccountedFor(after, i) ==> AccountedFor(other, i);
    if after.attempt.Some? {
      var a := after.attempt.value;
      assert PhaseInv(cfg, who, other, a);
      assert AttemptInv(cfg, who, other, a);
    }
  }

  /** A changing call counts as one, whatever it leads to. */
  lemma Counted(cfg: Config, who: Owner, l: Local, changed: Local)
    requires Good(cfg, who, l, changed)
    ensures Good(cfg, who, l, if changed == l then l else changed.(writes := l.writes + 1))
  {
    WritesDoNotMatter(cfg, who, l, changed, l.writes + 1);
  }

  ghost predicate Ready(cfg: Config, who: Owner, l: Local) {
    Valid(l.kuma) && Inv(cfg, who, l) && l.attempt.Some?
  }

  lemma DeletingCall(cfg: Config, who: Owner, l: Local, host: string, outcome: Outcome)
    requires Ready(cfg, who, l) && l.attempt.value.phase.Deleting?
    ensures Good(cfg, who, l, ChangeStep(l, who, host, outcome))
  {
    var phase := l.attempt.value.phase;
    if host in phase.todo {
      DeletingKeeps(cfg, who, l, phase.todo, host, outcome);
    }
  }

  lemma DriftingCall(cfg: Config, who: Owner, l: Local, host: string, outcome: Outcome)
    requires Ready(cfg, who, l) && l.attempt.value.phase.Drifting?
    ensures Good(cfg, who, l, ChangeStep(l, who, host, outcome))
  {
    var phase := l.attempt.value.phase;
    if host in phase.drifted {
      HostDrift.DriftingKeeps(cfg, who, l, phase.plan, phase.drifted, phase.ids, host, outcome);
    }
  }

  lemma UpsertingCall(cfg: Config, who: Owner, l: Local, host: string, outcome: Outcome)
    requires Ready(cfg, who, l) && l.attempt.value.phase.Upserting?
    ensures Good(cfg, who, l, ChangeStep(l, who, host, outcome))
  {
    var phase := l.attempt.value.phase;
    if phase.next < |phase.plan.desired| {
      UpsertingKeeps(cfg, who, l, phase.plan, phase.next, phase.ids, outcome);
    }
  }

  lemma RemovingCall(cfg: Config, who: Owner, l: Local, host: string, outcome: Outcome)
    requires Ready(cfg, who, l) && l.attempt.value.phase.Removing?
    ensures Good(cfg, who, l, ChangeStep(l, who, host, outcome))
  {
    var phase := l.attempt.value.phase;
    if host in phase.todo {
      RemovingKeeps(cfg, who, l, phase.plan, phase.ids, phase.todo, host, outcome);
    }
  }

  lemma UpdateCall(cfg: Config, who: Owner, l: Local, host: string, outcome: Outcome)
    requires CollisionFree(cfg) && Ready(cfg, who, l) && (l.attempt.value.phase.Writing? || l.attempt.value.phase.DroppingFinalizer?)
    ensures Good(cfg, who, l, ChangeStep(l, who, host, outcome))
  {
    var phase := l.attempt.value.phase;
    if phase.Writing? {
      WritingKeeps(cfg, who, l, phase.write, phase.tries, phase.got, outcome);
    } else {
      DroppingKeeps(cfg, who, l, outcome);
    }
  }

  lemma OtherCall(cfg: Config, who: Owner, l: Local, host: string, outcome: Outcome)
    requires Ready(cfg, who, l)
    requires
      var phase := l.attempt.value.phase;
      !phase.Deleting? && !phase.DroppingFinalizer? && !phase.Drifting? && !phase.Upserting? && !phase.Removing? && !phase.Writing?
    ensures Good(cfg, who, l, ChangeStep(l, who, host, outcome))
  {
    assert ChangeStep(l, who, host, outcome) == l;
  }

  lemma ChangeKeeps(cfg: Config, who: Owner, l: Local, host: string, outcome: Outcome)
    requires CollisionFree(cfg) && Ready(cfg, who, l)
    ensures Good(cfg, who, l, ChangeStep(l, who, host, outcome))
  {
    var phase := l.attempt.value.phase;
    if phase.Deleting? {
      DeletingCall(cfg, who, l, host, outcome);
    } else if phase.Drifting? {
      DriftingCall(cfg, who, l, host, outcome);
    } else if phase.Upserting? {
      UpsertingCall(cfg, who, l, host, outcome);
    } else if phase.Removing? {
      RemovingCall(cfg, who, l, host, outcome);
    } else if phase.Writing? || phase.DroppingFinalizer? {
      UpdateCall(cfg, who, l, host, outcome);
    } else {
      OtherCall(cfg, who, l, host, outcome);
    }
  }

  lemma CallKeeps(cfg: Config, who: Owner, l: Local, host: string, outcome: Outcome)
    requires CollisionFree(cfg) && Ready(cfg, who, l)
    ensures Good(cfg, who, l, Step(cfg, who, l, Change(host, outcome)))
  {
    var changed := ChangeStep(l, who, host, outcome);
    assert Step(cfg, who, l, Change(host, outcome)) == if changed == l then l else changed.(writes := l.writes + 1);
    ChangeKeeps(cfg, who, l, host, outcome);
    Counted(cfg, who, l, changed);
  }

  lemma FinishKeeps(cfg: Config, who: Owner, l: Local)
    requires Valid(l.kuma) && Inv(cfg, who, l) && l.attempt.Some? && l.attempt.value.created == {}
    ensures Good(cfg, who, l, l.(attempt := None))
  {
    assert forall i :: AccountedFor(l, i) ==> AccountedFor(l.(attempt := None), i);
  }

  lemma TagKeeps(cfg: Config, who: Owner, l: Local, host: string, ok: bool, tags: set<string>)
    requires Valid(l.kuma) && Inv(cfg, who, l)
    ensures Good(cfg, who, l, Step(cfg, who, l, Tag(host, ok, tags)))
  {
    if l.attempt.Some? && l.attempt.value.phase.Tagging? && host in l.attempt.value.phase.todo {
      var phase := l.attempt.value.phase;
      TaggingKeeps(cfg, who, l, phase.plan, phase.ids, phase.todo, host, ok, tags);
    }
  }

  lemma EndKeeps(cfg: Config, who: Owner, l: Local)
    requires Valid(l.kuma) && Inv(cfg, who, l)
    ensures Good(cfg, who, l, Step(cfg, who, l, Finish)) && Good(cfg, who, l, Step(cfg, who, l, Crash))
  {
    if l.attempt.Some? {
      FailKeeps(cfg, who, l);
      FinishKeeps(cfg, who, Fail(l));
      if l.attempt.value.phase.Ended? {
        FinishKeeps(cfg, who, l);
      }
    }
  }

  /** Every step of the reconcile keeps the invariant and changes no monitor of others. */
  lemma StepKeeps(cfg: Config, who: Owner, l: Local, action: Action)
    requires CollisionFree(cfg) && Valid(l.kuma) && Inv(cfg, who, l)
    ensures Good(cfg, who, l, Step(cfg, who, l, action))
  {
    match action {
      case Begin => BeginKeeps(cfg, who, l);
      case Read(ok) =>
        if l.attempt.Some? {
          ReadKeeps(cfg, who, l, ok);
        }
      case Change(host, outcome) =>
        if l.attempt.Some? {
          CallKeeps(cfg, who, l, host, outcome);
        }
      case Tag(host, ok, tags) => TagKeeps(cfg, who, l, host, ok, tags);
      case Finish => EndKeeps(cfg, who, l);
      case Crash => EndKeeps(cfg, who, l);
    }
  }
}
