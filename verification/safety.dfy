/** More that holds in every state of every run: whose monitors a step may change, what the
    finalizer guards, and what the recorded fingerprint and generation stand for. */
module Safety {
  import opened Wrappers
  import opened Spec
  import opened Store
  import opened Tracking
  import opened System
  import HM = HostMachine
  import HI = HostInvariant
  import MM = MonitorMachine
  import MI = MonitorInvariant
  import MW = MonitorWrites
  import Derive

  // ------------------------------------------- only tracked or created monitors

  ghost predicate SameMonitors(a: Kuma, b: Kuma) {
    a.monitors == b.monitors && a.tags == b.tags
  }

  lemma HostUpsertSpares(l: HM.Local, who: Owner, id: int, spec: MonitorSpec, outcome: Outcome, ids: map<string, string>, host: string, other: int)
    requires Valid(l.kuma) && l.attempt.Some? && other in l.kuma.owner && other != id
    ensures SameAt(l.kuma, HM.UpsertStep(l, who, id, spec, outcome, ids, host).kuma, other)
  {}

  lemma HostDeleteSpares(l: HM.Local, id: int, outcome: Outcome, next: HM.Phase, other: int)
    requires l.attempt.Some? && other != id
    ensures SameAt(l.kuma, HM.DeleteStep(l, id, outcome, next).kuma, other)
  {}

  lemma HostWriteSpares(l: HM.Local, write: HM.Write, tries: nat, got: HM.Resource, outcome: Outcome)
    requires l.attempt.Some?
    ensures SameMonitors(l.kuma, HM.WriteStep(l, write, tries, got, outcome).kuma)
  {}

  lemma HostDropSpares(l: HM.Local, outcome: Outcome)
    requires l.attempt.Some?
    ensures SameMonitors(l.kuma, HM.DropFinalizerStep(l, outcome).kuma)
  {}

  /** Tracked as the running attempt read it, until it records something. */
  ghost predicate HostRead(l: HM.Local, id: int) {
    && l.attempt.Some? && HI.Open(l.attempt.value.phase)
    && l.attempt.value.snap.ids.IDs? && HI.Tracks(l.attempt.value.snap.ids.m, id)
  }

  ghost predicate HostTracked(l: HM.Local, id: int) {
    HostRead(l, id) || (l.cur.Some? && l.cur.value.ids.IDs? && HI.Tracks(l.cur.value.ids.m, id))
  }

  lemma HostTrackedIsOwned(cfg: HM.Config, who: Owner, l: HM.Local, id: int)
    requires HI.Inv(cfg, who, l) && HostTracked(l, id)
    ensures Owned(l.kuma, who, id)
  {
    if HostRead(l, id) {
      var snap := l.attempt.value.snap;
      var h :| h in snap.ids.m && IDOf(snap.ids.m[h]) == id;
      assert Canonical(l.kuma, who, snap.ids.m[h]);
    } else {
      var h :| h in l.cur.value.ids.m && IDOf(l.cur.value.ids.m[h]) == id;
      assert Canonical(l.kuma, who, l.cur.value.ids.m[h]);
    }
  }

  /** The ids a reconcile passes to Upsert and Delete are 0 or ids it read. */
  ghost predicate Targets(l: HM.Local)
    requires l.attempt.Some?
  {
    match l.attempt.value.phase
    case Upserting(plan, next, ids) => forall h :: HM.StoredID(plan, h) != 0 ==> HostRead(l, HM.StoredID(plan, h))
    case Drifting(plan, drifted, ids) => forall h :: h in drifted && drifted[h] != 0 ==> HostRead(l, drifted[h])
    case Deleting(todo) => forall h :: h in todo ==> HostRead(l, IDOf(todo[h]))
    case Removing(plan, ids, todo) => forall h :: h in todo ==> HostRead(l, IDOf(todo[h]))
    case Tagging(plan, ids, todo) => forall h :: h in todo ==> HostTracked(l, IDOf(todo[h]))
    case _ => true
  }

  lemma TargetsHold(cfg: HM.Config, who: Owner, l: HM.Local)
    requires l.attempt.Some? && HI.Inv(cfg, who, l)
    ensures Targets(l)
  {
    var snap := l.attempt.value.snap;
    match l.attempt.value.phase
    case Upserting(plan, next, ids) =>
    case Drifting(plan, drifted, ids) =>
    case Deleting(todo) =>
      assert forall h :: h in todo ==> HI.Tracks(snap.ids.m, IDOf(todo[h]));
    case Removing(plan, ids, todo) =>
      assert forall h :: h in todo ==> HI.Tracks(snap.ids.m, IDOf(todo[h]));
    case Tagging(plan, ids, todo) =>
      assert forall h :: h in todo ==> HI.Tracks(l.cur.value.ids.m, IDOf(todo[h]));
    case _ =>
  }

  lemma HostUpsertCallSpares(l: HM.Local, who: Owner, host: string, outcome: Outcome, other: int)
    requires Valid(l.kuma) && l.attempt.Some? && Targets(l)
    requires l.attempt.value.phase.Upserting? || l.attempt.value.phase.Drifting?
    requires other in l.kuma.owner && !HostRead(l, other)
    ensures SameAt(l.kuma, HM.ChangeStep(l, who, host, outcome).kuma, other)
  {
    match l.attempt.value.phase
    case Upserting(plan, next, ids) =>
      if next < |plan.desired| {
        var dm := plan.desired[next];
        HostUpsertSpares(l, who, HM.StoredID(plan, dm.host), dm.spec, outcome, ids, dm.host, other);
      }
    case Drifting(plan, drifted, ids) =>
      if host in drifted && HM.SpecFor(plan.desired, host).Some? {
        HostUpsertSpares(l, who, drifted[host], HM.SpecFor(plan.desired, host).value, outcome, ids, host, other);
      }
  }

  lemma HostDeleteCallSpares(l: HM.Local, who: Owner, host: string, outcome: Outcome, other: int)
    requires l.attempt.Some? && Targets(l)
    requires l.attempt.value.phase.Deleting? || l.attempt.value.phase.Removing?
    requires !HostRead(l, other)
    ensures SameAt(l.kuma, HM.ChangeStep(l, who, host, outcome).kuma, other)
  {
    var a := l.attempt.value;
    match a.phase
    case Deleting(todo) =>
      if host in todo {
        HostDeleteSpares(l, IDOf(todo[host]), outcome, HM.Deletes(a.snap, todo - {host}), other);
      }
    case Removing(plan, ids, todo) =>
      if host in todo {
        HostDeleteSpares(l, IDOf(todo[host]), outcome, HM.Removals(plan, ids, todo - {host}), other);
      }
  }

  lemma HostChangeSpares(l: HM.Local, who: Owner, host: string, outcome: Outcome, other: int)
    requires Valid(l.kuma) && l.attempt.Some? && Targets(l)
    requires other in l.kuma.owner && !HostRead(l, other)
    ensures SameAt(l.kuma, HM.ChangeStep(l, who, host, outcome).kuma, other)
  {
    var phase := l.attempt.value.phase;
    if phase.Upserting? || phase.Drifting? {
      HostUpsertCallSpares(l, who, host, outcome, other);
    } else if phase.Deleting? || phase.Removing? {
      HostDeleteCallSpares(l, who, host, outcome, other);
    } else if phase.Writing? {
      HostWriteSpares(l, phase.write, phase.tries, phase.got, outcome);
    } else if phase.DroppingFinalizer? {
      HostDropSpares(l, outcome);
    }
  }

  lemma HostTagSpares(l: HM.Local, host: string, ok: bool, tags: set<string>, other: int)
    requires l.attempt.Some? && Targets(l) && !HostTracked(l, other)
    ensures SameAt(l.kuma, HM.TagStep(l, host, ok, tags).kuma, other)
  {}

  lemma HostReadSpares(cfg: HM.Config, l: HM.Local, ok: bool)
    requires l.attempt.Some?
    ensures SameMonitors(l.kuma, HM.ReadStep(cfg, l, ok).kuma)
  {}

  lemma HostStepSpares(cfg: HM.Config, who: Owner, l: HM.Local, action: HM.Action, other: int)
    requires Valid(l.kuma) && l.attempt.Some? && Targets(l) && other in l.kuma.owner && !HostTracked(l, other)
    ensures SameAt(l.kuma, HM.Step(cfg, who, l, action).kuma, other)
  {
    match action {
      case Begin =>
      case Read(ok) => HostReadSpares(cfg, l, ok);
      case Change(host, outcome) => HostChangeSpares(l, who, host, outcome, other);
      case Tag(host, ok, tags) => HostTagSpares(l, host, ok, tags, other);
      case Finish =>
      case Crash =>
    }
  }

  /** A step of a reconcile changes no existing monitor but those the resource tracks, as the
      attempt read them or as they are recorded now; so neither orphans nor hand-made
      monitors ever change. */
  lemma HostTouchesOnlyTracked(cfg: HM.Config, who: Owner, l: HM.Local, action: HM.Action, other: int)
    requires Valid(l.kuma) && HI.Inv(cfg, who, l) && other in l.kuma.owner
    ensures !SameAt(l.kuma, HM.Step(cfg, who, l, action).kuma, other) ==> HostTracked(l, other) && Owned(l.kuma, who, other)
  {
    if HostTracked(l, other) {
      HostTrackedIsOwned(cfg, who, l, other);
    } else if l.attempt.Some? {
      TargetsHold(cfg, who, l);
      HostStepSpares(cfg, who, l, action, other);
    }
  }

  // ------------------------------------------------------------ the same for Monitors

  ghost predicate MonitorTracked(l: MM.Local, id: int) {
    || (l.attempt.Some? && MI.Open(l.attempt.value.phase) && MI.Tracks(l.attempt.value.snap, id))
    || (l.cur.Some? && MI.Tracks(l.cur.value, id))
  }

  lemma MonitorUpsertSpares(l: MM.Local, who: Owner, id: int, desired: MonitorSpec, outcome: Outcome, message: string, other: int)
    requires Valid(l.kuma) && l.attempt.Some? && other in l.kuma.owner && other != id
    ensures SameAt(l.kuma, MM.UpsertStep(l, who, id, desired, outcome, message).kuma, other)
  {}

  lemma MonitorFailSpares(l: MM.Local)
    requires l.attempt.Some?
    ensures SameMonitors(l.kuma, MM.Fail(l).kuma)
  {}

  lemma MonitorWriteSpares(cfg: MM.Config, l: MM.Local, report: MM.Report, tries: nat, got: MM.Monitor, outcome: Outcome)
    requires l.attempt.Some?
    ensures SameMonitors(l.kuma, MM.WriteStep(cfg, l, report, tries, got, outcome).kuma)
  {
    MonitorFailSpares(l);
    MonitorFailSpares(MW.Committed(l, report, got));
  }

  lemma MonitorFinalizerSpares(l: MM.Local, finalizer: bool, next: MM.Phase, outcome: Outcome)
    requires l.attempt.Some?
    ensures SameMonitors(l.kuma, MM.FinalizerStep(l, finalizer, next, outcome).kuma)
  {}

  lemma MonitorReadSpares(cfg: MM.Config, l: MM.Local, ok: bool)
    requires l.attempt.Some?
    ensures SameMonitors(l.kuma, MM.ReadStep(cfg, l, ok).kuma)
  {}

  /** The id a reconcile passes to Upsert, Delete or the tag calls is not `other`. */
  predicate Misses(phase: MM.Phase, other: int) {
    (phase.Upserting? || phase.Deleting? || phase.Tagging?) ==> phase.id != other
  }

  lemma MissesUntracked(who: Owner, l: MM.Local, other: int)
    requires l.attempt.Some? && MI.PhaseInv(who, l, l.attempt.value) && other != 0 && !MonitorTracked(l, other)
    ensures Misses(l.attempt.value.phase, other)
  {}

  lemma MonitorDeleteSpares(cfg: MM.Config, who: Owner, l: MM.Local, outcome: Outcome, message: string, other: int)
    requires l.attempt.Some? && l.attempt.value.phase.Deleting? && Misses(l.attempt.value.phase, other)
    ensures SameAt(l.kuma, MM.ChangeStep(cfg, l, who, outcome, message).kuma, other)
  {}

  lemma MonitorUpdateSpares(cfg: MM.Config, who: Owner, l: MM.Local, outcome: Outcome, message: string)
    requires l.attempt.Some? && !l.attempt.value.phase.Deleting? && !l.attempt.value.phase.Upserting?
    ensures SameMonitors(l.kuma, MM.ChangeStep(cfg, l, who, outcome, message).kuma)
  {
    var phase := l.attempt.value.phase;
    if phase.Writing? {
      MonitorWriteSpares(cfg, l, phase.report, phase.tries, phase.got, outcome);
    } else if phase.AddingFinalizer? {
      MonitorFinalizerSpares(l, true, MM.Resolve(l.attempt.value.snap), outcome);
    } else if phase.DroppingFinalizer? {
      MonitorFinalizerSpares(l, false, MM.Ended(MM.Gone), outcome);
    }
  }

  lemma MonitorChangeSpares(cfg: MM.Config, who: Owner, l: MM.Local, outcome: Outcome, message: string, other: int)
    requires Valid(l.kuma) && l.attempt.Some? && other in l.kuma.owner && Misses(l.attempt.value.phase, other)
    ensures SameAt(l.kuma, MM.ChangeStep(cfg, l, who, outcome, message).kuma, other)
  {
    var phase := l.attempt.value.phase;
    if phase.Upserting? {
      MonitorUpsertSpares(l, who, phase.id, phase.desired, outcome, message, other);
    } else if phase.Deleting? {
      MonitorDeleteSpares(cfg, who, l, outcome, message, other);
    } else {
      MonitorUpdateSpares(cfg, who, l, outcome, message);
    }
  }

  lemma MonitorTagSpares(l: MM.Local, ok: bool, tags: set<string>, other: int)
    requires l.attempt.Some? && Misses(l.attempt.value.phase, other)
    ensures SameAt(l.kuma, MM.TagStep(l, ok, tags).kuma, other)
  {}

  lemma MonitorTrackedIsOwned(who: Owner, l: MM.Local, id: int)
    requires MI.Inv(who, l) && MonitorTracked(l, id)
    ensures Owned(l.kuma, who, id)
  {}

  lemma MonitorStepSpares(cfg: MM.Config, who: Owner, l: MM.Local, action: MM.Action, other: int)
    requires Valid(l.kuma) && l.attempt.Some? && other in l.kuma.owner && Misses(l.attempt.value.phase, other)
    ensures SameAt(l.kuma, MM.Step(cfg, who, l, action).kuma, other)
  {
    match action {
      case Begin =>
      case Read(ok) => MonitorReadSpares(cfg, l, ok);
      case Change(outcome, message) => MonitorChangeSpares(cfg, who, l, outcome, message, other);
      case Tag(ok, tags) => MonitorTagSpares(l, ok, tags, other);
      case Finish =>
      case Crash =>
    }
  }

  lemma MonitorTouchesOnlyTracked(cfg: MM.Config, who: Owner, l: MM.Local, action: MM.Action, other: int)
    requires Valid(l.kuma) && MI.Inv(who, l) && other in l.kuma.owner
    ensures !SameAt(l.kuma, MM.Step(cfg, who, l, action).kuma, other) ==> MonitorTracked(l, other) && Owned(l.kuma, who, other)
  {
    if MonitorTracked(l, other) {
      MonitorTrackedIsOwned(who, l, other);
    } else if l.attempt.Some? {
      MissesUntracked(who, l, other);
      MonitorStepSpares(cfg, who, l, action, other);
    }
  }

  // ------------------------------------------------------------- hand-made monitors

  /** A change by hand touches one monitor, and creating one touches none that exists. */
  lemma HandSpares(k: Kuma, h: HandAction, id: int)
    requires Valid(k) && id in k.owner && id !in Touches(h)
    ensures SameAt(k, HandChange(k, h), id) && id in HandChange(k, h).owner && HandChange(k, h).owner[id] == k.owner[id]
  {}

  lemma ApplySparesHandMade(cfg: Settings, s: State, action: Action, id: int)
    requires HM.CollisionFree(cfg.hosts) && Inv(cfg, s) && BelongsTo(s.kuma, ByHand, id)
    requires action.Hand? ==> id !in Touches(action.hand)
    ensures SameAt(s.kuma, Apply(cfg, s, action).kuma, id) && BelongsTo(Apply(cfg, s, action).kuma, ByHand, id)
  {
    if action.Hand? {
      HandSpares(s.kuma, action.hand, id);
    } else if action.Host? || action.HostUser? {
      HostActs(cfg, s, action);
    } else {
      MonitorActs(cfg, s, action);
    }
  }

  /** However long the operator, its users and people in Kuma act, a monitor made by hand stays
      as it is until someone changes that very monitor by hand. */
  lemma {:induction false} HandMadeStays(cfg: Settings, s: State, actions: seq<Action>, id: int)
    requires HM.CollisionFree(cfg.hosts) && Inv(cfg, s) && BelongsTo(s.kuma, ByHand, id)
    requires forall i :: 0 <= i < |actions| && actions[i].Hand? ==> id !in Touches(actions[i].hand)
    ensures SameAt(s.kuma, Run(cfg, s, actions).kuma, id) && BelongsTo(Run(cfg, s, actions).kuma, ByHand, id)
  {
    if actions != [] {
      var init := actions[..|actions| - 1];
      HandMadeStays(cfg, s, init, id);
      RunKeeps(cfg, s, init);
      ApplySparesHandMade(cfg, Run(cfg, s, init), actions[|actions| - 1], id);
    }
  }

  lemma ApplyKeepsOwners(cfg: Settings, s: State, action: Action)
    requires HM.CollisionFree(cfg.hosts) && Inv(cfg, s)
    ensures OwnersKept(s.kuma, Apply(cfg, s, action).kuma)
  {
    if action.Hand? {
      HandMoves(s.kuma, action.hand, ByHost(""));
    } else if action.Host? || action.HostUser? {
      HostActs(cfg, s, action);
    } else {
      MonitorActs(cfg, s, action);
    }
  }

  /** An issued id keeps its creator for ever: ids are never issued again. */
  lemma {:induction false} NeverReissued(cfg: Settings, s: State, actions: seq<Action>)
    requires HM.CollisionFree(cfg.hosts) && Inv(cfg, s)
    ensures OwnersKept(s.kuma, Run(cfg, s, actions).kuma)
  {
    if actions != [] {
      var init := actions[..|actions| - 1];
      NeverReissued(cfg, s, init);
      RunKeeps(cfg, s, init);
      ApplyKeepsOwners(cfg, Run(cfg, s, init), actions[|actions| - 1]);
    }
  }

  // ---------------------------------------------------------------- the finalizer

  /** A live resource that tracks monitors carries the finalizer; one without it has none of
      its tracked monitors left; and once it is gone and no attempt is running, whatever it
      had created is gone from Kuma or was orphaned on the way. */
  lemma HostFinalizerGuards(cfg: Settings, init: State, actions: seq<Action>, key: Key)
    requires HM.CollisionFree(cfg.hosts) && Initial(init)
    ensures
      var s := Run(cfg, init, actions);
      var slot := HostSlotAt(s, key);
      && (slot.cur.Some? ==>
            && slot.cur.value.ids.IDs?
            && (!slot.cur.value.deleting && slot.cur.value.ids.m != map[] ==> slot.cur.value.finalizer)
            && (!slot.cur.value.finalizer ==> HI.AllGone(s.kuma, slot.cur.value.ids.m)))
      && (slot.cur.None? && slot.attempt.None? ==>
            forall id :: id in s.kuma.monitors && BelongsTo(s.kuma, ByHost(key), id) ==> id in s.kuma.orphans)
  {
    RunInv(cfg, init, actions);
    var s := Run(cfg, init, actions);
    assert HostGood(cfg, s, key);
    assert forall id :: HI.AccountedFor(HostAt(s, key), id) ==> HostSlotAt(s, key).cur.Some? || HostSlotAt(s, key).attempt.Some?;
  }

  lemma MonitorFinalizerGuards(cfg: Settings, init: State, actions: seq<Action>, key: Key)
    requires HM.CollisionFree(cfg.hosts) && Initial(init)
    ensures
      var s := Run(cfg, init, actions);
      var slot := MonitorSlotAt(s, key);
      && (slot.cur.Some? ==>
            && (!slot.cur.value.deleting && slot.cur.value.monitorID != "" ==> slot.cur.value.finalizer)
            && (!slot.cur.value.finalizer ==> MI.TrackedGone(s.kuma, slot.cur.value)))
      && (slot.cur.None? && slot.attempt.None? ==>
            forall id :: id in s.kuma.monitors && BelongsTo(s.kuma, ByMonitor(key), id) ==> id in s.kuma.orphans)
  {
    RunInv(cfg, init, actions);
    var s := Run(cfg, init, actions);
    assert MonitorGood(s, key);
    assert forall id :: MI.AccountedFor(MonitorAt(s, key), id) ==> MonitorSlotAt(s, key).cur.Some? || MonitorSlotAt(s, key).attempt.Some?;
  }

  // --------------------------------------------------- fingerprint and generation

  /** Whenever the recorded fingerprint is the one of `d`, the tracked hosts are those of
      `d`, so checking only the tracked hosts misses nothing. */
  lemma SkipPathSound(cfg: Settings, init: State, actions: seq<Action>, key: Key, d: seq<DesiredMonitor>)
    requires HM.CollisionFree(cfg.hosts) && Initial(init)
    ensures
      var cur := HostSlotAt(Run(cfg, init, actions), key).cur;
      cur.Some? && cur.value.hash == cfg.hosts.digest(d) ==> cur.value.ids.IDs? && cur.value.ids.m.Keys == Derive.Hosts(d)
  {
    RunInv(cfg, init, actions);
    assert HostGood(cfg, Run(cfg, init, actions), key);
  }

  /** Whenever the observed generation is the current one, what was last sent for the tracked
      id was sent for the current spec, references included, and is a conversion of it. */
  lemma GenerationSound(cfg: Settings, init: State, actions: seq<Action>, key: Key)
    requires HM.CollisionFree(cfg.hosts) && Initial(init)
    ensures
      var slot := MonitorSlotAt(Run(cfg, init, actions), key);
      slot.cur.Some? && slot.cur.value.monitorID != "" && slot.cur.value.observed == slot.cur.value.generation ==>
        MI.SentFor(slot.sent, IDOf(slot.cur.value.monitorID), slot.cur.value.spec)
  {
    RunInv(cfg, init, actions);
    assert MonitorGood(Run(cfg, init, actions), key);
  }
}
