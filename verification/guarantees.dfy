/** What the invariant means for people who use the operator: statements about every state
    of every run. */
module Guarantees {
  import opened Wrappers
  import opened Spec
  import opened Strconv
  import opened Store
  import opened Tracking
  import opened System
  import HM = HostMachine
  import HI = HostInvariant
  import HP = HostSteps
  import MM = MonitorMachine
  import MI = MonitorInvariant
  import MP = MonitorSteps

  // ------------------------------------------------------------------- ownership

  /** Where an id can be stored: a host of a routed resource, or a Monitor's status. */
  datatype Place = OfHost(key: Key, host: string) | OfMonitor(key: Key)

  function OwnerOf(p: Place): Owner {
    match p
    case OfHost(key, _) => ByHost(key)
    case OfMonitor(key) => ByMonitor(key)
  }

  function StoredAt(s: State, p: Place): Option<string> {
    match p
    case OfHost(key, host) =>
      var cur := HostSlotAt(s, key).cur;
      if cur.Some? && cur.value.ids.IDs? && host in cur.value.ids.m then Some(cur.value.ids.m[host]) else None
    case OfMonitor(key) =>
      var cur := MonitorSlotAt(s, key).cur;
      if cur.Some? && cur.value.monitorID != "" then Some(cur.value.monitorID) else None
  }

  lemma StoredIsCanonical(cfg: Settings, s: State, p: Place)
    requires Inv(cfg, s) && StoredAt(s, p).Some?
    ensures Canonical(s.kuma, OwnerOf(p), StoredAt(s, p).value)
  {
    assert HostGood(cfg, s, p.key) && MonitorGood(s, p.key);
  }

  /** A stored id is the decimal form of an issued id, and parses back to it. */
  lemma Ownership(cfg: Settings, init: State, actions: seq<Action>, p: Place)
    requires HM.CollisionFree(cfg.hosts) && Initial(init)
    ensures
      var s := Run(cfg, init, actions);
      StoredAt(s, p).Some? ==>
        exists id :: 1 <= id <= s.kuma.nextID && StoredAt(s, p).value == FormatInt(id)
                     && ParseInt(StoredAt(s, p).value) == Some(id) && BelongsTo(s.kuma, OwnerOf(p), id)
  {
    RunInv(cfg, init, actions);
    var s := Run(cfg, init, actions);
    if StoredAt(s, p).Some? {
      StoredIsCanonical(cfg, s, p);
    }
  }

  /** No id is stored in two places, whether of one resource or of two. */
  lemma NoSharing(cfg: Settings, init: State, actions: seq<Action>, p: Place, q: Place)
    requires HM.CollisionFree(cfg.hosts) && Initial(init) && p != q
    ensures
      var s := Run(cfg, init, actions);
      StoredAt(s, p).Some? && StoredAt(s, q).Some? ==> IDOf(StoredAt(s, p).value) != IDOf(StoredAt(s, q).value)
  {
    RunInv(cfg, init, actions);
    var s := Run(cfg, init, actions);
    if StoredAt(s, p).Some? && StoredAt(s, q).Some? && IDOf(StoredAt(s, p).value) == IDOf(StoredAt(s, q).value) {
      PlacesAreDistinct(cfg, s, p, q);
    }
  }

  lemma PlacesAreDistinct(cfg: Settings, s: State, p: Place, q: Place)
    requires Inv(cfg, s) && StoredAt(s, p).Some? && StoredAt(s, q).Some?
    requires IDOf(StoredAt(s, p).value) == IDOf(StoredAt(s, q).value)
    ensures p == q
  {
    StoredIsCanonical(cfg, s, p);
    StoredIsCanonical(cfg, s, q);
    assert HostGood(cfg, s, p.key);
  }

  // ------------------------------------------------------------ exact accounting

  /** Who answers for a monitor the operator created. */
  datatype Holder = Stored(place: Place) | HostAttempt(key: Key) | MonitorAttempt(key: Key) | Orphaned

  ghost predicate Holds(s: State, holder: Holder, id: int) {
    match holder
    case Stored(p) => StoredAt(s, p).Some? && IDOf(StoredAt(s, p).value) == id
    case HostAttempt(key) => HostSlotAt(s, key).attempt.Some? && id in HostSlotAt(s, key).attempt.value.created
    case MonitorAttempt(key) => MonitorSlotAt(s, key).attempt.Some? && id in MonitorSlotAt(s, key).attempt.value.created
    case Orphaned => id in s.kuma.orphans
  }

  ghost predicate OwnedBy(s: State, holder: Holder, id: int) {
    match holder
    case Stored(p) => Owned(s.kuma, OwnerOf(p), id)
    case HostAttempt(key) => Owned(s.kuma, ByHost(key), id)
    case MonitorAttempt(key) => Owned(s.kuma, ByMonitor(key), id)
    case Orphaned => id in s.kuma.orphans
  }

  lemma HolderOwns(cfg: Settings, s: State, holder: Holder, id: int)
    requires Inv(cfg, s) && Holds(s, holder, id)
    ensures OwnedBy(s, holder, id)
  {
    match holder
    case Stored(p) => StoredIsCanonical(cfg, s, p);
    case HostAttempt(key) => assert HostGood(cfg, s, key);
    case MonitorAttempt(key) => assert MonitorGood(s, key);
    case Orphaned =>
  }

  lemma NotStoredAndHeld(cfg: Settings, s: State, p: Place, id: int)
    requires Inv(cfg, s) && Holds(s, Stored(p), id)
    ensures !Holds(s, HostAttempt(p.key), id) || p.OfMonitor?
    ensures !Holds(s, MonitorAttempt(p.key), id) || p.OfHost?
  {
    assert HostGood(cfg, s, p.key) && MonitorGood(s, p.key);
    if p.OfHost? && Holds(s, HostAttempt(p.key), id) {
      HP.CreatedIsUntracked(cfg.hosts, ByHost(p.key), HostAt(s, p.key), p.host);
    }
    if p.OfMonitor? && Holds(s, MonitorAttempt(p.key), id) {
      MP.CreatedIsUntracked(ByMonitor(p.key), MonitorAt(s, p.key), id);
    }
  }

  lemma OneHolder(cfg: Settings, s: State, g: Holder, h: Holder, id: int)
    requires Inv(cfg, s) && Holds(s, g, id) && Holds(s, h, id)
    ensures g == h
  {
    HolderOwns(cfg, s, g, id);
    HolderOwns(cfg, s, h, id);
    if g.Stored? && h.Stored? {
      PlacesAreDistinct(cfg, s, g.place, h.place);
    } else if g.Stored? {
      NotStoredAndHeld(cfg, s, g.place, id);
    } else if h.Stored? {
      NotStoredAndHeld(cfg, s, h.place, id);
    }
  }

  lemma SomeHolder(cfg: Settings, s: State, id: int)
    requires Inv(cfg, s) && id in s.kuma.monitors && s.kuma.owner[id] != ByHand
    ensures exists h :: Holds(s, h, id)
  {
    if id in s.kuma.orphans {
      assert Holds(s, Orphaned, id);
    } else if s.kuma.owner[id].ByHost? {
      HostHolder(cfg, s, s.kuma.owner[id].key, id);
    } else {
      MonitorHolder(cfg, s, s.kuma.owner[id].key, id);
    }
  }

  lemma HostHolder(cfg: Settings, s: State, key: Key, id: int)
    requires Inv(cfg, s) && id in s.kuma.monitors && Owned(s.kuma, ByHost(key), id)
    ensures exists h :: Holds(s, h, id)
  {
    assert HostGood(cfg, s, key);
    var l := HostAt(s, key);
    assert HI.AccountedFor(l, id);
    if l.attempt.Some? && id in l.attempt.value.created {
      assert Holds(s, HostAttempt(key), id);
    } else {
      var host :| host in l.cur.value.ids.m && IDOf(l.cur.value.ids.m[host]) == id;
      assert Holds(s, Stored(OfHost(key, host)), id);
    }
  }

  lemma MonitorHolder(cfg: Settings, s: State, key: Key, id: int)
    requires Inv(cfg, s) && id in s.kuma.monitors && Owned(s.kuma, ByMonitor(key), id)
    ensures exists h :: Holds(s, h, id)
  {
    assert MonitorGood(s, key);
    var l := MonitorAt(s, key);
    assert MI.AccountedFor(l, id);
    if l.attempt.Some? && id in l.attempt.value.created {
      assert Holds(s, MonitorAttempt(key), id);
    } else {
      assert Holds(s, Stored(OfMonitor(key)), id);
    }
  }

  /** Every monitor the operator created and that still exists is tracked in exactly one
      place, or held by one running attempt, or known to be orphaned; never two of these. */
  lemma ExactAccounting(cfg: Settings, init: State, actions: seq<Action>, id: int)
    requires HM.CollisionFree(cfg.hosts) && Initial(init)
    ensures
      var s := Run(cfg, init, actions);
      id in s.kuma.monitors && !BelongsTo(s.kuma, ByHand, id) ==>
        exists h :: Holds(s, h, id) && forall g :: Holds(s, g, id) ==> g == h
  {
    RunInv(cfg, init, actions);
    var s := Run(cfg, init, actions);
    if id in s.kuma.monitors && !BelongsTo(s.kuma, ByHand, id) {
      SomeHolder(cfg, s, id);
      var h :| Holds(s, h, id);
      forall g | Holds(s, g, id)
        ensures g == h
      {
        OneHolder(cfg, s, g, h, id);
      }
    }
  }

  // -------------------------------------------------------- where orphans come from

  /** The attempt is given up before it has recorded what it did. */
  ghost predicate HostAbandoned(l: HM.Local, after: HM.Local) {
    && l.attempt.Some? && HI.Open(l.attempt.value.phase) && after.cur == l.cur
    && (after.attempt.Some? ==> after.attempt.value.phase == HM.Ended(HM.Error))
  }

  /** The Upsert the attempt makes next creates a monitor. */
  predicate HostCreates(l: HM.Local, host: string) {
    l.attempt.Some? && l.kuma.nextID < Strconv.MAX_INT64
    && match l.attempt.value.phase
       case Upserting(plan, next, ids) => next < |plan.desired| && HM.StoredID(plan, plan.desired[next].host) == 0
       case Drifting(plan, drifted, ids) => host in drifted && drifted[host] == 0 && HM.SpecFor(plan.desired, host).Some?
       case _ => false
  }

  /** The monitor that a creating call made although it reported an error. */
  function HostUnacknowledged(l: HM.Local, action: HM.Action): set<int> {
    if action.Change? && action.outcome == Lost && HostCreates(l, action.host) then {l.kuma.nextID + 1} else {}
  }

  ghost predicate HostOrphansAre(l: HM.Local, after: HM.Local, extra: set<int>) {
    after.kuma.orphans == l.kuma.orphans + if HostAbandoned(l, after) then l.attempt.value.created + extra else {}
  }

  lemma HostFailOrphans(l: HM.Local)
    requires l.attempt.Some? && HI.Open(l.attempt.value.phase)
    ensures HostOrphansAre(l, HM.Fail(l), {}) && HostAbandoned(l, HM.Fail(l))
  {}

  lemma HostUpsertOrphans(l: HM.Local, who: Owner, id: int, spec: MonitorSpec, outcome: Outcome, ids: map<string, string>, host: string)
    requires l.attempt.Some? && (l.attempt.value.phase.Upserting? || l.attempt.value.phase.Drifting?)
    ensures
      var extra := if outcome == Lost && id == 0 && l.kuma.nextID < Strconv.MAX_INT64 then {l.kuma.nextID + 1} else {};
      HostOrphansAre(l, HM.UpsertStep(l, who, id, spec, outcome, ids, host), extra)
  {
    HostFailOrphans(l);
  }

  lemma HostDeleteOrphans(l: HM.Local, id: int, outcome: Outcome, next: HM.Phase)
    requires l.attempt.Some? && HI.Open(l.attempt.value.phase) && next != HM.Ended(HM.Error)
    ensures HostOrphansAre(l, HM.DeleteStep(l, id, outcome, next), {})
  {
    HostFailOrphans(l);
  }

  /** An Update that changes nothing had nothing new to record. */
  lemma NothingNew(cfg: HM.Config, who: Owner, l: HM.Local, write: HM.Write, tries: nat, got: HM.Resource)
    requires HI.Inv(cfg, who, l) && l.attempt.Some? && l.attempt.value.phase == HM.Writing(write, tries, got)
    requires l.cur == Some(got) && HM.Accept(l, HM.Marked(got, write)).cur == l.cur
    ensures l.attempt.value.created == {} && HM.Marked(got, write) == got
  {
    assert HM.Marked(got, write) == got;
    forall id | id in l.attempt.value.created
      ensures false
    {
      var h :| h in write.ids && IDOf(write.ids[h]) == id;
      HP.CreatedIsUntracked(cfg, who, l, h);
    }
  }

  lemma HostWriteOrphans(cfg: HM.Config, who: Owner, l: HM.Local, write: HM.Write, tries: nat, got: HM.Resource, outcome: Outcome)
    requires HI.Inv(cfg, who, l) && l.attempt.Some? && l.attempt.value.phase == HM.Writing(write, tries, got)
    ensures HostOrphansAre(l, HM.WriteStep(l, write, tries, got, outcome), {})
  {
    HostFailOrphans(l);
    if HM.AnswerTo(l.cur, got, write.Keep?) == Accepted {
      if outcome == Lost && HM.Accept(l, HM.Marked(got, write)).cur == l.cur {
        NothingNew(cfg, who, l, write, tries, got);
      }
      HostAcceptedOrphans(l, write, tries, got, outcome);
    }
  }

  lemma HostAcceptedOrphans(l: HM.Local, write: HM.Write, tries: nat, got: HM.Resource, outcome: Outcome)
    requires l.attempt.Some? && HI.Open(l.attempt.value.phase) && HM.AnswerTo(l.cur, got, write.Keep?) == Accepted
    requires outcome == Lost && HM.Accept(l, HM.Marked(got, write)).cur == l.cur ==> l.attempt.value.created == {}
    ensures HostOrphansAre(l, HM.WriteStep(l, write, tries, got, outcome), {})
  {}

  lemma HostDropOrphans(l: HM.Local, outcome: Outcome)
    requires l.attempt.Some? && l.attempt.value.phase.DroppingFinalizer? && l.attempt.value.created == {}
    ensures HostOrphansAre(l, HM.DropFinalizerStep(l, outcome), {})
  {}

  lemma HostDeleteCallOrphans(l: HM.Local, who: Owner, host: string, outcome: Outcome)
    requires l.attempt.Some? && (l.attempt.value.phase.Deleting? || l.attempt.value.phase.Removing?)
    ensures HostOrphansAre(l, HM.ChangeStep(l, who, host, outcome), {})
  {
    match l.attempt.value.phase
    case Deleting(todo) =>
      if host in todo {
        HostDeleteOrphans(l, IDOf(todo[host]), outcome, HM.Deletes(l.attempt.value.snap, todo - {host}));
      }
    case Removing(plan, ids, todo) =>
      if host in todo {
        HostDeleteOrphans(l, IDOf(todo[host]), outcome, HM.Removals(plan, ids, todo - {host}));
      }
  }

  lemma HostUpsertCallOrphans(l: HM.Local, who: Owner, host: string, outcome: Outcome)
    requires l.attempt.Some? && (l.attempt.value.phase.Upserting? || l.attempt.value.phase.Drifting?)
    ensures HostOrphansAre(l, HM.ChangeStep(l, who, host, outcome), HostUnacknowledged(l, HM.Change(host, outcome)))
  {
    match l.attempt.value.phase
    case Upserting(plan, next, ids) =>
      if next < |plan.desired| {
        var dm := plan.desired[next];
        HostUpsertOrphans(l, who, HM.StoredID(plan, dm.host), dm.spec, outcome, ids, dm.host);
      }
    case Drifting(plan, drifted, ids) =>
      if host in drifted && HM.SpecFor(plan.desired, host).Some? {
        HostUpsertOrphans(l, who, drifted[host], HM.SpecFor(plan.desired, host).value, outcome, ids, host);
      }
  }

  lemma HostChangeOrphans(cfg: HM.Config, who: Owner, l: HM.Local, host: string, outcome: Outcome)
    requires HI.Inv(cfg, who, l) && l.attempt.Some?
    ensures HostOrphansAre(l, HM.ChangeStep(l, who, host, outcome), HostUnacknowledged(l, HM.Change(host, outcome)))
  {
    var phase := l.attempt.value.phase;
    if phase.Deleting? || phase.Removing? {
      HostDeleteCallOrphans(l, who, host, outcome);
    } else if phase.Writing? {
      HostWriteOrphans(cfg, who, l, phase.write, phase.tries, phase.got, outcome);
    } else if phase.DroppingFinalizer? {
      HostDropOrphans(l, outcome);
    } else if phase.Upserting? || phase.Drifting? {
      HostUpsertCallOrphans(l, who, host, outcome);
    }
  }

  lemma HostMoveOrphans(l: HM.Local, next: HM.Phase)
    requires l.attempt.Some? && next != HM.Ended(HM.Error)
    ensures HostOrphansAre(l, HM.At(l, next), {})
  {}

  /** A read gives the attempt up or moves on. */
  lemma HostReadMoves(cfg: HM.Config, l: HM.Local, ok: bool)
    requires l.attempt.Some?
    ensures
      var after := HM.ReadStep(cfg, l, ok);
      || after == l
      || (HI.Open(l.attempt.value.phase) && after == HM.Fail(l))
      || (after.attempt.Some? && after == HM.At(l, after.attempt.value.phase) && after.attempt.value.phase != HM.Ended(HM.Error))
  {}

  lemma HostReadOrphans(cfg: HM.Config, l: HM.Local, ok: bool)
    requires l.attempt.Some?
    ensures HostOrphansAre(l, HM.ReadStep(cfg, l, ok), {})
  {
    HostReadMoves(cfg, l, ok);
    var after := HM.ReadStep(cfg, l, ok);
    if after != l {
      if HI.Open(l.attempt.value.phase) && after == HM.Fail(l) {
        HostFailOrphans(l);
      } else {
        HostMoveOrphans(l, after.attempt.value.phase);
      }
    }
  }

  lemma HostTagOrphans(l: HM.Local, host: string, ok: bool, tags: set<string>)
    requires l.attempt.Some? && (!HI.Open(l.attempt.value.phase) ==> l.attempt.value.created == {})
    ensures HostOrphansAre(l, HM.TagStep(l, host, ok, tags), {})
    ensures HostOrphansAre(l, HM.Fail(l).(attempt := None), {})
  {}

  /** Exactly when monitors are orphaned, and which: a step orphans what the attempt had created
      and not recorded, and the monitor of an unacknowledged creation, if the step gives the
      attempt up before recording; otherwise it orphans nothing. In particular, once the ids
      are recorded no failure orphans anything. */
  lemma HostOrphans(cfg: HM.Config, who: Owner, l: HM.Local, action: HM.Action)
    requires HI.Inv(cfg, who, l)
    ensures HostOrphansAre(l, HM.Step(cfg, who, l, action), HostUnacknowledged(l, action))
  {
    if l.attempt.Some? {
      assert !HI.Open(l.attempt.value.phase) ==> l.attempt.value.created == {};
      match action {
        case Begin =>
        case Read(ok) => HostReadOrphans(cfg, l, ok);
        case Change(host, outcome) => HostChangeOrphans(cfg, who, l, host, outcome);
        case Tag(host, ok, tags) => HostTagOrphans(l, host, ok, tags);
        case Finish =>
        case Crash => HostTagOrphans(l, "", true, {});
      }
    }
  }

  // ------------------------------------------------------------ the same for a Monitor

  ghost predicate MonitorAbandoned(l: MM.Local, after: MM.Local) {
    && l.attempt.Some? && MI.Open(l.attempt.value.phase) && after.cur == l.cur
    && (after.attempt.Some? ==> after.attempt.value.phase == MM.Ended(MM.Error))
  }

  /** The monitor that a creating call made although it reported an error. */
  function MonitorUnacknowledged(l: MM.Local, action: MM.Action): set<int> {
    if action.Change? && action.outcome == Lost && l.attempt.Some? && l.attempt.value.phase.Upserting?
       && l.attempt.value.phase.id == 0 && l.kuma.nextID < Strconv.MAX_INT64
    then {l.kuma.nextID + 1} else {}
  }

  ghost predicate MonitorOrphansAre(l: MM.Local, after: MM.Local, extra: set<int>) {
    after.kuma.orphans == l.kuma.orphans + extra + if MonitorAbandoned(l, after) then l.attempt.value.created else {}
  }

  lemma MonitorUpsertOrphans(l: MM.Local, who: Owner, id: int, desired: MonitorSpec, outcome: Outcome, message: string)
    requires l.attempt.Some? && l.attempt.value.phase == MM.Upserting(id, desired)
    ensures
      var after := MM.UpsertStep(l, who, id, desired, outcome, message);
      var extra := MonitorUnacknowledged(l, MM.Change(outcome, message));
      && MonitorOrphansAre(l, after, extra)
      && (extra != {} ==> after.attempt.Some? && after.attempt.value.phase == MM.Reading(MM.Failure(message), 1))
  {}

  lemma MonitorWriteOrphans(cfg: MM.Config, l: MM.Local, report: MM.Report, tries: nat, got: MM.Monitor, outcome: Outcome)
    requires l.attempt.Some? && l.attempt.value.phase == MM.Writing(report, tries, got)
    requires report.Failure? ==> l.attempt.value.created == {}
    requires l.cur.Some? ==> l.cur.value.version <= l.latest
    ensures MonitorOrphansAre(l, MM.WriteStep(cfg, l, report, tries, got, outcome), {})
  {}

  lemma MonitorOtherOrphans(cfg: MM.Config, l: MM.Local, who: Owner, outcome: Outcome, message: string)
    requires l.attempt.Some? && l.attempt.value.created == {}
    requires !l.attempt.value.phase.Upserting? && !l.attempt.value.phase.Writing?
    ensures MonitorOrphansAre(l, MM.ChangeStep(cfg, l, who, outcome, message), {})
  {
    var snap := l.attempt.value.snap;
    match l.attempt.value.phase
    case AddingFinalizer => MonitorFinalizerOrphans(l, true, MM.Resolve(snap), outcome);
    case DroppingFinalizer => MonitorFinalizerOrphans(l, false, MM.Ended(MM.Gone), outcome);
    case _ =>
  }

  lemma MonitorFinalizerOrphans(l: MM.Local, finalizer: bool, next: MM.Phase, outcome: Outcome)
    requires l.attempt.Some? && l.attempt.value.created == {}
    ensures MM.FinalizerStep(l, finalizer, next, outcome).kuma.orphans == l.kuma.orphans
  {
    NothingToOrphan(l);
    NothingToOrphan(MM.Accept(l, l.attempt.value.snap.(finalizer := finalizer)));
  }

  lemma NothingToOrphan(l: MM.Local)
    requires l.attempt.Some? && l.attempt.value.created == {}
    ensures MM.Fail(l).kuma.orphans == l.kuma.orphans
  {}

  /** Only a reconcile that is about to record holds anything unrecorded. */
  ghost predicate HoldsWhileRecording(l: MM.Local) {
    && (l.cur.Some? ==> l.cur.value.version <= l.latest)
    && (l.attempt.Some? && l.attempt.value.created != {} ==>
          var phase := l.attempt.value.phase;
          (phase.Reading? || phase.Writing?) && phase.report.Synced?)
  }

  lemma MonitorHolds(who: Owner, l: MM.Local)
    requires MI.Inv(who, l)
    ensures HoldsWhileRecording(l)
  {}

  lemma MonitorChangeOrphans(cfg: MM.Config, who: Owner, l: MM.Local, outcome: Outcome, message: string)
    requires HoldsWhileRecording(l) && l.attempt.Some?
    ensures
      var after, action := MM.ChangeStep(cfg, l, who, outcome, message), MM.Change(outcome, message);
      && MonitorOrphansAre(l, after, MonitorUnacknowledged(l, action))
      && (MonitorUnacknowledged(l, action) != {} ==>
            after.attempt.Some? && after.attempt.value.phase == MM.Reading(MM.Failure(message), 1))
  {
    var phase := l.attempt.value.phase;
    if phase.Upserting? {
      MonitorUpsertOrphans(l, who, phase.id, phase.desired, outcome, message);
    } else if phase.Writing? {
      MonitorWriteOrphans(cfg, l, phase.report, phase.tries, phase.got, outcome);
    } else if !phase.Reading? {
      MonitorOtherOrphans(cfg, l, who, outcome, message);
    }
  }

  lemma MonitorReadOrphans(cfg: MM.Config, l: MM.Local, ok: bool)
    requires HoldsWhileRecording(l) && l.attempt.Some?
    ensures MonitorOrphansAre(l, MM.ReadStep(cfg, l, ok), {})
  {}

  lemma MonitorTagOrphans(l: MM.Local, ok: bool, tags: set<string>)
    requires HoldsWhileRecording(l) && l.attempt.Some?
    ensures MonitorOrphansAre(l, MM.TagStep(l, ok, tags), {})
    ensures MonitorOrphansAre(l, MM.Fail(l).(attempt := None), {})
  {}

  /** The same for a Monitor: what was created and not recorded is orphaned exactly if the step
      gives the attempt up before recording, the monitor of an unacknowledged creation at
      once, with the failure still to be recorded; nothing else ever is. */
  lemma MonitorOrphans(cfg: MM.Config, who: Owner, l: MM.Local, action: MM.Action)
    requires MI.Inv(who, l)
    ensures MonitorOrphansAre(l, MM.Step(cfg, who, l, action), MonitorUnacknowledged(l, action))
    ensures
      var after := MM.Step(cfg, who, l, action);
      MonitorUnacknowledged(l, action) != {} ==>
        after.attempt.Some? && after.attempt.value.phase == MM.Reading(MM.Failure(action.message), 1)
  {
    MonitorHolds(who, l);
    MonitorStepOrphans(cfg, who, l, action);
  }

  lemma MonitorStepOrphans(cfg: MM.Config, who: Owner, l: MM.Local, action: MM.Action)
    requires HoldsWhileRecording(l)
    ensures MonitorOrphansAre(l, MM.Step(cfg, who, l, action), MonitorUnacknowledged(l, action))
    ensures
      var after := MM.Step(cfg, who, l, action);
      MonitorUnacknowledged(l, action) != {} ==>
        after.attempt.Some? && after.attempt.value.phase == MM.Reading(MM.Failure(action.message), 1)
  {
    if l.attempt.Some? {
      match action {
        case Begin =>
        case Read(ok) => MonitorReadOrphans(cfg, l, ok);
        case Change(outcome, message) => MonitorChangeOrphans(cfg, who, l, outcome, message);
        case Tag(ok, tags) => MonitorTagOrphans(l, ok, tags);
        case Finish =>
        case Crash => MonitorTagOrphans(l, true, {});
      }
    }
  }
}
