/** What the two loops of a reconcile do to Kuma when nobody else acts meanwhile: full sync
    (syncMonitors) and drift correction (reconcileDrift) against set-level specifications,
    for every order in which their loops visit hosts. */
module HostSync {
  import opened Wrappers
  import opened Spec
  import opened Strconv
  import opened Store
  import opened Tracking
  import opened HostMachine
  import opened HostInvariant
  import opened HostUpserts
  import opened HostSteps
  import HostWrites
  import Derive

  /** Consecutive steps of one attempt. */
  function Steps(cfg: Config, who: Owner, l: Local, actions: seq<Action>): Local {
    if actions == [] then l
    else Step(cfg, who, Steps(cfg, who, l, actions[..|actions| - 1]), actions[|actions| - 1])
  }

  predicate OneAttempt(actions: seq<Action>) {
    forall i :: 0 <= i < |actions| ==> actions[i] != Begin
  }

  lemma {:induction false} StepsKeep(cfg: Config, who: Owner, l: Local, actions: seq<Action>)
    requires CollisionFree(cfg) && Valid(l.kuma) && Inv(cfg, who, l)
    ensures Valid(Steps(cfg, who, l, actions).kuma) && Inv(cfg, who, Steps(cfg, who, l, actions))
  {
    if actions != [] {
      StepsKeep(cfg, who, l, actions[..|actions| - 1]);
      HostWrites.StepKeeps(cfg, who, Steps(cfg, who, l, actions[..|actions| - 1]), actions[|actions| - 1]);
    }
  }

  // ------------------------------------------------------------------- full sync

  /** The host has its desired monitor: under the id it had, or under a fresh one. */
  ghost predicate HostSynced(k0: Kuma, k: Kuma, plan: Plan, ids: map<string, string>, h: string)
    requires h in ids
  {
    && IDOf(ids[h]) in k.monitors && SpecFor(plan.desired, h) == Some(k.monitors[IDOf(ids[h])])
    && (if h in plan.existing then ids[h] == plan.existing[h] else IDOf(ids[h]) !in k0.owner)
  }

  /** Kuma after full sync: exactly the desired hosts are tracked, each surviving host under
      its id, the monitors of dropped hosts are gone, and nothing else changed. */
  ghost predicate Synced(k0: Kuma, k: Kuma, plan: Plan, ids: map<string, string>) {
    ids.Keys == Derive.Hosts(plan.desired) && Progress(k0, k, plan, ids, {})
  }

  /** The same with some hosts still to visit: `pending` are tracked hosts not looked at yet. */
  ghost predicate Progress(k0: Kuma, k: Kuma, plan: Plan, ids: map<string, string>, pending: set<string>) {
    && (forall h :: h in ids ==> HostSynced(k0, k, plan, ids, h))
    && (forall h :: h in plan.existing && h !in ids ==>
          if h in pending then SameAt(k0, k, IDOf(plan.existing[h])) else IDOf(plan.existing[h]) !in k.monitors)
    && (forall id :: !Tracks(ids, id) && !Tracks(plan.existing, id) ==> SameAt(k0, k, id))
  }

  lemma ProgressUpsert(k0: Kuma, k: Kuma, after: Kuma, who: Owner, plan: Plan, ids: map<string, string>, pending: set<string>,
                       id: int, got: int, h: string, spec: MonitorSpec)
    requires Progress(k0, k, plan, ids, pending) && plan.existing.Keys - ids.Keys <= pending
    requires Upserted(k, after, who, id, spec, got) && SpecFor(plan.desired, h) == Some(spec)
    requires (forall i :: i in k0.owner ==> i in k.owner) && AllCanonical(k, who, plan.existing) && Injective(plan.existing)
    requires id == (if h in plan.existing then IDOf(plan.existing[h]) else 0)
    requires h !in ids && Injective(ids[h := FormatInt(got)])
    ensures Progress(k0, after, plan, ids[h := FormatInt(got)], pending)
  {
    UpsertedFacts(k, after, who, id, spec, got);
    var newIDs := ids[h := FormatInt(got)];
    assert IDOf(newIDs[h]) == got;
    assert HostSynced(k0, after, plan, newIDs, h) by {
      if h in plan.existing {
        assert Canonical(k, who, plan.existing[h]);
      }
    }
    forall g | g in ids
      ensures HostSynced(k0, after, plan, newIDs, g)
    {
      assert IDOf(newIDs[g]) != got;
      assert HostSynced(k0, k, plan, ids, g) && SameAt(k, after, IDOf(ids[g]));
    }
    forall g | g in plan.existing && g !in newIDs
      ensures SameAt(k0, after, IDOf(plan.existing[g]))
    {
      assert Canonical(k, who, plan.existing[g]);
      assert IDOf(plan.existing[g]) != got;
      assert SameAt(k0, k, IDOf(plan.existing[g])) && SameAt(k, after, IDOf(plan.existing[g]));
    }
    forall i | !Tracks(newIDs, i) && !Tracks(plan.existing, i)
      ensures SameAt(k0, after, i)
    {
      ProgressFrame(ids, h, FormatInt(got), i);
      assert SameAt(k0, k, i) && SameAt(k, after, i);
    }
  }

  lemma ProgressFrame(ids: map<string, string>, h: string, id: string, i: int)
    requires !Tracks(ids[h := id], i) && h !in ids
    ensures !Tracks(ids, i) && i != IDOf(id)
  {
    var newIDs := ids[h := id];
    assert newIDs[h] == id;
    assert forall g :: g in ids ==> newIDs[g] == ids[g];
  }

  lemma SyncedAfterDelete(k0: Kuma, k: Kuma, plan: Plan, ids: map<string, string>, id: int)
    requires (forall h :: h in ids ==> HostSynced(k0, k, plan, ids, h)) && !Tracks(ids, id)
    ensures forall h :: h in ids ==> HostSynced(k0, Delete(k, id), plan, ids, h)
  {
    forall g | g in ids
      ensures HostSynced(k0, Delete(k, id), plan, ids, g)
    {
      assert HostSynced(k0, k, plan, ids, g) && IDOf(ids[g]) != id;
    }
  }

  lemma OthersAfterDelete(k0: Kuma, k: Kuma, id: int, other: int)
    requires SameAt(k0, k, other) && other != id
    ensures SameAt(k0, Delete(k, id), other)
  {}

  lemma ProgressDelete(k0: Kuma, k: Kuma, plan: Plan, ids: map<string, string>, pending: set<string>, h: string)
    requires Progress(k0, k, plan, ids, pending) && h in plan.existing && h !in ids
    requires Injective(plan.existing) && !Tracks(ids, IDOf(plan.existing[h]))
    ensures Progress(k0, Delete(k, IDOf(plan.existing[h])), plan, ids, pending - {h})
  {
    var id := IDOf(plan.existing[h]);
    SyncedAfterDelete(k0, k, plan, ids, id);
    forall g | g in plan.existing && g !in ids && g in pending - {h}
      ensures SameAt(k0, Delete(k, id), IDOf(plan.existing[g]))
    {
      OthersAfterDelete(k0, k, id, IDOf(plan.existing[g]));
    }
    forall i | !Tracks(ids, i) && !Tracks(plan.existing, i)
      ensures SameAt(k0, Delete(k, id), i)
    {
      assert i != id;
      OthersAfterDelete(k0, k, id, i);
    }
  }

  /** Where a full sync of `plan` that began at `l0` stands. */
  ghost predicate Syncing(l0: Local, l: Local, plan: Plan) {
    l.attempt.Some? ==>
      match l.attempt.value.phase
      case Upserting(p, next, ids) =>
        && p == plan && OwnersKept(l0.kuma, l.kuma) && l.writes == l0.writes + next
        && Progress(l0.kuma, l.kuma, plan, ids, plan.existing.Keys - ids.Keys)
      case Removing(p, ids, todo) =>
        && p == plan && OwnersKept(l0.kuma, l.kuma) && todo.Keys <= Dropped(plan).Keys
        && l.writes == l0.writes + |plan.desired| + |Dropped(plan)| - |todo|
        && Progress(l0.kuma, l.kuma, plan, ids, todo.Keys)
      case Reading(Keep(p, ids), tries) =>
        && p == plan && tries >= 1 && Progress(l0.kuma, l.kuma, plan, ids, {})
        && (tries == 1 ==> l.writes == l0.writes + |plan.desired| + |Dropped(plan)|)
      case Writing(Keep(p, ids), tries, _) => p == plan && tries >= 1 && Progress(l0.kuma, l.kuma, plan, ids, {})
      case Tagging(_, _, _) => true
      case Ended(_) => true
      case _ => false
  }

  lemma NoneDropped(l0: Local, l: Local, plan: Plan, ids: map<string, string>, todo: map<string, string>)
    requires l.attempt.Some? && OwnersKept(l0.kuma, l.kuma) && todo.Keys <= Dropped(plan).Keys
    requires l.attempt.value.phase == Removals(plan, ids, todo)
    requires Progress(l0.kuma, l.kuma, plan, ids, todo.Keys)
    requires l.writes == l0.writes + |plan.desired| + |Dropped(plan)| - |todo|
    ensures Syncing(l0, l, plan)
  {}

  lemma PendingAreDropped(k0: Kuma, k: Kuma, who: Owner, plan: Plan, ids: map<string, string>)
    requires Progress(k0, k, plan, ids, plan.existing.Keys - ids.Keys) && ids.Keys == Derive.Hosts(plan.desired)
    requires AllCanonical(k, who, plan.existing)
    ensures Progress(k0, k, plan, ids, Dropped(plan).Keys)
  {
    ParseableIsAll(k, who, plan.existing);
    assert plan.existing.Keys - ids.Keys == Dropped(plan).Keys;
  }

  lemma UpsertsSyncing(l0: Local, l: Local, who: Owner, plan: Plan, next: nat, ids: map<string, string>)
    requires l.attempt.Some? && OwnersKept(l0.kuma, l.kuma) && AllCanonical(l.kuma, who, plan.existing)
    requires next <= |plan.desired| && ids.Keys == Derive.Hosts(plan.desired[..next])
    requires l.attempt.value.phase == Upserts(plan, next, ids)
    requires Progress(l0.kuma, l.kuma, plan, ids, plan.existing.Keys - ids.Keys)
    requires l.writes == l0.writes + next
    ensures Syncing(l0, l, plan)
  {
    if next == |plan.desired| {
      assert plan.desired[..next] == plan.desired;
      PendingAreDropped(l0.kuma, l.kuma, who, plan, ids);
      NoneDropped(l0, l, plan, ids, Dropped(plan));
    }
  }

  lemma SyncUpsertSucceeds(cfg: Config, who: Owner, l0: Local, l: Local, plan: Plan, next: nat, ids: map<string, string>, kuma: Kuma, got: int)
    requires Valid(l.kuma) && Inv(cfg, who, l) && l.attempt.Some? && l.attempt.value.phase == Upserting(plan, next, ids)
    requires Syncing(l0, l, plan) && next < |plan.desired|
    requires
      var dm := plan.desired[next];
      Upserted(l.kuma, kuma, who, StoredID(plan, dm.host), dm.spec, got)
    ensures
      var newIDs := ids[plan.desired[next].host := FormatInt(got)];
      && AllCanonical(kuma, who, plan.existing) && OwnersKept(l0.kuma, kuma)
      && newIDs.Keys == Derive.Hosts(plan.desired[..next + 1])
      && Progress(l0.kuma, kuma, plan, newIDs, plan.existing.Keys - newIDs.Keys)
  {
    var dm := plan.desired[next];
    var id := StoredID(plan, dm.host);
    var newIDs := ids[dm.host := FormatInt(got)];
    UpsertedFacts(l.kuma, kuma, who, id, dm.spec, got);
    UpsertingGathers(l.kuma, kuma, who, l.attempt.value, plan, next, ids, id, got);
    HostsStep(plan.desired, next);
    SpecForHost(plan.desired, next);
    ProgressUpsert(l0.kuma, l.kuma, kuma, who, plan, ids, plan.existing.Keys - ids.Keys, id, got, dm.host, dm.spec);
    assert forall h :: h !in newIDs ==> (h in plan.existing.Keys - ids.Keys <==> h in plan.existing.Keys - newIDs.Keys);
  }

  /** The state after an Upsert of full sync, by its outcome. */
  lemma UpsertingLeads(cfg: Config, who: Owner, l: Local, plan: Plan, next: nat, ids: map<string, string>, host: string, outcome: Outcome)
    requires l.attempt.Some? && l.attempt.value.phase == Upserting(plan, next, ids) && next < |plan.desired|
    ensures
      var dm := plan.desired[next];
      var upserted := Upsert(l.kuma, who, StoredID(plan, dm.host), dm.spec);
      var after := Step(cfg, who, l, Change(host, outcome));
      && after.attempt.Some?
      && (if outcome != Succeeded || upserted.None? then after.attempt.value.phase == Ended(Error)
          else
            && after.kuma == upserted.value.0 && after.writes == l.writes + 1
            && after.attempt.value.phase == Upserts(plan, next + 1, ids[dm.host := FormatInt(upserted.value.1)]))
  {}

  lemma SyncUpserting(cfg: Config, who: Owner, l0: Local, l: Local, plan: Plan, next: nat, ids: map<string, string>, host: string, outcome: Outcome)
    requires Valid(l.kuma) && Inv(cfg, who, l) && Syncing(l0, l, plan)
    requires l.attempt.Some? && l.attempt.value.phase == Upserting(plan, next, ids) && next < |plan.desired|
    ensures Syncing(l0, Step(cfg, who, l, Change(host, outcome)), plan)
  {
    var dm := plan.desired[next];
    var id := StoredID(plan, dm.host);
    UpsertingLeads(cfg, who, l, plan, next, ids, host, outcome);
    if outcome == Succeeded && Upsert(l.kuma, who, id, dm.spec).Some? {
      StoredIDIsTracked(cfg, who, l, plan, dm.host);
      var (kuma, got) := Upsert(l.kuma, who, id, dm.spec).value;
      SyncUpsertSucceeds(cfg, who, l0, l, plan, next, ids, kuma, got);
      UpsertsSyncing(l0, Step(cfg, who, l, Change(host, outcome)), who, plan, next + 1, ids[dm.host := FormatInt(got)]);
    }
  }

  lemma RemovingLeads(cfg: Config, who: Owner, l: Local, plan: Plan, ids: map<string, string>, todo: map<string, string>, host: string, outcome: Outcome)
    requires l.attempt.Some? && l.attempt.value.phase == Removing(plan, ids, todo) && host in todo
    ensures
      var after := Step(cfg, who, l, Change(host, outcome));
      && after.attempt.Some?
      && (if outcome != Succeeded then after.attempt.value.phase == Ended(Error)
          else
            && after.kuma == Delete(l.kuma, IDOf(todo[host])) && after.writes == l.writes + 1
            && after.attempt.value.phase == Removals(plan, ids, todo - {host}))
  {
    assert outcome == Succeeded ==> Removals(plan, ids, todo - {host}) != Removing(plan, ids, todo);
  }

  lemma RemovalsSyncing(l0: Local, l: Local, after: Local, plan: Plan, ids: map<string, string>, todo: map<string, string>, host: string)
    requires l.attempt.Some? && l.attempt.value.phase == Removing(plan, ids, todo) && host in todo && Syncing(l0, l, plan)
    requires Progress(l0.kuma, after.kuma, plan, ids, todo.Keys - {host}) && OwnersKept(l0.kuma, after.kuma)
    requires after.attempt.Some? && after.attempt.value.phase == Removals(plan, ids, todo - {host}) && after.writes == l.writes + 1
    ensures Syncing(l0, after, plan)
  {
    assert (todo - {host}).Keys == todo.Keys - {host};
    assert |todo.Keys - {host}| == |todo.Keys| - 1;
    NoneDropped(l0, after, plan, ids, todo - {host});
  }

  lemma RemovedProgress(cfg: Config, who: Owner, l0: Local, l: Local, plan: Plan, ids: map<string, string>, todo: map<string, string>, host: string)
    requires Inv(cfg, who, l) && l.attempt.Some? && l.attempt.value.phase == Removing(plan, ids, todo) && host in todo
    requires Progress(l0.kuma, l.kuma, plan, ids, todo.Keys)
    ensures Progress(l0.kuma, Delete(l.kuma, IDOf(todo[host])), plan, ids, todo.Keys - {host})
  {
    RemovedIsUntracked(who, l.kuma, l.attempt.value, plan, ids, todo, host);
    ProgressDelete(l0.kuma, l.kuma, plan, ids, todo.Keys, host);
  }

  lemma SyncRemoving(cfg: Config, who: Owner, l0: Local, l: Local, plan: Plan, ids: map<string, string>, todo: map<string, string>, host: string, outcome: Outcome)
    requires Valid(l.kuma) && Inv(cfg, who, l) && Syncing(l0, l, plan)
    requires l.attempt.Some? && l.attempt.value.phase == Removing(plan, ids, todo) && host in todo
    ensures Syncing(l0, Step(cfg, who, l, Change(host, outcome)), plan)
  {
    RemovingLeads(cfg, who, l, plan, ids, todo, host, outcome);
    if outcome == Succeeded {
      RemovedProgress(cfg, who, l0, l, plan, ids, todo, host);
      RemovalsSyncing(l0, l, Step(cfg, who, l, Change(host, outcome)), plan, ids, todo, host);
    }
  }

  lemma RemovedIsUntracked(who: Owner, k: Kuma, a: Attempt, plan: Plan, ids: map<string, string>, todo: map<string, string>, h: string)
    requires AllCanonical(k, who, plan.existing) && Injective(plan.existing)
    requires Gathered(k, who, a.created, plan.existing, ids) && RemoveInv(k, a, plan, ids, todo) && h in todo
    ensures !Tracks(ids, IDOf(todo[h])) && todo[h] == plan.existing[h] && h !in ids
  {
    assert Tracks(plan.existing, IDOf(todo[h]));
  }

  /** Reads, writes to the API server and the end of the attempt do not change Kuma's
      monitors. */
  lemma SyncOther(cfg: Config, who: Owner, l0: Local, l: Local, plan: Plan, action: Action)
    requires l.attempt.Some? && Syncing(l0, l, plan) && action != Begin
    requires action.Change? ==> !l.attempt.value.phase.Upserting? && !l.attempt.value.phase.Removing?
    ensures Syncing(l0, Step(cfg, who, l, action), plan)
  {
    if action.Change? && l.attempt.value.phase.Writing? {
      var phase := l.attempt.value.phase;
      SyncWriting(l0, l, plan, phase.write, phase.tries, phase.got, action.outcome);
    }
  }

  /** After a status Update the attempt ends, goes on to tags, or tries again unchanged. */
  lemma WritingLeads(l: Local, write: Write, tries: nat, got: Resource, outcome: Outcome)
    requires l.attempt.Some?
    ensures
      var after := WriteStep(l, write, tries, got, outcome);
      && after.attempt.Some?
      && (after.attempt.value.phase.Ended? || after.attempt.value.phase.Tagging? || after == At(l, Reading(write, tries + 1)))
  {}

  lemma SyncWriting(l0: Local, l: Local, plan: Plan, write: Write, tries: nat, got: Resource, outcome: Outcome)
    requires l.attempt.Some? && l.attempt.value.phase == Writing(write, tries, got) && Syncing(l0, l, plan) && tries >= 1
    ensures Syncing(l0, WriteStep(l, write, tries, got, outcome).(writes := l.writes + 1), plan)
  {
    WritingLeads(l, write, tries, got, outcome);
  }

  lemma SyncCall(cfg: Config, who: Owner, l0: Local, l: Local, plan: Plan, host: string, outcome: Outcome)
    requires Valid(l.kuma) && Inv(cfg, who, l) && Syncing(l0, l, plan)
    requires l.attempt.Some? && (l.attempt.value.phase.Upserting? || l.attempt.value.phase.Removing?)
    ensures Syncing(l0, Step(cfg, who, l, Change(host, outcome)), plan)
  {
    match l.attempt.value.phase
    case Upserting(p, next, ids) =>
      if next < |plan.desired| {
        SyncUpserting(cfg, who, l0, l, plan, next, ids, host, outcome);
      }
    case Removing(p, ids, todo) =>
      if host in todo {
        SyncRemoving(cfg, who, l0, l, plan, ids, todo, host, outcome);
      }
  }

  lemma SyncStep(cfg: Config, who: Owner, l0: Local, l: Local, plan: Plan, action: Action)
    requires Valid(l.kuma) && Inv(cfg, who, l) && Syncing(l0, l, plan) && action != Begin
    ensures Syncing(l0, Step(cfg, who, l, action), plan)
  {
    if l.attempt.Some? {
      if action.Change? && (l.attempt.value.phase.Upserting? || l.attempt.value.phase.Removing?) {
        SyncCall(cfg, who, l0, l, plan, action.host, action.outcome);
      } else {
        SyncOther(cfg, who, l0, l, plan, action);
      }
    }
  }

  lemma {:induction false} SyncSteps(cfg: Config, who: Owner, l0: Local, plan: Plan, actions: seq<Action>)
    requires CollisionFree(cfg) && Valid(l0.kuma) && Inv(cfg, who, l0) && Syncing(l0, l0, plan) && OneAttempt(actions)
    ensures Syncing(l0, Steps(cfg, who, l0, actions), plan)
  {
    if actions != [] {
      var init := actions[..|actions| - 1];
      SyncSteps(cfg, who, l0, plan, init);
      StepsKeep(cfg, who, l0, init);
      SyncStep(cfg, who, l0, Steps(cfg, who, l0, init), plan, actions[|actions| - 1]);
    }
  }

  /** Full sync that reaches the point of recording its result has done to Kuma exactly what
      the set-level specification says, with one Upsert per desired host and one Delete per
      dropped one; without any desired host it begins with the deletes. */
  lemma FullSync(cfg: Config, who: Owner, l0: Local, plan: Plan, actions: seq<Action>)
    requires CollisionFree(cfg) && Valid(l0.kuma) && Inv(cfg, who, l0) && OneAttempt(actions)
    requires l0.attempt.Some? && l0.attempt.value.phase == Upserts(plan, 0, map[])
    ensures
      var l := Steps(cfg, who, l0, actions);
      l.attempt.Some? && l.attempt.value.phase.Reading? ==>
        var phase := l.attempt.value.phase;
        && phase.write.Keep? && phase.write.plan == plan && Synced(l0.kuma, l.kuma, plan, phase.write.ids)
        && (phase.tries == 1 ==> l.writes - l0.writes == |plan.desired| + |Dropped(plan)|)
  {
    ExistingIsCanonical(cfg, who, l0, plan);
    SyncBegins(l0, who, plan);
    SyncSteps(cfg, who, l0, plan, actions);
    StepsKeep(cfg, who, l0, actions);
    var l := Steps(cfg, who, l0, actions);
    if l.attempt.Some? && l.attempt.value.phase.Reading? {
      RecordsDesired(cfg, who, l, plan);
    }
  }

  lemma NothingDoneYet(k: Kuma, plan: Plan)
    ensures Progress(k, k, plan, map[], plan.existing.Keys)
  {}

  lemma SyncBegins(l: Local, who: Owner, plan: Plan)
    requires l.attempt.Some? && l.attempt.value.phase == Upserts(plan, 0, map[]) && AllCanonical(l.kuma, who, plan.existing)
    ensures Syncing(l, l, plan)
  {
    assert plan.desired[..0] == [];
    NothingDoneYet(l.kuma, plan);
    var none: map<string, string> := map[];
    assert plan.existing.Keys - none.Keys == plan.existing.Keys;
    UpsertsSyncing(l, l, who, plan, 0, map[]);
  }

  lemma ExistingIsCanonical(cfg: Config, who: Owner, l: Local, plan: Plan)
    requires Inv(cfg, who, l) && l.attempt.Some? && l.attempt.value.phase == Upserts(plan, 0, map[])
    ensures AllCanonical(l.kuma, who, plan.existing)
  {}

  lemma RecordsDesired(cfg: Config, who: Owner, l: Local, plan: Plan)
    requires Inv(cfg, who, l) && l.attempt.Some? && l.attempt.value.phase.Reading?
    requires l.attempt.value.phase.write.Keep? && l.attempt.value.phase.write.plan == plan
    ensures l.attempt.value.phase.write.ids.Keys == Derive.Hosts(plan.desired)
  {}
}
