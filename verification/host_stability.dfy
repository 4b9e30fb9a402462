/** The invariant survives everything others do: other resources' reconciles, hand edits in
    Kuma, and users and controllers editing the resource. */
module HostStability {
  import opened Wrappers
  import opened Spec
  import opened Store
  import opened Tracking
  import opened HostMachine
  import opened HostInvariant

  /** `l` after others acted: Kuma moved, the monitors in `touched` were edited by hand, and
      the API server issued versions for other resources. */
  function Shifted(l: Local, kuma: Kuma, latest: int, touched: set<int>): Local {
    l.(kuma := kuma, latest := latest,
       attempt := if l.attempt.None? then None
                  else Some(l.attempt.value.(touched := l.attempt.value.touched + touched)))
  }

  lemma CanonicalStable(a: Kuma, b: Kuma, who: Owner, touched: set<int>, ids: map<string, string>)
    requires Moved(a, b, who, touched) && AllCanonical(a, who, ids)
    ensures AllCanonical(b, who, ids)
    ensures AllGone(a, ids) ==> AllGone(b, ids)
  {
    forall h | h in ids
      ensures Canonical(b, who, ids[h])
      ensures IDOf(ids[h]) in b.monitors ==> IDOf(ids[h]) in a.monitors
    {
      assert Canonical(a, who, ids[h]);
    }
  }

  lemma ResourceStable(cfg: Config, a: Kuma, b: Kuma, who: Owner, touched: set<int>, r: Resource)
    requires Moved(a, b, who, touched) && ResourceInv(cfg, a, who, r)
    ensures ResourceInv(cfg, b, who, r)
  {
    CanonicalStable(a, b, who, touched, r.ids.m);
  }

  lemma ConfiguredStable(a: Kuma, b: Kuma, who: Owner, before: set<int>, touched: set<int>, desired: seq<DesiredMonitor>,
                         ids: map<string, string>, hosts: set<string>)
    requires Moved(a, b, who, touched) && AllCanonical(a, who, ids) && hosts <= ids.Keys
    requires forall h :: h in hosts ==> ConfiguredAt(a, before, desired, ids, h)
    ensures forall h :: h in hosts ==> ConfiguredAt(b, before + touched, desired, ids, h)
  {
    forall h | h in hosts
      ensures ConfiguredAt(b, before + touched, desired, ids, h)
    {
      assert Canonical(a, who, ids[h]);
      assert ConfiguredAt(a, before, desired, ids, h);
      assert IDOf(ids[h]) !in touched ==> SameAt(a, b, IDOf(ids[h]));
    }
  }

  lemma GatheredStable(a: Kuma, b: Kuma, who: Owner, touched: set<int>, created: set<int>, existing: map<string, string>, ids: map<string, string>)
    requires Moved(a, b, who, touched) && Gathered(a, who, created, existing, ids)
    ensures Gathered(b, who, created, existing, ids)
  {
    CanonicalStable(a, b, who, touched, ids);
  }

  lemma RestGoneStable(a: Kuma, b: Kuma, who: Owner, touched: set<int>, existing: map<string, string>, ids: map<string, string>)
    requires Moved(a, b, who, touched) && AllCanonical(a, who, existing) && RestGone(a, existing, ids)
    ensures RestGone(b, existing, ids)
  {
    forall h | h in existing && !(h in ids && ids[h] == existing[h])
      ensures IDOf(existing[h]) !in b.monitors
    {
      assert Canonical(a, who, existing[h]);
    }
  }

  lemma GoneStable(a: Kuma, b: Kuma, who: Owner, touched: set<int>, ids: map<string, string>, h: string)
    requires Moved(a, b, who, touched) && AllCanonical(a, who, ids) && h in ids && IDOf(ids[h]) !in a.monitors
    ensures IDOf(ids[h]) !in b.monitors
  {
    assert Canonical(a, who, ids[h]);
  }

  lemma WriteStable(cfg: Config, k: Kuma, who: Owner, touched: set<int>, l: Local, a: Attempt, write: Write)
    requires Moved(l.kuma, k, who, touched) && a.snap.ids.IDs? && AllCanonical(l.kuma, who, a.snap.ids.m)
    requires WriteInv(cfg, l.kuma, who, a, write)
    ensures WriteInv(cfg, k, who, a.(touched := a.touched + touched), write)
  {
    CanonicalStable(l.kuma, k, who, touched, a.snap.ids.m);
    if write.Keep? {
      GatheredStable(l.kuma, k, who, touched, a.created, write.plan.existing, write.ids);
      RestGoneStable(l.kuma, k, who, touched, write.plan.existing, write.ids);
      ConfiguredStable(l.kuma, k, who, a.touched, touched, write.plan.desired, write.ids, write.ids.Keys);
    }
  }

  lemma RecordedStable(cfg: Config, k: Kuma, who: Owner, touched: set<int>, l: Local, a: Attempt, plan: Plan,
                       ids: map<string, string>, todo: map<string, string>)
    requires Moved(l.kuma, k, who, touched) && l.cur.Some? && ResourceInv(cfg, l.kuma, who, l.cur.value)
    requires Recorded(cfg, l.kuma, a, l.cur, plan, ids) && TagInv(l.kuma, a, plan, ids, todo)
    ensures Recorded(cfg, k, a.(touched := a.touched + touched), l.cur, plan, ids)
    ensures TagInv(k, a.(touched := a.touched + touched), plan, ids, todo)
  {
    ConfiguredStable(l.kuma, k, who, a.touched, touched, plan.desired, ids, ids.Keys);
    forall h | h in ids && h !in todo
      ensures IDOf(ids[h]) in a.touched + touched || TagsOn(k, IDOf(ids[h])) == plan.tags
    {
      assert Canonical(l.kuma, who, ids[h]);
      assert IDOf(ids[h]) !in touched ==> SameAt(l.kuma, k, IDOf(ids[h]));
    }
  }

  lemma UpsertStable(k: Kuma, who: Owner, touched: set<int>, l: Local, a: Attempt, plan: Plan, next: nat, ids: map<string, string>)
    requires Moved(l.kuma, k, who, touched)
    requires Gathered(l.kuma, who, a.created, plan.existing, ids) && UpsertInv(l.kuma, a, plan, next, ids)
    ensures UpsertInv(k, a.(touched := a.touched + touched), plan, next, ids)
  {
    ConfiguredStable(l.kuma, k, who, a.touched, touched, plan.desired, ids, ids.Keys);
  }

  lemma RemoveStable(k: Kuma, who: Owner, touched: set<int>, l: Local, a: Attempt, plan: Plan,
                     ids: map<string, string>, todo: map<string, string>)
    requires Moved(l.kuma, k, who, touched) && AllCanonical(l.kuma, who, plan.existing)
    requires Gathered(l.kuma, who, a.created, plan.existing, ids) && RemoveInv(l.kuma, a, plan, ids, todo)
    ensures RemoveInv(k, a.(touched := a.touched + touched), plan, ids, todo)
  {
    UpsertStable(k, who, touched, l, a, plan, |plan.desired|, ids);
    forall h | h in plan.existing && h !in ids && h !in todo
      ensures IDOf(plan.existing[h]) !in k.monitors
    {
      GoneStable(l.kuma, k, who, touched, plan.existing, h);
    }
  }

  lemma DriftStable(k: Kuma, who: Owner, touched: set<int>, l: Local, a: Attempt, plan: Plan,
                    drifted: map<string, int>, ids: map<string, string>)
    requires Moved(l.kuma, k, who, touched) && AllCanonical(l.kuma, who, plan.existing)
    requires Gathered(l.kuma, who, a.created, plan.existing, ids) && DriftInv(l.kuma, a, plan, drifted, ids)
    ensures DriftInv(k, a.(touched := a.touched + touched), plan, drifted, ids)
  {
    RestGoneStable(l.kuma, k, who, touched, plan.existing, ids);
    ConfiguredStable(l.kuma, k, who, a.touched, touched, plan.desired, ids, ids.Keys - drifted.Keys);
    forall h | h in drifted && drifted[h] == 0 && drifted[h] != IDOf(plan.existing[h])
      ensures IDOf(plan.existing[h]) !in k.monitors
    {
      GoneStable(l.kuma, k, who, touched, plan.existing, h);
    }
  }

  lemma DeletingStable(k: Kuma, who: Owner, touched: set<int>, l: Local, ids: map<string, string>, todo: map<string, string>)
    requires Moved(l.kuma, k, who, touched) && AllCanonical(l.kuma, who, ids)
    requires forall h :: h in ids && h !in todo ==> IDOf(ids[h]) !in l.kuma.monitors
    ensures forall h :: h in ids && h !in todo ==> IDOf(ids[h]) !in k.monitors
  {
    forall h | h in ids && h !in todo
      ensures IDOf(ids[h]) !in k.monitors
    {
      GoneStable(l.kuma, k, who, touched, ids, h);
    }
  }

  lemma OpenPhaseStable(cfg: Config, who: Owner, l: Local, k: Kuma, latest: int, touched: set<int>)
    requires Moved(l.kuma, k, who, touched) && l.latest <= latest
    requires l.attempt.Some? && AttemptInv(cfg, who, l, l.attempt.value) && Open(l.attempt.value.phase)
    ensures PhaseInv(cfg, who, Shifted(l, k, latest, touched), Shifted(l, k, latest, touched).attempt.value)
  {
    var a := l.attempt.value;
    match a.phase
    case Deleting(todo) => DeletingStable(k, who, touched, l, a.snap.ids.m, todo);
    case DroppingFinalizer => CanonicalStable(l.kuma, k, who, touched, a.snap.ids.m);
    case AskingChannels(ov, derived) =>
    case AskingGroup(ov, derived, channels) =>
    case Listing(plan) =>
    case Drifting(plan, drifted, ids) =>
      GatheredStable(l.kuma, k, who, touched, a.created, plan.existing, ids);
      DriftStable(k, who, touched, l, a, plan, drifted, ids);
    case Upserting(plan, next, ids) =>
      GatheredStable(l.kuma, k, who, touched, a.created, plan.existing, ids);
      UpsertStable(k, who, touched, l, a, plan, next, ids);
    case Removing(plan, ids, todo) =>
      GatheredStable(l.kuma, k, who, touched, a.created, plan.existing, ids);
      RemoveStable(k, who, touched, l, a, plan, ids, todo);
    case Reading(write, tries) => WriteStable(cfg, k, who, touched, l, a, write);
    case Writing(write, tries, got) => WriteStable(cfg, k, who, touched, l, a, write);
  }

  lemma RecordedPhaseStable(cfg: Config, who: Owner, l: Local, k: Kuma, latest: int, touched: set<int>)
    requires Moved(l.kuma, k, who, touched) && l.latest <= latest
    requires l.cur.Some? ==> ResourceInv(cfg, l.kuma, who, l.cur.value)
    requires l.attempt.Some? && AttemptInv(cfg, who, l, l.attempt.value) && !Open(l.attempt.value.phase)
    ensures PhaseInv(cfg, who, Shifted(l, k, latest, touched), Shifted(l, k, latest, touched).attempt.value)
  {
    var a := l.attempt.value;
    match a.phase
    case Tagging(plan, ids, todo) => RecordedStable(cfg, k, who, touched, l, a, plan, ids, todo);
    case Ended(verdict) =>
      match verdict
      case Gone => CanonicalStable(l.kuma, k, who, touched, a.snap.ids.m);
      case OptedOut =>
      case InSync(plan, ids) => RecordedStable(cfg, k, who, touched, l, a, plan, ids, map[]);
      case Error =>
  }

  /** Others acting keeps the invariant. */
  lemma ShiftKeeps(cfg: Config, who: Owner, l: Local, k: Kuma, latest: int, touched: set<int>)
    requires Valid(l.kuma) && Moved(l.kuma, k, who, touched) && l.latest <= latest
    requires Inv(cfg, who, l)
    ensures Inv(cfg, who, Shifted(l, k, latest, touched))
  {
    if l.cur.Some? {
      ResourceStable(cfg, l.kuma, k, who, touched, l.cur.value);
    }
    if l.attempt.Some? {
      if Open(l.attempt.value.phase) {
        OpenPhaseStable(cfg, who, l, k, latest, touched);
        ResourceStable(cfg, l.kuma, k, who, touched, l.attempt.value.snap);
      } else {
        RecordedPhaseStable(cfg, who, l, k, latest, touched);
      }
    }
    forall id | id in k.monitors && Owned(k, who, id)
      ensures AccountedFor(Shifted(l, k, latest, touched), id)
    {
      assert BelongsTo(l.kuma, who, id) && Owned(l.kuma, who, id);
      assert AccountedFor(l, id);
    }
  }

  /** What the user's step can make of the resource: the same, gone, new, or a later version
      with the same marks. */
  ghost predicate CurMoved(l: Local, after: Local) {
    || after.cur == l.cur
    || (after.cur.None? && l.cur.Some? && !l.cur.value.finalizer)
    || (after.cur.Some? && l.latest < after.cur.value.version <= after.latest
        && if l.cur.None? then Unmarked(after.cur.value) && !after.cur.value.deleting
           else SameMarks(l.cur.value, after.cur.value) && (l.cur.value.deleting ==> after.cur.value.deleting))
  }

  lemma UserStepShape(l: Local, action: UserAction)
    requires l.cur.Some? ==> l.cur.value.version <= l.latest
    ensures
      var after := UserStep(l, action);
      CurMoved(l, after) && after == l.(cur := after.cur, latest := after.latest) && l.latest <= after.latest
  {}

  lemma LinkedStable(l: Local, after: Local, snap: Resource)
    requires CurMoved(l, after) && l.latest <= after.latest && VersionInv(l, snap) && Linked(l.cur, snap)
    ensures VersionInv(after, snap) && Linked(after.cur, snap)
  {}

  lemma UserPhase(cfg: Config, who: Owner, l: Local, after: Local, a: Attempt)
    requires CurMoved(l, after) && after == l.(cur := after.cur, latest := after.latest) && l.latest <= after.latest
    requires AttemptInv(cfg, who, l, a)
    ensures AttemptInv(cfg, who, after, a)
  {
    if Open(a.phase) {
      LinkedStable(l, after, a.snap);
    }
  }

  lemma UserKeeps(cfg: Config, who: Owner, l: Local, action: UserAction)
    requires CollisionFree(cfg) && Inv(cfg, who, l)
    ensures Inv(cfg, who, UserStep(l, action))
  {
    UserStepShape(l, action);
    var after := UserStep(l, action);
    if l.attempt.Some? {
      UserPhase(cfg, who, l, after, l.attempt.value);
    }
    if after.cur.Some? && l.cur.None? {
      assert HashSound(cfg, "", map[]);
    }
    forall id | id in l.kuma.monitors && Owned(l.kuma, who, id)
      ensures AccountedFor(after, id)
    {
      assert AccountedFor(l, id);
    }
  }
}
