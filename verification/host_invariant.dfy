/** What holds of one routed resource in every reachable state. */
module HostInvariant {
  import opened Wrappers
  import opened Spec
  import opened Strconv
  import opened Store
  import opened Tracking
  import opened HostMachine
  import Derive
  import Translate

  // ------------------------------------------------------------------ tracked ids

  ghost predicate AllCanonical(k: Kuma, who: Owner, ids: map<string, string>) {
    forall h :: h in ids ==> Canonical(k, who, ids[h])
  }

  ghost predicate Injective(ids: map<string, string>) {
    forall g, h :: g in ids && h in ids && IDOf(ids[g]) == IDOf(ids[h]) ==> g == h
  }

  ghost predicate Tracks(ids: map<string, string>, id: int) {
    exists h :: h in ids && IDOf(ids[h]) == id
  }

  /** None of these monitors exists any more. */
  ghost predicate AllGone(k: Kuma, ids: map<string, string>) {
    forall h :: h in ids ==> IDOf(ids[h]) !in k.monitors
  }

  // --------------------------------------------------------------------- resources

  /** A recorded fingerprint belongs to a host set, and that is the set tracked. */
  ghost predicate HashSound(cfg: Config, hash: string, ids: map<string, string>) {
    forall d :: cfg.digest(d) == hash ==> Derive.Hosts(d) == ids.Keys
  }

  ghost predicate ResourceInv(cfg: Config, k: Kuma, who: Owner, r: Resource) {
    && r.ids.IDs?
    && AllCanonical(k, who, r.ids.m)
    && Injective(r.ids.m)
    && HashSound(cfg, r.hash, r.ids.m)
    && (!r.deleting && !r.finalizer ==> r.ids.m == map[] && r.hash == "")
    && (!r.finalizer ==> AllGone(k, r.ids.m))
  }

  ghost predicate Unmarked(r: Resource) {
    r.ids == IDs(map[]) && r.hash == "" && !r.finalizer
  }

  /** The operator's marks are the same. */
  ghost predicate SameMarks(a: Resource, b: Resource) {
    a.ids == b.ids && a.hash == b.hash && a.finalizer == b.finalizer
  }

  /** The current resource against the one the attempt began with, until the attempt records
      something: the marks are the same, or the resource had no finalizer and was replaced. */
  ghost predicate Linked(cur: Option<Resource>, snap: Resource) {
    if snap.finalizer then cur.Some? && SameMarks(cur.value, snap)
    else cur.None? || SameMarks(cur.value, snap) || Unmarked(cur.value)
  }

  /** A version number names one version. */
  ghost predicate VersionInv(l: Local, r: Resource) {
    r.version <= l.latest && (l.cur.Some? && l.cur.value.version == r.version ==> l.cur.value == r)
  }

  // ---------------------------------------------------------------------- attempts

  ghost predicate PlanInv(cfg: Config, snap: Resource, plan: Plan) {
    && !snap.deleting && snap.ids == IDs(plan.existing)
    && Derive.DistinctHosts(plan.desired) && Derive.AllWellFormed(plan.desired)
    && plan.hash == cfg.digest(plan.desired)
  }

  /** The monitor holds the desired configuration, unless someone touched it meanwhile. */
  ghost predicate Configured(k: Kuma, touched: set<int>, spec: MonitorSpec, id: int) {
    id in touched || (id in k.monitors && Translate.Equivalent(spec, k.monitors[id]))
  }

  ghost predicate ConfiguredAt(k: Kuma, touched: set<int>, desired: seq<DesiredMonitor>, ids: map<string, string>, h: string)
    requires h in ids
  {
    SpecFor(desired, h).Some? ==> Configured(k, touched, SpecFor(desired, h).value, IDOf(ids[h]))
  }

  /** The ids gathered so far: each is the tracked id of its host or a monitor created by
      this attempt, and every monitor created is among them. */
  ghost predicate Gathered(k: Kuma, who: Owner, created: set<int>, existing: map<string, string>, ids: map<string, string>) {
    && AllCanonical(k, who, ids)
    && Injective(ids)
    && (forall h :: h in ids ==> (h in existing && ids[h] == existing[h]) || IDOf(ids[h]) in created)
    && (forall id :: id in created ==> Tracks(ids, id) && !Tracks(existing, id))
  }

  /** Tracked monitors that are not carried over no longer exist. */
  ghost predicate RestGone(k: Kuma, existing: map<string, string>, ids: map<string, string>) {
    forall h :: h in existing && !(h in ids && ids[h] == existing[h]) ==> IDOf(existing[h]) !in k.monitors
  }

  ghost predicate DriftInv(k: Kuma, a: Attempt, plan: Plan, drifted: map<string, int>, ids: map<string, string>) {
    && a.snap.hash == plan.hash
    && ids.Keys == plan.existing.Keys
    && RestGone(k, plan.existing, ids)
    && (forall h :: h in drifted ==>
          && h in plan.existing && ids[h] == plan.existing[h]
          && (drifted[h] == IDOf(plan.existing[h]) || (drifted[h] == 0 && IDOf(plan.existing[h]) !in k.monitors)))
    && (forall h :: h in ids && h !in drifted ==> ConfiguredAt(k, a.touched, plan.desired, ids, h))
  }

  ghost predicate UpsertInv(k: Kuma, a: Attempt, plan: Plan, next: nat, ids: map<string, string>) {
    && next <= |plan.desired|
    && ids.Keys == Derive.Hosts(plan.desired[..next])
    && (forall h :: h in ids && h in plan.existing ==> ids[h] == plan.existing[h])
    && (forall h :: h in ids ==> ConfiguredAt(k, a.touched, plan.desired, ids, h))
  }

  ghost predicate RemoveInv(k: Kuma, a: Attempt, plan: Plan, ids: map<string, string>, todo: map<string, string>) {
    && UpsertInv(k, a, plan, |plan.desired|, ids)
    && (forall h :: h in todo ==> h in plan.existing && todo[h] == plan.existing[h] && h !in ids)
    && (forall h :: h in plan.existing && h !in ids && h !in todo ==> IDOf(plan.existing[h]) !in k.monitors)
  }

  /** What is about to be recorded is right: the tracked hosts are the desired ones, each
      monitor is configured, and nothing else of this resource is left in Kuma. */
  ghost predicate KeepInv(cfg: Config, k: Kuma, a: Attempt, plan: Plan, ids: map<string, string>) {
    && PlanInv(cfg, a.snap, plan)
    && ids.Keys == Derive.Hosts(plan.desired)
    && RestGone(k, plan.existing, ids)
    && (forall h :: h in ids ==> ConfiguredAt(k, a.touched, plan.desired, ids, h))
  }

  ghost predicate WriteInv(cfg: Config, k: Kuma, who: Owner, a: Attempt, write: Write) {
    match write
    case Clear => a.created == {} && a.snap.ids.IDs? && AllGone(k, a.snap.ids.m)
    case Keep(plan, ids) => Gathered(k, who, a.created, plan.existing, ids) && KeepInv(cfg, k, a, plan, ids)
  }

  /** The attempt's result is recorded on the resource. */
  ghost predicate Recorded(cfg: Config, k: Kuma, a: Attempt, cur: Option<Resource>, plan: Plan, ids: map<string, string>) {
    && a.created == {}
    && cur.Some? && cur.value.ids == IDs(ids) && cur.value.hash == plan.hash && cur.value.finalizer
    && plan.hash == cfg.digest(plan.desired)
    && Derive.DistinctHosts(plan.desired) && Derive.AllWellFormed(plan.desired)
    && ids.Keys == Derive.Hosts(plan.desired)
    && (forall h :: h in ids ==> ConfiguredAt(k, a.touched, plan.desired, ids, h))
  }

  ghost predicate TagInv(k: Kuma, a: Attempt, plan: Plan, ids: map<string, string>, todo: map<string, string>) {
    && (forall h :: h in todo ==> h in ids && todo[h] == ids[h])
    && (forall h :: h in ids && h !in todo ==> IDOf(ids[h]) in a.touched || TagsOn(k, IDOf(ids[h])) == plan.tags)
  }

  /** Phases before anything is recorded. */
  predicate Open(phase: Phase) {
    !phase.Tagging? && !phase.Ended?
  }

  ghost predicate PhaseInv(cfg: Config, who: Owner, l: Local, a: Attempt)
    requires a.snap.ids.IDs?
  {
    match a.phase
    case Deleting(todo) =>
      && a.created == {}
      && (forall h :: h in todo ==> h in a.snap.ids.m && todo[h] == a.snap.ids.m[h])
      && (forall h :: h in a.snap.ids.m && h !in todo ==> IDOf(a.snap.ids.m[h]) !in l.kuma.monitors)
    case DroppingFinalizer => a.created == {} && AllGone(l.kuma, a.snap.ids.m) && a.snap.deleting
    case AskingChannels(ov, derived) =>
      a.created == {} && !a.snap.deleting && Derive.DistinctHosts(derived) && Derive.AllWellFormed(derived)
    case AskingGroup(ov, derived, channels) =>
      a.created == {} && !a.snap.deleting && Derive.DistinctHosts(derived) && Derive.AllWellFormed(derived)
    case Listing(plan) => a.created == {} && PlanInv(cfg, a.snap, plan) && a.snap.hash == plan.hash
    case Drifting(plan, drifted, ids) =>
      && PlanInv(cfg, a.snap, plan)
      && Gathered(l.kuma, who, a.created, plan.existing, ids)
      && DriftInv(l.kuma, a, plan, drifted, ids)
    case Upserting(plan, next, ids) =>
      && PlanInv(cfg, a.snap, plan)
      && Gathered(l.kuma, who, a.created, plan.existing, ids)
      && UpsertInv(l.kuma, a, plan, next, ids)
    case Removing(plan, ids, todo) =>
      && PlanInv(cfg, a.snap, plan)
      && Gathered(l.kuma, who, a.created, plan.existing, ids)
      && RemoveInv(l.kuma, a, plan, ids, todo)
    case Reading(write, tries) => WriteInv(cfg, l.kuma, who, a, write)
    case Writing(write, tries, got) => WriteInv(cfg, l.kuma, who, a, write) && VersionInv(l, got)
    case Tagging(plan, ids, todo) => Recorded(cfg, l.kuma, a, l.cur, plan, ids) && TagInv(l.kuma, a, plan, ids, todo)
    case Ended(verdict) =>
      && a.created == {}
      && (match verdict
          case Gone =>
            AllCanonical(l.kuma, who, a.snap.ids.m) && AllGone(l.kuma, a.snap.ids.m) && (l.cur.None? || !l.cur.value.finalizer)
          case OptedOut =>
            AllCanonical(l.kuma, who, a.snap.ids.m) && AllGone(l.kuma, a.snap.ids.m) && (l.cur.None? || Unmarked(l.cur.value))
          case InSync(plan, ids) => Recorded(cfg, l.kuma, a, l.cur, plan, ids) && TagInv(l.kuma, a, plan, ids, map[])
          case Error => true)
  }

  ghost predicate AttemptInv(cfg: Config, who: Owner, l: Local, a: Attempt) {
    && a.snap.ids.IDs?
    && (Open(a.phase) ==> ResourceInv(cfg, l.kuma, who, a.snap) && VersionInv(l, a.snap) && Linked(l.cur, a.snap))
    && (forall id :: id in a.created ==> Owned(l.kuma, who, id))
    && PhaseInv(cfg, who, l, a)
  }

  // --------------------------------------------------------------------- everything

  /** The monitor is tracked by the resource or held by the running attempt. */
  ghost predicate AccountedFor(l: Local, id: int) {
    || (l.cur.Some? && l.cur.value.ids.IDs? && Tracks(l.cur.value.ids.m, id))
    || (l.attempt.Some? && id in l.attempt.value.created)
  }

  /** A resource being deleted exists only as long as some finalizer holds it. */
  ghost predicate Held(cur: Option<Resource>) {
    cur.Some? && cur.value.deleting ==> cur.value.finalizer || cur.value.foreignFinalizers
  }

  ghost predicate Inv(cfg: Config, who: Owner, l: Local) {
    && (l.cur.Some? ==> l.cur.value.version <= l.latest && ResourceInv(cfg, l.kuma, who, l.cur.value))
    && Held(l.cur)
    && (l.attempt.Some? ==> AttemptInv(cfg, who, l, l.attempt.value))
    && (forall id :: id in l.kuma.monitors && Owned(l.kuma, who, id) ==> AccountedFor(l, id))
  }
}
