/** The reconcile of an Ingress, HTTPRoute or Service as a state machine
    (internal/controller/host_reconciler.go, internal/controller/sync.go). Each call to Kuma
    or to the API server is one step; what happens between two calls is up to everyone else. */
module HostMachine {
  import opened Wrappers
  import opened Spec
  import opened Strconv
  import opened Store
  import opened Tracking
  import Derive
  import References
  import Tags
  import Translate

  // ------------------------------------------------------------------ resources

  /** The operator-wide settings, and the fingerprint function desiredHash. */
  datatype Config = Config(
    optInByDefault: bool,
    defaultTags: seq<string>,
    labelPatterns: seq<string -> bool>,
    digest: seq<DesiredMonitor> -> string)

  /** The fingerprint is never empty and tells host sets apart. */
  ghost predicate CollisionFree(cfg: Config) {
    && (forall d :: cfg.digest(d) != "")
    && (forall d, e :: cfg.digest(d) == cfg.digest(e) ==> Derive.Hosts(d) == Derive.Hosts(e))
  }

  /** What the user writes: the enabled annotation, the other override annotations (None if
      they do not parse), the routing rules and the labels. */
  datatype Manifest = Manifest(
    enabled: Option<string>,
    overrides: Option<Derive.Overrides>,
    routes: Derive.Routes,
    labels: map<string, string>)

  /** The monitor-ids annotation; no annotation is the empty map. */
  datatype IDs = IDs(m: map<string, string>) | Malformed

  datatype Resource = Resource(
    version: int,
    deleting: bool,
    finalizer: bool,
    foreignFinalizers: bool,
    manifest: Manifest,
    ids: IDs,
    hash: string)

  predicate ShouldSync(optInByDefault: bool, enabled: Option<string>) {
    if optInByDefault then enabled != Some("false") else enabled == Some("true")
  }

  // --------------------------------------------------------- pieces of a reconcile

  function Parseable(ids: map<string, string>): map<string, string> {
    map h | h in ids && ParseInt(ids[h]).Some? :: ids[h]
  }

  /** The spec a host maps to; of several entries for one host the last. */
  function SpecFor(desired: seq<DesiredMonitor>, host: string): Option<MonitorSpec> {
    if desired == [] then None
    else if desired[|desired| - 1].host == host then Some(desired[|desired| - 1].spec)
    else SpecFor(desired[..|desired| - 1], host)
  }

  /** The monitor of a host exists and is configured as desired. */
  predicate Matches(spec: MonitorSpec, id: string, live: map<int, MonitorSpec>) {
    ParseInt(id).Some? && IDOf(id) in live && Translate.Equivalent(spec, live[IDOf(id)])
  }

  /** The tracked hosts whose monitor is missing or drifted, with the id to upsert it under:
      0 creates a new one. */
  function Drifted(desired: seq<DesiredMonitor>, existing: map<string, string>, live: map<int, MonitorSpec>): map<string, int> {
    map h | h in existing && SpecFor(desired, h).Some? && !Matches(SpecFor(desired, h).value, existing[h], live) ::
      if IDOf(existing[h]) in live then IDOf(existing[h]) else 0
  }

  predicate SpecsMatch(desired: seq<DesiredMonitor>, existing: map<string, string>, live: map<int, MonitorSpec>) {
    forall h :: h in existing && SpecFor(desired, h).Some? ==> Matches(SpecFor(desired, h).value, existing[h], live)
  }

  /** The id to upsert a host under: the tracked one if it parses, otherwise 0. */
  function StoredID(plan: Plan, host: string): int {
    if host in plan.existing then IDOf(plan.existing[host]) else 0
  }

  function WithReferences(desired: seq<DesiredMonitor>, channels: seq<int>, group: Option<int>): seq<DesiredMonitor> {
    seq(|desired|, i requires 0 <= i < |desired| =>
      DesiredMonitor(desired[i].host, desired[i].spec.(notificationIDs := channels, groupID := group)))
  }

  function TagNames(cfg: Config, ov: Derive.Overrides, labels: map<string, string>): set<string> {
    (set t | t in cfg.defaultTags) + (set t | t in ov.tags) + Tags.LabelTags(labels, cfg.labelPatterns)
  }

  /** What an opted-in reconcile works towards. */
  datatype Plan = Plan(desired: seq<DesiredMonitor>, hash: string, existing: map<string, string>, tags: set<string>)

  function PlanFor(cfg: Config, snap: Resource, ov: Derive.Overrides, derived: seq<DesiredMonitor>,
                   channels: seq<int>, group: Option<int>): Plan
    requires snap.ids.IDs?
  {
    var desired := WithReferences(derived, channels, group);
    Plan(desired, cfg.digest(desired), snap.ids.m, TagNames(cfg, ov, snap.manifest.labels))
  }

  // -------------------------------------------------------------------- attempts

  datatype Verdict =
    | Gone
    | OptedOut
    | InSync(plan: Plan, ids: map<string, string>)
    | Error

  /** What persistMonitorIDs is to write. */
  datatype Write = Keep(plan: Plan, ids: map<string, string>) | Clear

  /** The call an attempt makes next, with the variables still needed. */
  datatype Phase =
    | Deleting(todo: map<string, string>)
    | DroppingFinalizer
    | AskingChannels(ov: Derive.Overrides, derived: seq<DesiredMonitor>)
    | AskingGroup(ov: Derive.Overrides, derived: seq<DesiredMonitor>, channels: seq<int>)
    | Listing(plan: Plan)
    | Drifting(plan: Plan, drifted: map<string, int>, ids: map<string, string>)
    | Upserting(plan: Plan, next: nat, ids: map<string, string>)
    | Removing(plan: Plan, ids: map<string, string>, todo: map<string, string>)
    | Reading(write: Write, tries: nat)
    | Writing(write: Write, tries: nat, got: Resource)
    | Tagging(plan: Plan, ids: map<string, string>, todo: map<string, string>)
    | Ended(verdict: Verdict)

  /** One reconcile in progress: the resource as first read, the monitors created and not yet
      recorded on the resource, the monitors someone else touched meanwhile. */
  datatype Attempt = Attempt(snap: Resource, created: set<int>, touched: set<int>, phase: Phase)

  /** Everything the reconciles of one resource see. `latest` is the newest version number
      the API server has issued; `writes` counts the Upsert, Delete and Update calls made. */
  datatype Local = Local(kuma: Kuma, latest: int, cur: Option<Resource>, attempt: Option<Attempt>, writes: nat)

  // ------------------------------------------------------- from call to next call

  function AfterDeletes(snap: Resource): Phase {
    if !snap.deleting then Reading(Clear, 1)
    else if snap.finalizer then DroppingFinalizer
    else Ended(Gone)
  }

  function Deletes(snap: Resource, todo: map<string, string>): Phase {
    if todo == map[] then AfterDeletes(snap) else Deleting(todo)
  }

  function Removals(plan: Plan, ids: map<string, string>, todo: map<string, string>): Phase {
    if todo == map[] then Reading(Keep(plan, ids), 1) else Removing(plan, ids, todo)
  }

  /** The hosts to delete: tracked, with an id that parses, and no longer desired. */
  function Dropped(plan: Plan): map<string, string> {
    Parseable(plan.existing) - Derive.Hosts(plan.desired)
  }

  function Upserts(plan: Plan, next: nat, ids: map<string, string>): Phase {
    if next >= |plan.desired| then Removals(plan, ids, Dropped(plan)) else Upserting(plan, next, ids)
  }

  function Drifts(plan: Plan, todo: map<string, int>, ids: map<string, string>): Phase {
    if todo == map[] then Reading(Keep(plan, ids), 1) else Drifting(plan, todo, ids)
  }

  function Taggings(plan: Plan, ids: map<string, string>, todo: map<string, string>): Phase {
    if todo == map[] then Ended(InSync(plan, ids)) else Tagging(plan, ids, todo)
  }

  function Planned(plan: Plan, snap: Resource): Phase {
    if plan.hash == snap.hash then Listing(plan) else Upserts(plan, 0, map[])
  }

  function WithChannels(cfg: Config, snap: Resource, ov: Derive.Overrides, derived: seq<DesiredMonitor>, channels: seq<int>): Phase
    requires snap.ids.IDs?
  {
    if ov.group == "" then Planned(PlanFor(cfg, snap, ov, derived, channels, None), snap)
    else AskingGroup(ov, derived, channels)
  }

  /** From the first read of the resource to the first call. */
  function Start(cfg: Config, snap: Resource): Phase {
    if snap.deleting then
      if snap.ids.Malformed? then Ended(Error) else Deletes(snap, Parseable(snap.ids.m))
    else if !ShouldSync(cfg.optInByDefault, snap.manifest.enabled) then
      if snap.ids.Malformed? then Ended(Error)
      else if snap.ids.m == map[] && !snap.finalizer then Ended(OptedOut)
      else Deletes(snap, Parseable(snap.ids.m))
    else if snap.manifest.overrides.None? || snap.ids.Malformed? then Ended(Error)
    else
      var ov := snap.manifest.overrides.value;
      match Derive.DesiredMonitors(snap.manifest.routes, ov)
      case Err => Ended(Error)
      case Ok(derived) =>
        if ov.notifications != [] then AskingChannels(ov, derived)
        else WithChannels(cfg, snap, ov, derived, [])
  }

  // ----------------------------------------------------------------------- steps

  /** What an attempt does next and how the call ends. `host` picks the host a loop over a
      map visits next; `tags` is what a failed tag call leaves behind. */
  datatype Action =
    | Begin
    | Read(ok: bool)
    | Change(host: string, outcome: Outcome)
    | Tag(host: string, ok: bool, tags: set<string>)
    | Finish
    | Crash

  function At(l: Local, phase: Phase): Local
    requires l.attempt.Some?
  {
    l.(attempt := Some(l.attempt.value.(phase := phase)))
  }

  /** The attempt gives up; what it created and did not record is orphaned. */
  function Fail(l: Local): Local
    requires l.attempt.Some?
  {
    var a := l.attempt.value;
    l.(kuma := Orphan(l.kuma, a.created), attempt := Some(a.(created := {}, phase := Ended(Error))))
  }

  /** A call that only reads. */
  function ReadStep(cfg: Config, l: Local, ok: bool): Local
    requires l.attempt.Some?
  {
    var a := l.attempt.value;
    match a.phase
    case AskingChannels(ov, derived) =>
      if !ok || a.snap.ids.Malformed? then Fail(l)
      else
        (match References.ResolveNotifications(l.kuma.notifications, ov.notifications)
         case None => Fail(l)
         case Some(channels) => At(l, WithChannels(cfg, a.snap, ov, derived, channels)))
    case AskingGroup(ov, derived, channels) =>
      if !ok || a.snap.ids.Malformed? then Fail(l)
      else
        (match References.ResolveGroup(l.kuma.groups, ov.group)
         case None => Fail(l)
         case Some(group) => At(l, Planned(PlanFor(cfg, a.snap, ov, derived, channels, group), a.snap)))
    case Listing(plan) =>
      if !ok then Fail(l)
      else if SpecsMatch(plan.desired, plan.existing, l.kuma.monitors) then
        At(l, Taggings(plan, plan.existing, Parseable(plan.existing)))
      else At(l, Drifts(plan, Drifted(plan.desired, plan.existing, l.kuma.monitors), plan.existing))
    case Reading(write, tries) =>
      if !ok || l.cur.None? then Fail(l) else At(l, Writing(write, tries, l.cur.value))
    case _ => l
  }

  /** The phase once `host` is upserted and `ids` holds its id. */
  function AfterUpsert(phase: Phase, host: string, ids: map<string, string>): Phase {
    match phase
    case Drifting(plan, todo, _) => Drifts(plan, todo - {host}, ids)
    case Upserting(plan, next, _) => Upserts(plan, next + 1, ids)
    case _ => phase
  }

  /** Upsert for one host. On success the host is recorded under the id Kuma returned. */
  function UpsertStep(l: Local, who: Owner, id: int, spec: MonitorSpec, outcome: Outcome, ids: map<string, string>, host: string): Local
    requires l.attempt.Some?
  {
    match Upsert(l.kuma, who, id, spec)
    case None => Fail(l)
    case Some((kuma, got)) =>
      var created := if id == 0 then {got} else {};
      match outcome
      case Failed => Fail(l)
      case Lost => Fail(l.(kuma := Orphan(kuma, created)))
      case Succeeded =>
        var a := l.attempt.value;
        l.(kuma := kuma,
           attempt := Some(a.(created := a.created + created, phase := AfterUpsert(a.phase, host, ids[host := FormatInt(got)]))))
  }

  /** Drift correction of one host: the desired spec under its id, or under a new one. */
  function DriftStep(l: Local, who: Owner, plan: Plan, id: int, ids: map<string, string>, host: string, outcome: Outcome): Local
    requires l.attempt.Some?
  {
    match SpecFor(plan.desired, host)
    case None => l
    case Some(spec) => UpsertStep(l, who, id, spec, outcome, ids, host)
  }

  function DeleteStep(l: Local, id: int, outcome: Outcome, next: Phase): Local
    requires l.attempt.Some?
  {
    match outcome
    case Failed => Fail(l)
    case Lost => Fail(l.(kuma := Delete(l.kuma, id)))
    case Succeeded => At(l.(kuma := Delete(l.kuma, id)), next)
  }

  /** The API server's answer to an Update based on `got`. A resource being deleted takes no
      new finalizer. */
  function AnswerTo(cur: Option<Resource>, got: Resource, finalizer: bool): Answer {
    if cur.None? then NotFound
    else if cur.value.version != got.version then Conflict
    else if cur.value.deleting && finalizer && !cur.value.finalizer then Invalid
    else Accepted
  }

  /** The store after an accepted Update: nothing if the content is the same, removal once a
      deleted resource has no finalizer left, otherwise a new version. */
  function Accept(l: Local, new_: Resource): Local {
    if l.cur == Some(new_) then l
    else if new_.deleting && !new_.finalizer && !new_.foreignFinalizers then l.(cur := None, latest := l.latest + 1)
    else l.(cur := Some(new_.(version := l.latest + 1)), latest := l.latest + 1)
  }

  /** The resource persistMonitorIDs writes: what it read, with the operator's own marks. */
  function Marked(got: Resource, write: Write): Resource {
    match write
    case Clear => got.(ids := IDs(map[]), hash := "", finalizer := false)
    case Keep(plan, ids) => got.(ids := IDs(ids), hash := plan.hash, finalizer := true)
  }

  function AfterWrite(write: Write): Phase {
    match write
    case Clear => Ended(OptedOut)
    case Keep(plan, ids) => Taggings(plan, ids, Parseable(ids))
  }

  function WriteStep(l: Local, write: Write, tries: nat, got: Resource, outcome: Outcome): Local
    requires l.attempt.Some?
  {
    match AnswerTo(l.cur, got, write.Keep?)
    case NotFound => Fail(l)
    case Invalid => Fail(l)
    case Conflict =>
      if outcome.Failed? || tries >= MAX_TRIES then Fail(l) else At(l, Reading(write, tries + 1))
    case Accepted =>
      var recorded := Accept(l, Marked(got, write)).(attempt := Some(l.attempt.value.(created := {})));
      match outcome
      case Failed => Fail(l)
      case Lost => Fail(recorded)
      case Succeeded => At(recorded, AfterWrite(write))
  }

  function DropFinalizerStep(l: Local, outcome: Outcome): Local
    requires l.attempt.Some?
  {
    var snap := l.attempt.value.snap;
    match AnswerTo(l.cur, snap, false)
    case Accepted =>
      (match outcome
       case Failed => Fail(l)
       case Lost => Fail(Accept(l, snap.(finalizer := false)))
       case Succeeded => At(Accept(l, snap.(finalizer := false)), Ended(Gone)))
    case _ => Fail(l)
  }

  /** A call that changes Kuma or the API server. */
  function ChangeStep(l: Local, who: Owner, host: string, outcome: Outcome): Local
    requires l.attempt.Some?
  {
    var a := l.attempt.value;
    match a.phase
    case Deleting(todo) =>
      if host !in todo then l
      else DeleteStep(l, IDOf(todo[host]), outcome, Deletes(a.snap, todo - {host}))
    case DroppingFinalizer => DropFinalizerStep(l, outcome)
    case Drifting(plan, drifted, ids) =>
      if host !in drifted then l else DriftStep(l, who, plan, drifted[host], ids, host, outcome)
    case Upserting(plan, next, ids) =>
      if next >= |plan.desired| then l
      else
        var dm := plan.desired[next];
        UpsertStep(l, who, StoredID(plan, dm.host), dm.spec, outcome, ids, dm.host)
    case Removing(plan, ids, todo) =>
      if host !in todo then l
      else DeleteStep(l, IDOf(todo[host]), outcome, Removals(plan, ids, todo - {host}))
    case Writing(write, tries, got) => WriteStep(l, write, tries, got, outcome)
    case _ => l
  }

  /** syncTags for one tracked monitor. */
  function TagStep(l: Local, host: string, ok: bool, tags: set<string>): Local
    requires l.attempt.Some?
  {
    match l.attempt.value.phase
    case Tagging(plan, ids, todo) =>
      if host !in todo then l
      else if ok then At(l.(kuma := SetTags(l.kuma, IDOf(todo[host]), plan.tags)), Taggings(plan, ids, todo - {host}))
      else Fail(l.(kuma := SetTags(l.kuma, IDOf(todo[host]), tags)))
    case _ => l
  }

  function Step(cfg: Config, who: Owner, l: Local, action: Action): Local {
    match action
    case Begin =>
      if l.attempt.Some? || l.cur.None? then l
      else l.(attempt := Some(Attempt(l.cur.value, {}, {}, Start(cfg, l.cur.value))))
    case Read(ok) => if l.attempt.None? then l else ReadStep(cfg, l, ok)
    case Change(host, outcome) =>
      if l.attempt.None? then l
      else
        var after := ChangeStep(l, who, host, outcome);
        if after == l then l else after.(writes := l.writes + 1)
    case Tag(host, ok, tags) => if l.attempt.None? then l else TagStep(l, host, ok, tags)
    case Finish => if l.attempt.Some? && l.attempt.value.phase.Ended? then l.(attempt := None) else l
    case Crash => if l.attempt.None? then l else Fail(l).(attempt := None)
  }

  // ------------------------------------------------------------- the user's steps

  datatype UserAction =
    | Create(manifest: Manifest, foreignFinalizers: bool)
    | Edit(manifest: Manifest)
    | Touch(foreignFinalizers: bool)
    | Remove

  /** Users and other controllers change everything but the operator's marks; an unmarked
      resource without finalizers disappears as soon as it is deleted. */
  function UserStep(l: Local, action: UserAction): Local {
    var version := l.latest + 1;
    match action
    case Create(manifest, foreign) =>
      if l.cur.Some? then l
      else l.(cur := Some(Resource(version, false, false, foreign, manifest, IDs(map[]), "")), latest := version)
    case Edit(manifest) =>
      if l.cur.None? then l else l.(cur := Some(l.cur.value.(manifest := manifest, version := version)), latest := version)
    case Touch(foreign) =>
      if l.cur.None? then l
      else if l.cur.value.deleting && !l.cur.value.finalizer && !foreign then l.(cur := None, latest := version)
      else l.(cur := Some(l.cur.value.(foreignFinalizers := foreign, version := version)), latest := version)
    case Remove =>
      if l.cur.None? then l
      else if !l.cur.value.finalizer && !l.cur.value.foreignFinalizers then l.(cur := None, latest := version)
      else l.(cur := Some(l.cur.value.(deleting := true, version := version)), latest := version)
  }
}
