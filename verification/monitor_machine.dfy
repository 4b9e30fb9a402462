/** The reconcile of a Monitor custom resource as a state machine
    (internal/controller/monitor_controller.go), one step per call. */
module MonitorMachine {
  import opened Wrappers
  import opened Spec
  import opened Strconv
  import opened Store
  import opened Tracking
  import References
  import Tags
  import Translate

  // ------------------------------------------------------------------ resources

  /** Values read from Secrets; "" where the spec has no reference. */
  datatype Secrets = Secrets(
    basicAuthPassword: string,
    bearerToken: string,
    oauthClientSecret: string,
    gamedigToken: string,
    pushToken: string)

  /** A field of the spec that refers to a Secret. */
  datatype SecretRef = BasicAuthPassword | BearerToken | OAuthClientSecret | GamedigToken | PushToken

  function ValueOf(secrets: Secrets, ref: SecretRef): string {
    match ref
    case BasicAuthPassword => secrets.basicAuthPassword
    case BearerToken => secrets.bearerToken
    case OAuthClientSecret => secrets.oauthClientSecret
    case GamedigToken => secrets.gamedigToken
    case PushToken => secrets.pushToken
  }

  function WithValue(secrets: Secrets, ref: SecretRef, value: string): Secrets {
    match ref
    case BasicAuthPassword => secrets.(basicAuthPassword := value)
    case BearerToken => secrets.(bearerToken := value)
    case OAuthClientSecret => secrets.(oauthClientSecret := value)
    case GamedigToken => secrets.(gamedigToken := value)
    case PushToken => secrets.(pushToken := value)
  }

  /** `base` is the spec as toKumaSpec converts it: without ids and secret values. The Secret
      references come in the order they are resolved. */
  datatype CRSpec = CRSpec(
    base: MonitorSpec,
    notifications: seq<string>,
    group: string,
    tags: seq<string>,
    secretRefs: seq<SecretRef>)

  datatype Condition = NoCondition | Ready | SyncFailed(message: string)

  datatype Monitor = Monitor(
    version: int,
    generation: int,
    deleting: bool,
    finalizer: bool,
    foreignFinalizers: bool,
    labels: map<string, string>,
    spec: CRSpec,
    monitorID: string,
    observed: int,
    condition: Condition)

  datatype Config = Config(defaultTags: seq<string>, labelPatterns: seq<string -> bool>)

  const NO_SECRETS := Secrets("", "", "", "", "")

  /** What the API server admits: exactly the sub-spec of the type, no proxy on Push. */
  predicate Admitted(spec: CRSpec) {
    && WellFormed(spec.base)
    && (spec.base.http.Some? <==> spec.base.kind == TYPE_HTTP)
    && (spec.base.tcp.Some? <==> spec.base.kind == TYPE_TCP)
    && (spec.base.ping.Some? <==> spec.base.kind == TYPE_PING)
    && (spec.base.dns.Some? <==> spec.base.kind == TYPE_DNS)
    && (spec.base.gamedig.Some? <==> spec.base.kind == TYPE_GAMEDIG)
    && (spec.base.push.Some? <==> spec.base.kind == TYPE_PUSH)
    && (spec.base.push.Some? ==> spec.base.proxyID.None? && PushToken in spec.secretRefs)
  }

  /** The spec to sync: the converted one with resolved ids and secret values. */
  function Desired(spec: CRSpec, channels: seq<int>, group: Option<int>, secrets: Secrets): MonitorSpec {
    var s := spec.base.(notificationIDs := channels, groupID := group);
    var s := if s.http.None? then s
             else s.(http := Some(s.http.value.(
               basicAuthPassword := secrets.basicAuthPassword,
               bearerToken := secrets.bearerToken,
               oauthClientSecret := secrets.oauthClientSecret)));
    var s := if s.gamedig.None? then s else s.(gamedig := Some(s.gamedig.value.(token := secrets.gamedigToken)));
    if s.push.None? then s else s.(push := Some(s.push.value.(token := secrets.pushToken)))
  }

  function TagNames(cfg: Config, m: Monitor): set<string> {
    (set t | t in cfg.defaultTags) + (set t | t in m.spec.tags) + Tags.LabelTags(m.labels, cfg.labelPatterns)
  }

  // -------------------------------------------------------------------- attempts

  /** What updateStatus is to record. */
  datatype Report = Synced(id: int, desired: MonitorSpec) | Failure(message: string)

  datatype Verdict = Gone | InSync(id: int, desired: MonitorSpec, tags: set<string>) | Error

  datatype Phase =
    | Deleting(id: int)
    | DroppingFinalizer
    | AddingFinalizer
    | AskingChannels
    | AskingGroup(channels: seq<int>)
    | AskingSecrets(channels: seq<int>, group: Option<int>, read: Secrets, next: nat)
    | Listing(id: int, desired: MonitorSpec)
    | Upserting(id: int, desired: MonitorSpec)
    | Reading(report: Report, tries: nat)
    | Writing(report: Report, tries: nat, got: Monitor)
    | Tagging(id: int, desired: MonitorSpec, tags: set<string>)
    | Ended(verdict: Verdict)

  datatype Sent = Sent(source: CRSpec, spec: MonitorSpec)

  datatype Attempt = Attempt(snap: Monitor, created: set<int>, touched: set<int>, phase: Phase)

  /** Everything the reconciles of one Monitor see. `sent` is history: what was
      last sent to Kuma for an id, and the Monitor's spec it was sent for. */
  datatype Local = Local(
    kuma: Kuma,
    latest: int,
    cur: Option<Monitor>,
    attempt: Option<Attempt>,
    secrets: Secrets,
    sent: map<int, Sent>,
    writes: nat)

  // ------------------------------------------------------- from call to next call

  function AfterDelete(snap: Monitor): Phase {
    if snap.finalizer then DroppingFinalizer else Ended(Gone)
  }

  /** A monitor is tracked, and the last synced generation is still the current one. */
  predicate InGeneration(m: Monitor) {
    IDOf(m.monitorID) != 0 && m.observed == m.generation
  }

  function Decide(snap: Monitor, desired: MonitorSpec): Phase {
    var id := IDOf(snap.monitorID);
    if InGeneration(snap) then Listing(id, desired) else Upserting(id, desired)
  }

  /** One read per Secret reference; then the decision. */
  function WithSecrets(snap: Monitor, channels: seq<int>, group: Option<int>, read: Secrets, next: nat): Phase {
    if next < |snap.spec.secretRefs| then AskingSecrets(channels, group, read, next)
    else Decide(snap, Desired(snap.spec, channels, group, read))
  }

  function WithGroup(snap: Monitor, channels: seq<int>, group: Option<int>): Phase {
    WithSecrets(snap, channels, group, NO_SECRETS, 0)
  }

  function WithChannels(snap: Monitor, channels: seq<int>): Phase {
    if snap.spec.group != "" then AskingGroup(channels) else WithGroup(snap, channels, None)
  }

  function Resolve(snap: Monitor): Phase {
    if snap.spec.notifications != [] then AskingChannels else WithChannels(snap, [])
  }

  function Start(snap: Monitor): Phase {
    if snap.deleting then
      match ParseInt(snap.monitorID)
      case Some(id) => Deleting(id)
      case None => AfterDelete(snap)
    else if !snap.finalizer then AddingFinalizer
    else Resolve(snap)
  }

  // ----------------------------------------------------------------------- steps

  datatype Action =
    | Begin
    | Read(ok: bool)
    | Change(outcome: Outcome, message: string)
    | Tag(ok: bool, tags: set<string>)
    | Finish
    | Crash

  function At(l: Local, phase: Phase): Local
    requires l.attempt.Some?
  {
    l.(attempt := Some(l.attempt.value.(phase := phase)))
  }

  function Fail(l: Local): Local
    requires l.attempt.Some?
  {
    var a := l.attempt.value;
    l.(kuma := Orphan(l.kuma, a.created), attempt := Some(a.(created := {}, phase := Ended(Error))))
  }

  /** The status updateStatus wants to see: a failure keeps the id and the generation; 0 is
      not recorded as a generation. */
  function WithStatus(got: Monitor, generation: int, report: Report): Monitor {
    match report
    case Synced(id, _) =>
      got.(monitorID := FormatInt(id), observed := if generation != 0 then generation else got.observed, condition := Ready)
    case Failure(message) => got.(condition := SyncFailed(message))
  }

  /** Tags follow the Monitor as read last. */
  function AfterStatus(cfg: Config, report: Report, seen: Monitor): Phase {
    match report
    case Synced(id, desired) => Tagging(id, desired, TagNames(cfg, seen))
    case Failure(_) => Ended(Error)
  }

  function ReadStep(cfg: Config, l: Local, ok: bool): Local
    requires l.attempt.Some?
  {
    var a := l.attempt.value;
    match a.phase
    case AskingChannels =>
      if !ok then Fail(l)
      else
        (match References.ResolveNotifications(l.kuma.notifications, a.snap.spec.notifications)
         case None => Fail(l)
         case Some(channels) => At(l, WithChannels(a.snap, channels)))
    case AskingGroup(channels) =>
      if !ok then Fail(l)
      else
        (match References.ResolveGroup(l.kuma.groups, a.snap.spec.group)
         case None => Fail(l)
         case Some(group) => At(l, WithGroup(a.snap, channels, group)))
    case AskingSecrets(channels, group, read, next) =>
      if !ok || next >= |a.snap.spec.secretRefs| then Fail(l)
      else
        var ref := a.snap.spec.secretRefs[next];
        At(l, WithSecrets(a.snap, channels, group, WithValue(read, ref, ValueOf(l.secrets, ref)), next + 1))
    case Listing(id, desired) =>
      if !ok then Fail(l)
      else if id !in l.kuma.monitors then At(l, Upserting(0, desired))
      else if Translate.Equivalent(desired, l.kuma.monitors[id]) then At(l, Tagging(id, desired, TagNames(cfg, a.snap)))
      else At(l, Upserting(id, desired))
    case Reading(report, tries) =>
      if !ok || l.cur.None? then Fail(l)
      else if WithStatus(l.cur.value, a.snap.generation, report) == l.cur.value then At(l, AfterStatus(cfg, report, l.cur.value))
      else At(l, Writing(report, tries, l.cur.value))
    case _ => l
  }

  function AnswerTo(cur: Option<Monitor>, got: Monitor): Answer {
    if cur.None? then NotFound
    else if cur.value.version != got.version then Conflict
    else Accepted
  }

  /** A new version; a deleted resource without finalizers disappears. */
  function Accept(l: Local, next: Monitor): Local {
    if next.deleting && !next.finalizer && !next.foreignFinalizers then l.(cur := None, latest := l.latest + 1)
    else l.(cur := Some(next.(version := l.latest + 1)), latest := l.latest + 1)
  }

  function UpsertStep(l: Local, who: Owner, id: int, desired: MonitorSpec, outcome: Outcome, message: string): Local
    requires l.attempt.Some?
  {
    var a := l.attempt.value;
    match Upsert(l.kuma, who, id, desired)
    case None => At(l, Reading(Failure(message), 1))
    case Some((kuma, got)) =>
      var created := if id == 0 then {got} else {};
      var sent := l.sent[got := Sent(a.snap.spec, desired)];
      match outcome
      case Failed => At(l, Reading(Failure(message), 1))
      case Lost => At(l.(kuma := Orphan(kuma, created), sent := sent), Reading(Failure(message), 1))
      case Succeeded =>
        l.(kuma := kuma, sent := sent,
           attempt := Some(a.(created := created, phase := Reading(Synced(got, desired), 1))))
  }

  function WriteStep(cfg: Config, l: Local, report: Report, tries: nat, got: Monitor, outcome: Outcome): Local
    requires l.attempt.Some?
  {
    var a := l.attempt.value;
    match AnswerTo(l.cur, got)
    case Accepted =>
      var recorded := Accept(l, WithStatus(got, a.snap.generation, report)).(attempt := Some(a.(created := {})));
      (match outcome
       case Failed => Fail(l)
       case Lost => Fail(recorded)
       case Succeeded => At(recorded, AfterStatus(cfg, report, got)))
    case Conflict =>
      if outcome.Failed? || tries >= MAX_TRIES then Fail(l) else At(l, Reading(report, tries + 1))
    case _ => Fail(l)
  }

  function FinalizerStep(l: Local, finalizer: bool, next: Phase, outcome: Outcome): Local
    requires l.attempt.Some?
  {
    var a := l.attempt.value;
    match AnswerTo(l.cur, a.snap)
    case Accepted =>
      var recorded := Accept(l, a.snap.(finalizer := finalizer));
      (match outcome
       case Failed => Fail(l)
       case Lost => Fail(recorded)
       case Succeeded =>
         recorded.(attempt := Some(a.(snap := if recorded.cur.Some? then recorded.cur.value else a.snap, phase := next))))
    case _ => Fail(l)
  }

  function ChangeStep(cfg: Config, l: Local, who: Owner, outcome: Outcome, message: string): Local
    requires l.attempt.Some?
  {
    var a := l.attempt.value;
    match a.phase
    case Deleting(id) =>
      (match outcome
       case Failed => Fail(l)
       case Lost => Fail(l.(kuma := Delete(l.kuma, id)))
       case Succeeded => At(l.(kuma := Delete(l.kuma, id)), AfterDelete(a.snap)))
    case DroppingFinalizer => FinalizerStep(l, false, Ended(Gone), outcome)
    case AddingFinalizer =>
      if l.cur.Some? && l.cur.value.deleting then Fail(l)
      else FinalizerStep(l, true, Resolve(a.snap), outcome)
    case Upserting(id, desired) => UpsertStep(l, who, id, desired, outcome, message)
    case Writing(report, tries, got) => WriteStep(cfg, l, report, tries, got, outcome)
    case _ => l
  }

  function TagStep(l: Local, ok: bool, tags: set<string>): Local
    requires l.attempt.Some?
  {
    match l.attempt.value.phase
    case Tagging(id, desired, wanted) =>
      if ok then At(l.(kuma := SetTags(l.kuma, id, wanted)), Ended(InSync(id, desired, wanted)))
      else Fail(l.(kuma := SetTags(l.kuma, id, tags)))
    case _ => l
  }

  function Step(cfg: Config, who: Owner, l: Local, action: Action): Local {
    match action
    case Begin =>
      if l.attempt.Some? || l.cur.None? then l
      else l.(attempt := Some(Attempt(l.cur.value, {}, {}, Start(l.cur.value))))
    case Read(ok) => if l.attempt.None? then l else ReadStep(cfg, l, ok)
    case Change(outcome, message) =>
      if l.attempt.None? then l
      else
        var after := ChangeStep(cfg, l, who, outcome, message);
        if after == l then l else after.(writes := l.writes + 1)
    case Tag(ok, tags) => if l.attempt.None? then l else TagStep(l, ok, tags)
    case Finish => if l.attempt.Some? && l.attempt.value.phase.Ended? then l.(attempt := None) else l
    case Crash => if l.attempt.None? then l else Fail(l).(attempt := None)
  }

  // ------------------------------------------------------------- the user's steps

  datatype UserAction =
    | Create(spec: CRSpec, labels: map<string, string>, foreignFinalizers: bool)
    | Edit(spec: CRSpec)
    | Touch(labels: map<string, string>, foreignFinalizers: bool)
    | SetSecrets(secrets: Secrets)
    | Remove

  /** A changed spec and a deletion each start a new generation. */
  function UserStep(l: Local, action: UserAction): Local {
    var version := l.latest + 1;
    match action
    case Create(spec, labels, foreign) =>
      if l.cur.Some? || !Admitted(spec) then l
      else l.(cur := Some(Monitor(version, 1, false, false, foreign, labels, spec, "", 0, NoCondition)), latest := version)
    case Edit(spec) =>
      if l.cur.None? || !Admitted(spec) || l.cur.value.spec == spec then l
      else
        var m := l.cur.value;
        l.(cur := Some(m.(spec := spec, generation := m.generation + 1, version := version)), latest := version)
    case Touch(labels, foreign) =>
      if l.cur.None? then l
      else if l.cur.value.deleting && !l.cur.value.finalizer && !foreign then l.(cur := None, latest := version)
      else l.(cur := Some(l.cur.value.(labels := labels, foreignFinalizers := foreign, version := version)), latest := version)
    case SetSecrets(secrets) => l.(secrets := secrets)
    case Remove =>
      if l.cur.None? then l
      else if !l.cur.value.finalizer && !l.cur.value.foreignFinalizers then l.(cur := None, latest := version)
      else if l.cur.value.deleting then l
      else
        var m := l.cur.value;
        l.(cur := Some(m.(deleting := true, generation := m.generation + 1, version := version)), latest := version)
  }
}
