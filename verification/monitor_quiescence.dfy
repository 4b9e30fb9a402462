/** Convergence of a Monitor: an undisturbed reconcile that ends well leaves it settled, and
    a settled Monitor causes no more writes. */
module MonitorQuiescence {
  import opened Wrappers
  import opened Spec
  import opened Strconv
  import opened Store
  import opened Tracking
  import opened MonitorMachine
  import opened MonitorInvariant
  import MonitorStability
  import References
  import Translate

  /** What the first n Secret references read as. */
  function ReadFirst(refs: seq<SecretRef>, n: nat, secrets: Secrets): Secrets
    requires n <= |refs|
  {
    if n == 0 then NO_SECRETS
    else WithValue(ReadFirst(refs, n - 1, secrets), refs[n - 1], ValueOf(secrets, refs[n - 1]))
  }

  /** The spec a reconcile of `m` would sync, with channels, groups and Secrets as they are. */
  function DesiredNow(k: Kuma, secrets: Secrets, m: Monitor): Option<MonitorSpec> {
    match References.ResolveNotifications(k.notifications, m.spec.notifications)
    case None => None
    case Some(channels) =>
      match References.ResolveGroup(k.groups, m.spec.group)
      case None => None
      case Some(group) => Some(Desired(m.spec, channels, group, ReadFirst(m.spec.secretRefs, |m.spec.secretRefs|, secrets)))
  }

  /** The Monitor read is live, and this is what it asks for. */
  predicate Serves(k: Kuma, secrets: Secrets, snap: Monitor, desired: MonitorSpec) {
    !snap.deleting && DesiredNow(k, secrets, snap) == Some(desired)
  }

  predicate ReportOnCourse(k: Kuma, secrets: Secrets, snap: Monitor, report: Report) {
    !snap.deleting && (report.Synced? ==> DesiredNow(k, secrets, snap) == Some(report.desired))
  }

  /** What an attempt is about to do serves the Monitor as it was read, as long as Kuma's
      channels and groups and the Secrets stay. */
  predicate Course(k: Kuma, secrets: Secrets, a: Attempt) {
    match a.phase
    case Deleting(_) => a.snap.deleting
    case DroppingFinalizer => a.snap.deleting
    case AddingFinalizer => !a.snap.deleting
    case AskingChannels => !a.snap.deleting && a.snap.spec.notifications != []
    case AskingGroup(channels) =>
      !a.snap.deleting && a.snap.spec.group != "" && References.ResolveNotifications(k.notifications, a.snap.spec.notifications) == Some(channels)
    case AskingSecrets(channels, group, read, next) =>
      && !a.snap.deleting
      && next < |a.snap.spec.secretRefs| && read == ReadFirst(a.snap.spec.secretRefs, next, secrets)
      && References.ResolveNotifications(k.notifications, a.snap.spec.notifications) == Some(channels)
      && References.ResolveGroup(k.groups, a.snap.spec.group) == Some(group)
    case Listing(_, desired) => Serves(k, secrets, a.snap, desired)
    case Upserting(_, desired) => Serves(k, secrets, a.snap, desired)
    case Reading(report, _) => ReportOnCourse(k, secrets, a.snap, report)
    case Writing(report, _, _) => ReportOnCourse(k, secrets, a.snap, report)
    case Tagging(_, desired, _) => Serves(k, secrets, a.snap, desired)
    case Ended(verdict) =>
      match verdict
      case Gone => a.snap.deleting
      case InSync(_, desired, _) => Serves(k, secrets, a.snap, desired)
      case Error => true
  }

  predicate OnCourse(l: Local) {
    l.attempt.Some? ==> Course(l.kuma, l.secrets, l.attempt.value)
  }

  lemma SecretsCourse(k: Kuma, secrets: Secrets, a: Attempt, channels: seq<int>, group: Option<int>, next: nat)
    requires !a.snap.deleting && References.ResolveNotifications(k.notifications, a.snap.spec.notifications) == Some(channels)
    requires References.ResolveGroup(k.groups, a.snap.spec.group) == Some(group)
    requires next <= |a.snap.spec.secretRefs|
    ensures
      var read := ReadFirst(a.snap.spec.secretRefs, next, secrets);
      Course(k, secrets, a.(phase := WithSecrets(a.snap, channels, group, read, next)))
  {}

  lemma GroupCourse(k: Kuma, secrets: Secrets, a: Attempt, channels: seq<int>, group: Option<int>)
    requires !a.snap.deleting && References.ResolveNotifications(k.notifications, a.snap.spec.notifications) == Some(channels)
    requires References.ResolveGroup(k.groups, a.snap.spec.group) == Some(group)
    ensures Course(k, secrets, a.(phase := WithGroup(a.snap, channels, group)))
  {
    SecretsCourse(k, secrets, a, channels, group, 0);
  }

  lemma ChannelsCourse(k: Kuma, secrets: Secrets, a: Attempt, channels: seq<int>)
    requires !a.snap.deleting && References.ResolveNotifications(k.notifications, a.snap.spec.notifications) == Some(channels)
    ensures Course(k, secrets, a.(phase := WithChannels(a.snap, channels)))
  {
    if a.snap.spec.group == "" {
      GroupCourse(k, secrets, a, channels, None);
    }
  }

  lemma ResolveCourse(k: Kuma, secrets: Secrets, a: Attempt)
    requires !a.snap.deleting
    ensures Course(k, secrets, a.(phase := Resolve(a.snap)))
  {
    if a.snap.spec.notifications == [] {
      ChannelsCourse(k, secrets, a, []);
    }
  }

  lemma StartCourse(k: Kuma, secrets: Secrets, a: Attempt)
    requires a.phase == Start(a.snap)
    ensures Course(k, secrets, a)
  {
    if !a.snap.deleting {
      ResolveCourse(k, secrets, a);
    }
  }

  predicate SameReferences(a: Kuma, b: Kuma) {
    a.notifications == b.notifications && a.groups == b.groups
  }

  lemma CourseStable(a: Kuma, b: Kuma, secrets: Secrets, attempt: Attempt, other: Attempt)
    requires SameReferences(a, b) && Course(a, secrets, attempt) && other.snap == attempt.snap && other.phase == attempt.phase
    ensures Course(b, secrets, other)
  {}

  lemma AskedCourse(cfg: Config, l: Local)
    requires l.attempt.Some? && OnCourse(l)
    requires var p := l.attempt.value.phase; p.AskingChannels? || p.AskingGroup? || p.AskingSecrets?
    ensures OnCourse(ReadStep(cfg, l, true))
  {
    var a := l.attempt.value;
    match a.phase
    case AskingChannels =>
      var channels := References.ResolveNotifications(l.kuma.notifications, a.snap.spec.notifications);
      if channels.Some? {
        ChannelsCourse(l.kuma, l.secrets, a, channels.value);
      }
    case AskingGroup(channels) =>
      var group := References.ResolveGroup(l.kuma.groups, a.snap.spec.group);
      if group.Some? {
        GroupCourse(l.kuma, l.secrets, a, channels, group.value);
      }
    case AskingSecrets(channels, group, read, next) =>
      SecretsCourse(l.kuma, l.secrets, a, channels, group, next + 1);
  }

  lemma ReadCourse(cfg: Config, l: Local, ok: bool)
    requires l.attempt.Some? && OnCourse(l)
    ensures OnCourse(ReadStep(cfg, l, ok))
  {
    var p := l.attempt.value.phase;
    if ok && (p.AskingChannels? || p.AskingGroup? || p.AskingSecrets?) {
      AskedCourse(cfg, l);
    }
  }

  lemma UpsertContinues(l: Local, who: Owner, id: int, desired: MonitorSpec, outcome: Outcome, message: string)
    requires l.attempt.Some? && Serves(l.kuma, l.secrets, l.attempt.value.snap, desired)
    ensures OnCourse(UpsertStep(l, who, id, desired, outcome, message))
  {}

  lemma WriteContinues(cfg: Config, l: Local, report: Report, tries: nat, got: Monitor, outcome: Outcome)
    requires l.attempt.Some? && ReportOnCourse(l.kuma, l.secrets, l.attempt.value.snap, report)
    ensures OnCourse(WriteStep(cfg, l, report, tries, got, outcome))
  {}

  lemma AddedContinues(cfg: Config, l: Local, outcome: Outcome)
    requires l.attempt.Some? && !l.attempt.value.snap.deleting
    ensures OnCourse(FinalizerStep(l, true, Resolve(l.attempt.value.snap), outcome))
  {
    var after := FinalizerStep(l, true, Resolve(l.attempt.value.snap), outcome);
    if after.attempt.value.phase != Ended(Error) {
      var b := after.attempt.value;
      assert Resolve(b.snap) == Resolve(l.attempt.value.snap);
      ResolveCourse(l.kuma, l.secrets, b);
    }
  }

  lemma DroppedContinues(l: Local, outcome: Outcome)
    requires l.attempt.Some? && l.attempt.value.snap.deleting
    ensures OnCourse(FinalizerStep(l, false, Ended(Gone), outcome))
  {}

  lemma ChangeCourse(cfg: Config, l: Local, who: Owner, outcome: Outcome, message: string)
    requires l.attempt.Some? && OnCourse(l)
    ensures OnCourse(ChangeStep(cfg, l, who, outcome, message))
  {
    var phase := l.attempt.value.phase;
    if phase.Upserting? {
      UpsertContinues(l, who, phase.id, phase.desired, outcome, message);
    } else if phase.Writing? {
      WriteContinues(cfg, l, phase.report, phase.tries, phase.got, outcome);
    } else if phase.AddingFinalizer? {
      AddedContinues(cfg, l, outcome);
    } else if phase.DroppingFinalizer? {
      DroppedContinues(l, outcome);
    }
  }

  lemma TagCourse(l: Local, ok: bool, tags: set<string>)
    requires l.attempt.Some? && OnCourse(l)
    ensures OnCourse(TagStep(l, ok, tags))
  {}

  /** A reconcile stays on course through every step of its own. */
  lemma StepCourse(cfg: Config, who: Owner, l: Local, action: Action)
    requires OnCourse(l)
    ensures OnCourse(Step(cfg, who, l, action))
  {
    if l.attempt.Some? {
      match action {
        case Begin =>
        case Read(ok) => ReadCourse(cfg, l, ok);
        case Change(outcome, message) => ChangeCourse(cfg, l, who, outcome, message);
        case Tag(ok, tags) => TagCourse(l, ok, tags);
        case Finish =>
        case Crash =>
      }
    } else if action.Begin? && l.cur.Some? {
      StartCourse(l.kuma, l.secrets, Attempt(l.cur.value, {}, {}, Start(l.cur.value)));
    }
  }

  // ----------------------------------------------------------------------- tags

  predicate Asks(m: Monitor, spec: CRSpec, labels: map<string, string>) {
    m.spec == spec && m.labels == labels
  }

  /** As long as spec and labels stay, the attempt is about to set, or has set, the tags they
      ask for: default, explicit and label-derived. */
  predicate TagsOnCourse(cfg: Config, l: Local, spec: CRSpec, labels: map<string, string>) {
    && (l.cur.Some? ==> Asks(l.cur.value, spec, labels))
    && (l.attempt.Some? ==>
          var a := l.attempt.value;
          && Asks(a.snap, spec, labels)
          && (a.phase.Writing? ==> Asks(a.phase.got, spec, labels))
          && (a.phase.Tagging? ==> a.phase.tags == TagNames(cfg, a.snap))
          && (a.phase.Ended? && a.phase.verdict.InSync? ==> a.phase.verdict.tags == TagNames(cfg, a.snap)))
  }

  /** Tags depend on spec and labels only. */
  lemma SameTagNames(cfg: Config, a: Monitor, b: Monitor)
    requires Asks(a, b.spec, b.labels)
    ensures TagNames(cfg, a) == TagNames(cfg, b)
  {}

  lemma AskedTags(cfg: Config, l: Local, ok: bool)
    requires l.attempt.Some? && (!ok || (!l.attempt.value.phase.Listing? && !l.attempt.value.phase.Reading?))
    ensures
      var a, after := l.attempt.value, ReadStep(cfg, l, ok);
      && after.cur == l.cur && after.attempt.Some? && after.attempt.value.snap == a.snap
      && (after.attempt.value.phase == a.phase || after.attempt.value.phase == Ended(Error)
          || (!after.attempt.value.phase.Writing? && !after.attempt.value.phase.Tagging? && !after.attempt.value.phase.Ended?))
  {}

  lemma ReadTags(cfg: Config, l: Local, ok: bool, spec: CRSpec, labels: map<string, string>)
    requires l.attempt.Some? && TagsOnCourse(cfg, l, spec, labels)
    ensures TagsOnCourse(cfg, ReadStep(cfg, l, ok), spec, labels)
  {
    if !ok || (!l.attempt.value.phase.Listing? && !l.attempt.value.phase.Reading?) {
      AskedTags(cfg, l, ok);
    } else {
      if l.cur.Some? {
        SameTagNames(cfg, l.cur.value, l.attempt.value.snap);
      }
    }
  }

  lemma WriteTags(cfg: Config, l: Local, report: Report, tries: nat, got: Monitor, outcome: Outcome, spec: CRSpec, labels: map<string, string>)
    requires l.attempt.Some? && TagsOnCourse(cfg, l, spec, labels) && Asks(got, spec, labels)
    ensures TagsOnCourse(cfg, WriteStep(cfg, l, report, tries, got, outcome), spec, labels)
  {
    SameTagNames(cfg, got, l.attempt.value.snap);
  }

  lemma FinalizerTags(cfg: Config, l: Local, finalizer: bool, next: Phase, outcome: Outcome, spec: CRSpec, labels: map<string, string>)
    requires l.attempt.Some? && TagsOnCourse(cfg, l, spec, labels)
    requires !next.Writing? && !next.Tagging? && (next.Ended? ==> !next.verdict.InSync?)
    ensures TagsOnCourse(cfg, FinalizerStep(l, finalizer, next, outcome), spec, labels)
  {}

  lemma ChangeTags(cfg: Config, who: Owner, l: Local, outcome: Outcome, message: string, spec: CRSpec, labels: map<string, string>)
    requires l.attempt.Some? && TagsOnCourse(cfg, l, spec, labels)
    ensures TagsOnCourse(cfg, ChangeStep(cfg, l, who, outcome, message), spec, labels)
  {
    var phase := l.attempt.value.phase;
    if phase.Writing? {
      WriteTags(cfg, l, phase.report, phase.tries, phase.got, outcome, spec, labels);
    } else if phase.AddingFinalizer? {
      FinalizerTags(cfg, l, true, Resolve(l.attempt.value.snap), outcome, spec, labels);
    } else if phase.DroppingFinalizer? {
      FinalizerTags(cfg, l, false, Ended(Gone), outcome, spec, labels);
    }
  }

  /** Every step of the reconcile keeps to these tags. */
  lemma StepTags(cfg: Config, who: Owner, l: Local, action: Action, spec: CRSpec, labels: map<string, string>)
    requires TagsOnCourse(cfg, l, spec, labels)
    ensures TagsOnCourse(cfg, Step(cfg, who, l, action), spec, labels)
  {
    if l.attempt.Some? {
      match action {
        case Read(ok) => ReadTags(cfg, l, ok, spec, labels);
        case Change(outcome, message) => ChangeTags(cfg, who, l, outcome, message, spec, labels);
        case _ =>
      }
    }
  }

  /** The user leaves spec and labels as they are. */
  predicate KeepsAsking(action: UserAction, spec: CRSpec, labels: map<string, string>) {
    match action
    case Create(s, ls, _) => s == spec && ls == labels
    case Edit(s) => s == spec
    case Touch(ls, _) => ls == labels
    case SetSecrets(_) => true
    case Remove => true
  }

  lemma UserTags(cfg: Config, l: Local, action: UserAction, spec: CRSpec, labels: map<string, string>)
    requires TagsOnCourse(cfg, l, spec, labels) && KeepsAsking(action, spec, labels)
    ensures TagsOnCourse(cfg, UserStep(l, action), spec, labels)
  {}

  // -------------------------------------------------------------------- settled

  /** Phases in which an attempt does not write. */
  predicate Quiet(phase: Phase, id: int) {
    || phase.AskingChannels? || phase.AskingGroup? || phase.AskingSecrets? || phase.Tagging? || phase.Ended?
    || (phase.Listing? && phase.id == id)
  }

  /** Everything a reconcile looks at, tags aside, is the same. */
  predicate SameContent(a: Monitor, b: Monitor) {
    && a.spec == b.spec && a.generation == b.generation && a.deleting == b.deleting
    && a.monitorID == b.monitorID && a.observed == b.observed && a.finalizer == b.finalizer
  }

  /** The Monitor is live, its generation is synced, its monitor is configured as it now asks
      for, and no attempt in progress is about to write. */
  ghost predicate Settled(l: Local, m: Monitor, desired: MonitorSpec) {
    && l.cur == Some(m) && !m.deleting && m.finalizer && m.observed == m.generation
    && IDOf(m.monitorID) != 0 && DesiredNow(l.kuma, l.secrets, m) == Some(desired)
    && IDOf(m.monitorID) in l.kuma.monitors && Translate.Equivalent(desired, l.kuma.monitors[IDOf(m.monitorID)])
    && (l.attempt.Some? ==>
          var a := l.attempt.value;
          a.created == {} && Quiet(a.phase, IDOf(m.monitorID)) && Course(l.kuma, l.secrets, a) && SameContent(a.snap, m))
  }

  lemma DecideIsQuiet(snap: Monitor, desired: MonitorSpec, channels: seq<int>, group: Option<int>)
    requires IDOf(snap.monitorID) != 0 && snap.observed == snap.generation
    ensures Quiet(Decide(snap, desired), IDOf(snap.monitorID))
    ensures Quiet(WithGroup(snap, channels, group), IDOf(snap.monitorID))
    ensures Quiet(WithChannels(snap, channels), IDOf(snap.monitorID))
    ensures Quiet(Resolve(snap), IDOf(snap.monitorID))
  {}

  lemma SecretsAreQuiet(snap: Monitor, channels: seq<int>, group: Option<int>, read: Secrets, next: nat)
    requires IDOf(snap.monitorID) != 0 && snap.observed == snap.generation
    ensures Quiet(WithSecrets(snap, channels, group, read, next), IDOf(snap.monitorID))
  {}

  lemma SettledAsked(cfg: Config, l: Local, m: Monitor, desired: MonitorSpec)
    requires Settled(l, m, desired) && l.attempt.Some?
    requires var p := l.attempt.value.phase; p.AskingChannels? || p.AskingGroup? || p.AskingSecrets?
    ensures Settled(ReadStep(cfg, l, true), m, desired)
  {
    AskedCourse(cfg, l);
    assert Orphan(l.kuma, {}) == l.kuma;
    var a := l.attempt.value;
    match a.phase {
      case AskingChannels =>
        var channels := References.ResolveNotifications(l.kuma.notifications, a.snap.spec.notifications);
        if channels.Some? {
          DecideIsQuiet(a.snap, desired, channels.value, None);
        }
      case AskingGroup(channels) =>
        var group := References.ResolveGroup(l.kuma.groups, a.snap.spec.group);
        if group.Some? {
          DecideIsQuiet(a.snap, desired, channels, group.value);
        }
      case AskingSecrets(channels, group, read, next) =>
        var ref := a.snap.spec.secretRefs[next];
        SecretsAreQuiet(a.snap, channels, group, WithValue(read, ref, ValueOf(l.secrets, ref)), next + 1);
    }
  }

  lemma SettledListed(cfg: Config, l: Local, m: Monitor, desired: MonitorSpec)
    requires Settled(l, m, desired) && l.attempt.Some? && l.attempt.value.phase.Listing?
    ensures Settled(ReadStep(cfg, l, true), m, desired)
  {
    var a := l.attempt.value;
    assert DesiredNow(l.kuma, l.secrets, a.snap) == DesiredNow(l.kuma, l.secrets, m);
  }

  lemma SettledRead(cfg: Config, l: Local, m: Monitor, desired: MonitorSpec, ok: bool)
    requires Settled(l, m, desired) && l.attempt.Some?
    ensures Settled(ReadStep(cfg, l, ok), m, desired)
  {
    var phase := l.attempt.value.phase;
    if phase.AskingChannels? || phase.AskingGroup? || phase.AskingSecrets? || phase.Listing? {
      if !ok {
        SettledFail(l, m, desired);
      } else if phase.Listing? {
        SettledListed(cfg, l, m, desired);
      } else {
        SettledAsked(cfg, l, m, desired);
      }
    }
  }

  lemma SettledFail(l: Local, m: Monitor, desired: MonitorSpec)
    requires Settled(l, m, desired) && l.attempt.Some?
    ensures Settled(Fail(l), m, desired) && Settled(Fail(l).(attempt := None), m, desired)
  {}

  lemma SettledTag(l: Local, m: Monitor, desired: MonitorSpec, ok: bool, tags: set<string>)
    requires Settled(l, m, desired) && l.attempt.Some?
    ensures Settled(TagStep(l, ok, tags), m, desired)
  {
    TagCourse(l, ok, tags);
  }

  lemma SettledBegin(cfg: Config, who: Owner, l: Local, m: Monitor, desired: MonitorSpec)
    requires Settled(l, m, desired) && l.attempt.None?
    ensures Settled(Step(cfg, who, l, Begin), m, desired)
  {
    StartCourse(l.kuma, l.secrets, Attempt(m, {}, {}, Start(m)));
    DecideIsQuiet(m, desired, [], None);
  }

  lemma QuietChange(cfg: Config, who: Owner, l: Local, id: int, outcome: Outcome, message: string)
    requires l.attempt.Some? && Quiet(l.attempt.value.phase, id)
    ensures Step(cfg, who, l, Change(outcome, message)) == l
  {
    assert ChangeStep(cfg, l, who, outcome, message) == l;
  }

  lemma WritesOf(cfg: Config, who: Owner, l: Local, action: Action)
    requires !action.Change?
    ensures Step(cfg, who, l, action).writes == l.writes
  {}

  /** Reconciling a settled Monitor, however its calls fail, leaves it settled: no Upsert, no
      Delete and no Update is made. */
  lemma SettledStep(cfg: Config, who: Owner, l: Local, m: Monitor, desired: MonitorSpec, action: Action)
    requires Settled(l, m, desired)
    ensures Settled(Step(cfg, who, l, action), m, desired) && Step(cfg, who, l, action).writes == l.writes
    ensures Step(cfg, who, l, action).cur == l.cur
  {
    if !action.Change? {
      WritesOf(cfg, who, l, action);
    }
    if l.attempt.None? {
      SettledBegin(cfg, who, l, m, desired);
    } else {
      match action {
        case Begin =>
        case Read(ok) => SettledRead(cfg, l, m, desired, ok);
        case Change(outcome, message) => QuietChange(cfg, who, l, IDOf(m.monitorID), outcome, message);
        case Tag(ok, tags) => SettledTag(l, m, desired, ok, tags);
        case Finish =>
        case Crash => SettledFail(l, m, desired);
      }
    }
  }

  /** Others acting leaves it settled unless they touch its monitor, channels or groups. */
  lemma SettledShift(l: Local, m: Monitor, desired: MonitorSpec, k: Kuma, latest: int, touched: set<int>)
    requires Settled(l, m, desired) && SameReferences(l.kuma, k)
    requires var id := IDOf(m.monitorID); id in k.monitors && k.monitors[id] == l.kuma.monitors[id]
    ensures Settled(MonitorStability.Shifted(l, k, latest, touched), m, desired)
  {
    if l.attempt.Some? {
      CourseStable(l.kuma, k, l.secrets, l.attempt.value, MonitorStability.Shifted(l, k, latest, touched).attempt.value);
    }
  }

  /** Labels and other metadata leave it settled, under its new version. */
  lemma SettledTouch(l: Local, m: Monitor, desired: MonitorSpec, labels: map<string, string>, foreign: bool)
    requires Settled(l, m, desired)
    ensures
      var after := UserStep(l, Touch(labels, foreign));
      after.cur.Some? && SameContent(after.cur.value, m) && Settled(after, after.cur.value, desired) && after.writes == l.writes
  {}

  /** An attempt that ended well, and was not disturbed, leaves the Monitor settled, its
      monitor configured as desired and tagged with exactly the names it asks for. */
  lemma Converges(cfg: Config, who: Owner, l: Local, id: int, desired: MonitorSpec, tags: set<string>)
    requires Valid(l.kuma) && Inv(who, l) && OnCourse(l)
    requires l.attempt.Some? && l.attempt.value.phase == Ended(InSync(id, desired, tags))
    requires l.cur.value.generation == l.attempt.value.snap.generation && !l.cur.value.deleting
    requires id !in l.attempt.value.touched
    ensures Settled(l.(attempt := None), l.cur.value, desired) && IDOf(l.cur.value.monitorID) == id
    ensures TagsOn(l.kuma, id) == tags
    ensures TagsOnCourse(cfg, l, l.cur.value.spec, l.cur.value.labels) ==> TagsOn(l.kuma, id) == TagNames(cfg, l.cur.value)
  {
    assert Recorded(l, l.attempt.value, id, desired);
    assert Canonical(l.kuma, who, l.cur.value.monitorID);
    assert DesiredNow(l.kuma, l.secrets, l.attempt.value.snap) == DesiredNow(l.kuma, l.secrets, l.cur.value);
    if TagsOnCourse(cfg, l, l.cur.value.spec, l.cur.value.labels) {
      SameTagNames(cfg, l.attempt.value.snap, l.cur.value);
    }
  }

  /** A reconcile of a live Monitor ends in sync or with an error, and one of a deleted Monitor
      never in sync. */
  lemma VerdictFits(l: Local)
    requires OnCourse(l) && l.attempt.Some? && l.attempt.value.phase.Ended? && l.attempt.value.phase.verdict != Error
    ensures l.attempt.value.phase.verdict.InSync? <==> !l.attempt.value.snap.deleting
  {}
}
