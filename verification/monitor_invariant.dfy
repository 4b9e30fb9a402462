/** What holds of one Monitor custom resource in every reachable state. */
module MonitorInvariant {
  import opened Wrappers
  import opened Spec
  import opened Strconv
  import opened Store
  import opened Tracking
  import opened MonitorMachine
  import Translate
  import References

  /** The ids are those of the spec's notification names, in some table of channels. */
  ghost predicate ChannelsOf(spec: CRSpec, channels: seq<int>) {
    exists known :: References.ResolveNotifications(known, spec.notifications) == Some(channels)
  }

  ghost predicate GroupOf(spec: CRSpec, group: Option<int>) {
    exists groups :: References.ResolveGroup(groups, spec.group) == Some(group)
  }

  /** Nothing but the references of the spec has a value. */
  ghost predicate OnlyReferenced(spec: CRSpec, secrets: Secrets) {
    forall ref :: ref !in spec.secretRefs ==> ValueOf(secrets, ref) == ""
  }

  ghost predicate ConvertedWith(spec: CRSpec, s: MonitorSpec, secrets: Secrets) {
    && ChannelsOf(spec, s.notificationIDs) && GroupOf(spec, s.groupID) && OnlyReferenced(spec, secrets)
    && s == Desired(spec, s.notificationIDs, s.groupID, secrets)
  }

  /** `s` is the conversion of `spec`: its names resolved in some state of Kuma, and the values
      of its Secret references and of no others. */
  ghost predicate Converts(spec: CRSpec, s: MonitorSpec) {
    exists secrets :: ConvertedWith(spec, s, secrets)
  }

  lemma DesiredConverts(spec: CRSpec, channels: seq<int>, group: Option<int>, secrets: Secrets)
    requires ChannelsOf(spec, channels) && GroupOf(spec, group) && OnlyReferenced(spec, secrets)
    ensures Converts(spec, Desired(spec, channels, group, secrets))
  {
    assert ConvertedWith(spec, Desired(spec, channels, group, secrets), secrets);
  }

  ghost predicate Tracks(m: Monitor, id: int) {
    m.monitorID != "" && IDOf(m.monitorID) == id
  }

  /** The monitor tracked, if any, no longer exists. */
  ghost predicate TrackedGone(k: Kuma, m: Monitor) {
    m.monitorID != "" ==> IDOf(m.monitorID) !in k.monitors
  }

  /** What was last sent for the id was sent for exactly this spec and converts it. */
  ghost predicate SentFor(sent: map<int, Sent>, id: int, spec: CRSpec) {
    id in sent && sent[id].source == spec && Converts(spec, sent[id].spec)
  }

  /** At the observed generation, what was last sent for the tracked id was sent for the
      current spec, whole, and is its conversion. */
  ghost predicate UpToDate(sent: map<int, Sent>, m: Monitor) {
    m.monitorID != "" && m.observed == m.generation ==> SentFor(sent, IDOf(m.monitorID), m.spec)
  }

  ghost predicate MonitorInv(k: Kuma, who: Owner, sent: map<int, Sent>, m: Monitor) {
    && Admitted(m.spec)
    && 1 <= m.generation && 0 <= m.observed <= m.generation
    && (m.monitorID == "" ==> m.observed == 0)
    && (m.monitorID != "" ==> Canonical(k, who, m.monitorID))
    && UpToDate(sent, m)
    && (!m.deleting && !m.finalizer ==> m.monitorID == "")
    && (!m.finalizer ==> TrackedGone(k, m))
  }

  /** The current Monitor against the one the attempt read, until the attempt records
      something: the same status, and the same spec unless the generation moved on; or the
      Monitor had no finalizer and was replaced. */
  ghost predicate Linked(cur: Option<Monitor>, snap: Monitor) {
    if snap.finalizer then
      && cur.Some? && cur.value.finalizer
      && cur.value.monitorID == snap.monitorID && cur.value.observed == snap.observed
      && snap.generation <= cur.value.generation
      && (cur.value.generation == snap.generation ==> cur.value.spec == snap.spec)
    else
      || cur.None?
      || (!cur.value.finalizer && (cur.value.monitorID == "" || cur.value.monitorID == snap.monitorID))
  }

  ghost predicate VersionInv(l: Local, m: Monitor) {
    m.version <= l.latest && (l.cur.Some? && l.cur.value.version == m.version ==> l.cur.value == m)
  }

  /** The monitor holds the desired configuration, unless someone touched it meanwhile. */
  ghost predicate Configured(k: Kuma, touched: set<int>, desired: MonitorSpec, id: int) {
    id in touched || (id in k.monitors && Translate.Equivalent(desired, k.monitors[id]))
  }

  /** A live Monitor that carries the finalizer, with nothing created yet. */
  ghost predicate Live(a: Attempt) {
    a.created == {} && !a.snap.deleting && a.snap.finalizer
  }

  /** The monitor is upserted: it is the tracked one, or the only one created, and then the
      tracked one no longer exists. */
  ghost predicate SyncedInv(who: Owner, l: Local, a: Attempt, id: int, desired: MonitorSpec) {
    && !a.snap.deleting && a.snap.finalizer
    && Owned(l.kuma, who, id) && ParseInt(FormatInt(id)) == Some(id) && FormatInt(id) != ""
    && id in l.sent && l.sent[id] == Sent(a.snap.spec, desired) && Converts(a.snap.spec, desired)
    && Configured(l.kuma, a.touched, desired, id)
    && (if Tracks(a.snap, id) then a.created == {} else a.created == {id} && TrackedGone(l.kuma, a.snap))
  }

  ghost predicate ReportInv(who: Owner, l: Local, a: Attempt, report: Report) {
    match report
    case Synced(id, desired) => SyncedInv(who, l, a, id, desired)
    case Failure(_) => a.created == {}
  }

  ghost predicate Recorded(l: Local, a: Attempt, id: int, desired: MonitorSpec) {
    && a.created == {}
    && l.cur.Some? && Tracks(l.cur.value, id) && l.cur.value.finalizer && l.cur.value.observed == a.snap.generation
    && a.snap.generation <= l.cur.value.generation
    && (l.cur.value.generation == a.snap.generation ==> l.cur.value.spec == a.snap.spec)
    && Converts(a.snap.spec, desired) && Configured(l.kuma, a.touched, desired, id)
  }

  predicate Open(phase: Phase) {
    !phase.Tagging? && !phase.Ended?
  }

  ghost predicate PhaseInv(who: Owner, l: Local, a: Attempt) {
    match a.phase
    case Deleting(id) => a.created == {} && a.snap.deleting && Tracks(a.snap, id)
    case DroppingFinalizer => a.created == {} && a.snap.deleting && a.snap.finalizer && TrackedGone(l.kuma, a.snap)
    case AddingFinalizer => a.created == {} && !a.snap.deleting && !a.snap.finalizer
    case AskingChannels => Live(a)
    case AskingGroup(channels) => Live(a) && ChannelsOf(a.snap.spec, channels)
    case AskingSecrets(channels, group, read, next) =>
      Live(a) && ChannelsOf(a.snap.spec, channels) && GroupOf(a.snap.spec, group) && OnlyReferenced(a.snap.spec, read)
    case Listing(id, desired) =>
      Live(a) && Tracks(a.snap, id) && a.snap.observed == a.snap.generation && Converts(a.snap.spec, desired)
    case Upserting(id, desired) =>
      Live(a) && Converts(a.snap.spec, desired) && (if id == 0 then TrackedGone(l.kuma, a.snap) else Tracks(a.snap, id))
    case Reading(report, _) => ReportInv(who, l, a, report)
    case Writing(report, _, got) => ReportInv(who, l, a, report) && VersionInv(l, got)
    case Tagging(id, desired, tags) => Recorded(l, a, id, desired)
    case Ended(verdict) =>
      && a.created == {}
      && (match verdict
          case Gone =>
            && TrackedGone(l.kuma, a.snap) && (a.snap.monitorID != "" ==> Canonical(l.kuma, who, a.snap.monitorID))
            && (l.cur.None? || !l.cur.value.finalizer)
          case InSync(id, desired, tags) =>
            Recorded(l, a, id, desired) && (id in a.touched || TagsOn(l.kuma, id) == tags)
          case Error => true)
  }

  ghost predicate SnapInv(who: Owner, l: Local, snap: Monitor) {
    MonitorInv(l.kuma, who, l.sent, snap) && VersionInv(l, snap) && Linked(l.cur, snap)
  }

  ghost predicate AttemptInv(who: Owner, l: Local, a: Attempt) {
    && (Open(a.phase) ==> SnapInv(who, l, a.snap))
    && (forall id :: id in a.created ==> Owned(l.kuma, who, id))
    && PhaseInv(who, l, a)
  }

  /** The monitor is tracked by the resource or held by the running attempt. */
  ghost predicate AccountedFor(l: Local, id: int) {
    || (l.cur.Some? && Tracks(l.cur.value, id))
    || (l.attempt.Some? && id in l.attempt.value.created)
  }

  /** A Monitor being deleted exists only as long as some finalizer holds it. */
  ghost predicate CurInv(who: Owner, l: Local) {
    l.cur.Some? ==>
      && l.cur.value.version <= l.latest && MonitorInv(l.kuma, who, l.sent, l.cur.value)
      && (l.cur.value.deleting ==> l.cur.value.finalizer || l.cur.value.foreignFinalizers)
  }

  ghost predicate Inv(who: Owner, l: Local) {
    && CurInv(who, l)
    && (l.attempt.Some? ==> AttemptInv(who, l, l.attempt.value))
    && (forall id :: id in l.kuma.monitors && Owned(l.kuma, who, id) ==> AccountedFor(l, id))
  }
}
