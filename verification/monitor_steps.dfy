/** The invariant of a Monitor survives every step of its reconcile, and each step changes
    only monitors of its own resource. */
module MonitorSteps {
  import opened Wrappers
  import opened Spec
  import opened Strconv
  import opened Store
  import opened Tracking
  import opened MonitorMachine
  import opened MonitorInvariant
  import References
  import Translate

  /** What a step of the reconcile must keep and may change. */
  ghost predicate Good(who: Owner, l: Local, after: Local) {
    && Inv(who, after) && Valid(after.kuma) && Acted(l.kuma, after.kuma, who)
    && l.latest <= after.latest
  }

  // ------------------------------------------------------------------ giving up

  /** Every monitor of the resource is accounted for, whatever the attempt is up to. */
  ghost predicate Core(who: Owner, l: Local) {
    && Valid(l.kuma) && CurInv(who, l) && l.attempt.Some?
    && (forall id :: id in l.attempt.value.created ==> BelongsTo(l.kuma, who, id) && !(l.cur.Some? && Tracks(l.cur.value, id)))
    && (forall id :: id in l.kuma.monitors && Owned(l.kuma, who, id) ==> AccountedFor(l, id))
  }

  lemma OrphanedCur(k: Kuma, who: Owner, sent: map<int, Sent>, m: Monitor, ids: set<int>)
    requires MonitorInv(k, who, sent, m) && forall id :: id in ids ==> !Tracks(m, id)
    ensures MonitorInv(Orphan(k, ids), who, sent, m)
  {
    assert m.monitorID != "" ==> Tracks(m, IDOf(m.monitorID));
  }

  lemma OrphanedActs(k: Kuma, after: Kuma, who: Owner, ids: set<int>)
    requires Acted(k, after, who) && Valid(after) && forall id :: id in ids ==> BelongsTo(after, who, id)
    ensures Acted(k, Orphan(after, ids), who) && Valid(Orphan(after, ids))
  {
    OrphanActs(after, who, ids);
    ActedTwice(k, after, Orphan(after, ids), who);
  }

  lemma GiveUp(who: Owner, l: Local, reached: Local)
    requires Core(who, reached) && Acted(l.kuma, reached.kuma, who) && l.latest <= reached.latest
    ensures Good(who, l, Fail(reached))
  {
    var created := reached.attempt.value.created;
    OrphanedActs(l.kuma, reached.kuma, who, created);
    if reached.cur.Some? {
      OrphanedCur(reached.kuma, who, reached.sent, reached.cur.value, created);
    }
    var after := Fail(reached);
    forall id | id in after.kuma.monitors && Owned(after.kuma, who, id)
      ensures AccountedFor(after, id)
    {
      assert Owned(reached.kuma, who, id) && AccountedFor(reached, id);
    }
  }

  /** What an attempt created and did not record is not tracked by the resource. */
  lemma CreatedIsUntracked(who: Owner, l: Local, id: int)
    requires Inv(who, l) && l.attempt.Some? && id in l.attempt.value.created
    ensures !(l.cur.Some? && Tracks(l.cur.value, id))
  {
    var a := l.attempt.value;
    assert PhaseInv(who, l, a) && Open(a.phase);
    assert a.phase.Reading? || a.phase.Writing?;
    assert a.snap.finalizer && !Tracks(a.snap, id);
  }

  lemma CoreHolds(who: Owner, l: Local)
    requires Valid(l.kuma) && Inv(who, l) && l.attempt.Some?
    ensures Core(who, l)
  {
    forall id | id in l.attempt.value.created
      ensures BelongsTo(l.kuma, who, id) && !(l.cur.Some? && Tracks(l.cur.value, id))
    {
      CreatedIsUntracked(who, l, id);
    }
  }

  lemma FailKeeps(who: Owner, l: Local)
    requires Valid(l.kuma) && Inv(who, l) && l.attempt.Some?
    ensures Good(who, l, Fail(l))
  {
    CoreHolds(who, l);
    GiveUp(who, l, l);
  }

  // ------------------------------------------------------- moving to another phase

  lemma SamePhaseInv(who: Owner, l: Local, after: Local, b: Attempt)
    requires PhaseInv(who, l, b) && after == l.(attempt := Some(b))
    ensures PhaseInv(who, after, b)
  {
    if (b.phase.Reading? || b.phase.Writing?) && b.phase.report.Synced? {
      assert SyncedInv(who, l, b, b.phase.report.id, b.phase.report.desired);
    }
  }

  /** A state whose parts all have their invariant has the whole. */
  lemma Assemble(who: Owner, l: Local, after: Local, b: Attempt)
    requires after.attempt == Some(b) && Core(who, after) && PhaseInv(who, after, b)
    requires Open(b.phase) ==> SnapInv(who, after, b.snap)
    requires forall id :: id in b.created ==> Owned(after.kuma, who, id)
    requires Acted(l.kuma, after.kuma, who) && l.latest <= after.latest
    ensures Good(who, l, after)
  {
    assert AttemptInv(who, after, b);
  }

  lemma CoreAt(who: Owner, l: Local, phase: Phase)
    requires Core(who, l)
    ensures Core(who, At(l, phase))
  {
    assert forall id :: AccountedFor(l, id) ==> AccountedFor(At(l, phase), id);
  }

  lemma MoveTo(who: Owner, l: Local, phase: Phase)
    requires Valid(l.kuma) && Inv(who, l) && l.attempt.Some?
    requires PhaseInv(who, l, l.attempt.value.(phase := phase))
    requires Open(phase) ==> Open(l.attempt.value.phase)
    ensures Good(who, l, At(l, phase))
  {
    CoreHolds(who, l);
    CoreAt(who, l, phase);
    SamePhaseInv(who, l, At(l, phase), At(l, phase).attempt.value);
    SnapStays(who, l, phase);
    Assemble(who, l, At(l, phase), At(l, phase).attempt.value);
  }

  lemma SnapStays(who: Owner, l: Local, phase: Phase)
    requires Inv(who, l) && l.attempt.Some? && (Open(phase) ==> Open(l.attempt.value.phase))
    ensures Open(phase) ==> SnapInv(who, At(l, phase), l.attempt.value.snap)
    ensures forall id :: id in l.attempt.value.created ==> Owned(l.kuma, who, id)
  {}

  // ---------------------------------------------- the phase a call leads to

  /** A live attempt that may still decide anything. */
  ghost predicate Undecided(who: Owner, l: Local, a: Attempt) {
    Live(a) && (a.snap.monitorID != "" ==> Canonical(l.kuma, who, a.snap.monitorID)) && Valid(l.kuma)
  }

  lemma DecidePhase(who: Owner, l: Local, a: Attempt, desired: MonitorSpec)
    requires Undecided(who, l, a) && Converts(a.snap.spec, desired)
    ensures PhaseInv(who, l, a.(phase := Decide(a.snap, desired)))
  {
    assert IDOf("") == 0;
  }

  /** What the reads so far have found fits the spec. */
  ghost predicate Found(spec: CRSpec, channels: seq<int>, group: Option<int>, read: Secrets) {
    ChannelsOf(spec, channels) && GroupOf(spec, group) && OnlyReferenced(spec, read)
  }

  lemma SecretsPhase(who: Owner, l: Local, a: Attempt, channels: seq<int>, group: Option<int>, read: Secrets, next: nat)
    requires Undecided(who, l, a) && Found(a.snap.spec, channels, group, read)
    ensures PhaseInv(who, l, a.(phase := WithSecrets(a.snap, channels, group, read, next)))
  {
    if next >= |a.snap.spec.secretRefs| {
      DesiredConverts(a.snap.spec, channels, group, read);
      DecidePhase(who, l, a, Desired(a.snap.spec, channels, group, read));
    }
  }

  lemma GroupPhase(who: Owner, l: Local, a: Attempt, channels: seq<int>, group: Option<int>)
    requires Undecided(who, l, a) && ChannelsOf(a.snap.spec, channels) && GroupOf(a.snap.spec, group)
    ensures PhaseInv(who, l, a.(phase := WithGroup(a.snap, channels, group)))
  {
    NothingRead(a.snap.spec);
    SecretsPhase(who, l, a, channels, group, NO_SECRETS, 0);
  }

  lemma NothingRead(spec: CRSpec)
    ensures OnlyReferenced(spec, NO_SECRETS)
  {}

  lemma ChannelsPhase(who: Owner, l: Local, a: Attempt, channels: seq<int>)
    requires Undecided(who, l, a) && ChannelsOf(a.snap.spec, channels)
    ensures PhaseInv(who, l, a.(phase := WithChannels(a.snap, channels)))
  {
    if a.snap.spec.group == "" {
      assert References.ResolveGroup(map[], a.snap.spec.group) == Some(None);
      GroupPhase(who, l, a, channels, None);
    }
  }

  lemma ResolvePhase(who: Owner, l: Local, a: Attempt)
    requires Undecided(who, l, a)
    ensures PhaseInv(who, l, a.(phase := Resolve(a.snap)))
  {
    if a.snap.spec.notifications == [] {
      assert References.ResolveNotifications(map[], a.snap.spec.notifications) == Some([]);
      ChannelsPhase(who, l, a, []);
    }
  }

  lemma StartPhase(who: Owner, l: Local, a: Attempt)
    requires Valid(l.kuma) && MonitorInv(l.kuma, who, l.sent, a.snap) && a.created == {} && l.cur == Some(a.snap)
    ensures PhaseInv(who, l, a.(phase := Start(a.snap)))
  {
    if !a.snap.deleting && a.snap.finalizer {
      ResolvePhase(who, l, a);
    }
  }

  lemma BeginKeeps(cfg: Config, who: Owner, l: Local)
    requires Valid(l.kuma) && Inv(who, l)
    ensures Good(who, l, Step(cfg, who, l, Begin))
  {
    if l.attempt.None? && l.cur.Some? {
      var a := Attempt(l.cur.value, {}, {}, Start(l.cur.value));
      var after := Step(cfg, who, l, Begin);
      StartPhase(who, l, a);
      SamePhaseInv(who, l, after, a);
      assert SnapInv(who, after, a.snap);
      assert forall id :: AccountedFor(l, id) ==> AccountedFor(after, id);
      Assemble(who, l, after, a);
    }
  }

  // ------------------------------------------------------------- calls that read

  lemma AskingIsUndecided(who: Owner, l: Local)
    requires Valid(l.kuma) && Inv(who, l) && l.attempt.Some?
    requires var p := l.attempt.value.phase; p.AskingChannels? || p.AskingGroup? || p.AskingSecrets?
    ensures Undecided(who, l, l.attempt.value)
  {}

  lemma AskingKeeps(cfg: Config, who: Owner, l: Local)
    requires Valid(l.kuma) && Inv(who, l) && l.attempt.Some?
    requires var p := l.attempt.value.phase; p.AskingChannels? || p.AskingGroup? || p.AskingSecrets?
    ensures Good(who, l, ReadStep(cfg, l, true))
  {
    AskingIsUndecided(who, l);
    var a := l.attempt.value;
    match a.phase {
      case AskingChannels =>
        match References.ResolveNotifications(l.kuma.notifications, a.snap.spec.notifications) {
          case None => FailKeeps(who, l);
          case Some(channels) => MoveToChannels(who, l, channels);
        }
      case AskingGroup(channels) =>
        match References.ResolveGroup(l.kuma.groups, a.snap.spec.group) {
          case None => FailKeeps(who, l);
          case Some(group) => MoveToGroup(who, l, channels, group);
        }
      case AskingSecrets(channels, group, read, next) =>
        if next >= |a.snap.spec.secretRefs| {
          FailKeeps(who, l);
        } else {
          MoveToSecret(cfg, who, l, channels, group, read, next);
        }
    }
  }

  lemma MoveToChannels(who: Owner, l: Local, channels: seq<int>)
    requires Inv(who, l) && l.attempt.Some? && Undecided(who, l, l.attempt.value) && Open(l.attempt.value.phase)
    requires References.ResolveNotifications(l.kuma.notifications, l.attempt.value.snap.spec.notifications) == Some(channels)
    ensures Good(who, l, At(l, WithChannels(l.attempt.value.snap, channels)))
  {
    ChannelsPhase(who, l, l.attempt.value, channels);
    MoveTo(who, l, WithChannels(l.attempt.value.snap, channels));
  }

  lemma MoveToGroup(who: Owner, l: Local, channels: seq<int>, group: Option<int>)
    requires Inv(who, l) && l.attempt.Some? && Undecided(who, l, l.attempt.value) && l.attempt.value.phase == AskingGroup(channels)
    requires References.ResolveGroup(l.kuma.groups, l.attempt.value.snap.spec.group) == Some(group)
    ensures Good(who, l, At(l, WithGroup(l.attempt.value.snap, channels, group)))
  {
    GroupPhase(who, l, l.attempt.value, channels, group);
    MoveTo(who, l, WithGroup(l.attempt.value.snap, channels, group));
  }

  lemma MoveToSecret(cfg: Config, who: Owner, l: Local, channels: seq<int>, group: Option<int>, read: Secrets, next: nat)
    requires Inv(who, l) && l.attempt.Some? && Undecided(who, l, l.attempt.value)
    requires l.attempt.value.phase == AskingSecrets(channels, group, read, next)
    requires next < |l.attempt.value.snap.spec.secretRefs|
    ensures Good(who, l, ReadStep(cfg, l, true))
  {
    var snap := l.attempt.value.snap;
    var ref := snap.spec.secretRefs[next];
    var more := WithValue(read, ref, ValueOf(l.secrets, ref));
    OneMoreRead(snap.spec, read, ref, ValueOf(l.secrets, ref));
    SecretsPhase(who, l, l.attempt.value, channels, group, more, next + 1);
    MoveTo(who, l, WithSecrets(snap, channels, group, more, next + 1));
  }

  lemma OneMoreRead(spec: CRSpec, read: Secrets, ref: SecretRef, value: string)
    requires OnlyReferenced(spec, read) && ref in spec.secretRefs
    ensures OnlyReferenced(spec, WithValue(read, ref, value))
  {}

  lemma ListingPhase(cfg: Config, who: Owner, l: Local, a: Attempt, id: int, desired: MonitorSpec)
    requires a.phase == Listing(id, desired) && PhaseInv(who, l, a) && SnapInv(who, l, a.snap) && Valid(l.kuma)
    ensures id !in l.kuma.monitors ==> PhaseInv(who, l, a.(phase := Upserting(0, desired)))
    ensures id != 0 && PhaseInv(who, l, a.(phase := Upserting(id, desired)))
    ensures id in l.kuma.monitors && Translate.Equivalent(desired, l.kuma.monitors[id]) ==>
              PhaseInv(who, l, a.(phase := Tagging(id, desired, TagNames(cfg, a.snap))))
  {
    assert Owned(l.kuma, who, id);
  }

  lemma ListingKeeps(cfg: Config, who: Owner, l: Local, id: int, desired: MonitorSpec)
    requires Valid(l.kuma) && Inv(who, l) && l.attempt.Some? && l.attempt.value.phase == Listing(id, desired)
    ensures Good(who, l, ReadStep(cfg, l, true))
  {
    var a := l.attempt.value;
    ListingPhase(cfg, who, l, a, id, desired);
    if id !in l.kuma.monitors {
      MoveTo(who, l, Upserting(0, desired));
    } else if Translate.Equivalent(desired, l.kuma.monitors[id]) {
      MoveTo(who, l, Tagging(id, desired, TagNames(cfg, a.snap)));
    } else {
      MoveTo(who, l, Upserting(id, desired));
    }
  }

  /** The status is already what it should be. */
  lemma UnchangedPhase(cfg: Config, who: Owner, l: Local, a: Attempt, report: Report)
    requires ReportInv(who, l, a, report) && l.cur.Some? && Linked(l.cur, a.snap)
    requires WithStatus(l.cur.value, a.snap.generation, report) == l.cur.value && 1 <= a.snap.generation
    ensures PhaseInv(who, l, a.(phase := AfterStatus(cfg, report, l.cur.value)))
  {}

  lemma ReadingPhase(who: Owner, l: Local, a: Attempt, report: Report, tries: nat)
    requires ReportInv(who, l, a, report) && l.cur.Some? && l.cur.value.version <= l.latest
    ensures PhaseInv(who, l, a.(phase := Writing(report, tries, l.cur.value)))
    ensures PhaseInv(who, l, a.(phase := Reading(report, tries)))
  {
    if report.Synced? {
      assert SyncedInv(who, l, a.(phase := Writing(report, tries, l.cur.value)), report.id, report.desired);
      assert SyncedInv(who, l, a.(phase := Reading(report, tries)), report.id, report.desired);
    }
  }

  lemma ReadingKeeps(cfg: Config, who: Owner, l: Local, report: Report, tries: nat)
    requires Valid(l.kuma) && Inv(who, l) && l.attempt.Some? && l.attempt.value.phase == Reading(report, tries)
    ensures Good(who, l, ReadStep(cfg, l, true))
  {
    var a := l.attempt.value;
    if l.cur.None? {
      FailKeeps(who, l);
    } else if WithStatus(l.cur.value, a.snap.generation, report) == l.cur.value {
      UnchangedPhase(cfg, who, l, a, report);
      MoveTo(who, l, AfterStatus(cfg, report, l.cur.value));
    } else {
      ReadingPhase(who, l, a, report, tries);
      MoveTo(who, l, Writing(report, tries, l.cur.value));
    }
  }

  lemma ReadKeeps(cfg: Config, who: Owner, l: Local, ok: bool)
    requires Valid(l.kuma) && Inv(who, l) && l.attempt.Some?
    ensures Good(who, l, ReadStep(cfg, l, ok))
  {
    var phase := l.attempt.value.phase;
    if phase.AskingChannels? || phase.AskingGroup? || phase.AskingSecrets? || phase.Listing? || phase.Reading? {
      if !ok {
        FailKeeps(who, l);
      } else if phase.Listing? {
        ListingKeeps(cfg, who, l, phase.id, phase.desired);
      } else if phase.Reading? {
        ReadingKeeps(cfg, who, l, phase.report, phase.tries);
      } else {
        AskingKeeps(cfg, who, l);
      }
    }
  }
}
