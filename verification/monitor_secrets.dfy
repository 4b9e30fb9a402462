/** Which Secret value goes into which field of a synced monitor
    (internal/controller/monitor_controller.go): every reference fills its own field, with a value
    its Secret had, and no other field of the spec changes. */
module MonitorSecrets {
  import opened Wrappers
  import opened Spec
  import opened Store
  import opened MonitorMachine
  import MonitorQuiescence
  import MonitorStability
  import References
  import Translate
  import WireFields

  // --------------------------------------------------------------- each in its field

  /** The values of the references among `refs` are ones their Secrets had in some state of
      `seen`; everything else is empty. */
  ghost predicate Values(refs: seq<SecretRef>, seen: set<Secrets>, password: string, bearer: string, client: string) {
    && (if BasicAuthPassword in refs then exists x :: x in seen && x.basicAuthPassword == password else password == "")
    && (if BearerToken in refs then exists x :: x in seen && x.bearerToken == bearer else bearer == "")
    && (if OAuthClientSecret in refs then exists x :: x in seen && x.oauthClientSecret == client else client == "")
  }

  ghost predicate GamedigValue(refs: seq<SecretRef>, seen: set<Secrets>, token: string) {
    if GamedigToken in refs then exists x :: x in seen && x.gamedigToken == token else token == ""
  }

  ghost predicate PushValue(refs: seq<SecretRef>, seen: set<Secrets>, token: string) {
    if PushToken in refs then exists x :: x in seen && x.pushToken == token else token == ""
  }

  ghost predicate PlacedHTTP(spec: CRSpec, h: Option<HTTPSpec>, seen: set<Secrets>) {
    && (h.Some? <==> spec.base.http.Some?)
    && (h.Some? ==>
          && h.value.(basicAuthPassword := "", bearerToken := "", oauthClientSecret := "")
             == spec.base.http.value.(basicAuthPassword := "", bearerToken := "", oauthClientSecret := "")
          && Values(spec.secretRefs, seen, h.value.basicAuthPassword, h.value.bearerToken, h.value.oauthClientSecret))
  }

  ghost predicate PlacedTokens(spec: CRSpec, s: MonitorSpec, seen: set<Secrets>) {
    && (s.gamedig.Some? <==> spec.base.gamedig.Some?) && (s.push.Some? <==> spec.base.push.Some?)
    && (s.gamedig.Some? ==>
          && s.gamedig.value.(token := "") == spec.base.gamedig.value.(token := "")
          && GamedigValue(spec.secretRefs, seen, s.gamedig.value.token))
    && (s.push.Some? ==> PushValue(spec.secretRefs, seen, s.push.value.token))
  }

  /** Channels and group apart, `s` is the spec's own conversion with the Secret values in place. */
  ghost predicate Placed(spec: CRSpec, s: MonitorSpec, seen: set<Secrets>) {
    && s.(notificationIDs := [], groupID := None, http := None, gamedig := None, push := None)
       == spec.base.(notificationIDs := [], groupID := None, http := None, gamedig := None, push := None)
    && PlacedHTTP(spec, s.http, seen) && PlacedTokens(spec, s, seen)
  }

  /** The first `n` references are read. */
  ghost predicate ReadSoFar(refs: seq<SecretRef>, n: nat, read: Secrets, seen: set<Secrets>)
    requires n <= |refs|
  {
    && Values(refs[..n], seen, read.basicAuthPassword, read.bearerToken, read.oauthClientSecret)
    && GamedigValue(refs[..n], seen, read.gamedigToken) && PushValue(refs[..n], seen, read.pushToken)
  }

  lemma ReadOne(refs: seq<SecretRef>, n: nat, read: Secrets, seen: set<Secrets>, secrets: Secrets)
    requires n < |refs| && ReadSoFar(refs, n, read, seen) && secrets in seen
    ensures ReadSoFar(refs, n + 1, WithValue(read, refs[n], ValueOf(secrets, refs[n])), seen)
  {
    assert refs[..n + 1] == refs[..n] + [refs[n]];
  }

  lemma DesiredFields(spec: CRSpec, channels: seq<int>, group: Option<int>, read: Secrets)
    ensures
      var s := Desired(spec, channels, group, read);
      && s.(notificationIDs := [], groupID := None, http := None, gamedig := None, push := None)
         == spec.base.(notificationIDs := [], groupID := None, http := None, gamedig := None, push := None)
      && s.http == (if spec.base.http.None? then None else Some(spec.base.http.value.(
           basicAuthPassword := read.basicAuthPassword, bearerToken := read.bearerToken, oauthClientSecret := read.oauthClientSecret)))
      && s.gamedig == (if spec.base.gamedig.None? then None else Some(spec.base.gamedig.value.(token := read.gamedigToken)))
      && s.push == (if spec.base.push.None? then None else Some(PushSpec(read.pushToken)))
  {}

  lemma DesiredIsPlaced(spec: CRSpec, channels: seq<int>, group: Option<int>, read: Secrets, seen: set<Secrets>)
    requires ReadSoFar(spec.secretRefs, |spec.secretRefs|, read, seen)
    ensures Placed(spec, Desired(spec, channels, group, read), seen)
  {
    DesiredFields(spec, channels, group, read);
    assert spec.secretRefs[..|spec.secretRefs|] == spec.secretRefs;
  }

  lemma MoreSeen(spec: CRSpec, s: MonitorSpec, a: set<Secrets>, b: set<Secrets>)
    requires Placed(spec, s, a) && a <= b
    ensures Placed(spec, s, b)
  {}

  lemma MoreSeenSoFar(refs: seq<SecretRef>, n: nat, read: Secrets, a: set<Secrets>, b: set<Secrets>)
    requires n <= |refs| && ReadSoFar(refs, n, read, a) && a <= b
    ensures ReadSoFar(refs, n, read, b)
  {}

  // -------------------------------------------------------------------- settled

  lemma {:induction false} ReadFirstIsRead(refs: seq<SecretRef>, n: nat, secrets: Secrets)
    requires n <= |refs|
    ensures ReadSoFar(refs, n, MonitorQuiescence.ReadFirst(refs, n, secrets), {secrets})
  {
    if n > 0 {
      ReadFirstIsRead(refs, n - 1, secrets);
      ReadOne(refs, n - 1, MonitorQuiescence.ReadFirst(refs, n - 1, secrets), {secrets}, secrets);
    }
  }

  /** What a Monitor asks for now has each Secret's present value in its own field. */
  lemma ServedIsPlaced(k: Kuma, secrets: Secrets, m: Monitor, desired: MonitorSpec)
    requires MonitorQuiescence.Serves(k, secrets, m, desired)
    ensures Placed(m.spec, desired, {secrets})
  {
    var refs := m.spec.secretRefs;
    ReadFirstIsRead(refs, |refs|, secrets);
    DesiredIsPlaced(m.spec, desired.notificationIDs, desired.groupID, MonitorQuiescence.ReadFirst(refs, |refs|, secrets), {secrets});
  }

  // --------------------------------------------------------------------- every step

  /** What the phase is about to send, or has sent. */
  function Pending(phase: Phase): Option<MonitorSpec> {
    match phase
    case Listing(_, desired) => Some(desired)
    case Upserting(_, desired) => Some(desired)
    case Reading(report, _) => if report.Synced? then Some(report.desired) else None
    case Writing(report, _, _) => if report.Synced? then Some(report.desired) else None
    case Tagging(_, desired, _) => Some(desired)
    case Ended(verdict) => if verdict.InSync? then Some(verdict.desired) else None
    case _ => None
  }

  ghost predicate PhaseSourced(spec: CRSpec, phase: Phase, seen: set<Secrets>) {
    && (Pending(phase).Some? ==> Placed(spec, Pending(phase).value, seen))
    && (phase.AskingSecrets? ==>
          phase.next <= |spec.secretRefs| && ReadSoFar(spec.secretRefs, phase.next, phase.read, seen))
  }

  ghost predicate SentSourced(sent: map<int, Sent>, seen: set<Secrets>) {
    forall id :: id in sent ==> Placed(sent[id].source, sent[id].spec, seen)
  }

  ghost predicate AttemptSourced(attempt: Option<Attempt>, seen: set<Secrets>) {
    attempt.Some? ==> PhaseSourced(attempt.value.snap.spec, attempt.value.phase, seen)
  }

  /** Every Secret value in what was or is about to be sent was read, for its own field, in some
      state of `seen`. */
  ghost predicate Sourced(l: Local, seen: set<Secrets>) {
    l.secrets in seen && AttemptSourced(l.attempt, seen) && SentSourced(l.sent, seen)
  }

  lemma WithSecretsSourced(snap: Monitor, channels: seq<int>, group: Option<int>, read: Secrets, next: nat, seen: set<Secrets>)
    requires next <= |snap.spec.secretRefs| && ReadSoFar(snap.spec.secretRefs, next, read, seen)
    ensures PhaseSourced(snap.spec, WithSecrets(snap, channels, group, read, next), seen)
  {
    if next == |snap.spec.secretRefs| {
      DesiredIsPlaced(snap.spec, channels, group, read, seen);
    }
  }

  lemma ResolvedSourced(snap: Monitor, channels: seq<int>, group: Option<int>, seen: set<Secrets>)
    ensures PhaseSourced(snap.spec, WithGroup(snap, channels, group), seen)
    ensures PhaseSourced(snap.spec, WithChannels(snap, channels), seen)
    ensures PhaseSourced(snap.spec, Resolve(snap), seen)
  {
    assert snap.spec.secretRefs[..0] == [];
    WithSecretsSourced(snap, channels, group, NO_SECRETS, 0, seen);
    WithSecretsSourced(snap, channels, None, NO_SECRETS, 0, seen);
    WithSecretsSourced(snap, [], None, NO_SECRETS, 0, seen);
  }

  /** The step moves within the attempt, or gives it up. */
  ghost predicate Leads(l: Local, after: Local, phase: Phase)
    requires l.attempt.Some?
  {
    && after.secrets == l.secrets && after.sent == l.sent && after.attempt.Some?
    && after.attempt.value.snap.spec == l.attempt.value.snap.spec
    && (after.attempt.value.phase == phase || after.attempt.value.phase == Ended(Error))
  }

  lemma LeadsSourced(l: Local, after: Local, phase: Phase, seen: set<Secrets>)
    requires Sourced(l, seen) && l.attempt.Some? && Leads(l, after, phase) && PhaseSourced(l.attempt.value.snap.spec, phase, seen)
    ensures Sourced(after, seen)
  {}

  lemma AskedSourced(cfg: Config, l: Local, seen: set<Secrets>)
    requires Sourced(l, seen) && l.attempt.Some?
    requires var p := l.attempt.value.phase; p.AskingChannels? || p.AskingGroup? || p.AskingSecrets?
    ensures exists phase :: Leads(l, ReadStep(cfg, l, true), phase) && PhaseSourced(l.attempt.value.snap.spec, phase, seen)
  {
    var snap := l.attempt.value.snap;
    var after := ReadStep(cfg, l, true);
    match l.attempt.value.phase {
      case AskingChannels =>
        var channels := References.ResolveNotifications(l.kuma.notifications, snap.spec.notifications);
        ResolvedSourced(snap, if channels.Some? then channels.value else [], None, seen);
      case AskingGroup(channels) =>
        var group := References.ResolveGroup(l.kuma.groups, snap.spec.group);
        ResolvedSourced(snap, channels, if group.Some? then group.value else None, seen);
      case AskingSecrets(channels, group, read, next) =>
        if next < |snap.spec.secretRefs| {
          var ref := snap.spec.secretRefs[next];
          ReadOne(snap.spec.secretRefs, next, read, seen, l.secrets);
          WithSecretsSourced(snap, channels, group, WithValue(read, ref, ValueOf(l.secrets, ref)), next + 1, seen);
        }
    }
    assert Leads(l, after, after.attempt.value.phase);
  }

  /** Listing and reading the Monitor again keep what is to be sent. */
  lemma OtherReads(cfg: Config, l: Local, ok: bool)
    requires l.attempt.Some?
    requires var p := l.attempt.value.phase; ok ==> !p.AskingChannels? && !p.AskingGroup? && !p.AskingSecrets?
    ensures
      var a, after := l.attempt.value, ReadStep(cfg, l, ok);
      && Leads(l, after, after.attempt.value.phase)
      && (after.attempt.value.phase == a.phase || after.attempt.value.phase == Ended(Error)
          || (Pending(after.attempt.value.phase) == Pending(a.phase) && !after.attempt.value.phase.AskingSecrets?))
  {}

  lemma ReadSourced(cfg: Config, l: Local, ok: bool, seen: set<Secrets>)
    requires Sourced(l, seen) && l.attempt.Some?
    ensures Sourced(ReadStep(cfg, l, ok), seen)
  {
    var a, after := l.attempt.value, ReadStep(cfg, l, ok);
    if ok && (a.phase.AskingChannels? || a.phase.AskingGroup? || a.phase.AskingSecrets?) {
      AskedSourced(cfg, l, seen);
      var phase :| Leads(l, after, phase) && PhaseSourced(a.snap.spec, phase, seen);
      LeadsSourced(l, after, phase, seen);
    } else {
      OtherReads(cfg, l, ok);
      LeadsSourced(l, after, after.attempt.value.phase, seen);
    }
  }

  lemma UpsertSourced(l: Local, who: Owner, id: int, desired: MonitorSpec, outcome: Outcome, message: string, seen: set<Secrets>)
    requires Sourced(l, seen) && l.attempt.Some? && l.attempt.value.phase == Upserting(id, desired)
    ensures Sourced(UpsertStep(l, who, id, desired, outcome, message), seen)
  {}

  lemma FinalizerLeads(l: Local, finalizer: bool, next: Phase, outcome: Outcome)
    requires l.attempt.Some?
    ensures Leads(l, FinalizerStep(l, finalizer, next, outcome), next)
  {}

  lemma WriteLeads(cfg: Config, l: Local, report: Report, tries: nat, got: Monitor, outcome: Outcome)
    requires l.attempt.Some?
    ensures
      var after := WriteStep(cfg, l, report, tries, got, outcome);
      && Leads(l, after, after.attempt.value.phase) && !after.attempt.value.phase.AskingSecrets?
      && (after.attempt.value.phase == Ended(Error) || Pending(after.attempt.value.phase) == Pending(Writing(report, tries, got)))
  {}

  lemma CallSourced(cfg: Config, l: Local, after: Local, seen: set<Secrets>, outcome: Outcome)
    requires Sourced(l, seen) && l.attempt.Some?
    requires
      match l.attempt.value.phase
      case AddingFinalizer => after == FinalizerStep(l, true, Resolve(l.attempt.value.snap), outcome)
      case DroppingFinalizer => after == FinalizerStep(l, false, Ended(Gone), outcome)
      case Writing(report, tries, got) => after == WriteStep(cfg, l, report, tries, got, outcome)
      case _ => false
    ensures Sourced(after, seen)
  {
    var a := l.attempt.value;
    match a.phase {
      case AddingFinalizer =>
        ResolvedSourced(a.snap, [], None, seen);
        FinalizerLeads(l, true, Resolve(a.snap), outcome);
        LeadsSourced(l, after, Resolve(a.snap), seen);
      case DroppingFinalizer =>
        FinalizerLeads(l, false, Ended(Gone), outcome);
        LeadsSourced(l, after, Ended(Gone), seen);
      case Writing(report, tries, got) =>
        WriteLeads(cfg, l, report, tries, got, outcome);
        LeadsSourced(l, after, after.attempt.value.phase, seen);
    }
  }

  lemma ChangeSourced(cfg: Config, who: Owner, l: Local, outcome: Outcome, message: string, seen: set<Secrets>)
    requires Sourced(l, seen) && l.attempt.Some?
    ensures Sourced(ChangeStep(cfg, l, who, outcome, message), seen)
  {
    var a, after := l.attempt.value, ChangeStep(cfg, l, who, outcome, message);
    if a.phase.Upserting? {
      UpsertSourced(l, who, a.phase.id, a.phase.desired, outcome, message, seen);
    } else if a.phase.DroppingFinalizer? || a.phase.Writing? {
      CallSourced(cfg, l, after, seen, outcome);
    } else if a.phase.AddingFinalizer? {
      if !(l.cur.Some? && l.cur.value.deleting) {
        CallSourced(cfg, l, after, seen, outcome);
      }
    }
  }

  /** Every step of the reconcile keeps this. */
  lemma StepSourced(cfg: Config, who: Owner, l: Local, action: Action, seen: set<Secrets>)
    requires Sourced(l, seen)
    ensures Sourced(Step(cfg, who, l, action), seen)
  {
    if l.attempt.Some? {
      match action {
        case Read(ok) => ReadSourced(cfg, l, ok, seen);
        case Change(outcome, message) => ChangeSourced(cfg, who, l, outcome, message, seen);
        case _ =>
      }
    } else if action.Begin? && l.cur.Some? {
      ResolvedSourced(l.cur.value, [], None, seen);
    }
  }

  lemma MoreSeenSourced(l: Local, a: set<Secrets>, b: set<Secrets>)
    requires Sourced(l, a) && a <= b
    ensures Sourced(l, b)
  {
    forall id | id in l.sent
      ensures Placed(l.sent[id].source, l.sent[id].spec, b)
    {
      MoreSeen(l.sent[id].source, l.sent[id].spec, a, b);
    }
    if l.attempt.Some? {
      var t := l.attempt.value;
      if Pending(t.phase).Some? {
        MoreSeen(t.snap.spec, Pending(t.phase).value, a, b);
      }
      if t.phase.AskingSecrets? {
        MoreSeenSoFar(t.snap.spec.secretRefs, t.phase.next, t.phase.read, a, b);
      }
    }
  }

  lemma UserSourced(l: Local, action: UserAction, seen: set<Secrets>)
    requires Sourced(l, seen)
    ensures Sourced(UserStep(l, action), seen + {UserStep(l, action).secrets})
  {
    MoreSeenSourced(l, seen, seen + {UserStep(l, action).secrets});
  }

  lemma ShiftSourced(l: Local, seen: set<Secrets>, k: Kuma, latest: int, touched: set<int>)
    requires Sourced(l, seen)
    ensures Sourced(MonitorStability.Shifted(l, k, latest, touched), seen)
  {}

  // ----------------------------------------------------------------------- the wire

  /** On the wire, each Secret value is in the field Kuma expects it in. */
  ghost predicate OnWire(spec: CRSpec, seen: set<Secrets>, d: Translate.Details) {
    && (d.HTTP? ==> Values(spec.secretRefs, seen, d.basicAuthPass, d.bearerToken, d.oauthClientSecret))
    && (d.GameDig? ==> GamedigValue(spec.secretRefs, seen, if d.token.Some? then d.token.value else ""))
    && (d.Push? ==> PushValue(spec.secretRefs, seen, d.pushToken))
  }

  lemma SecretsOnWire(id: int, spec: CRSpec, s: MonitorSpec, seen: set<Secrets>, w: Translate.Wire)
    requires Placed(spec, s, seen) && Translate.ToBremlMonitor(id, s) == Ok(w)
    ensures OnWire(spec, seen, w.details)
  {
    WireFields.SentFields(id, s, w);
  }
}
