/** When a reconcile of a Monitor calls Upsert, and what a failed Upsert leaves behind, over
    whole runs. */
module Generation {
  import opened Wrappers
  import opened Spec
  import opened Store
  import opened Tracking
  import opened System
  import HM = HostMachine
  import MM = MonitorMachine
  import MI = MonitorInvariant
  import References
  import Server
  import Translate

  // ------------------------------------------------------------- when Upsert is called

  predicate AboutToUpsert(l: MM.Local) {
    l.attempt.Some? && l.attempt.value.phase.Upserting?
  }

  /** The listing about to be read does not hold the monitor as desired. */
  predicate Drifted(l: MM.Local) {
    && l.attempt.Some? && l.attempt.value.phase.Listing?
    && var phase := l.attempt.value.phase;
       !(phase.id in l.kuma.monitors && Translate.Equivalent(phase.desired, l.kuma.monitors[phase.id]))
  }

  /** The id to upsert a drifted monitor under: its own if it exists, else a new one. */
  function Target(k: Kuma, id: int): int {
    if id in k.monitors then id else 0
  }

  lemma DecidesToList(snap: MM.Monitor, desired: MonitorSpec, channels: seq<int>, group: Option<int>, read: MM.Secrets, next: nat)
    requires MM.InGeneration(snap)
    ensures !MM.Decide(snap, desired).Upserting? && !MM.WithSecrets(snap, channels, group, read, next).Upserting?
    ensures !MM.WithGroup(snap, channels, group).Upserting? && !MM.WithChannels(snap, channels).Upserting?
    ensures !MM.Resolve(snap).Upserting? && !MM.Start(snap).Upserting?
  {}

  lemma ReadEntersIffDrifted(cfg: MM.Config, l: MM.Local, ok: bool)
    requires l.attempt.Some? && MM.InGeneration(l.attempt.value.snap) && !AboutToUpsert(l)
    ensures AboutToUpsert(MM.ReadStep(cfg, l, ok)) <==> ok && Drifted(l)
    ensures ok && Drifted(l) ==>
              var phase := l.attempt.value.phase;
              MM.ReadStep(cfg, l, ok) == MM.At(l, MM.Upserting(Target(l.kuma, phase.id), phase.desired))
  {
    var snap := l.attempt.value.snap;
    match l.attempt.value.phase
    case AskingChannels =>
      var channels := References.ResolveNotifications(l.kuma.notifications, snap.spec.notifications);
      if channels.Some? {
        DecidesToList(snap, snap.spec.base, channels.value, None, MM.NO_SECRETS, 0);
      }
    case AskingGroup(channels) =>
      var group := References.ResolveGroup(l.kuma.groups, snap.spec.group);
      if group.Some? {
        DecidesToList(snap, snap.spec.base, channels, group.value, MM.NO_SECRETS, 0);
      }
    case AskingSecrets(channels, group, read, next) =>
      if next < |snap.spec.secretRefs| {
        var ref := snap.spec.secretRefs[next];
        DecidesToList(snap, snap.spec.base, channels, group, MM.WithValue(read, ref, MM.ValueOf(l.secrets, ref)), next + 1);
      }
    case _ =>
  }

  lemma ChangeNeverEnters(cfg: MM.Config, who: Owner, l: MM.Local, outcome: Outcome, message: string)
    requires l.attempt.Some? && !AboutToUpsert(l)
    ensures
      var after := MM.ChangeStep(cfg, l, who, outcome, message);
      after.attempt.Some? && MM.InGeneration(after.attempt.value.snap) ==> !AboutToUpsert(after)
  {
    var snap := l.attempt.value.snap;
    if l.attempt.value.phase.AddingFinalizer? {
      var after := MM.FinalizerStep(l, true, MM.Resolve(snap), outcome);
      if MM.InGeneration(after.attempt.value.snap) {
        AddedDecidesToList(l, outcome);
      }
    } else if l.attempt.value.phase.Writing? {
      var phase := l.attempt.value.phase;
      WriteNeverEnters(cfg, l, phase.report, phase.tries, phase.got, outcome);
    }
  }

  lemma AddedDecidesToList(l: MM.Local, outcome: Outcome)
    requires l.attempt.Some? && l.attempt.value.phase.AddingFinalizer?
    requires MM.InGeneration(MM.FinalizerStep(l, true, MM.Resolve(l.attempt.value.snap), outcome).attempt.value.snap)
    ensures !AboutToUpsert(MM.FinalizerStep(l, true, MM.Resolve(l.attempt.value.snap), outcome))
  {
    var snap := l.attempt.value.snap;
    if MM.InGeneration(snap) {
      DecidesToList(snap, snap.spec.base, [], None, MM.NO_SECRETS, 0);
    }
  }

  lemma WriteNeverEnters(cfg: MM.Config, l: MM.Local, report: MM.Report, tries: nat, got: MM.Monitor, outcome: Outcome)
    requires l.attempt.Some?
    ensures !AboutToUpsert(MM.WriteStep(cfg, l, report, tries, got, outcome))
  {}

  /** At a synced generation an attempt comes to call Upsert exactly if the listing it reads
      lacks the monitor or shows it not Equivalent; no other step leads there. */
  lemma UpsertsIffDrifted(cfg: MM.Config, who: Owner, l: MM.Local, action: MM.Action)
    requires !AboutToUpsert(l)
    ensures
      var after := MM.Step(cfg, who, l, action);
      after.attempt.Some? && MM.InGeneration(after.attempt.value.snap) ==>
        (AboutToUpsert(after) <==> action == MM.Read(true) && Drifted(l))
    ensures
      action == MM.Read(true) && Drifted(l) && MM.InGeneration(l.attempt.value.snap) ==>
        var phase := l.attempt.value.phase;
        MM.Step(cfg, who, l, action) == MM.At(l, MM.Upserting(Target(l.kuma, phase.id), phase.desired))
  {
    match action
    case Begin =>
      if l.attempt.None? && l.cur.Some? && MM.InGeneration(l.cur.value) {
        DecidesToList(l.cur.value, l.cur.value.spec.base, [], None, MM.NO_SECRETS, 0);
      }
    case Read(ok) =>
      if l.attempt.Some? {
        ReadKeepsSnap(cfg, l, ok);
        if MM.InGeneration(l.attempt.value.snap) {
          ReadEntersIffDrifted(cfg, l, ok);
        }
      }
    case Change(outcome, message) =>
      if l.attempt.Some? {
        ChangeNeverEnters(cfg, who, l, outcome, message);
      }
    case Tag(ok, tags) =>
    case Finish =>
    case Crash =>
  }

  lemma ReadKeepsSnap(cfg: MM.Config, l: MM.Local, ok: bool)
    requires l.attempt.Some?
    ensures MM.ReadStep(cfg, l, ok).attempt.Some? && MM.ReadStep(cfg, l, ok).attempt.value.snap == l.attempt.value.snap
  {}

  /** Nothing is sent to Kuma but by the step that calls Upsert. */
  lemma SendsOnlyWhenUpserting(cfg: MM.Config, who: Owner, l: MM.Local, action: MM.Action)
    ensures MM.Step(cfg, who, l, action).sent != l.sent ==> action.Change? && AboutToUpsert(l)
  {
    if action.Change? && l.attempt.Some? && l.attempt.value.phase.Writing? {
      var phase := l.attempt.value.phase;
      WriteSendsNothing(cfg, l, phase.report, phase.tries, phase.got, action.outcome);
    } else if action.Read? && l.attempt.Some? {
      ReadSendsNothing(cfg, l, action.ok);
    }
  }

  lemma WriteSendsNothing(cfg: MM.Config, l: MM.Local, report: MM.Report, tries: nat, got: MM.Monitor, outcome: Outcome)
    requires l.attempt.Some?
    ensures MM.WriteStep(cfg, l, report, tries, got, outcome).sent == l.sent
  {}

  lemma ReadSendsNothing(cfg: MM.Config, l: MM.Local, ok: bool)
    requires l.attempt.Some?
    ensures MM.ReadStep(cfg, l, ok).sent == l.sent
  {}

  // ---------------------------------------------------------------- over whole runs

  predicate Decides(l: MM.Local, snap: MM.Monitor, id: int, desired: MonitorSpec) {
    && Drifted(l) && l.attempt.value.snap == snap
    && l.attempt.value.phase.desired == desired && id == Target(l.kuma, l.attempt.value.phase.id)
  }

  /** The i-th action of the run is the read of a listing that made the attempt, then at `snap`,
      decide to upsert `desired` under `id`; since then it is about to. */
  ghost predicate DecidedAt(cfg: Settings, s: State, actions: seq<Action>, key: Key, i: int,
                            snap: MM.Monitor, id: int, desired: MonitorSpec) {
    && 0 <= i < |actions| && actions[i] == Monitor(key, MM.Read(true))
    && Decides(MonitorAt(Run(cfg, s, actions[..i]), key), snap, id, desired)
    && forall j :: i < j <= |actions| ==> AboutToUpsert(MonitorAt(Run(cfg, s, actions[..j]), key))
  }

  lemma DecidedBefore(cfg: Settings, s: State, actions: seq<Action>, action: Action, key: Key, i: int,
                      snap: MM.Monitor, id: int, desired: MonitorSpec)
    requires DecidedAt(cfg, s, actions, key, i, snap, id, desired)
    requires AboutToUpsert(MonitorAt(Run(cfg, s, actions + [action]), key))
    ensures DecidedAt(cfg, s, actions + [action], key, i, snap, id, desired)
  {
    var longer := actions + [action];
    assert longer[..i] == actions[..i];
    forall j | i < j <= |longer|
      ensures AboutToUpsert(MonitorAt(Run(cfg, s, longer[..j]), key))
    {
      if j == |longer| {
        assert longer[..j] == longer;
      } else {
        assert longer[..j] == actions[..j];
      }
    }
  }

  /** An attempt about to call Upsert stays as it is until it calls it or is over. */
  lemma UpsertingStays(cfg: MM.Config, who: Owner, l: MM.Local, action: MM.Action)
    requires AboutToUpsert(l) && AboutToUpsert(MM.Step(cfg, who, l, action))
    ensures MM.Step(cfg, who, l, action).attempt == l.attempt
  {}

  /** In every run: whenever a reconcile at a synced generation is about to call Upsert, it has
      read a listing in which the monitor was missing or not Equivalent to the very spec it is
      about to send. */
  lemma {:induction false} UpsertIsJustified(cfg: Settings, s: State, actions: seq<Action>, key: Key)
    requires MonitorSlotAt(s, key).attempt.None?
    ensures
      var l := MonitorAt(Run(cfg, s, actions), key);
      AboutToUpsert(l) && MM.InGeneration(l.attempt.value.snap) ==>
        exists i :: DecidedAt(cfg, s, actions, key, i, l.attempt.value.snap, l.attempt.value.phase.id, l.attempt.value.phase.desired)
  {
    if actions != [] {
      var init, action := actions[..|actions| - 1], actions[|actions| - 1];
      UpsertIsJustified(cfg, s, init, key);
      assert actions == init + [action];
      var l, after := MonitorAt(Run(cfg, s, init), key), MonitorAt(Run(cfg, s, actions), key);
      if AboutToUpsert(after) && MM.InGeneration(after.attempt.value.snap) {
        if AboutToUpsert(l) {
          StillDecided(cfg, s, init, action, key);
        } else {
          JustDecided(cfg, s, init, action, key);
        }
      }
    }
  }

  lemma OneMore(cfg: Settings, s: State, actions: seq<Action>, action: Action)
    ensures Run(cfg, s, actions + [action]) == Apply(cfg, Run(cfg, s, actions), action)
  {
    assert (actions + [action])[..|actions|] == actions;
  }

  lemma OwnStep(cfg: Settings, s: State, key: Key, action: MM.Action)
    ensures MonitorAt(Apply(cfg, s, Monitor(key, action)), key) == MM.Step(cfg.monitors, ByMonitor(key), MonitorAt(s, key), action)
  {}

  lemma StillDecided(cfg: Settings, s: State, actions: seq<Action>, action: Action, key: Key)
    requires
      var l := MonitorAt(Run(cfg, s, actions), key);
      && AboutToUpsert(l) && AboutToUpsert(MonitorAt(Run(cfg, s, actions + [action]), key))
      && (MM.InGeneration(l.attempt.value.snap) ==>
            exists i :: DecidedAt(cfg, s, actions, key, i, l.attempt.value.snap, l.attempt.value.phase.id, l.attempt.value.phase.desired))
    ensures
      var a := MonitorAt(Run(cfg, s, actions + [action]), key).attempt.value;
      MM.InGeneration(a.snap) ==> exists i :: DecidedAt(cfg, s, actions + [action], key, i, a.snap, a.phase.id, a.phase.desired)
  {
    OneMore(cfg, s, actions, action);
    var before := Run(cfg, s, actions);
    if action.Monitor? && action.key == key {
      OwnStep(cfg, before, key, action.monitor);
      UpsertingStays(cfg.monitors, ByMonitor(key), MonitorAt(before, key), action.monitor);
    } else {
      Server.MonitorKept(cfg, before, action, key);
    }
    var a := MonitorAt(before, key).attempt.value;
    if MM.InGeneration(a.snap) {
      var i :| DecidedAt(cfg, s, actions, key, i, a.snap, a.phase.id, a.phase.desired);
      DecidedBefore(cfg, s, actions, action, key, i, a.snap, a.phase.id, a.phase.desired);
    }
  }

  lemma JustDecided(cfg: Settings, s: State, actions: seq<Action>, action: Action, key: Key)
    requires !AboutToUpsert(MonitorAt(Run(cfg, s, actions), key))
    requires AboutToUpsert(MonitorAt(Run(cfg, s, actions + [action]), key))
    requires MM.InGeneration(MonitorAt(Run(cfg, s, actions + [action]), key).attempt.value.snap)
    ensures
      var a := MonitorAt(Run(cfg, s, actions + [action]), key).attempt.value;
      DecidedAt(cfg, s, actions + [action], key, |actions|, a.snap, a.phase.id, a.phase.desired)
  {
    OneMore(cfg, s, actions, action);
    var before := Run(cfg, s, actions);
    assert (actions + [action])[..|actions|] == actions;
    assert (actions + [action])[..|actions| + 1] == actions + [action];
    if action.Monitor? && action.key == key {
      OwnStep(cfg, before, key, action.monitor);
      EnteredByReading(cfg.monitors, ByMonitor(key), MonitorAt(before, key), action.monitor);
    } else {
      Server.MonitorKept(cfg, before, action, key);
    }
  }

  lemma EnteredByReading(cfg: MM.Config, who: Owner, l: MM.Local, action: MM.Action)
    requires !AboutToUpsert(l) && AboutToUpsert(MM.Step(cfg, who, l, action))
    requires MM.InGeneration(MM.Step(cfg, who, l, action).attempt.value.snap)
    ensures action == MM.Read(true) && Drifted(l)
    ensures
      var phase := l.attempt.value.phase;
      MM.Step(cfg, who, l, action) == MM.At(l, MM.Upserting(Target(l.kuma, phase.id), phase.desired))
  {
    UpsertsIffDrifted(cfg, who, l, action);
    if l.attempt.Some? && action.Read? {
      ReadKeepsSnap(cfg, l, action.ok);
    }
  }

  // ------------------------------------------------------------------ failed Upserts

  /** The Upsert failed, and the attempt has nothing left to do but record that. */
  ghost predicate RecordsFailure(l: MM.Local, monitorID: string, observed: int) {
    && l.cur.Some? && l.cur.value.finalizer && l.cur.value.monitorID == monitorID && l.cur.value.observed == observed
    && (l.attempt.Some? ==>
          match l.attempt.value.phase
          case Reading(report, _) => report.Failure?
          case Writing(report, _, _) => report.Failure?
          case Ended(verdict) => verdict.Error?
          case _ => false)
  }

  lemma UpsertingIsHeld(who: Owner, l: MM.Local)
    requires MI.Inv(who, l) && AboutToUpsert(l)
    ensures l.cur.Some? && l.cur.value.finalizer
  {}

  lemma FailedStep(cfg: MM.Config, who: Owner, l: MM.Local, outcome: Outcome, message: string)
    requires AboutToUpsert(l) && l.cur.Some? && l.cur.value.finalizer
    requires outcome != Succeeded || Upsert(l.kuma, who, l.attempt.value.phase.id, l.attempt.value.phase.desired).None?
    ensures RecordsFailure(MM.Step(cfg, who, l, MM.Change(outcome, message)), l.cur.value.monitorID, l.cur.value.observed)
  {}

  lemma FailureIsToBeRecorded(cfg: MM.Config, who: Owner, l: MM.Local, outcome: Outcome, message: string)
    requires MI.Inv(who, l) && AboutToUpsert(l)
    requires outcome != Succeeded || Upsert(l.kuma, who, l.attempt.value.phase.id, l.attempt.value.phase.desired).None?
    ensures l.cur.Some?
    ensures RecordsFailure(MM.Step(cfg, who, l, MM.Change(outcome, message)), l.cur.value.monitorID, l.cur.value.observed)
  {
    UpsertingIsHeld(who, l);
    FailedStep(cfg, who, l, outcome, message);
  }

  lemma FailureWritten(cfg: MM.Config, l: MM.Local, report: MM.Report, tries: nat, got: MM.Monitor, outcome: Outcome,
                       monitorID: string, observed: int)
    requires RecordsFailure(l, monitorID, observed) && l.attempt.Some? && l.attempt.value.phase == MM.Writing(report, tries, got)
    requires MI.VersionInv(l, got)
    ensures RecordsFailure(MM.WriteStep(cfg, l, report, tries, got, outcome), monitorID, observed)
  {}

  lemma FailureRead(cfg: MM.Config, l: MM.Local, ok: bool, monitorID: string, observed: int)
    requires RecordsFailure(l, monitorID, observed) && l.attempt.Some?
    ensures RecordsFailure(MM.ReadStep(cfg, l, ok), monitorID, observed)
  {}

  lemma FailureStep(cfg: MM.Config, who: Owner, l: MM.Local, action: MM.Action, monitorID: string, observed: int)
    requires MI.Inv(who, l) && RecordsFailure(l, monitorID, observed) && action != MM.Begin
    ensures RecordsFailure(MM.Step(cfg, who, l, action), monitorID, observed)
  {
    if l.attempt.Some? {
      match action {
        case Read(ok) => FailureRead(cfg, l, ok, monitorID, observed);
        case Change(outcome, message) =>
          if l.attempt.value.phase.Writing? {
            var phase := l.attempt.value.phase;
            assert MI.PhaseInv(who, l, l.attempt.value);
            FailureWritten(cfg, l, phase.report, phase.tries, phase.got, outcome, monitorID, observed);
          }
        case _ =>
      }
    }
  }

  lemma FailureUser(l: MM.Local, action: MM.UserAction, monitorID: string, observed: int)
    requires RecordsFailure(l, monitorID, observed)
    ensures RecordsFailure(MM.UserStep(l, action), monitorID, observed)
  {}

  lemma FailureApply(cfg: Settings, s: State, action: Action, key: Key, monitorID: string, observed: int)
    requires Inv(cfg, s) && RecordsFailure(MonitorAt(s, key), monitorID, observed) && action != Monitor(key, MM.Begin)
    ensures RecordsFailure(MonitorAt(Apply(cfg, s, action), key), monitorID, observed)
  {
    if action.Monitor? && action.key == key {
      assert MonitorGood(s, key);
      OwnStep(cfg, s, key, action.monitor);
      FailureStep(cfg.monitors, ByMonitor(key), MonitorAt(s, key), action.monitor, monitorID, observed);
    } else if action.MonitorUser? && action.key == key {
      FailureUser(MonitorAt(s, key), action.monitorUser, monitorID, observed);
    } else {
      Server.MonitorKept(cfg, s, action, key);
    }
  }

  lemma {:induction false} FailureRun(cfg: Settings, s: State, actions: seq<Action>, key: Key, monitorID: string, observed: int)
    requires HM.CollisionFree(cfg.hosts) && Inv(cfg, s) && RecordsFailure(MonitorAt(s, key), monitorID, observed)
    requires forall i :: 0 <= i < |actions| ==> actions[i] != Monitor(key, MM.Begin)
    ensures RecordsFailure(MonitorAt(Run(cfg, s, actions), key), monitorID, observed)
  {
    if actions != [] {
      var init := actions[..|actions| - 1];
      FailureRun(cfg, s, init, key, monitorID, observed);
      RunKeeps(cfg, s, init);
      FailureApply(cfg, Run(cfg, s, init), actions[|actions| - 1], key, monitorID, observed);
    }
  }

  /** From a failed Upsert until the next reconcile begins, through recording the failure,
      whatever users and others do meanwhile, the tracked id and the observed generation stay
      as they were, and the Monitor stays. */
  lemma FailedUpsertKeepsStatus(cfg: Settings, s: State, key: Key, outcome: Outcome, message: string, actions: seq<Action>)
    requires HM.CollisionFree(cfg.hosts) && Inv(cfg, s) && AboutToUpsert(MonitorAt(s, key))
    requires
      var phase := MonitorAt(s, key).attempt.value.phase;
      outcome != Succeeded || Upsert(s.kuma, ByMonitor(key), phase.id, phase.desired).None?
    requires forall i :: 0 <= i < |actions| ==> actions[i] != Monitor(key, MM.Begin)
    ensures
      var before := MonitorSlotAt(s, key).cur;
      var after := MonitorSlotAt(Run(cfg, Apply(cfg, s, Monitor(key, MM.Change(outcome, message))), actions), key).cur;
      before.Some? && after.Some?
      && after.value.monitorID == before.value.monitorID && after.value.observed == before.value.observed
  {
    var l := MonitorAt(s, key);
    var failed := Apply(cfg, s, Monitor(key, MM.Change(outcome, message)));
    assert MonitorGood(s, key);
    FailureIsToBeRecorded(cfg.monitors, ByMonitor(key), l, outcome, message);
    OwnStep(cfg, s, key, MM.Change(outcome, message));
    ApplyKeeps(cfg, s, Monitor(key, MM.Change(outcome, message)));
    FailureRun(cfg, failed, actions, key, l.cur.value.monitorID, l.cur.value.observed);
  }
}
