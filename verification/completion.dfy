/** Whether reconciles get to their end while everyone else goes on acting: over whole runs of
    the system. */
module Completion {
  import opened Wrappers
  import opened Spec
  import opened Strconv
  import opened Store
  import opened System
  import HM = HostMachine
  import HQ = HostQuiescence
  import HC = HostCompletion
  import HostSync
  import MM = MonitorMachine
  import MQ = MonitorQuiescence
  import MC = MonitorCompletion
  import MR = MonitorReporting
  import Quiescence
  import Safety

  /** Ids only grow. */
  lemma IDsGrow(cfg: Settings, s: State, action: Action)
    requires HM.CollisionFree(cfg.hosts) && Inv(cfg, s)
    ensures s.kuma.nextID <= Apply(cfg, s, action).kuma.nextID
  {
    Safety.ApplyKeepsOwners(cfg, s, action);
  }

  // -------------------------------------------------------------- routed resources

  /** The resource's own calls succeed, and users leave it alone. */
  predicate LeavesHost(key: Key, action: Action) {
    && (action.HostUser? ==> action.key != key)
    && (action.Host? && action.key == key ==> HC.Succeeds(action.host))
  }

  /** The resource's own calls succeed; others do as they like, hand edits of its monitors
      included, but leave the resource and Kuma's channels and groups alone. */
  predicate HostFavours(key: Key, action: Action) {
    Quiescence.SparesReferences(action) && LeavesHost(key, action)
  }

  predicate HostsFavour(key: Key, actions: seq<Action>) {
    forall i :: 0 <= i < |actions| ==> HostFavours(key, actions[i])
  }

  lemma HostStepThrives(cfg: Settings, s: State, key: Key, r: HM.Resource, plan: HM.Plan, action: Action)
    requires HM.CollisionFree(cfg.hosts) && Inv(cfg, s) && HostFavours(key, action) && s.kuma.nextID < MAX_INT64
    requires HC.Thriving(cfg.hosts, HostAt(s, key), r, plan)
    ensures HC.Thriving(cfg.hosts, HostAt(Apply(cfg, s, action), key), r, plan)
  {
    var t := Apply(cfg, s, action);
    if action.Host? && action.key == key {
      HC.StepThrives(cfg.hosts, ByHost(key), HostAt(s, key), r, plan, action.host);
    } else {
      Quiescence.ReferencesStay(cfg, s, action);
      Quiescence.HostIsShifted(cfg, s, action, key);
      HC.ShiftThrives(cfg.hosts, HostAt(s, key), r, plan, t.kuma, t.latest, if action.Hand? then Touches(action.hand) else {});
    }
  }

  lemma {:induction false} HostRunThrives(cfg: Settings, s: State, key: Key, r: HM.Resource, plan: HM.Plan, actions: seq<Action>)
    requires HM.CollisionFree(cfg.hosts) && Inv(cfg, s) && HC.Thriving(cfg.hosts, HostAt(s, key), r, plan)
    requires HostsFavour(key, actions)
    requires Run(cfg, s, actions).kuma.nextID < MAX_INT64
    ensures HC.Thriving(cfg.hosts, HostAt(Run(cfg, s, actions), key), r, plan)
  {
    if actions != [] {
      var init, action := actions[..|actions| - 1], actions[|actions| - 1];
      RunKeeps(cfg, s, init);
      IDsGrow(cfg, Run(cfg, s, init), action);
      HostRunThrives(cfg, s, key, r, plan, init);
      HostStepThrives(cfg, Run(cfg, s, init), key, r, plan, action);
    }
  }

  /** The attempt goes on without a failure, or has ended in sync. */
  predicate HostSucceeds(l: HM.Local) {
    l.attempt.Some? && l.attempt.value.phase != HM.Ended(HM.Error) && (l.attempt.value.phase.Ended? ==> HC.EndsInSync(l))
  }

  /** In every run: a reconcile of a live, opted-in resource whose calls all succeed, with ids
      left and names known, never fails, whatever others do; once over, it is in sync. */
  lemma HostSuccessEndsInSync(cfg: Settings, s: State, key: Key, r: HM.Resource, plan: HM.Plan, actions: seq<Action>)
    requires HM.CollisionFree(cfg.hosts) && Inv(cfg, s)
    requires HostSlotAt(s, key).attempt.None? && HostSlotAt(s, key).cur == Some(r) && HQ.OnPlan(cfg.hosts, s.kuma, r, plan)
    requires HostsFavour(key, actions)
    requires Run(cfg, Apply(cfg, s, Host(key, HM.Begin)), actions).kuma.nextID < MAX_INT64
    ensures HostSucceeds(HostAt(Run(cfg, Apply(cfg, s, Host(key, HM.Begin)), actions), key))
  {
    var begun := Apply(cfg, s, Host(key, HM.Begin));
    HC.BeginThrives(cfg.hosts, ByHost(key), HostAt(s, key), r, plan);
    ApplyKeeps(cfg, s, Host(key, HM.Begin));
    HostRunThrives(cfg, begun, key, r, plan, actions);
    HC.ThrivingPlan(cfg.hosts, HostAt(Run(cfg, begun, actions), key), r, plan);
  }

  /** The resource's own calls as actions of the system. */
  function HostCalls(key: Key, actions: seq<HM.Action>): seq<Action> {
    seq(|actions|, i requires 0 <= i < |actions| => Host(key, actions[i]))
  }

  lemma {:induction false} HostCallsAreSteps(cfg: Settings, s: State, key: Key, actions: seq<HM.Action>)
    ensures HostAt(Run(cfg, s, HostCalls(key, actions)), key) == HostSync.Steps(cfg.hosts, ByHost(key), HostAt(s, key), actions)
  {
    if actions != [] {
      var init := actions[..|actions| - 1];
      HostCallsAreSteps(cfg, s, key, init);
      assert HostCalls(key, actions)[..|actions| - 1] == HostCalls(key, init);
    }
  }

  /** And wherever such a run has got to, calls the operator's own client can make bring the
      reconcile to its end in sync, unless it has still to list and Kuma's listing cannot be
      translated. */
  lemma HostCanStillFinish(cfg: Settings, t: State, key: Key, r: HM.Resource, plan: HM.Plan) returns (calls: seq<HM.Action>)
    requires
      var l := HostAt(t, key);
      && HC.Thriving(cfg.hosts, l, r, plan) && HC.Affords(t.kuma, l.attempt.value.phase, plan)
      && (HC.BeforeListing(l.attempt.value.phase) ==> HC.Free(t.kuma, r, plan))
    ensures HC.AllSucceed(calls) && HC.AllPossible(cfg.hosts, ByHost(key), HostAt(t, key), calls)
    ensures HC.EndsInSync(HostAt(Run(cfg, t, HostCalls(key, calls)), key))
  {
    calls := HC.Finishes(cfg.hosts, ByHost(key), HostAt(t, key), r, plan);
    HostCallsAreSteps(cfg, t, key, calls);
  }

  /** The resource is left alone, and its own calls are such as the operator's client can make. */
  predicate HostTries(s: State, key: Key, action: Action) {
    && Quiescence.SparesReferences(action)
    && (action.HostUser? ==> action.key != key)
    && (action.Host? && action.key == key ==> HC.Possible(HostAt(s, key), action.host))
  }

  /** So it is throughout the run, and Kuma's listing can never be translated. */
  ghost predicate HostKeepsTrying(cfg: Settings, s: State, key: Key, actions: seq<Action>) {
    && !Listable(Run(cfg, s, actions).kuma)
    && (actions != [] ==>
          var init := actions[..|actions| - 1];
          HostKeepsTrying(cfg, s, key, init) && HostTries(Run(cfg, s, init), key, actions[|actions| - 1]))
  }

  lemma HostStepSticks(cfg: Settings, s: State, key: Key, r: HM.Resource, plan: HM.Plan, action: Action)
    requires HM.CollisionFree(cfg.hosts) && Inv(cfg, s) && HostTries(s, key, action) && !Listable(Apply(cfg, s, action).kuma)
    requires HC.Stuck(cfg.hosts, HostAt(s, key), r, plan)
    ensures HC.Stuck(cfg.hosts, HostAt(Apply(cfg, s, action), key), r, plan)
  {
    var t := Apply(cfg, s, action);
    if action.Host? && action.key == key {
      HC.StepSticks(cfg.hosts, ByHost(key), HostAt(s, key), r, plan, action.host);
    } else {
      Quiescence.ReferencesStay(cfg, s, action);
      Quiescence.HostIsShifted(cfg, s, action, key);
      HC.ShiftSticks(cfg.hosts, HostAt(s, key), r, plan, t.kuma, t.latest, if action.Hand? then Touches(action.hand) else {});
    }
  }

  /** The converse over runs: as long as Kuma holds a group or another monitor the operator does
      not manage, no reconcile of a resource whose hash is recorded ever ends in sync, however
      often it is tried. */
  lemma {:induction false} HostNeverWhileUnlistable(cfg: Settings, s: State, key: Key, r: HM.Resource, plan: HM.Plan, actions: seq<Action>)
    requires HM.CollisionFree(cfg.hosts) && Inv(cfg, s) && HC.Stuck(cfg.hosts, HostAt(s, key), r, plan)
    requires HostKeepsTrying(cfg, s, key, actions)
    ensures HC.Stuck(cfg.hosts, HostAt(Run(cfg, s, actions), key), r, plan)
    ensures !HC.EndsInSync(HostAt(Run(cfg, s, actions), key))
  {
    if actions != [] {
      var init, action := actions[..|actions| - 1], actions[|actions| - 1];
      HostNeverWhileUnlistable(cfg, s, key, r, plan, init);
      RunKeeps(cfg, s, init);
      HostStepSticks(cfg, Run(cfg, s, init), key, r, plan, action);
    }
  }

  // ----------------------------------------------------------------------- Monitors

  /** The Monitor's own calls succeed, and users leave it alone. */
  predicate LeavesMonitor(key: Key, action: Action) {
    && (action.MonitorUser? ==> action.key != key)
    && (action.Monitor? && action.key == key ==> MC.Succeeds(action.monitor))
  }

  predicate AllLeaveMonitor(key: Key, actions: seq<Action>) {
    forall i :: 0 <= i < |actions| ==> LeavesMonitor(key, actions[i])
  }

  predicate MonitorFavours(key: Key, action: Action) {
    Quiescence.SparesReferences(action) && LeavesMonitor(key, action)
  }

  predicate MonitorsFavour(key: Key, actions: seq<Action>) {
    forall i :: 0 <= i < |actions| ==> MonitorFavours(key, actions[i])
  }

  lemma MonitorStepThrives(cfg: Settings, s: State, key: Key, m: MM.Monitor, desired: MonitorSpec, action: Action)
    requires HM.CollisionFree(cfg.hosts) && Inv(cfg, s) && MonitorFavours(key, action) && s.kuma.nextID < MAX_INT64
    requires MC.Thriving(MonitorAt(s, key), m, desired)
    ensures MC.Thriving(MonitorAt(Apply(cfg, s, action), key), m, desired)
  {
    var t := Apply(cfg, s, action);
    if action.Monitor? && action.key == key {
      MC.StepThrives(cfg.monitors, ByMonitor(key), MonitorAt(s, key), m, desired, action.monitor);
    } else {
      Quiescence.ReferencesStay(cfg, s, action);
      Quiescence.MonitorIsShifted(cfg, s, action, key);
      MC.ShiftThrives(MonitorAt(s, key), m, desired, t.kuma, t.latest, if action.Hand? then Touches(action.hand) else {});
    }
  }

  lemma {:induction false} MonitorRunThrives(cfg: Settings, s: State, key: Key, m: MM.Monitor, desired: MonitorSpec, actions: seq<Action>)
    requires HM.CollisionFree(cfg.hosts) && Inv(cfg, s) && MC.Thriving(MonitorAt(s, key), m, desired)
    requires MonitorsFavour(key, actions)
    requires Run(cfg, s, actions).kuma.nextID < MAX_INT64
    ensures MC.Thriving(MonitorAt(Run(cfg, s, actions), key), m, desired)
  {
    if actions != [] {
      var init, action := actions[..|actions| - 1], actions[|actions| - 1];
      RunKeeps(cfg, s, init);
      IDsGrow(cfg, Run(cfg, s, init), action);
      MonitorRunThrives(cfg, s, key, m, desired, init);
      MonitorStepThrives(cfg, Run(cfg, s, init), key, m, desired, action);
    }
  }

  lemma MonitorBegins(cfg: Settings, s: State, key: Key, m: MM.Monitor, desired: MonitorSpec)
    requires MonitorSlotAt(s, key).attempt.None? && MonitorSlotAt(s, key).cur == Some(m)
    requires MQ.Serves(s.kuma, MonitorSlotAt(s, key).secrets, m, desired)
    ensures MC.Thriving(MonitorAt(Apply(cfg, s, Monitor(key, MM.Begin)), key), m, desired)
  {
    MC.BeginThrives(cfg.monitors, ByMonitor(key), MonitorAt(s, key), m, desired);
  }

  predicate MonitorSucceeds(l: MM.Local) {
    l.attempt.Some? && l.attempt.value.phase != MM.Ended(MM.Error) && (l.attempt.value.phase.Ended? ==> MC.EndsInSync(l))
  }

  /** The same for a live Monitor. */
  lemma MonitorSuccessEndsInSync(cfg: Settings, s: State, key: Key, m: MM.Monitor, desired: MonitorSpec, actions: seq<Action>)
    requires HM.CollisionFree(cfg.hosts) && Inv(cfg, s)
    requires MonitorSlotAt(s, key).attempt.None? && MonitorSlotAt(s, key).cur == Some(m)
    requires MQ.Serves(s.kuma, MonitorSlotAt(s, key).secrets, m, desired)
    requires MonitorsFavour(key, actions)
    requires Run(cfg, Apply(cfg, s, Monitor(key, MM.Begin)), actions).kuma.nextID < MAX_INT64
    ensures MonitorSucceeds(MonitorAt(Run(cfg, Apply(cfg, s, Monitor(key, MM.Begin)), actions), key))
  {
    var begun := Apply(cfg, s, Monitor(key, MM.Begin));
    MonitorBegins(cfg, s, key, m, desired);
    ApplyKeeps(cfg, s, Monitor(key, MM.Begin));
    MonitorRunThrives(cfg, begun, key, m, desired, actions);
    MC.ThrivingPhase(MonitorAt(Run(cfg, begun, actions), key), m, desired);
  }

  predicate MonitorTries(s: State, key: Key, action: Action) {
    && Quiescence.SparesReferences(action)
    && (action.MonitorUser? ==> action.key != key)
    && (action.Monitor? && action.key == key ==> MC.Possible(MonitorAt(s, key), action.monitor))
  }

  ghost predicate MonitorKeepsTrying(cfg: Settings, s: State, key: Key, actions: seq<Action>) {
    && !Listable(Run(cfg, s, actions).kuma)
    && (actions != [] ==>
          var init := actions[..|actions| - 1];
          MonitorKeepsTrying(cfg, s, key, init) && MonitorTries(Run(cfg, s, init), key, actions[|actions| - 1]))
  }

  lemma MonitorStepSticks(cfg: Settings, s: State, key: Key, m: MM.Monitor, desired: MonitorSpec, action: Action)
    requires HM.CollisionFree(cfg.hosts) && Inv(cfg, s) && MonitorTries(s, key, action) && !Listable(Apply(cfg, s, action).kuma)
    requires MC.Stuck(MonitorAt(s, key), m, desired)
    ensures MC.Stuck(MonitorAt(Apply(cfg, s, action), key), m, desired)
  {
    var t := Apply(cfg, s, action);
    if action.Monitor? && action.key == key {
      MC.StepSticks(cfg.monitors, ByMonitor(key), MonitorAt(s, key), m, desired, action.monitor);
    } else {
      Quiescence.ReferencesStay(cfg, s, action);
      Quiescence.MonitorIsShifted(cfg, s, action, key);
      MC.ShiftSticks(MonitorAt(s, key), m, desired, t.kuma, t.latest, if action.Hand? then Touches(action.hand) else {});
    }
  }

  /** As long as Kuma's listing cannot be translated, no reconcile of a Monitor at a synced
      generation ever ends in sync. */
  lemma {:induction false} MonitorNeverWhileUnlistable(cfg: Settings, s: State, key: Key, m: MM.Monitor, desired: MonitorSpec, actions: seq<Action>)
    requires HM.CollisionFree(cfg.hosts) && Inv(cfg, s) && MC.Stuck(MonitorAt(s, key), m, desired)
    requires MonitorKeepsTrying(cfg, s, key, actions)
    ensures MC.Stuck(MonitorAt(Run(cfg, s, actions), key), m, desired)
    ensures !MC.EndsInSync(MonitorAt(Run(cfg, s, actions), key))
  {
    if actions != [] {
      var init, action := actions[..|actions| - 1], actions[|actions| - 1];
      MonitorNeverWhileUnlistable(cfg, s, key, m, desired, init);
      RunKeeps(cfg, s, init);
      MonitorStepSticks(cfg, Run(cfg, s, init), key, m, desired, action);
    }
  }

  // ------------------------------------------------------------- telling a failure

  /** The attempt goes on, or is over with an error and the failure is on the Monitor, which has
      not changed otherwise. */
  predicate FailureTold(l: MM.Local, m: MM.Monitor, message: string) {
    l.attempt.Some? && (l.attempt.value.phase.Ended? ==>
      l.attempt.value.phase.verdict.Error? && l.cur.Some?
      && l.cur.value == m.(condition := MM.SyncFailed(message), version := l.cur.value.version))
  }

  lemma {:induction false} RunTells(cfg: Settings, s: State, key: Key, m: MM.Monitor, message: string, actions: seq<Action>)
    requires HM.CollisionFree(cfg.hosts) && Inv(cfg, s) && MR.Telling(MonitorAt(s, key), m, message) && AllLeaveMonitor(key, actions)
    ensures MR.Telling(MonitorAt(Run(cfg, s, actions), key), m, message)
  {
    if actions != [] {
      var init, action := actions[..|actions| - 1], actions[|actions| - 1];
      RunTells(cfg, s, key, m, message, init);
      RunKeeps(cfg, s, init);
      var before := Run(cfg, s, init);
      if action.Monitor? && action.key == key {
        MR.StepTells(cfg.monitors, ByMonitor(key), MonitorAt(before, key), m, message, action.monitor);
      } else {
        var t := Apply(cfg, before, action);
        Quiescence.MonitorIsShifted(cfg, before, action, key);
        MR.ShiftTells(MonitorAt(before, key), m, message, t.kuma, t.latest, if action.Hand? then Touches(action.hand) else {});
      }
    }
  }

  /** An Upsert of a Monitor that fails is told on the Monitor, whatever others do meanwhile. */
  lemma FailedUpsertIsTold(cfg: Settings, s: State, key: Key, m: MM.Monitor, outcome: Outcome, message: string, actions: seq<Action>)
    requires HM.CollisionFree(cfg.hosts) && Inv(cfg, s) && outcome != Succeeded && AllLeaveMonitor(key, actions)
    requires Upserts(MonitorAt(s, key)) && MonitorSlotAt(s, key).cur == Some(m)
    ensures FailureTold(MonitorAt(Run(cfg, Apply(cfg, s, Monitor(key, MM.Change(outcome, message))), actions), key), m, message)
  {
    assert MonitorGood(s, key);
    MR.FailureIsTold(cfg.monitors, ByMonitor(key), MonitorAt(s, key), outcome, message);
    ApplyKeeps(cfg, s, Monitor(key, MM.Change(outcome, message)));
    RunTells(cfg, Apply(cfg, s, Monitor(key, MM.Change(outcome, message))), key, m, message, actions);
  }

  predicate Upserts(l: MM.Local) {
    l.attempt.Some? && l.attempt.value.phase.Upserting?
  }
}
