/** Whether a deleted or opted-out resource is let go while everyone else goes on acting: over
    whole runs of the system. */
module Cleanup {
  import opened Wrappers
  import opened Store
  import opened Tracking
  import opened System
  import HM = HostMachine
  import HI = HostInvariant
  import HC = HostCompletion
  import HL = HostLeaving
  import HostSync
  import MM = MonitorMachine
  import MI = MonitorInvariant
  import MC = MonitorCompletion
  import ML = MonitorLeaving
  import Quiescence
  import Completion

  // -------------------------------------------------------------- routed resources

  predicate AllLeaveHost(key: Key, actions: seq<Action>) {
    forall i :: 0 <= i < |actions| ==> Completion.LeavesHost(key, actions[i])
  }

  lemma HostStepLeaves(cfg: Settings, s: State, key: Key, r: HM.Resource, action: Action)
    requires HM.CollisionFree(cfg.hosts) && Inv(cfg, s) && Completion.LeavesHost(key, action) && HL.Leaving(HostAt(s, key), r)
    ensures HL.Leaving(HostAt(Apply(cfg, s, action), key), r)
  {
    var t := Apply(cfg, s, action);
    if action.Host? && action.key == key {
      HL.StepLeaves(cfg.hosts, ByHost(key), HostAt(s, key), r, action.host);
    } else {
      Quiescence.HostIsShifted(cfg, s, action, key);
      HL.ShiftLeaves(HostAt(s, key), r, t.kuma, t.latest, if action.Hand? then Touches(action.hand) else {});
    }
  }

  lemma {:induction false} HostRunLeaves(cfg: Settings, s: State, key: Key, r: HM.Resource, actions: seq<Action>)
    requires HM.CollisionFree(cfg.hosts) && Inv(cfg, s) && HL.Leaving(HostAt(s, key), r)
    requires AllLeaveHost(key, actions)
    ensures HL.Leaving(HostAt(Run(cfg, s, actions), key), r)
  {
    if actions != [] {
      var init, action := actions[..|actions| - 1], actions[|actions| - 1];
      RunKeeps(cfg, s, init);
      HostRunLeaves(cfg, s, key, r, init);
      HostStepLeaves(cfg, Run(cfg, s, init), key, r, action);
    }
  }

  /** Nothing tracked exists any more, and the resource is released. */
  ghost predicate HostReleased(l: HM.Local, r: HM.Resource) {
    && r.ids.IDs? && (forall h :: h in r.ids.m ==> IDOf(r.ids.m[h]) !in l.kuma.monitors)
    && HL.Released(l.cur, r)
  }

  /** The attempt is over and has let the resource go. */
  ghost predicate HostOver(l: HM.Local, r: HM.Resource) {
    && l.attempt.Some? && l.attempt.value.phase == HM.Ended(if r.deleting then HM.Gone else HM.OptedOut)
    && HostReleased(l, r)
  }

  /** The attempt goes on without a failure, or has let the resource go. */
  ghost predicate HostLetGo(l: HM.Local, r: HM.Resource) {
    l.attempt.Some? && (l.attempt.value.phase.Ended? ==> HostOver(l, r))
  }

  lemma HostBegins(cfg: Settings, s: State, key: Key, r: HM.Resource)
    requires Inv(cfg, s) && HostSlotAt(s, key).attempt.None? && HostSlotAt(s, key).cur == Some(r)
    requires HL.Unwanted(cfg.hosts.optInByDefault, r)
    ensures HL.Leaving(HostAt(Apply(cfg, s, Host(key, HM.Begin)), key), r)
  {
    assert HostGood(cfg, s, key);
    HL.BeginLeaves(cfg.hosts, ByHost(key), HostAt(s, key), r);
  }

  /** In every run: a reconcile of a deleted or opted-out resource whose calls all succeed never
      fails, whatever others do; once over, its monitors are gone, a deleted resource has lost
      the finalizer and exists only if someone else's holds it, and an opted-out one has lost
      exactly the operator's marks. */
  lemma HostSuccessReleases(cfg: Settings, s: State, key: Key, r: HM.Resource, actions: seq<Action>)
    requires HM.CollisionFree(cfg.hosts) && Inv(cfg, s)
    requires HostSlotAt(s, key).attempt.None? && HostSlotAt(s, key).cur == Some(r) && HL.Unwanted(cfg.hosts.optInByDefault, r)
    requires AllLeaveHost(key, actions)
    ensures HostLetGo(HostAt(Run(cfg, Apply(cfg, s, Host(key, HM.Begin)), actions), key), r)
  {
    var begun := Apply(cfg, s, Host(key, HM.Begin));
    HostBegins(cfg, s, key, r);
    ApplyKeeps(cfg, s, Host(key, HM.Begin));
    HostRunLeaves(cfg, begun, key, r, actions);
    RunKeeps(cfg, begun, actions);
    HostEndReleases(cfg, Run(cfg, begun, actions), key, r);
  }

  lemma HostEndReleases(cfg: Settings, t: State, key: Key, r: HM.Resource)
    requires Inv(cfg, t) && HL.Leaving(HostAt(t, key), r)
    ensures HostLetGo(HostAt(t, key), r)
  {
    assert HostGood(cfg, t, key);
    LeavingLetsGo(cfg, ByHost(key), HostAt(t, key), r);
  }

  lemma LeavingLetsGo(cfg: Settings, who: Owner, l: HM.Local, r: HM.Resource)
    requires HI.Inv(cfg.hosts, who, l) && HL.Leaving(l, r)
    ensures HostLetGo(l, r)
  {
    if l.attempt.value.phase.Ended? {
      HL.NothingLeft(cfg.hosts, who, l, r);
    }
  }

  /** And wherever such a run has got to, some calls bring the reconcile to that end. */
  lemma HostCanStillLeave(cfg: Settings, t: State, key: Key, r: HM.Resource) returns (calls: seq<HM.Action>)
    requires HM.CollisionFree(cfg.hosts) && Inv(cfg, t) && HL.Leaving(HostAt(t, key), r)
    ensures HC.AllSucceed(calls)
    ensures HostOver(HostAt(Run(cfg, t, Completion.HostCalls(key, calls)), key), r)
  {
    calls := HL.Finishes(cfg.hosts, ByHost(key), HostAt(t, key), r);
    Completion.HostCallsAreSteps(cfg, t, key, calls);
    RunKeeps(cfg, t, Completion.HostCalls(key, calls));
    HostEndReleases(cfg, Run(cfg, t, Completion.HostCalls(key, calls)), key, r);
  }

  /** In every reachable state: a cleanup that ended well took the finalizer off, and an opt-out
      every mark; nothing either tracked is left. */
  lemma HostVerdictsHold(cfg: Settings, init: State, actions: seq<Action>, key: Key)
    requires HM.CollisionFree(cfg.hosts) && Initial(init)
    ensures HL.VerdictHolds(HostAt(Run(cfg, init, actions), key))
  {
    RunInv(cfg, init, actions);
    assert HostGood(cfg, Run(cfg, init, actions), key);
    HL.VerdictsHold(cfg.hosts, ByHost(key), HostAt(Run(cfg, init, actions), key));
  }

  predicate LeavesAlone(key: Key, actions: seq<Action>) {
    forall i :: 0 <= i < |actions| ==> !(actions[i].HostUser? && actions[i].key == key)
  }

  /** A resource that is not opted in and carries no mark: however often it is reconciled, no call
      is made and nothing about it changes. */
  lemma {:induction false} OptedOutStaysQuiet(cfg: Settings, s: State, key: Key, actions: seq<Action>)
    requires HM.CollisionFree(cfg.hosts) && Inv(cfg, s) && LeavesAlone(key, actions)
    requires HL.Uninvolved(cfg.hosts.optInByDefault, HostAt(s, key))
    ensures HL.Uninvolved(cfg.hosts.optInByDefault, HostAt(Run(cfg, s, actions), key))
    ensures HostSlotAt(Run(cfg, s, actions), key).writes == HostSlotAt(s, key).writes
    ensures HostSlotAt(Run(cfg, s, actions), key).cur == HostSlotAt(s, key).cur
  {
    if actions != [] {
      var init, action := actions[..|actions| - 1], actions[|actions| - 1];
      OptedOutStaysQuiet(cfg, s, key, init);
      RunKeeps(cfg, s, init);
      var before := Run(cfg, s, init);
      if action.Host? && action.key == key {
        HL.UninvolvedStep(cfg.hosts, ByHost(key), HostAt(before, key), action.host);
      } else {
        Quiescence.HostIsShifted(cfg, before, action, key);
      }
    }
  }

  // ----------------------------------------------------------------------- Monitors

  lemma MonitorStepLeaves(cfg: Settings, s: State, key: Key, m: MM.Monitor, action: Action)
    requires HM.CollisionFree(cfg.hosts) && Inv(cfg, s) && Completion.LeavesMonitor(key, action) && ML.Leaving(MonitorAt(s, key), m)
    ensures ML.Leaving(MonitorAt(Apply(cfg, s, action), key), m)
  {
    var t := Apply(cfg, s, action);
    if action.Monitor? && action.key == key {
      ML.StepLeaves(cfg.monitors, ByMonitor(key), MonitorAt(s, key), m, action.monitor);
    } else {
      Quiescence.MonitorIsShifted(cfg, s, action, key);
      ML.ShiftLeaves(MonitorAt(s, key), m, t.kuma, t.latest, if action.Hand? then Touches(action.hand) else {});
    }
  }

  lemma {:induction false} MonitorRunLeaves(cfg: Settings, s: State, key: Key, m: MM.Monitor, actions: seq<Action>)
    requires HM.CollisionFree(cfg.hosts) && Inv(cfg, s) && ML.Leaving(MonitorAt(s, key), m)
    requires Completion.AllLeaveMonitor(key, actions)
    ensures ML.Leaving(MonitorAt(Run(cfg, s, actions), key), m)
  {
    if actions != [] {
      var init, action := actions[..|actions| - 1], actions[|actions| - 1];
      RunKeeps(cfg, s, init);
      MonitorRunLeaves(cfg, s, key, m, init);
      MonitorStepLeaves(cfg, Run(cfg, s, init), key, m, action);
    }
  }

  ghost predicate MonitorReleased(l: MM.Local, m: MM.Monitor) {
    (m.monitorID != "" ==> IDOf(m.monitorID) !in l.kuma.monitors) && ML.Released(l.cur, m)
  }

  ghost predicate MonitorOver(l: MM.Local, m: MM.Monitor) {
    l.attempt.Some? && l.attempt.value.phase == MM.Ended(MM.Gone) && MonitorReleased(l, m)
  }

  ghost predicate MonitorLetGo(l: MM.Local, m: MM.Monitor) {
    l.attempt.Some? && (l.attempt.value.phase.Ended? ==> MonitorOver(l, m))
  }

  lemma MonitorEndReleases(cfg: Settings, t: State, key: Key, m: MM.Monitor)
    requires Inv(cfg, t) && ML.Leaving(MonitorAt(t, key), m)
    ensures MonitorLetGo(MonitorAt(t, key), m)
  {
    assert MonitorGood(t, key);
    MonitorLeavingLetsGo(ByMonitor(key), MonitorAt(t, key), m);
  }

  lemma MonitorLeavingLetsGo(who: Owner, l: MM.Local, m: MM.Monitor)
    requires MI.Inv(who, l) && ML.Leaving(l, m)
    ensures MonitorLetGo(l, m)
  {
    if l.attempt.value.phase.Ended? {
      ML.NothingLeft(who, l, m);
    }
  }

  lemma MonitorBegins(cfg: Settings, s: State, key: Key, m: MM.Monitor)
    requires Inv(cfg, s) && MonitorSlotAt(s, key).attempt.None? && MonitorSlotAt(s, key).cur == Some(m) && m.deleting
    ensures ML.Leaving(MonitorAt(Apply(cfg, s, Monitor(key, MM.Begin)), key), m)
  {
    assert MonitorGood(s, key);
    ML.BeginLeaves(cfg.monitors, ByMonitor(key), MonitorAt(s, key), m);
  }

  /** The same for a deleted Monitor. */
  lemma MonitorSuccessReleases(cfg: Settings, s: State, key: Key, m: MM.Monitor, actions: seq<Action>)
    requires HM.CollisionFree(cfg.hosts) && Inv(cfg, s)
    requires MonitorSlotAt(s, key).attempt.None? && MonitorSlotAt(s, key).cur == Some(m) && m.deleting
    requires Completion.AllLeaveMonitor(key, actions)
    ensures MonitorLetGo(MonitorAt(Run(cfg, Apply(cfg, s, Monitor(key, MM.Begin)), actions), key), m)
  {
    var begun := Apply(cfg, s, Monitor(key, MM.Begin));
    MonitorBegins(cfg, s, key, m);
    ApplyKeeps(cfg, s, Monitor(key, MM.Begin));
    MonitorRunLeaves(cfg, begun, key, m, actions);
    RunKeeps(cfg, begun, actions);
    MonitorEndReleases(cfg, Run(cfg, begun, actions), key, m);
  }

  function MonitorCalls(key: Key, actions: seq<MM.Action>): seq<Action> {
    seq(|actions|, i requires 0 <= i < |actions| => Monitor(key, actions[i]))
  }

  lemma {:induction false} StepsLast(cfg: MM.Config, who: Owner, l: MM.Local, actions: seq<MM.Action>, action: MM.Action)
    ensures MC.Steps(cfg, who, l, actions + [action]) == MM.Step(cfg, who, MC.Steps(cfg, who, l, actions), action)
    decreases |actions|
  {
    if actions == [] {
      assert actions + [action] == [action];
    } else {
      assert (actions + [action])[1..] == actions[1..] + [action];
      StepsLast(cfg, who, MM.Step(cfg, who, l, actions[0]), actions[1..], action);
    }
  }

  lemma {:induction false} MonitorCallsAreSteps(cfg: Settings, s: State, key: Key, actions: seq<MM.Action>)
    ensures MonitorAt(Run(cfg, s, MonitorCalls(key, actions)), key) == MC.Steps(cfg.monitors, ByMonitor(key), MonitorAt(s, key), actions)
  {
    if actions != [] {
      var init, last := actions[..|actions| - 1], actions[|actions| - 1];
      MonitorCallsAreSteps(cfg, s, key, init);
      assert MonitorCalls(key, actions)[..|actions| - 1] == MonitorCalls(key, init);
      StepsLast(cfg.monitors, ByMonitor(key), MonitorAt(s, key), init, last);
      assert init + [last] == actions;
    }
  }

  /** And two calls at most bring it there from anywhere. */
  lemma MonitorCanStillLeave(cfg: Settings, t: State, key: Key, m: MM.Monitor) returns (calls: seq<MM.Action>)
    requires HM.CollisionFree(cfg.hosts) && Inv(cfg, t) && ML.Leaving(MonitorAt(t, key), m)
    ensures MC.AllSucceed(calls) && |calls| <= 2
    ensures MonitorOver(MonitorAt(Run(cfg, t, MonitorCalls(key, calls)), key), m)
  {
    calls := ML.Finishes(cfg.monitors, ByMonitor(key), MonitorAt(t, key), m);
    MonitorCallsAreSteps(cfg, t, key, calls);
    RunKeeps(cfg, t, MonitorCalls(key, calls));
    MonitorEndReleases(cfg, Run(cfg, t, MonitorCalls(key, calls)), key, m);
  }

  lemma MonitorVerdictHolds(cfg: Settings, init: State, actions: seq<Action>, key: Key)
    requires HM.CollisionFree(cfg.hosts) && Initial(init)
    ensures ML.VerdictHolds(MonitorAt(Run(cfg, init, actions), key))
  {
    RunInv(cfg, init, actions);
    assert MonitorGood(Run(cfg, init, actions), key);
    ML.VerdictsHold(ByMonitor(key), MonitorAt(Run(cfg, init, actions), key));
  }
}
