/** Recording a result as one call: persistMonitorIDs and updateStatus, retries included, against
    everything others do between their reads and writes. */
module Recording {
  import opened Wrappers
  import opened Spec
  import opened Strconv
  import opened Store
  import opened Tracking
  import opened System
  import HM = HostMachine
  import HI = HostInvariant
  import HW = HostWrites
  import MM = MonitorMachine
  import MI = MonitorInvariant
  import MW = MonitorWrites
  import Server

  /** The state a run is in before its i-th action, and at its end. */
  function StateAt(cfg: Settings, s: State, actions: seq<Action>, i: int): State {
    Run(cfg, s, if 0 <= i <= |actions| then actions[..i] else actions)
  }

  lemma RunSplits(cfg: Settings, s: State, actions: seq<Action>, i: nat)
    requires i < |actions|
    ensures StateAt(cfg, s, actions, i + 1) == Apply(cfg, StateAt(cfg, s, actions, i), actions[i])
  {
    assert actions[..i + 1][..i] == actions[..i];
  }

  // ------------------------------------------------------------ persistMonitorIDs

  /** The reconcile of the resource is inside this call of persistMonitorIDs. */
  predicate Persisting(l: HM.Local, write: HM.Write) {
    l.attempt.Some?
    && match l.attempt.value.phase
       case Reading(w, _) => w == write
       case Writing(w, _, _) => w == write
       case _ => false
  }

  function HostTries(l: HM.Local): nat
    requires l.attempt.Some? && (l.attempt.value.phase.Reading? || l.attempt.value.phase.Writing?)
  {
    l.attempt.value.phase.tries
  }

  /** At its first read. */
  predicate HostBegun(l: HM.Local, write: HM.Write) {
    l.attempt.Some? && l.attempt.value.phase == HM.Reading(write, 1)
  }

  ghost predicate HostCommitsOrNothing(l: HM.Local, after: HM.Local, write: HM.Write) {
    || HW.WritesNothing(l, after)
    || (l.attempt.Some? && l.attempt.value.phase.Writing? && HW.Commits(l, after, write, l.attempt.value.phase.got))
  }

  predicate OwnHostAt(actions: seq<Action>, i: int, key: Key) {
    0 <= i < |actions| && OwnHost(actions[i], key)
  }

  predicate OwnHost(action: Action, key: Key) {
    action.Host? && action.key == key
  }

  /** A step that stays inside the call writes nothing. */
  lemma StaysMeansNothing(cfg: HM.Config, who: Owner, l: HM.Local, write: HM.Write, action: HM.Action)
    requires Persisting(l, write) && Persisting(HM.Step(cfg, who, l, action), write)
    ensures HW.WritesNothing(l, HM.Step(cfg, who, l, action))
  {
    if action.Change? && l.attempt.value.phase.Writing? {
      var phase := l.attempt.value.phase;
      StaysAfterUpdate(l, write, phase.tries, phase.got, action.outcome);
    }
  }

  lemma StaysAfterUpdate(l: HM.Local, write: HM.Write, tries: nat, got: HM.Resource, outcome: Outcome)
    requires l.attempt.Some? && l.attempt.value.phase == HM.Writing(write, tries, got)
    requires Persisting(HM.WriteStep(l, write, tries, got, outcome), write)
    ensures HW.WritesNothing(l, HM.WriteStep(l, write, tries, got, outcome))
    ensures tries < MAX_TRIES && HostTries(HM.WriteStep(l, write, tries, got, outcome)) == tries + 1
  {}

  /** The step that leaves the call commits once or writes nothing. */
  lemma LeavesByOne(cfg: HM.Config, who: Owner, l: HM.Local, write: HM.Write, action: HM.Action)
    requires HI.Inv(cfg, who, l) && Persisting(l, write)
    ensures
      var after := HM.Step(cfg, who, l, action);
      || HW.WritesNothing(l, after)
      || (l.attempt.value.phase.Writing? && HW.Commits(l, after, write, l.attempt.value.phase.got))
  {
    if action.Change? && l.attempt.value.phase.Writing? {
      var phase := l.attempt.value.phase;
      HW.NoLostUpdate(cfg, who, l, write, phase.tries, phase.got, action.outcome);
    }
  }

  /** While a reconcile is inside the call at its n-th try it has made n - 1 Updates. */
  ghost predicate HostCounted(l: HM.Local, writes: nat) {
    && l.attempt.Some? && (l.attempt.value.phase.Reading? || l.attempt.value.phase.Writing?)
    && 1 <= HostTries(l) <= MAX_TRIES && l.writes == writes + HostTries(l) - 1
  }

  lemma HostCounts(cfg: HM.Config, who: Owner, l: HM.Local, write: HM.Write, action: HM.Action, writes: nat)
    requires Persisting(l, write) && HostCounted(l, writes)
    ensures
      var after := HM.Step(cfg, who, l, action);
      after.writes <= writes + MAX_TRIES && (Persisting(after, write) ==> HostCounted(after, writes))
  {
    if action.Change? && l.attempt.value.phase.Writing? {
      var phase := l.attempt.value.phase;
      if Persisting(HM.WriteStep(l, write, phase.tries, phase.got, action.outcome), write) {
        StaysAfterUpdate(l, write, phase.tries, phase.got, action.outcome);
      }
    }
  }

  lemma HostBystander(cfg: Settings, s: State, key: Key, action: Action)
    requires !OwnHost(action, key)
    ensures
      var before, after := HostAt(s, key), HostAt(Apply(cfg, s, action), key);
      && before.writes == after.writes && before.attempt.Some? == after.attempt.Some?
      && (before.attempt.Some? ==> after.attempt.value.phase == before.attempt.value.phase)
  {
    Server.HostKept(cfg, s, action, key);
  }

  lemma HostActor(cfg: Settings, s: State, key: Key, action: Action)
    requires OwnHost(action, key)
    ensures HostAt(Apply(cfg, s, action), key) == HM.Step(cfg.hosts, ByHost(key), HostAt(s, key), action.host)
  {}

  /** The run is inside the call before each of its actions. */
  ghost predicate Throughout(cfg: Settings, s: State, key: Key, write: HM.Write, actions: seq<Action>) {
    forall i :: 0 <= i < |actions| ==> Persisting(HostAt(StateAt(cfg, s, actions, i), key), write)
  }

  lemma {:induction false} HostRunCounts(cfg: Settings, s: State, key: Key, write: HM.Write, actions: seq<Action>)
    requires HostBegun(HostAt(s, key), write)
    requires Throughout(cfg, s, key, write, actions)
    ensures
      var l := HostAt(Run(cfg, s, actions), key);
      && l.writes <= HostAt(s, key).writes + MAX_TRIES
      && (Persisting(l, write) ==> HostCounted(l, HostAt(s, key).writes))
  {
    if actions != [] {
      var init, action := actions[..|actions| - 1], actions[|actions| - 1];
      forall i | 0 <= i <= |init|
        ensures StateAt(cfg, s, init, i) == StateAt(cfg, s, actions, i)
      {
        assert init[..i] == actions[..i];
      }
      assert StateAt(cfg, s, actions, |init|) == Run(cfg, s, init);
      HostRunCounts(cfg, s, key, write, init);
      var before := Run(cfg, s, init);
      if OwnHost(action, key) {
        HostActor(cfg, before, key, action);
        HostCounts(cfg.hosts, ByHost(key), HostAt(before, key), write, action.host, HostAt(s, key).writes);
      } else {
        HostBystander(cfg, before, key, action);
      }
    }
  }

  /** What the i-th action of a run does to the resource. */
  ghost predicate HostWritesNothingAt(cfg: Settings, s: State, key: Key, actions: seq<Action>, i: int) {
    HW.WritesNothing(HostAt(StateAt(cfg, s, actions, i), key), HostAt(StateAt(cfg, s, actions, i + 1), key))
  }

  /** persistMonitorIDs as a whole, against arbitrary concurrent writers: from its first read to
      the step that leaves it, only that last step may commit, and then one version, which
      replaces the version it was based on and differs from it only in the marks; it makes at
      most five Updates. */
  lemma PersistsAtMostOnce(cfg: Settings, s: State, key: Key, write: HM.Write, actions: seq<Action>)
    requires HM.CollisionFree(cfg.hosts) && Inv(cfg, s) && actions != []
    requires HostBegun(HostAt(s, key), write)
    requires Throughout(cfg, s, key, write, actions)
    ensures forall i :: 0 <= i < |actions| - 1 && OwnHostAt(actions, i, key) ==> HostWritesNothingAt(cfg, s, key, actions, i)
    ensures OwnHostAt(actions, |actions| - 1, key) ==>
              HostCommitsOrNothing(HostAt(StateAt(cfg, s, actions, |actions| - 1), key), HostAt(Run(cfg, s, actions), key), write)
    ensures HostAt(Run(cfg, s, actions), key).writes <= HostAt(s, key).writes + 5
  {
    var last := |actions| - 1;
    HostRunCounts(cfg, s, key, write, actions);
    forall i | 0 <= i < last && OwnHostAt(actions, i, key)
      ensures HostWritesNothingAt(cfg, s, key, actions, i)
    {
      RunSplits(cfg, s, actions, i);
      HostActor(cfg, StateAt(cfg, s, actions, i), key, actions[i]);
      StaysMeansNothing(cfg.hosts, ByHost(key), HostAt(StateAt(cfg, s, actions, i), key), write, actions[i].host);
    }
    RunSplits(cfg, s, actions, last);
    assert actions[..|actions|] == actions;
    if OwnHost(actions[last], key) {
      HostLeaves(cfg, s, key, write, actions[..last], actions[last]);
    }
  }

  lemma HostLeaves(cfg: Settings, s: State, key: Key, write: HM.Write, actions: seq<Action>, action: Action)
    requires HM.CollisionFree(cfg.hosts) && Inv(cfg, s) && OwnHost(action, key)
    requires Persisting(HostAt(Run(cfg, s, actions), key), write)
    ensures HostCommitsOrNothing(HostAt(Run(cfg, s, actions), key), HostAt(Apply(cfg, Run(cfg, s, actions), action), key), write)
  {
    RunKeeps(cfg, s, actions);
    assert HostGood(cfg, Run(cfg, s, actions), key);
    HostActor(cfg, Run(cfg, s, actions), key, action);
    LeavesByOne(cfg.hosts, ByHost(key), HostAt(Run(cfg, s, actions), key), write, action.host);
  }

  /** An Update that meets a newer version is tried again from a fresh read, four times; the fifth
      conflict gives up. Nothing else is tried again. */
  lemma PersistTriesFive(l: HM.Local, write: HM.Write, tries: nat, got: HM.Resource, outcome: Outcome)
    requires l.attempt.Some? && l.attempt.value.phase == HM.Writing(write, tries, got)
    ensures
      var after := HM.WriteStep(l, write, tries, got, outcome);
      && after.attempt.Some?
      && (after.attempt.value.phase.Reading? <==>
            l.cur.Some? && l.cur.value.version != got.version && outcome != Failed && tries < 5)
      && (after.attempt.value.phase.Reading? ==> after.attempt.value.phase == HM.Reading(write, tries + 1))
      && (l.cur.Some? && l.cur.value.version != got.version && (outcome == Failed || tries >= 5) ==>
            after.attempt.value.phase == HM.Ended(HM.Error))
  {}

  /** A try that nobody interferes with commits, whatever conflicts came before: it is based on the
      version just read, and leaves exactly the operator's marks changed. */
  lemma PersistTryCommits(cfg: HM.Config, who: Owner, l: HM.Local, write: HM.Write, tries: nat)
    requires l.attempt.Some? && l.attempt.value.phase == HM.Reading(write, tries) && l.cur.Some? && !l.cur.value.deleting
    ensures
      var got, after := l.cur.value, HM.Step(cfg, who, HM.Step(cfg, who, l, HM.Read(true)), HM.Change("", Succeeded));
      && after.cur.Some? && after.attempt.Some? && after.attempt.value.phase == HM.AfterWrite(write)
      && after.cur.value == (match write
                             case Clear => got.(version := after.cur.value.version, ids := HM.IDs(map[]), hash := "", finalizer := false)
                             case Keep(plan, ids) =>
                               got.(version := after.cur.value.version, ids := HM.IDs(ids), hash := plan.hash, finalizer := true))
  {
    assert HM.Step(cfg, who, l, HM.Read(true)) == HM.At(l, HM.Writing(write, tries, l.cur.value));
  }

  // ---------------------------------------------------------------- updateStatus

  /** The reconcile of the Monitor is inside this call of updateStatus. */
  predicate Reporting(l: MM.Local, report: MM.Report) {
    l.attempt.Some?
    && match l.attempt.value.phase
       case Reading(r, _) => r == report
       case Writing(r, _, _) => r == report
       case _ => false
  }

  function MonitorTries(l: MM.Local): nat
    requires l.attempt.Some? && (l.attempt.value.phase.Reading? || l.attempt.value.phase.Writing?)
  {
    l.attempt.value.phase.tries
  }

  /** At its first read. */
  predicate MonitorBegun(l: MM.Local, report: MM.Report) {
    l.attempt.Some? && l.attempt.value.phase == MM.Reading(report, 1)
  }

  ghost predicate MonitorCommitsOrNothing(l: MM.Local, after: MM.Local, report: MM.Report) {
    || MW.WritesNothing(l, after)
    || (l.attempt.Some? && l.attempt.value.phase.Writing? && MW.Commits(l, after, report, l.attempt.value.phase.got))
  }

  predicate OwnMonitorAt(actions: seq<Action>, i: int, key: Key) {
    0 <= i < |actions| && OwnMonitor(actions[i], key)
  }

  predicate OwnMonitor(action: Action, key: Key) {
    action.Monitor? && action.key == key
  }

  lemma ReportStaysAfterUpdate(cfg: MM.Config, l: MM.Local, report: MM.Report, tries: nat, got: MM.Monitor, outcome: Outcome)
    requires l.attempt.Some? && l.attempt.value.phase == MM.Writing(report, tries, got)
    requires Reporting(MM.WriteStep(cfg, l, report, tries, got, outcome), report)
    ensures MW.WritesNothing(l, MM.WriteStep(cfg, l, report, tries, got, outcome))
    ensures tries < MAX_TRIES && MonitorTries(MM.WriteStep(cfg, l, report, tries, got, outcome)) == tries + 1
  {}

  /** A step that stays inside the call writes nothing. */
  lemma ReportStaysMeansNothing(cfg: MM.Config, who: Owner, l: MM.Local, report: MM.Report, action: MM.Action)
    requires Reporting(l, report) && Reporting(MM.Step(cfg, who, l, action), report)
    ensures MW.WritesNothing(l, MM.Step(cfg, who, l, action))
  {
    if action.Change? && l.attempt.value.phase.Writing? {
      var phase := l.attempt.value.phase;
      ReportStaysAfterUpdate(cfg, l, report, phase.tries, phase.got, action.outcome);
    }
  }

  lemma OnlyUpdatesWrite(cfg: MM.Config, who: Owner, l: MM.Local, report: MM.Report, action: MM.Action)
    requires Reporting(l, report) && !(action.Change? && l.attempt.value.phase.Writing?)
    ensures MW.WritesNothing(l, MM.Step(cfg, who, l, action))
  {}

  lemma UpdateIsStep(cfg: MM.Config, who: Owner, l: MM.Local, report: MM.Report, tries: nat, got: MM.Monitor, action: MM.Action)
    requires l.attempt.Some? && l.attempt.value.phase == MM.Writing(report, tries, got) && action.Change?
    ensures
      var after, written := MM.Step(cfg, who, l, action), MM.WriteStep(cfg, l, report, tries, got, action.outcome);
      after.cur == written.cur && after.latest == written.latest
  {}

  /** The step that leaves the call commits once or writes nothing. */
  lemma ReportLeavesByOne(cfg: MM.Config, who: Owner, l: MM.Local, report: MM.Report, action: MM.Action)
    requires MI.Inv(who, l) && Reporting(l, report)
    ensures
      var after := MM.Step(cfg, who, l, action);
      || MW.WritesNothing(l, after)
      || (l.attempt.value.phase.Writing? && MW.Commits(l, after, report, l.attempt.value.phase.got))
  {
    if action.Change? && l.attempt.value.phase.Writing? {
      var phase := l.attempt.value.phase;
      MW.NoLostUpdate(cfg, who, l, report, phase.tries, phase.got, action.outcome);
      UpdateIsStep(cfg, who, l, report, phase.tries, phase.got, action);
    } else {
      OnlyUpdatesWrite(cfg, who, l, report, action);
    }
  }

  ghost predicate MonitorCounted(l: MM.Local, writes: nat) {
    && l.attempt.Some? && (l.attempt.value.phase.Reading? || l.attempt.value.phase.Writing?)
    && 1 <= MonitorTries(l) <= MAX_TRIES && l.writes == writes + MonitorTries(l) - 1
  }

  lemma MonitorCounts(cfg: MM.Config, who: Owner, l: MM.Local, report: MM.Report, action: MM.Action, writes: nat)
    requires Reporting(l, report) && MonitorCounted(l, writes)
    ensures
      var after := MM.Step(cfg, who, l, action);
      after.writes <= writes + MAX_TRIES && (Reporting(after, report) ==> MonitorCounted(after, writes))
  {
    if action.Change? && l.attempt.value.phase.Writing? {
      var phase := l.attempt.value.phase;
      if Reporting(MM.WriteStep(cfg, l, report, phase.tries, phase.got, action.outcome), report) {
        ReportStaysAfterUpdate(cfg, l, report, phase.tries, phase.got, action.outcome);
      }
    }
  }

  lemma MonitorBystander(cfg: Settings, s: State, key: Key, action: Action)
    requires !OwnMonitor(action, key)
    ensures
      var before, after := MonitorAt(s, key), MonitorAt(Apply(cfg, s, action), key);
      && before.writes == after.writes && before.attempt.Some? == after.attempt.Some?
      && (before.attempt.Some? ==> after.attempt.value.phase == before.attempt.value.phase)
  {
    Server.MonitorKept(cfg, s, action, key);
  }

  lemma MonitorActor(cfg: Settings, s: State, key: Key, action: Action)
    requires OwnMonitor(action, key)
    ensures MonitorAt(Apply(cfg, s, action), key) == MM.Step(cfg.monitors, ByMonitor(key), MonitorAt(s, key), action.monitor)
  {}

  ghost predicate ReportingThroughout(cfg: Settings, s: State, key: Key, report: MM.Report, actions: seq<Action>) {
    forall i :: 0 <= i < |actions| ==> Reporting(MonitorAt(StateAt(cfg, s, actions, i), key), report)
  }

  lemma {:induction false} MonitorRunCounts(cfg: Settings, s: State, key: Key, report: MM.Report, actions: seq<Action>)
    requires MonitorBegun(MonitorAt(s, key), report)
    requires ReportingThroughout(cfg, s, key, report, actions)
    ensures
      var l := MonitorAt(Run(cfg, s, actions), key);
      && l.writes <= MonitorAt(s, key).writes + MAX_TRIES
      && (Reporting(l, report) ==> MonitorCounted(l, MonitorAt(s, key).writes))
  {
    if actions != [] {
      var init, action := actions[..|actions| - 1], actions[|actions| - 1];
      forall i | 0 <= i <= |init|
        ensures StateAt(cfg, s, init, i) == StateAt(cfg, s, actions, i)
      {
        assert init[..i] == actions[..i];
      }
      assert StateAt(cfg, s, actions, |init|) == Run(cfg, s, init);
      MonitorRunCounts(cfg, s, key, report, init);
      var before := Run(cfg, s, init);
      if OwnMonitor(action, key) {
        MonitorActor(cfg, before, key, action);
        MonitorCounts(cfg.monitors, ByMonitor(key), MonitorAt(before, key), report, action.monitor, MonitorAt(s, key).writes);
      } else {
        MonitorBystander(cfg, before, key, action);
      }
    }
  }

  ghost predicate MonitorWritesNothingAt(cfg: Settings, s: State, key: Key, actions: seq<Action>, i: int) {
    MW.WritesNothing(MonitorAt(StateAt(cfg, s, actions, i), key), MonitorAt(StateAt(cfg, s, actions, i + 1), key))
  }

  /** updateStatus as a whole: only the step that leaves it may commit, and then one version,
      which replaces the version it was based on and differs from it only in the status; the
      Monitor is never removed by it, and it makes at most five Updates. */
  lemma ReportsAtMostOnce(cfg: Settings, s: State, key: Key, report: MM.Report, actions: seq<Action>)
    requires HM.CollisionFree(cfg.hosts) && Inv(cfg, s) && actions != []
    requires MonitorBegun(MonitorAt(s, key), report)
    requires ReportingThroughout(cfg, s, key, report, actions)
    ensures forall i :: 0 <= i < |actions| - 1 && OwnMonitorAt(actions, i, key) ==> MonitorWritesNothingAt(cfg, s, key, actions, i)
    ensures OwnMonitorAt(actions, |actions| - 1, key) ==>
              MonitorCommitsOrNothing(MonitorAt(StateAt(cfg, s, actions, |actions| - 1), key), MonitorAt(Run(cfg, s, actions), key), report)
    ensures MonitorAt(Run(cfg, s, actions), key).writes <= MonitorAt(s, key).writes + 5
  {
    var last := |actions| - 1;
    MonitorRunCounts(cfg, s, key, report, actions);
    forall i | 0 <= i < last && OwnMonitorAt(actions, i, key)
      ensures MonitorWritesNothingAt(cfg, s, key, actions, i)
    {
      RunSplits(cfg, s, actions, i);
      MonitorActor(cfg, StateAt(cfg, s, actions, i), key, actions[i]);
      ReportStaysMeansNothing(cfg.monitors, ByMonitor(key), MonitorAt(StateAt(cfg, s, actions, i), key), report, actions[i].monitor);
    }
    RunSplits(cfg, s, actions, last);
    assert actions[..|actions|] == actions;
    if OwnMonitor(actions[last], key) {
      MonitorLeaves(cfg, s, key, report, actions[..last], actions[last]);
    }
  }

  lemma MonitorLeaves(cfg: Settings, s: State, key: Key, report: MM.Report, actions: seq<Action>, action: Action)
    requires HM.CollisionFree(cfg.hosts) && Inv(cfg, s) && OwnMonitor(action, key)
    requires Reporting(MonitorAt(Run(cfg, s, actions), key), report)
    ensures MonitorCommitsOrNothing(MonitorAt(Run(cfg, s, actions), key), MonitorAt(Apply(cfg, Run(cfg, s, actions), action), key), report)
  {
    RunKeeps(cfg, s, actions);
    assert MonitorGood(Run(cfg, s, actions), key);
    MonitorActor(cfg, Run(cfg, s, actions), key, action);
    ReportLeavesByOne(cfg.monitors, ByMonitor(key), MonitorAt(Run(cfg, s, actions), key), report, action.monitor);
  }

  /** The same five tries for a status. */
  lemma ReportTriesFive(cfg: MM.Config, l: MM.Local, report: MM.Report, tries: nat, got: MM.Monitor, outcome: Outcome)
    requires l.attempt.Some? && l.attempt.value.phase == MM.Writing(report, tries, got)
    ensures
      var after := MM.WriteStep(cfg, l, report, tries, got, outcome);
      && after.attempt.Some?
      && (after.attempt.value.phase.Reading? <==>
            l.cur.Some? && l.cur.value.version != got.version && outcome != Failed && tries < 5)
      && (after.attempt.value.phase.Reading? ==> after.attempt.value.phase == MM.Reading(report, tries + 1))
      && (l.cur.Some? && l.cur.value.version != got.version && (outcome == Failed || tries >= 5) ==>
            after.attempt.value.phase == MM.Ended(MM.Error))
  {}

  /** The same for a status that is not there yet. */
  lemma ReportTryCommits(cfg: MM.Config, who: Owner, l: MM.Local, message: string, tries: nat)
    requires l.attempt.Some? && l.attempt.value.phase == MM.Reading(MM.Failure(message), tries)
    requires l.cur.Some? && !l.cur.value.deleting && l.cur.value.condition != MM.SyncFailed(message)
    ensures
      var after := MM.Step(cfg, who, MM.Step(cfg, who, l, MM.Read(true)), MM.Change(Succeeded, ""));
      && after.cur.Some? && after.cur.value == l.cur.value.(version := after.cur.value.version, condition := MM.SyncFailed(message))
  {
    assert MM.Step(cfg, who, l, MM.Read(true)) == MM.At(l, MM.Writing(MM.Failure(message), tries, l.cur.value));
  }

  lemma SyncedTryCommits(cfg: MM.Config, who: Owner, l: MM.Local, id: int, desired: MonitorSpec, tries: nat)
    requires l.attempt.Some? && l.attempt.value.phase == MM.Reading(MM.Synced(id, desired), tries)
    requires l.cur.Some? && !l.cur.value.deleting && l.attempt.value.snap.generation != 0
    ensures
      var after := MM.Step(cfg, who, MM.Step(cfg, who, l, MM.Read(true)), MM.Change(Succeeded, ""));
      && after.cur.Some? && after.attempt.Some? && after.attempt.value.phase.Tagging?
      && after.cur.value == l.cur.value.(version := after.cur.value.version, monitorID := FormatInt(id),
                                         observed := l.attempt.value.snap.generation, condition := MM.Ready)
  {}
}
