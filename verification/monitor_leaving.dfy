/** How a deleted Monitor leaves Kuma: with its calls succeeding, a reconcile of it deletes the
    tracked monitor and then removes the finalizer. */
module MonitorLeaving {
  import opened Wrappers
  import opened Store
  import opened Tracking
  import opened MonitorMachine
  import opened MonitorInvariant
  import MonitorCompletion
  import MonitorStability

  /** The finalizer is gone and nothing else changed; without a finalizer of someone else the
      Monitor exists no longer. */
  predicate Released(cur: Option<Monitor>, m: Monitor) {
    if !m.foreignFinalizers then cur.None?
    else cur.Some? && cur.value == m.(finalizer := false, version := cur.value.version)
  }

  /** The attempt is on its way to release the deleted Monitor `m`, which is as it was read. */
  ghost predicate Leaving(l: Local, m: Monitor) {
    && l.attempt.Some? && m.deleting && (m.finalizer || m.foreignFinalizers)
    && l.attempt.value.snap.monitorID == m.monitorID
    && (Open(l.attempt.value.phase) ==> l.attempt.value.snap == m && l.cur == Some(m))
    && match l.attempt.value.phase
       case Deleting(_) => true
       case DroppingFinalizer => m.finalizer
       case Ended(verdict) => verdict == Gone && Released(l.cur, m)
       case _ => false
  }

  lemma StepLeaves(cfg: Config, who: Owner, l: Local, m: Monitor, action: Action)
    requires Leaving(l, m) && MonitorCompletion.Succeeds(action)
    ensures Leaving(Step(cfg, who, l, action), m)
  {}

  lemma BeginLeaves(cfg: Config, who: Owner, l: Local, m: Monitor)
    requires Inv(who, l) && l.attempt.None? && l.cur == Some(m) && m.deleting
    ensures Leaving(Step(cfg, who, l, Begin), m)
  {}

  lemma ShiftLeaves(l: Local, m: Monitor, k: Kuma, latest: int, touched: set<int>)
    requires Leaving(l, m)
    ensures Leaving(MonitorStability.Shifted(l, k, latest, touched), m)
  {}

  /** Once over, the monitor tracked is gone. */
  lemma NothingLeft(who: Owner, l: Local, m: Monitor)
    requires Inv(who, l) && Leaving(l, m) && l.attempt.value.phase.Ended?
    ensures TrackedGone(l.kuma, m)
  {}

  /** What an attempt that ended so has done, for the Monitor as it read it. */
  ghost predicate VerdictHolds(l: Local) {
    l.attempt.Some? && l.attempt.value.phase == Ended(Gone) ==>
      && (l.cur.None? || !l.cur.value.finalizer)
      && (l.attempt.value.snap.monitorID != "" ==> IDOf(l.attempt.value.snap.monitorID) !in l.kuma.monitors)
  }

  lemma VerdictsHold(who: Owner, l: Local)
    requires Inv(who, l)
    ensures VerdictHolds(l)
  {}

  function Left(phase: Phase): nat {
    match phase
    case Deleting(_) => 2
    case DroppingFinalizer => 1
    case _ => 0
  }

  /** At most two calls lead to the end. */
  lemma Finishes(cfg: Config, who: Owner, l: Local, m: Monitor) returns (actions: seq<Action>)
    requires Leaving(l, m)
    ensures MonitorCompletion.AllSucceed(actions) && |actions| <= Left(l.attempt.value.phase) <= 2
    ensures
      var after := MonitorCompletion.Steps(cfg, who, l, actions);
      Leaving(after, m) && after.attempt.value.phase.Ended?
    decreases Left(l.attempt.value.phase)
  {
    if l.attempt.value.phase.Ended? {
      actions := [];
    } else {
      var action := Change(Succeeded, "");
      StepLeaves(cfg, who, l, m, action);
      var rest := Finishes(cfg, who, Step(cfg, who, l, action), m);
      actions := [action] + rest;
      assert actions[1..] == rest;
    }
  }
}
