/** Convergence and quiescence over whole runs of the system. */
module Quiescence {
  import opened Wrappers
  import opened Spec
  import opened Store
  import opened Tracking
  import opened System
  import HM = HostMachine
  import HQ = HostQuiescence
  import MM = MonitorMachine
  import MQ = MonitorQuiescence
  import Derive

  // ------------------------------------------------------------- staying on course

  predicate SparesReferences(action: Action) {
    action.Hand? ==> !action.hand.SetNotifications? && !action.hand.SetGroups?
  }

  predicate AllSpareReferences(actions: seq<Action>) {
    forall i :: 0 <= i < |actions| ==> SparesReferences(actions[i])
  }

  lemma ReferencesStay(cfg: Settings, s: State, action: Action)
    requires HM.CollisionFree(cfg.hosts) && Inv(cfg, s) && SparesReferences(action)
    ensures HQ.SameReferences(s.kuma, Apply(cfg, s, action).kuma)
  {
    if action.Hand? {
      HandReferences(s.kuma, action.hand);
    } else if action.Host? || action.HostUser? {
      HostActs(cfg, s, action);
    } else {
      MonitorActs(cfg, s, action);
    }
  }

  lemma HandReferences(k: Kuma, h: HandAction)
    requires !h.SetNotifications? && !h.SetGroups?
    ensures HQ.SameReferences(k, HandChange(k, h))
  {}

  lemma HostBystanderCourse(cfg: Settings, s: State, t: State, key: Key, ids: set<int>)
    requires HQ.OnCourse(cfg.hosts, HostAt(s, key)) && HostShifted(s, t, key, ids) && HQ.SameReferences(s.kuma, t.kuma)
    ensures HQ.OnCourse(cfg.hosts, HostAt(t, key))
  {
    var l := HostAt(s, key);
    if l.attempt.Some? {
      HQ.CourseStable(cfg.hosts, s.kuma, t.kuma, l.attempt.value);
      HQ.SamePhaseCourse(cfg.hosts, t.kuma, l.attempt.value, HostAt(t, key).attempt.value);
    }
  }

  /** Everyone but the acting resource is shifted. */
  lemma HostIsShifted(cfg: Settings, s: State, action: Action, key: Key)
    requires HM.CollisionFree(cfg.hosts) && Inv(cfg, s)
    requires (action.Host? || action.HostUser?) ==> action.key != key
    ensures HostShifted(s, Apply(cfg, s, action), key, if action.Hand? then Touches(action.hand) else {})
  {
    if action.Hand? {
      HandShifts(s, action.hand, key);
    } else {
      HostStays(s, Apply(cfg, s, action), key);
    }
  }

  lemma HostActedCourse(cfg: Settings, s: State, action: Action)
    requires (action.Host? || action.HostUser?) && HQ.OnCourse(cfg.hosts, HostAt(s, action.key))
    ensures HQ.OnCourse(cfg.hosts, HostAt(Apply(cfg, s, action), action.key))
  {
    var l := HostAt(s, action.key);
    if action.Host? {
      HQ.StepCourse(cfg.hosts, ByHost(action.key), l, action.host);
    }
  }

  lemma HostStepCourse(cfg: Settings, s: State, key: Key, action: Action)
    requires HM.CollisionFree(cfg.hosts) && Inv(cfg, s) && SparesReferences(action)
    requires HQ.OnCourse(cfg.hosts, HostAt(s, key))
    ensures HQ.OnCourse(cfg.hosts, HostAt(Apply(cfg, s, action), key))
  {
    if (action.Host? || action.HostUser?) && action.key == key {
      HostActedCourse(cfg, s, action);
    } else {
      ReferencesStay(cfg, s, action);
      HostIsShifted(cfg, s, action, key);
      HostBystanderCourse(cfg, s, Apply(cfg, s, action), key, if action.Hand? then Touches(action.hand) else {});
    }
  }

  lemma {:induction false} HostRunCourse(cfg: Settings, s: State, key: Key, actions: seq<Action>)
    requires HM.CollisionFree(cfg.hosts) && Inv(cfg, s) && AllSpareReferences(actions)
    requires HQ.OnCourse(cfg.hosts, HostAt(s, key))
    ensures HQ.OnCourse(cfg.hosts, HostAt(Run(cfg, s, actions), key))
  {
    if actions != [] {
      var init := actions[..|actions| - 1];
      HostRunCourse(cfg, s, key, init);
      RunKeeps(cfg, s, init);
      HostStepCourse(cfg, Run(cfg, s, init), key, actions[|actions| - 1]);
    }
  }

  // ------------------------------------------------------------- staying settled

  /** The routed resource exists and is settled with this plan. */
  ghost predicate HostSettled(cfg: Settings, s: State, key: Key, plan: HM.Plan) {
    var l := HostAt(s, key);
    l.cur.Some? && HQ.Settled(cfg.hosts, l, l.cur.value, plan)
  }

  /** The action leaves alone what the resource asks for, its monitors' configuration, and
      Kuma's channels and groups. */
  predicate SparesHost(key: Key, ids: map<string, string>, action: Action) {
    match action
    case HostUser(k, u) => k == key ==> u.Touch? || u.Create?
    case Hand(EditMonitor(id, _)) => forall h :: h in ids ==> IDOf(ids[h]) != id
    case Hand(DeleteMonitor(id)) => forall h :: h in ids ==> IDOf(ids[h]) != id
    case Hand(SetNotifications(_)) => false
    case Hand(SetGroups(_)) => false
    case _ => true
  }

  predicate AllSpareHost(key: Key, ids: map<string, string>, actions: seq<Action>) {
    forall i :: 0 <= i < |actions| ==> SparesHost(key, ids, actions[i])
  }

  lemma HostTrackedSame(cfg: Settings, s: State, key: Key, plan: HM.Plan, action: Action)
    requires HM.CollisionFree(cfg.hosts) && Inv(cfg, s) && HostSettled(cfg, s, key, plan) && SparesHost(key, plan.existing, action)
    requires (action.Host? || action.HostUser?) ==> action.key != key
    ensures HQ.TrackedSame(s.kuma, Apply(cfg, s, action).kuma, plan.existing)
  {
    var t := Apply(cfg, s, action);
    HQ.PlanHasIDs(cfg.hosts, s.kuma, HostAt(s, key).cur.value, plan);
    assert HostGood(cfg, s, key);
    forall h | h in plan.existing && IDOf(plan.existing[h]) in s.kuma.monitors
      ensures IDOf(plan.existing[h]) in t.kuma.monitors
              && t.kuma.monitors[IDOf(plan.existing[h])] == s.kuma.monitors[IDOf(plan.existing[h])]
    {
      assert Canonical(s.kuma, ByHost(key), plan.existing[h]);
      OthersSpare(cfg, s, action, ByHost(key), IDOf(plan.existing[h]));
    }
  }

  /** Actions of others leave the configuration of `who`'s monitors alone. */
  lemma OthersSpare(cfg: Settings, s: State, action: Action, who: Owner, id: int)
    requires HM.CollisionFree(cfg.hosts) && Inv(cfg, s) && BelongsTo(s.kuma, who, id) && id in s.kuma.monitors && who != ByHand
    requires (action.Host? || action.HostUser?) ==> who != ByHost(action.key)
    requires (action.Monitor? || action.MonitorUser?) ==> who != ByMonitor(action.key)
    requires action.Hand? && (action.hand.EditMonitor? || action.hand.DeleteMonitor?) ==> action.hand.id != id
    ensures id in Apply(cfg, s, action).kuma.monitors && Apply(cfg, s, action).kuma.monitors[id] == s.kuma.monitors[id]
  {
    if action.Hand? {
      HandMoves(s.kuma, action.hand, who);
    } else if action.Host? || action.HostUser? {
      HostActs(cfg, s, action);
      assert SameAt(s.kuma, Apply(cfg, s, action).kuma, id);
    } else {
      MonitorActs(cfg, s, action);
      assert SameAt(s.kuma, Apply(cfg, s, action).kuma, id);
    }
  }

  lemma HostOwnSettled(cfg: Settings, s: State, key: Key, plan: HM.Plan, action: Action)
    requires HostSettled(cfg, s, key, plan) && SparesHost(key, plan.existing, action)
    requires (action.Host? || action.HostUser?) && action.key == key
    ensures HostSettled(cfg, Apply(cfg, s, action), key, plan)
    ensures HostSlotAt(Apply(cfg, s, action), key).writes == HostSlotAt(s, key).writes
  {
    var l := HostAt(s, key);
    if action.Host? {
      HQ.SettledStep(cfg.hosts, ByHost(key), l, l.cur.value, plan, action.host);
    } else if action.hostUser.Touch? {
      HQ.SettledTouch(cfg.hosts, l, l.cur.value, plan, action.hostUser.foreignFinalizers);
    }
  }

  lemma HostStepSettled(cfg: Settings, s: State, key: Key, plan: HM.Plan, action: Action)
    requires HM.CollisionFree(cfg.hosts) && Inv(cfg, s) && HostSettled(cfg, s, key, plan) && SparesHost(key, plan.existing, action)
    ensures HostSettled(cfg, Apply(cfg, s, action), key, plan)
    ensures HostSlotAt(Apply(cfg, s, action), key).writes == HostSlotAt(s, key).writes
  {
    if (action.Host? || action.HostUser?) && action.key == key {
      HostOwnSettled(cfg, s, key, plan, action);
    } else {
      var ids := if action.Hand? then Touches(action.hand) else {};
      var t := Apply(cfg, s, action);
      ReferencesStay(cfg, s, action);
      HostIsShifted(cfg, s, action, key);
      HostTrackedSame(cfg, s, key, plan, action);
      HQ.SettledShift(cfg.hosts, HostAt(s, key), HostAt(s, key).cur.value, plan, t.kuma, t.latest, ids);
    }
  }

  /** Once settled, a routed resource stays settled through any run that leaves alone what it
      asks for and its monitors, however often and however badly it is reconciled; and all
      its reconciles together make not one Upsert, Delete or Update. */
  lemma {:induction false} HostStaysQuiet(cfg: Settings, s: State, key: Key, plan: HM.Plan, actions: seq<Action>)
    requires HM.CollisionFree(cfg.hosts) && Inv(cfg, s) && HostSettled(cfg, s, key, plan)
    requires AllSpareHost(key, plan.existing, actions)
    ensures HostSettled(cfg, Run(cfg, s, actions), key, plan)
    ensures HostSlotAt(Run(cfg, s, actions), key).writes == HostSlotAt(s, key).writes
  {
    if actions != [] {
      var init := actions[..|actions| - 1];
      HostStaysQuiet(cfg, s, key, plan, init);
      RunKeeps(cfg, s, init);
      HostStepSettled(cfg, Run(cfg, s, init), key, plan, actions[|actions| - 1]);
    }
  }

  /** The attempt has ended in sync; the resource is live and asks for what it did when it was read,
      and nobody changed its monitors by hand. */
  predicate EndedUndisturbed(l: HM.Local, plan: HM.Plan, ids: map<string, string>) {
    && l.attempt.Some? && l.attempt.value.phase == HM.Ended(HM.InSync(plan, ids))
    && l.cur.Some? && l.cur.value.manifest == l.attempt.value.snap.manifest && !l.cur.value.deleting
    && (forall h :: h in ids ==> IDOf(ids[h]) !in l.attempt.value.touched)
  }

  predicate AllTagged(k: Kuma, ids: map<string, string>, tags: set<string>) {
    forall h :: h in ids ==> TagsOn(k, IDOf(ids[h])) == tags
  }

  /** One reconcile is enough: in any run from a state in which the resource is not being
      reconciled, when its attempt has ended in sync and meanwhile nobody changed what it asks
      for, its monitors, or Kuma's channels and groups, it is settled once the attempt is
      over, tracks exactly the desired hosts, and each monitor carries exactly the tags. */
  lemma HostConverges(cfg: Settings, s: State, key: Key, actions: seq<Action>, plan: HM.Plan, ids: map<string, string>)
    requires HM.CollisionFree(cfg.hosts) && Inv(cfg, s) && HostSlotAt(s, key).attempt.None? && AllSpareReferences(actions)
    requires EndedUndisturbed(HostAt(Run(cfg, s, actions), key), plan, ids)
    ensures HostSettled(cfg, Apply(cfg, Run(cfg, s, actions), Host(key, HM.Finish)), key, plan.(existing := ids))
    ensures ids.Keys == Derive.Hosts(plan.desired) && AllTagged(Run(cfg, s, actions).kuma, ids, plan.tags)
  {
    HostRunCourse(cfg, s, key, actions);
    RunKeeps(cfg, s, actions);
    var t := Run(cfg, s, actions);
    assert HostGood(cfg, t, key);
    HQ.Converges(cfg.hosts, ByHost(key), HostAt(t, key), plan, ids);
    assert HostAt(Apply(cfg, t, Host(key, HM.Finish)), key) == HostAt(t, key).(attempt := None);
  }

  /** The same without assuming how the attempt ended: if the resource it read is live and opted
      in, and no call failed it, it ended in sync, and the resource is settled. */
  lemma HostSettlesUnlessError(cfg: Settings, s: State, key: Key, actions: seq<Action>, verdict: HM.Verdict)
    requires HM.CollisionFree(cfg.hosts) && Inv(cfg, s) && HostSlotAt(s, key).attempt.None? && AllSpareReferences(actions)
    requires
      var l := HostAt(Run(cfg, s, actions), key);
      && l.attempt.Some? && l.attempt.value.phase == HM.Ended(verdict) && verdict != HM.Error
      && HQ.Wanted(cfg.hosts, l.attempt.value.snap)
      && l.cur.Some? && l.cur.value.manifest == l.attempt.value.snap.manifest && !l.cur.value.deleting
      && (verdict.InSync? ==> forall h :: h in verdict.ids ==> IDOf(verdict.ids[h]) !in l.attempt.value.touched)
    ensures
      var t := Run(cfg, s, actions);
      && verdict.InSync?
      && HostSettled(cfg, Apply(cfg, t, Host(key, HM.Finish)), key, verdict.plan.(existing := verdict.ids))
      && verdict.ids.Keys == Derive.Hosts(verdict.plan.desired)
  {
    HostRunCourse(cfg, s, key, actions);
    HQ.VerdictFits(cfg.hosts, HostAt(Run(cfg, s, actions), key));
    HostConverges(cfg, s, key, actions, verdict.plan, verdict.ids);
  }

  // ------------------------------------------------------------ the same for Monitors

  /** The Monitor exists and is settled. */
  ghost predicate MonitorSettled(s: State, key: Key, desired: MonitorSpec, id: int) {
    var l := MonitorAt(s, key);
    l.cur.Some? && MQ.Settled(l, l.cur.value, desired) && IDOf(l.cur.value.monitorID) == id
  }

  /** The action leaves alone the Monitor's spec and Secrets, its monitor's configuration, and
      Kuma's channels and groups. */
  predicate SparesMonitor(key: Key, id: int, action: Action) {
    match action
    case MonitorUser(k, u) => k == key ==> u.Touch? || u.Create?
    case Hand(EditMonitor(i, _)) => i != id
    case Hand(DeleteMonitor(i)) => i != id
    case Hand(SetNotifications(_)) => false
    case Hand(SetGroups(_)) => false
    case _ => true
  }

  predicate AllSpareMonitor(key: Key, id: int, actions: seq<Action>) {
    forall i :: 0 <= i < |actions| ==> SparesMonitor(key, id, actions[i])
  }

  lemma MonitorIsShifted(cfg: Settings, s: State, action: Action, key: Key)
    requires HM.CollisionFree(cfg.hosts) && Inv(cfg, s)
    requires (action.Monitor? || action.MonitorUser?) ==> action.key != key
    ensures MonitorShifted(s, Apply(cfg, s, action), key, if action.Hand? then Touches(action.hand) else {})
  {
    if action.Hand? {
      HandShifts(s, action.hand, key);
    } else {
      MonitorStays(s, Apply(cfg, s, action), key);
    }
  }

  /** The Ready condition. */
  function ConditionAt(s: State, key: Key): MM.Condition {
    var cur := MonitorSlotAt(s, key).cur;
    if cur.Some? then cur.value.condition else MM.NoCondition
  }

  lemma MonitorOwnSettled(cfg: Settings, s: State, key: Key, desired: MonitorSpec, id: int, action: Action)
    requires MonitorSettled(s, key, desired, id) && SparesMonitor(key, id, action)
    requires (action.Monitor? || action.MonitorUser?) && action.key == key
    ensures MonitorSettled(Apply(cfg, s, action), key, desired, id)
    ensures MonitorSlotAt(Apply(cfg, s, action), key).writes == MonitorSlotAt(s, key).writes
    ensures ConditionAt(Apply(cfg, s, action), key) == ConditionAt(s, key)
  {
    var l := MonitorAt(s, key);
    if action.Monitor? {
      MQ.SettledStep(cfg.monitors, ByMonitor(key), l, l.cur.value, desired, action.monitor);
    } else if action.monitorUser.Touch? {
      MQ.SettledTouch(l, l.cur.value, desired, action.monitorUser.labels, action.monitorUser.foreignFinalizers);
    }
  }

  lemma MonitorStepSettled(cfg: Settings, s: State, key: Key, desired: MonitorSpec, id: int, action: Action)
    requires HM.CollisionFree(cfg.hosts) && Inv(cfg, s) && MonitorSettled(s, key, desired, id) && SparesMonitor(key, id, action)
    ensures MonitorSettled(Apply(cfg, s, action), key, desired, id)
    ensures MonitorSlotAt(Apply(cfg, s, action), key).writes == MonitorSlotAt(s, key).writes
    ensures ConditionAt(Apply(cfg, s, action), key) == ConditionAt(s, key)
  {
    if (action.Monitor? || action.MonitorUser?) && action.key == key {
      MonitorOwnSettled(cfg, s, key, desired, id, action);
    } else {
      var ids := if action.Hand? then Touches(action.hand) else {};
      var t := Apply(cfg, s, action);
      assert MonitorGood(s, key);
      assert BelongsTo(s.kuma, ByMonitor(key), id);
      ReferencesStay(cfg, s, action);
      MonitorIsShifted(cfg, s, action, key);
      OthersSpare(cfg, s, action, ByMonitor(key), id);
      MQ.SettledShift(MonitorAt(s, key), MonitorAt(s, key).cur.value, desired, t.kuma, t.latest, ids);
    }
  }

  /** The same for a Monitor; its Ready condition stays as well, be it that of a failure. */
  lemma {:induction false} MonitorStaysQuiet(cfg: Settings, s: State, key: Key, desired: MonitorSpec, id: int, actions: seq<Action>)
    requires HM.CollisionFree(cfg.hosts) && Inv(cfg, s) && MonitorSettled(s, key, desired, id)
    requires AllSpareMonitor(key, id, actions)
    ensures MonitorSettled(Run(cfg, s, actions), key, desired, id)
    ensures MonitorSlotAt(Run(cfg, s, actions), key).writes == MonitorSlotAt(s, key).writes
    ensures ConditionAt(Run(cfg, s, actions), key) == ConditionAt(s, key)
  {
    if actions != [] {
      var init := actions[..|actions| - 1];
      MonitorStaysQuiet(cfg, s, key, desired, id, init);
      RunKeeps(cfg, s, init);
      MonitorStepSettled(cfg, Run(cfg, s, init), key, desired, id, actions[|actions| - 1]);
    }
  }

  predicate SparesSecrets(key: Key, action: Action) {
    action.MonitorUser? && action.key == key ==> !action.monitorUser.SetSecrets?
  }

  predicate AllSpareSecrets(key: Key, actions: seq<Action>) {
    forall i :: 0 <= i < |actions| ==> SparesSecrets(key, actions[i])
  }

  lemma MonitorActedCourse(cfg: Settings, s: State, action: Action)
    requires (action.Monitor? || action.MonitorUser?) && MQ.OnCourse(MonitorAt(s, action.key)) && SparesSecrets(action.key, action)
    ensures MQ.OnCourse(MonitorAt(Apply(cfg, s, action), action.key))
  {
    if action.Monitor? {
      MQ.StepCourse(cfg.monitors, ByMonitor(action.key), MonitorAt(s, action.key), action.monitor);
    }
  }

  lemma MonitorBystanderCourse(s: State, t: State, key: Key, ids: set<int>)
    requires MQ.OnCourse(MonitorAt(s, key)) && MonitorShifted(s, t, key, ids) && HQ.SameReferences(s.kuma, t.kuma)
    ensures MQ.OnCourse(MonitorAt(t, key))
  {
    var l := MonitorAt(s, key);
    if l.attempt.Some? {
      MQ.CourseStable(s.kuma, t.kuma, l.secrets, l.attempt.value, MonitorAt(t, key).attempt.value);
    }
  }

  lemma MonitorStepCourse(cfg: Settings, s: State, key: Key, action: Action)
    requires HM.CollisionFree(cfg.hosts) && Inv(cfg, s) && SparesReferences(action) && SparesSecrets(key, action)
    requires MQ.OnCourse(MonitorAt(s, key))
    ensures MQ.OnCourse(MonitorAt(Apply(cfg, s, action), key))
  {
    if (action.Monitor? || action.MonitorUser?) && action.key == key {
      MonitorActedCourse(cfg, s, action);
    } else {
      ReferencesStay(cfg, s, action);
      MonitorIsShifted(cfg, s, action, key);
      MonitorBystanderCourse(s, Apply(cfg, s, action), key, if action.Hand? then Touches(action.hand) else {});
    }
  }

  lemma {:induction false} MonitorRunCourse(cfg: Settings, s: State, key: Key, actions: seq<Action>)
    requires HM.CollisionFree(cfg.hosts) && Inv(cfg, s) && AllSpareReferences(actions)
    requires AllSpareSecrets(key, actions)
    requires MQ.OnCourse(MonitorAt(s, key))
    ensures MQ.OnCourse(MonitorAt(Run(cfg, s, actions), key))
  {
    if actions != [] {
      var init := actions[..|actions| - 1];
      MonitorRunCourse(cfg, s, key, init);
      RunKeeps(cfg, s, init);
      MonitorStepCourse(cfg, Run(cfg, s, init), key, actions[|actions| - 1]);
    }
  }

  lemma MonitorFinishIs(cfg: Settings, t: State, key: Key)
    requires MonitorAt(t, key).attempt.Some? && MonitorAt(t, key).attempt.value.phase.Ended?
    ensures MonitorAt(Apply(cfg, t, Monitor(key, MM.Finish)), key) == MonitorAt(t, key).(attempt := None)
  {}

  lemma MonitorFinishes(cfg: Settings, t: State, key: Key, id: int, desired: MonitorSpec, tags: set<string>)
    requires Valid(t.kuma) && MonitorGood(t, key) && MQ.OnCourse(MonitorAt(t, key))
    requires
      var l := MonitorAt(t, key);
      && l.attempt.Some? && l.attempt.value.phase == MM.Ended(MM.InSync(id, desired, tags))
      && l.cur.Some? && l.cur.value.generation == l.attempt.value.snap.generation && !l.cur.value.deleting
      && id !in l.attempt.value.touched
    ensures MonitorSettled(Apply(cfg, t, Monitor(key, MM.Finish)), key, desired, id) && TagsOn(t.kuma, id) == tags
    ensures
      var l := MonitorAt(t, key);
      MQ.TagsOnCourse(cfg.monitors, l, l.cur.value.spec, l.cur.value.labels) ==>
        TagsOn(t.kuma, id) == MM.TagNames(cfg.monitors, l.cur.value)
  {
    MonitorFinishIs(cfg, t, key);
    MQ.Converges(cfg.monitors, ByMonitor(key), MonitorAt(t, key), id, desired, tags);
  }

  /** Nobody changes the Monitor's spec or labels. */
  predicate SparesTags(key: Key, spec: MM.CRSpec, labels: map<string, string>, action: Action) {
    action.MonitorUser? && action.key == key ==> MQ.KeepsAsking(action.monitorUser, spec, labels)
  }

  predicate AllKeepTags(key: Key, spec: MM.CRSpec, labels: map<string, string>, actions: seq<Action>) {
    forall i :: 0 <= i < |actions| ==> SparesTags(key, spec, labels, actions[i])
  }

  /** The run leaves the Monitor's spec and labels as they are where it begins. */
  predicate AllSpareTags(s: State, key: Key, actions: seq<Action>) {
    var cur := MonitorSlotAt(s, key).cur;
    cur.Some? && AllKeepTags(key, cur.value.spec, cur.value.labels, actions)
  }

  lemma MonitorStepTags(cfg: Settings, s: State, key: Key, action: Action, spec: MM.CRSpec, labels: map<string, string>)
    requires MQ.TagsOnCourse(cfg.monitors, MonitorAt(s, key), spec, labels) && SparesTags(key, spec, labels, action)
    ensures MQ.TagsOnCourse(cfg.monitors, MonitorAt(Apply(cfg, s, action), key), spec, labels)
  {
    var l := MonitorAt(s, key);
    if action.Monitor? && action.key == key {
      MQ.StepTags(cfg.monitors, ByMonitor(key), l, action.monitor, spec, labels);
    } else if action.MonitorUser? && action.key == key {
      MQ.UserTags(cfg.monitors, l, action.monitorUser, spec, labels);
    }
  }

  lemma {:induction false} MonitorRunTags(cfg: Settings, s: State, key: Key, actions: seq<Action>, spec: MM.CRSpec, labels: map<string, string>)
    requires MQ.TagsOnCourse(cfg.monitors, MonitorAt(s, key), spec, labels)
    requires AllKeepTags(key, spec, labels, actions)
    ensures MQ.TagsOnCourse(cfg.monitors, MonitorAt(Run(cfg, s, actions), key), spec, labels)
  {
    if actions != [] {
      var init := actions[..|actions| - 1];
      MonitorRunTags(cfg, s, key, init, spec, labels);
      MonitorStepTags(cfg, Run(cfg, s, init), key, actions[|actions| - 1], spec, labels);
    }
  }

  /** One reconcile is enough for a Monitor too: when its attempt has ended in sync and nobody
      changed what it depends on meanwhile, it is settled once the attempt is over, and its
      monitor carries exactly the default, explicit and label-derived tags. */
  lemma MonitorConverges(cfg: Settings, s: State, key: Key, actions: seq<Action>, id: int, desired: MonitorSpec, tags: set<string>)
    requires HM.CollisionFree(cfg.hosts) && Inv(cfg, s) && MonitorSlotAt(s, key).attempt.None? && AllSpareReferences(actions)
    requires AllSpareSecrets(key, actions)
    requires
      var l := MonitorAt(Run(cfg, s, actions), key);
      && l.attempt.Some? && l.attempt.value.phase == MM.Ended(MM.InSync(id, desired, tags))
      && l.cur.Some? && l.cur.value.generation == l.attempt.value.snap.generation && !l.cur.value.deleting
      && id !in l.attempt.value.touched
    ensures
      var t := Run(cfg, s, actions);
      && MonitorSettled(Apply(cfg, t, Monitor(key, MM.Finish)), key, desired, id)
      && TagsOn(t.kuma, id) == tags
      && (AllSpareTags(s, key, actions) ==> TagsOn(t.kuma, id) == MM.TagNames(cfg.monitors, MonitorSlotAt(t, key).cur.value))
  {
    MonitorRunCourse(cfg, s, key, actions);
    RunKeeps(cfg, s, actions);
    assert MonitorGood(Run(cfg, s, actions), key);
    MonitorFinishes(cfg, Run(cfg, s, actions), key, id, desired, tags);
    if AllSpareTags(s, key, actions) {
      var cur := MonitorSlotAt(s, key).cur.value;
      MonitorRunTags(cfg, s, key, actions, cur.spec, cur.labels);
    }
  }

  /** The same without assuming how the attempt ended: if the Monitor it read is live and no call
      failed it, it ended in sync, and the Monitor is settled. */
  lemma MonitorSettlesUnlessError(cfg: Settings, s: State, key: Key, actions: seq<Action>, verdict: MM.Verdict)
    requires HM.CollisionFree(cfg.hosts) && Inv(cfg, s) && MonitorSlotAt(s, key).attempt.None? && AllSpareReferences(actions)
    requires AllSpareSecrets(key, actions)
    requires
      var l := MonitorAt(Run(cfg, s, actions), key);
      && l.attempt.Some? && l.attempt.value.phase == MM.Ended(verdict) && verdict != MM.Error && !l.attempt.value.snap.deleting
      && l.cur.Some? && l.cur.value.generation == l.attempt.value.snap.generation && !l.cur.value.deleting
      && (verdict.InSync? ==> verdict.id !in l.attempt.value.touched)
    ensures verdict.InSync?
    ensures
      var t := Run(cfg, s, actions);
      && MonitorSettled(Apply(cfg, t, Monitor(key, MM.Finish)), key, verdict.desired, verdict.id)
      && TagsOn(t.kuma, verdict.id) == verdict.tags
  {
    MonitorRunCourse(cfg, s, key, actions);
    MQ.VerdictFits(MonitorAt(Run(cfg, s, actions), key));
    MonitorConverges(cfg, s, key, actions, verdict.id, verdict.desired, verdict.tags);
  }
}
