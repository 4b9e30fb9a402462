/** The whole system: one Kuma and one API server shared by any number of routed resources
    and Monitors, their reconciles interleaved call by call with each other, with users, and
    with people changing Kuma by hand. */
module System {
  import opened Wrappers
  import opened Spec
  import opened Store
  import HM = HostMachine
  import HI = HostInvariant
  import HS = HostStability
  import HW = HostWrites
  import MM = MonitorMachine
  import MI = MonitorInvariant
  import MS = MonitorStability
  import MW = MonitorWrites

  datatype Settings = Settings(hosts: HM.Config, monitors: MM.Config)

  datatype HostSlot = HostSlot(cur: Option<HM.Resource>, attempt: Option<HM.Attempt>, writes: nat)

  datatype MonitorSlot = MonitorSlot(
    cur: Option<MM.Monitor>,
    attempt: Option<MM.Attempt>,
    secrets: MM.Secrets,
    sent: map<int, MM.Sent>,
    writes: nat)

  datatype State = State(kuma: Kuma, latest: int, hosts: map<Key, HostSlot>, monitors: map<Key, MonitorSlot>)

  // ------------------------------------------------------- one resource's view

  function HostSlotAt(s: State, key: Key): HostSlot {
    if key in s.hosts then s.hosts[key] else HostSlot(None, None, 0)
  }

  function MonitorSlotAt(s: State, key: Key): MonitorSlot {
    if key in s.monitors then s.monitors[key] else MonitorSlot(None, None, MM.NO_SECRETS, map[], 0)
  }

  function HostAt(s: State, key: Key): HM.Local {
    var slot := HostSlotAt(s, key);
    HM.Local(s.kuma, s.latest, slot.cur, slot.attempt, slot.writes)
  }

  function MonitorAt(s: State, key: Key): MM.Local {
    var slot := MonitorSlotAt(s, key);
    MM.Local(s.kuma, s.latest, slot.cur, slot.attempt, slot.secrets, slot.sent, slot.writes)
  }

  function WithHost(s: State, key: Key, l: HM.Local): State {
    State(l.kuma, l.latest, s.hosts[key := HostSlot(l.cur, l.attempt, l.writes)], s.monitors)
  }

  function WithMonitor(s: State, key: Key, l: MM.Local): State {
    State(l.kuma, l.latest, s.hosts, s.monitors[key := MonitorSlot(l.cur, l.attempt, l.secrets, l.sent, l.writes)])
  }

  // --------------------------------------------------------------------- actions

  /** What people do in Kuma's own interface. */
  datatype HandAction =
    | CreateMonitor(spec: MonitorSpec, tags: set<string>)
    | EditMonitor(id: int, spec: MonitorSpec)
    | DeleteMonitor(id: int)
    | TagMonitor(id: int, tags: set<string>)
    | SetNotifications(notifications: map<string, int>)
    | SetGroups(groups: map<string, int>)
    | SetUnmanaged(types: set<string>)

  datatype Action =
    | Host(key: Key, host: HM.Action)
    | HostUser(key: Key, hostUser: HM.UserAction)
    | Monitor(key: Key, monitor: MM.Action)
    | MonitorUser(key: Key, monitorUser: MM.UserAction)
    | Hand(hand: HandAction)

  function HandChange(k: Kuma, h: HandAction): Kuma {
    match h
    case CreateMonitor(spec, tags) =>
      (match Upsert(k, ByHand, 0, spec)
       case None => k
       case Some((after, id)) => SetTags(after, id, tags))
    case EditMonitor(id, spec) => if id in k.monitors then k.(monitors := k.monitors[id := spec]) else k
    case DeleteMonitor(id) => Delete(k, id)
    case TagMonitor(id, tags) => SetTags(k, id, tags)
    case SetNotifications(notifications) => k.(notifications := notifications)
    case SetGroups(groups) => k.(groups := groups)
    case SetUnmanaged(types) => k.(unmanaged := types)
  }

  /** The monitor changed by hand. */
  function Touches(h: HandAction): set<int> {
    match h
    case EditMonitor(id, _) => {id}
    case DeleteMonitor(id) => {id}
    case TagMonitor(id, _) => {id}
    case _ => {}
  }

  function TouchedHost(slot: HostSlot, ids: set<int>): HostSlot {
    match slot.attempt
    case None => slot
    case Some(a) => slot.(attempt := Some(a.(touched := a.touched + ids)))
  }

  function TouchedMonitor(slot: MonitorSlot, ids: set<int>): MonitorSlot {
    match slot.attempt
    case None => slot
    case Some(a) => slot.(attempt := Some(a.(touched := a.touched + ids)))
  }

  /** A change by hand; running attempts remember what was touched. */
  function HandStep(s: State, h: HandAction): State {
    State(HandChange(s.kuma, h), s.latest,
          map key | key in s.hosts :: TouchedHost(s.hosts[key], Touches(h)),
          map key | key in s.monitors :: TouchedMonitor(s.monitors[key], Touches(h)))
  }

  function Apply(cfg: Settings, s: State, action: Action): State {
    match action
    case Host(key, a) => WithHost(s, key, HM.Step(cfg.hosts, ByHost(key), HostAt(s, key), a))
    case HostUser(key, u) => WithHost(s, key, HM.UserStep(HostAt(s, key), u))
    case Monitor(key, a) => WithMonitor(s, key, MM.Step(cfg.monitors, ByMonitor(key), MonitorAt(s, key), a))
    case MonitorUser(key, u) => WithMonitor(s, key, MM.UserStep(MonitorAt(s, key), u))
    case Hand(h) => HandStep(s, h)
  }

  function Run(cfg: Settings, s: State, actions: seq<Action>): State {
    if actions == [] then s
    else Apply(cfg, Run(cfg, s, actions[..|actions| - 1]), actions[|actions| - 1])
  }

  /** A Kuma that may hold monitors made by hand, and no resources yet. */
  ghost predicate Initial(s: State) {
    && Valid(s.kuma) && s.kuma.orphans == {}
    && (forall id :: id in s.kuma.owner ==> s.kuma.owner[id] == ByHand)
    && s.hosts == map[] && s.monitors == map[]
  }

  // ------------------------------------------------------------------- invariant

  ghost predicate HostGood(cfg: Settings, s: State, key: Key) {
    HI.Inv(cfg.hosts, ByHost(key), HostAt(s, key))
  }

  ghost predicate MonitorGood(s: State, key: Key) {
    MI.Inv(ByMonitor(key), MonitorAt(s, key))
  }

  ghost predicate Inv(cfg: Settings, s: State) {
    && Valid(s.kuma)
    && (forall key :: HostGood(cfg, s, key))
    && (forall key :: MonitorGood(s, key))
  }

  lemma InitialGood(cfg: Settings, s: State)
    requires Initial(s)
    ensures Inv(cfg, s)
  {}

  // ------------------------------------------------- everyone but the acting one

  /** Kuma moved, the API server issued versions, and `ids` were touched by hand. */
  ghost predicate HostShifted(s: State, t: State, key: Key, ids: set<int>) {
    HostAt(t, key) == HS.Shifted(HostAt(s, key), t.kuma, t.latest, ids)
  }

  ghost predicate MonitorShifted(s: State, t: State, key: Key, ids: set<int>) {
    MonitorAt(t, key) == MS.Shifted(MonitorAt(s, key), t.kuma, t.latest, ids)
  }

  lemma HostBystander(cfg: Settings, s: State, t: State, key: Key, ids: set<int>)
    requires Valid(s.kuma) && HostGood(cfg, s, key) && HostShifted(s, t, key, ids)
    requires Moved(s.kuma, t.kuma, ByHost(key), ids) && s.latest <= t.latest
    ensures HostGood(cfg, t, key)
  {
    HS.ShiftKeeps(cfg.hosts, ByHost(key), HostAt(s, key), t.kuma, t.latest, ids);
  }

  lemma MonitorBystander(s: State, t: State, key: Key, ids: set<int>)
    requires Valid(s.kuma) && MonitorGood(s, key) && MonitorShifted(s, t, key, ids)
    requires Moved(s.kuma, t.kuma, ByMonitor(key), ids) && s.latest <= t.latest
    ensures MonitorGood(t, key)
  {
    MS.ShiftKeeps(ByMonitor(key), MonitorAt(s, key), t.kuma, t.latest, ids);
  }

  lemma NothingTouched<T>(touched: set<T>)
    ensures touched + {} == touched
  {}

  lemma HostStays(s: State, t: State, key: Key)
    requires HostSlotAt(t, key) == HostSlotAt(s, key)
    ensures HostShifted(s, t, key, {})
  {
    if HostSlotAt(s, key).attempt.Some? {
      NothingTouched(HostSlotAt(s, key).attempt.value.touched);
    }
  }

  lemma MonitorStays(s: State, t: State, key: Key)
    requires MonitorSlotAt(t, key) == MonitorSlotAt(s, key)
    ensures MonitorShifted(s, t, key, {})
  {
    if MonitorSlotAt(s, key).attempt.Some? {
      NothingTouched(MonitorSlotAt(s, key).attempt.value.touched);
    }
  }

  /** All slots but that of `who` are as before, and Kuma changed only where `who` may. */
  ghost predicate OnlyActed(s: State, t: State, who: Owner) {
    && (forall key :: who != ByHost(key) ==> HostSlotAt(t, key) == HostSlotAt(s, key))
    && (forall key :: who != ByMonitor(key) ==> MonitorSlotAt(t, key) == MonitorSlotAt(s, key))
    && Acted(s.kuma, t.kuma, who) && Valid(t.kuma) && s.latest <= t.latest
  }

  lemma OthersKeep(cfg: Settings, s: State, t: State, who: Owner)
    requires Inv(cfg, s) && OnlyActed(s, t, who)
    ensures forall key :: who != ByHost(key) ==> HostGood(cfg, t, key)
    ensures forall key :: who != ByMonitor(key) ==> MonitorGood(t, key)
  {
    forall key | who != ByHost(key)
      ensures HostGood(cfg, t, key)
    {
      ActedIsMoved(s.kuma, t.kuma, who, ByHost(key));
      HostStays(s, t, key);
      assert HostGood(cfg, s, key);
      HostBystander(cfg, s, t, key, {});
    }
    forall key | who != ByMonitor(key)
      ensures MonitorGood(t, key)
    {
      ActedIsMoved(s.kuma, t.kuma, who, ByMonitor(key));
      MonitorStays(s, t, key);
      assert MonitorGood(s, key);
      MonitorBystander(s, t, key, {});
    }
  }

  // ------------------------------------------------------------ the acting one

  lemma WithHostActs(s: State, key: Key, l: HM.Local)
    requires Acted(s.kuma, l.kuma, ByHost(key)) && Valid(l.kuma) && s.latest <= l.latest
    ensures OnlyActed(s, WithHost(s, key, l), ByHost(key)) && HostAt(WithHost(s, key, l), key) == l
  {}

  lemma WithMonitorActs(s: State, key: Key, l: MM.Local)
    requires Acted(s.kuma, l.kuma, ByMonitor(key)) && Valid(l.kuma) && s.latest <= l.latest
    ensures OnlyActed(s, WithMonitor(s, key, l), ByMonitor(key)) && MonitorAt(WithMonitor(s, key, l), key) == l
  {}

  /** An action of one resource keeps its own invariant and acts for it only. */
  lemma HostActs(cfg: Settings, s: State, action: Action)
    requires HM.CollisionFree(cfg.hosts) && Inv(cfg, s) && (action.Host? || action.HostUser?)
    ensures OnlyActed(s, Apply(cfg, s, action), ByHost(action.key)) && HostGood(cfg, Apply(cfg, s, action), action.key)
  {
    var l := HostAt(s, action.key);
    assert HostGood(cfg, s, action.key);
    if action.Host? {
      HW.StepKeeps(cfg.hosts, ByHost(action.key), l, action.host);
      WithHostActs(s, action.key, HM.Step(cfg.hosts, ByHost(action.key), l, action.host));
    } else {
      HS.UserKeeps(cfg.hosts, ByHost(action.key), l, action.hostUser);
      HS.UserStepShape(l, action.hostUser);
      WithHostActs(s, action.key, HM.UserStep(l, action.hostUser));
    }
  }

  lemma MonitorActs(cfg: Settings, s: State, action: Action)
    requires Inv(cfg, s) && (action.Monitor? || action.MonitorUser?)
    ensures OnlyActed(s, Apply(cfg, s, action), ByMonitor(action.key)) && MonitorGood(Apply(cfg, s, action), action.key)
  {
    var l := MonitorAt(s, action.key);
    assert MonitorGood(s, action.key);
    if action.Monitor? {
      MW.StepKeeps(cfg.monitors, ByMonitor(action.key), l, action.monitor);
      WithMonitorActs(s, action.key, MM.Step(cfg.monitors, ByMonitor(action.key), l, action.monitor));
    } else {
      MS.UserKeeps(ByMonitor(action.key), l, action.monitorUser);
      MS.UserStepShape(l, action.monitorUser);
      WithMonitorActs(s, action.key, MM.UserStep(l, action.monitorUser));
    }
  }

  // --------------------------------------------------------------------- by hand

  lemma CreateMoves(k: Kuma, spec: MonitorSpec, tags: set<string>, who: Owner)
    requires Valid(k) && who != ByHand
    ensures
      var after := HandChange(k, CreateMonitor(spec, tags));
      Valid(after) && Moved(k, after, who, {})
  {}

  lemma HandMoves(k: Kuma, h: HandAction, who: Owner)
    requires Valid(k) && who != ByHand
    ensures Valid(HandChange(k, h)) && Moved(k, HandChange(k, h), who, Touches(h))
  {
    if h.CreateMonitor? {
      CreateMoves(k, h.spec, h.tags, who);
    }
  }

  lemma HandShifts(s: State, h: HandAction, key: Key)
    ensures HostShifted(s, HandStep(s, h), key, Touches(h))
    ensures MonitorShifted(s, HandStep(s, h), key, Touches(h))
  {}

  lemma HandKeeps(cfg: Settings, s: State, h: HandAction)
    requires Inv(cfg, s)
    ensures Inv(cfg, HandStep(s, h))
  {
    var t := HandStep(s, h);
    HandMoves(s.kuma, h, ByHost(""));
    forall key
      ensures HostGood(cfg, t, key)
    {
      HandMoves(s.kuma, h, ByHost(key));
      HandShifts(s, h, key);
      assert HostGood(cfg, s, key);
      HostBystander(cfg, s, t, key, Touches(h));
    }
    forall key
      ensures MonitorGood(t, key)
    {
      HandMoves(s.kuma, h, ByMonitor(key));
      HandShifts(s, h, key);
      assert MonitorGood(s, key);
      MonitorBystander(s, t, key, Touches(h));
    }
  }

  // ------------------------------------------------------------------------ runs

  /** Whoever acts, the invariant of every resource holds afterwards. */
  lemma ApplyKeeps(cfg: Settings, s: State, action: Action)
    requires HM.CollisionFree(cfg.hosts) && Inv(cfg, s)
    ensures Inv(cfg, Apply(cfg, s, action))
  {
    if action.Hand? {
      HandKeeps(cfg, s, action.hand);
    } else if action.Host? || action.HostUser? {
      HostActs(cfg, s, action);
      OthersKeep(cfg, s, Apply(cfg, s, action), ByHost(action.key));
    } else {
      MonitorActs(cfg, s, action);
      OthersKeep(cfg, s, Apply(cfg, s, action), ByMonitor(action.key));
    }
  }

  lemma {:induction false} RunKeeps(cfg: Settings, s: State, actions: seq<Action>)
    requires HM.CollisionFree(cfg.hosts) && Inv(cfg, s)
    ensures Inv(cfg, Run(cfg, s, actions))
  {
    if actions != [] {
      RunKeeps(cfg, s, actions[..|actions| - 1]);
      ApplyKeeps(cfg, Run(cfg, s, actions[..|actions| - 1]), actions[|actions| - 1]);
    }
  }

  /** In every run, every state satisfies the invariant of every resource. */
  lemma RunInv(cfg: Settings, init: State, actions: seq<Action>)
    requires HM.CollisionFree(cfg.hosts) && Initial(init)
    ensures Inv(cfg, Run(cfg, init, actions))
  {
    InitialGood(cfg, init);
    RunKeeps(cfg, init, actions);
  }
}
