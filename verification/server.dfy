/** Kuma and the API server as a running reconcile meets them: every call first lets others
    act, then takes effect or fails. A call is allowed only where the state machine makes it,
    so code that verifies against this class is a run of the machine. */
module Server {
  import opened Wrappers
  import opened Spec
  import opened Strconv
  import opened Store
  import opened Tracking
  import S = System
  import HM = HostMachine
  import MM = MonitorMachine
  import References
  import Translate
  import Derive

  /** What others do before a call, how the call ends, the tags a failed tag call leaves, and
      the text of an error. */
  datatype Turn = Turn(others: seq<S.Action>, outcome: Outcome, tags: set<string>, message: string)

  datatype UpdateResult = Updated | Conflicted | Refused

  /** Reconciles of one resource are serialised: nobody else takes steps for it. */
  ghost predicate Foreign(action: S.Action, me: Owner) {
    && (action.Host? ==> me != ByHost(action.key))
    && (action.Monitor? ==> me != ByMonitor(action.key))
  }

  lemma {:induction false} RunConcat(cfg: S.Settings, s: S.State, a: seq<S.Action>, b: seq<S.Action>)
    ensures S.Run(cfg, s, a + b) == S.Run(cfg, S.Run(cfg, s, a), b)
  {
    if b == [] {
      assert a + b == a;
    } else {
      var init := b[..|b| - 1];
      RunConcat(cfg, s, a, init);
      assert (a + b)[..|a + b| - 1] == a + init;
      assert (a + b)[|a + b| - 1] == b[|b| - 1];
    }
  }

  lemma RunOne(cfg: S.Settings, s: S.State, log: seq<S.Action>, action: S.Action)
    ensures S.Run(cfg, s, log + [action]) == S.Apply(cfg, S.Run(cfg, s, log), action)
  {
    assert (log + [action])[..|log|] == log;
  }

  // ------------------------------------------------------- where an attempt stands

  /** The attempt of the routed resource is in this phase. */
  predicate HostIn(s: S.State, key: Key, snap: HM.Resource, phase: HM.Phase) {
    var attempt := S.HostSlotAt(s, key).attempt;
    attempt.Some? && attempt.value.snap == snap && attempt.value.phase == phase
  }

  /** The attempt of the routed resource is over, with this verdict. */
  predicate HostEnded(s: S.State, key: Key, verdict: HM.Verdict) {
    var attempt := S.HostSlotAt(s, key).attempt;
    attempt.Some? && attempt.value.phase == HM.Ended(verdict)
  }

  predicate HostIdle(s: S.State, key: Key) {
    S.HostSlotAt(s, key).attempt.None?
  }

  lemma HostKept(cfg: S.Settings, s: S.State, action: S.Action, key: Key)
    requires Foreign(action, ByHost(key))
    ensures
      var before, after := S.HostSlotAt(s, key).attempt, S.HostSlotAt(S.Apply(cfg, s, action), key).attempt;
      if before.None? then after.None?
      else after.Some? && after.value.snap == before.value.snap && after.value.phase == before.value.phase
  {}

  lemma {:induction false} HostKeptRun(cfg: S.Settings, s: S.State, actions: seq<S.Action>, key: Key)
    requires forall i :: 0 <= i < |actions| ==> Foreign(actions[i], ByHost(key))
    ensures
      var before, after := S.HostSlotAt(s, key).attempt, S.HostSlotAt(S.Run(cfg, s, actions), key).attempt;
      if before.None? then after.None?
      else after.Some? && after.value.snap == before.value.snap && after.value.phase == before.value.phase
  {
    if actions != [] {
      HostKeptRun(cfg, s, actions[..|actions| - 1], key);
      HostKept(cfg, S.Run(cfg, s, actions[..|actions| - 1]), actions[|actions| - 1], key);
    }
  }

  lemma HostFinished(cfg: S.Settings, s: S.State, key: Key, snap: HM.Resource, verdict: HM.Verdict)
    requires HostIn(s, key, snap, HM.Ended(verdict))
    ensures HostIdle(S.Apply(cfg, s, S.Host(key, HM.Finish)), key)
  {}

  /** The Upsert an attempt makes next. */
  predicate UpsertsNext(phase: HM.Phase, host: string, id: int, spec: MonitorSpec) {
    match phase
    case Upserting(plan, next, ids) =>
      next < |plan.desired| && plan.desired[next] == DesiredMonitor(host, spec) && id == HM.StoredID(plan, host)
    case Drifting(plan, drifted, ids) =>
      host in drifted && id == drifted[host] && HM.SpecFor(plan.desired, host) == Some(spec)
    case _ => false
  }

  predicate DeletesNext(phase: HM.Phase, host: string, id: int) {
    match phase
    case Deleting(todo) => host in todo && IDOf(todo[host]) == id
    case Removing(plan, ids, todo) => host in todo && IDOf(todo[host]) == id
    case _ => false
  }

  function AfterDelete(snap: HM.Resource, phase: HM.Phase, host: string): HM.Phase {
    match phase
    case Deleting(todo) => HM.Deletes(snap, todo - {host})
    case Removing(plan, ids, todo) => HM.Removals(plan, ids, todo - {host})
    case _ => phase
  }

  predicate MonitorIn(s: S.State, key: Key, snap: MM.Monitor, phase: MM.Phase) {
    var attempt := S.MonitorSlotAt(s, key).attempt;
    attempt.Some? && attempt.value.snap == snap && attempt.value.phase == phase
  }

  predicate MonitorEnded(s: S.State, key: Key, verdict: MM.Verdict) {
    var attempt := S.MonitorSlotAt(s, key).attempt;
    attempt.Some? && attempt.value.phase == MM.Ended(verdict)
  }

  predicate MonitorIdle(s: S.State, key: Key) {
    S.MonitorSlotAt(s, key).attempt.None?
  }

  lemma MonitorKept(cfg: S.Settings, s: S.State, action: S.Action, key: Key)
    requires Foreign(action, ByMonitor(key))
    ensures
      var before, after := S.MonitorSlotAt(s, key).attempt, S.MonitorSlotAt(S.Apply(cfg, s, action), key).attempt;
      if before.None? then after.None?
      else after.Some? && after.value.snap == before.value.snap && after.value.phase == before.value.phase
  {}

  lemma {:induction false} MonitorKeptRun(cfg: S.Settings, s: S.State, actions: seq<S.Action>, key: Key)
    requires forall i :: 0 <= i < |actions| ==> Foreign(actions[i], ByMonitor(key))
    ensures
      var before, after := S.MonitorSlotAt(s, key).attempt, S.MonitorSlotAt(S.Run(cfg, s, actions), key).attempt;
      if before.None? then after.None?
      else after.Some? && after.value.snap == before.value.snap && after.value.phase == before.value.phase
  {
    if actions != [] {
      MonitorKeptRun(cfg, s, actions[..|actions| - 1], key);
      MonitorKept(cfg, S.Run(cfg, s, actions[..|actions| - 1]), actions[|actions| - 1], key);
    }
  }

  lemma MonitorFinished(cfg: S.Settings, s: S.State, key: Key, snap: MM.Monitor, verdict: MM.Verdict)
    requires MonitorIn(s, key, snap, MM.Ended(verdict))
    ensures MonitorIdle(S.Apply(cfg, s, S.Monitor(key, MM.Finish)), key)
  {}

  datatype UpsertResult = Made(id: int) | Broke(message: string)

  // -------------------------------------------------- what an Update leads to

  /** The caller's view of an Update's answer. */
  function Seen(outcome: Outcome, answer: Answer): UpdateResult {
    if outcome == Succeeded && answer == Accepted then Updated
    else if outcome != Failed && answer == Conflict then Conflicted
    else Refused
  }

  lemma HostWritten(l: HM.Local, write: HM.Write, tries: nat, got: HM.Resource, outcome: Outcome)
    requires l.attempt.Some?
    ensures
      var after := HM.WriteStep(l, write, tries, got, outcome);
      && after.attempt.Some? && after.attempt.value.snap == l.attempt.value.snap
      && after.attempt.value.phase ==
           match Seen(outcome, HM.AnswerTo(l.cur, got, write.Keep?))
           case Updated => HM.AfterWrite(write)
           case Conflicted => if tries < MAX_TRIES then HM.Reading(write, tries + 1) else HM.Ended(HM.Error)
           case Refused => HM.Ended(HM.Error)
  {}

  lemma HostDropped(l: HM.Local, outcome: Outcome)
    requires l.attempt.Some?
    ensures
      var after := HM.DropFinalizerStep(l, outcome);
      && after.attempt.Some? && after.attempt.value.snap == l.attempt.value.snap
      && after.attempt.value.phase ==
           HM.Ended(if Seen(outcome, HM.AnswerTo(l.cur, l.attempt.value.snap, false)) == Updated then HM.Gone else HM.Error)
  {}

  lemma MonitorWritten(cfg: MM.Config, l: MM.Local, report: MM.Report, tries: nat, got: MM.Monitor, outcome: Outcome)
    requires l.attempt.Some?
    ensures
      var after := MM.WriteStep(cfg, l, report, tries, got, outcome);
      && after.attempt.Some? && after.attempt.value.snap == l.attempt.value.snap
      && after.attempt.value.phase ==
           match Seen(outcome, MM.AnswerTo(l.cur, got))
           case Updated => MM.AfterStatus(cfg, report, got)
           case Conflicted => if tries < MAX_TRIES then MM.Reading(report, tries + 1) else MM.Ended(MM.Error)
           case Refused => MM.Ended(MM.Error)
  {}

  lemma MonitorFinalized(l: MM.Local, finalizer: bool, next: MM.Phase, outcome: Outcome)
    requires l.attempt.Some?
    ensures
      var snap := l.attempt.value.snap;
      var after := MM.FinalizerStep(l, finalizer, next, outcome);
      && after.attempt.Some?
      && (if Seen(outcome, MM.AnswerTo(l.cur, snap)) == Updated then
            && after.attempt.value.phase == next
            && (finalizer && !snap.deleting ==>
                  after.attempt.value.snap == snap.(finalizer := true, version := after.attempt.value.snap.version))
          else after.attempt.value.phase == MM.Ended(MM.Error) && after.attempt.value.snap == snap)
  {}

  lemma HostUpserted(l: HM.Local, who: Owner, id: int, spec: MonitorSpec, outcome: Outcome, ids: map<string, string>, host: string)
    requires l.attempt.Some?
    ensures
      var after := HM.UpsertStep(l, who, id, spec, outcome, ids, host);
      var made := Store.Upsert(l.kuma, who, id, spec);
      && after.attempt.Some? && after.attempt.value.snap == l.attempt.value.snap
      && after.attempt.value.phase ==
           (if outcome == Succeeded && made.Some?
            then HM.AfterUpsert(l.attempt.value.phase, host, ids[host := FormatInt(made.value.1)])
            else HM.Ended(HM.Error))
  {}

  lemma UpsertIsNext(l: HM.Local, who: Owner, id: int, spec: MonitorSpec, outcome: Outcome, host: string)
    requires l.attempt.Some? && UpsertsNext(l.attempt.value.phase, host, id, spec)
    ensures HM.ChangeStep(l, who, host, outcome) == HM.UpsertStep(l, who, id, spec, outcome, l.attempt.value.phase.ids, host)
  {}

  lemma UpsertSeen(cfg: S.Settings, s: S.State, key: Key, id: int, spec: MonitorSpec, outcome: Outcome, host: string,
                   snap: HM.Resource, phase: HM.Phase)
    requires HostIn(s, key, snap, phase) && UpsertsNext(phase, host, id, spec)
    ensures
      var made := Store.Upsert(s.kuma, ByHost(key), id, spec);
      HostIn(S.Apply(cfg, s, S.Host(key, HM.Change(host, outcome))), key, snap,
             if outcome == Succeeded && made.Some?
             then HM.AfterUpsert(phase, host, phase.ids[host := FormatInt(made.value.1)])
             else HM.Ended(HM.Error))
  {
    UpsertIsNext(S.HostAt(s, key), ByHost(key), id, spec, outcome, host);
    HostUpserted(S.HostAt(s, key), ByHost(key), id, spec, outcome, phase.ids, host);
  }

  lemma UpdateSeen(cfg: S.Settings, s: S.State, key: Key, snap: HM.Resource, write: HM.Write, tries: nat, got: HM.Resource, outcome: Outcome)
    requires HostIn(s, key, snap, HM.Writing(write, tries, got))
    ensures
      HostIn(S.Apply(cfg, s, S.Host(key, HM.Change("", outcome))), key, snap,
             match Seen(outcome, HM.AnswerTo(S.HostSlotAt(s, key).cur, got, write.Keep?))
             case Updated => HM.AfterWrite(write)
             case Conflicted => if tries < MAX_TRIES then HM.Reading(write, tries + 1) else HM.Ended(HM.Error)
             case Refused => HM.Ended(HM.Error))
  {
    HostWritten(S.HostAt(s, key), write, tries, got, outcome);
  }

  lemma StatusSeen(cfg: S.Settings, s: S.State, key: Key, snap: MM.Monitor, report: MM.Report, tries: nat, got: MM.Monitor,
                   outcome: Outcome, message: string)
    requires MonitorIn(s, key, snap, MM.Writing(report, tries, got))
    ensures
      MonitorIn(S.Apply(cfg, s, S.Monitor(key, MM.Change(outcome, message))), key, snap,
                match Seen(outcome, MM.AnswerTo(S.MonitorSlotAt(s, key).cur, got))
                case Updated => MM.AfterStatus(cfg.monitors, report, got)
                case Conflicted => if tries < MAX_TRIES then MM.Reading(report, tries + 1) else MM.Ended(MM.Error)
                case Refused => MM.Ended(MM.Error))
  {
    MonitorWritten(cfg.monitors, S.MonitorAt(s, key), report, tries, got, outcome);
  }

  /** The finalizer Updates of a Monitor: adding one to a deleted Monitor is refused. */
  predicate Finalizes(l: MM.Local, outcome: Outcome)
    requires l.attempt.Some?
  {
    var snap := l.attempt.value.snap;
    Seen(outcome, MM.AnswerTo(l.cur, snap)) == Updated && (snap.finalizer || l.cur.None? || !l.cur.value.deleting)
  }

  lemma FinalizerAnswered(cfg: MM.Config, l: MM.Local, who: Owner, outcome: Outcome, message: string)
    requires l.attempt.Some? && l.attempt.value.snap.deleting == l.attempt.value.snap.finalizer
    requires l.attempt.value.phase == if l.attempt.value.snap.finalizer then MM.DroppingFinalizer else MM.AddingFinalizer
    ensures
      var snap, after := l.attempt.value.snap, MM.ChangeStep(cfg, l, who, outcome, message);
      && after.attempt.Some?
      && (if Finalizes(l, outcome) then
            && after.attempt.value.phase == (if snap.finalizer then MM.Ended(MM.Gone) else MM.Resolve(snap))
            && (!snap.finalizer ==> after.attempt.value.snap == snap.(finalizer := true, version := after.attempt.value.snap.version))
          else after.attempt.value.phase == MM.Ended(MM.Error) && after.attempt.value.snap == snap)
  {
    var snap := l.attempt.value.snap;
    if snap.finalizer {
      MonitorFinalized(l, false, MM.Ended(MM.Gone), outcome);
    } else {
      MonitorFinalized(l, true, MM.Resolve(snap), outcome);
    }
  }

  class Server {
    const cfg: S.Settings
    const turns: nat -> Turn
    ghost const start: S.State
    var s: S.State
    var turn: nat
    ghost var log: seq<S.Action>

    /** The state is that of a run of the system, in which nobody interferes with `me`. */
    ghost predicate Valid(me: Owner)
      reads this
    {
      && s == S.Run(cfg, start, log)
      && (forall t: nat, i :: 0 <= i < |turns(t).others| ==> Foreign(turns(t).others[i], me))
    }

    constructor (cfg: S.Settings, init: S.State, turns: nat -> Turn)
      ensures this.cfg == cfg && this.turns == turns && s == init && start == init && log == []
    {
      this.cfg, this.turns, this.start := cfg, turns, init;
      s, turn, log := init, 0, [];
    }

    // ---------------------------------------------------------------- building blocks

    /** Others act. */
    method Yield(ghost me: Owner) returns (now: Turn)
      requires Valid(me)
      modifies this
      ensures Valid(me) && old(log) <= log
      ensures forall key :: me == ByHost(key) && HostIdle(old(s), key) ==> HostIdle(s, key)
      ensures forall key, snap, phase :: me == ByHost(key) && HostIn(old(s), key, snap, phase) ==> HostIn(s, key, snap, phase)
      ensures forall key :: me == ByMonitor(key) && MonitorIdle(old(s), key) ==> MonitorIdle(s, key)
      ensures forall key, snap, phase :: me == ByMonitor(key) && MonitorIn(old(s), key, snap, phase) ==> MonitorIn(s, key, snap, phase)
    {
      now := turns(turn);
      turn := turn + 1;
      RunConcat(cfg, start, log, now.others);
      if me.ByHost? {
        HostKeptRun(cfg, s, now.others, me.key);
      } else if me.ByMonitor? {
        MonitorKeptRun(cfg, s, now.others, me.key);
      }
      s := S.Run(cfg, s, now.others);
      log := log + now.others;
    }

    /** One step of a resource's own reconcile. */
    method Take(ghost me: Owner, action: S.Action)
      requires Valid(me)
      modifies this
      ensures Valid(me) && log == old(log) + [action] && s == S.Apply(cfg, old(s), action)
    {
      RunOne(cfg, start, log, action);
      s := S.Apply(cfg, s, action);
      log := log + [action];
    }

    // ------------------------------------------- the calls of a routed resource's reconcile

    /** The read a reconcile begins with. */
    method HostBegin(key: Key) returns (snap: Option<HM.Resource>)
      requires Valid(ByHost(key)) && HostIdle(s, key)
      modifies this
      ensures Valid(ByHost(key)) && old(log) <= log
      ensures snap.None? ==> HostIdle(s, key)
      ensures snap.Some? ==> HostIn(s, key, snap.value, HM.Start(cfg.hosts, snap.value))
    {
      var now := Yield(ByHost(key));
      if now.outcome != Succeeded {
        return None;
      }
      snap := S.HostSlotAt(s, key).cur;
      Take(ByHost(key), S.Host(key, HM.Begin));
    }

    method HostFinish(key: Key, ghost snap: HM.Resource, ghost verdict: HM.Verdict)
      requires Valid(ByHost(key)) && HostIn(s, key, snap, HM.Ended(verdict))
      modifies this
      ensures Valid(ByHost(key)) && HostIdle(s, key) && log == old(log) + [S.Host(key, HM.Finish)]
    {
      HostFinished(cfg, s, key, snap, verdict);
      Take(ByHost(key), S.Host(key, HM.Finish));
    }

    method Notifications(key: Key, ghost snap: HM.Resource, ghost ov: Derive.Overrides, ghost derived: seq<DesiredMonitor>)
      returns (r: Result<map<string, int>>)
      requires Valid(ByHost(key)) && HostIn(s, key, snap, HM.AskingChannels(ov, derived)) && snap.ids.IDs?
      modifies this
      ensures Valid(ByHost(key)) && old(log) <= log
      ensures r.Err? ==> HostIn(s, key, snap, HM.Ended(HM.Error))
      ensures r.Ok? ==>
                match References.ResolveNotifications(r.value, ov.notifications)
                case None => HostIn(s, key, snap, HM.Ended(HM.Error))
                case Some(channels) => HostIn(s, key, snap, HM.WithChannels(cfg.hosts, snap, ov, derived, channels))
    {
      var now := Yield(ByHost(key));
      r := if now.outcome == Succeeded then Ok(s.kuma.notifications) else Err;
      Take(ByHost(key), S.Host(key, HM.Read(now.outcome == Succeeded)));
    }

    method FindGroup(key: Key, name: string, ghost snap: HM.Resource, ghost ov: Derive.Overrides,
                     ghost derived: seq<DesiredMonitor>, ghost channels: seq<int>)
      returns (r: Result<Option<int>>)
      requires Valid(ByHost(key)) && HostIn(s, key, snap, HM.AskingGroup(ov, derived, channels)) && snap.ids.IDs?
      requires name == ov.group && name != ""
      modifies this
      ensures Valid(ByHost(key)) && old(log) <= log
      ensures r.Err? || r.value.None? ==> HostIn(s, key, snap, HM.Ended(HM.Error))
      ensures r.Ok? && r.value.Some? ==>
                HostIn(s, key, snap, HM.Planned(HM.PlanFor(cfg.hosts, snap, ov, derived, channels, r.value), snap))
    {
      var now := Yield(ByHost(key));
      r := if now.outcome != Succeeded then Err
           else if name in s.kuma.groups then Ok(Some(s.kuma.groups[name])) else Ok(None);
      Take(ByHost(key), S.Host(key, HM.Read(now.outcome == Succeeded)));
    }

    method ExistingSpecs(key: Key, ghost snap: HM.Resource, ghost plan: HM.Plan) returns (r: Result<map<int, MonitorSpec>>)
      requires Valid(ByHost(key)) && HostIn(s, key, snap, HM.Listing(plan))
      modifies this
      ensures Valid(ByHost(key)) && old(log) <= log
      ensures r.Err? ==> HostIn(s, key, snap, HM.Ended(HM.Error))
      ensures r.Ok? ==>
                if HM.SpecsMatch(plan.desired, plan.existing, r.value)
                then HostIn(s, key, snap, HM.Taggings(plan, plan.existing, HM.Parseable(plan.existing)))
                else HostIn(s, key, snap, HM.Drifts(plan, HM.Drifted(plan.desired, plan.existing, r.value), plan.existing))
    {
      var now := Yield(ByHost(key));
      r := if now.outcome == Succeeded then Ok(s.kuma.monitors) else Err;
      Take(ByHost(key), S.Host(key, HM.Read(now.outcome == Succeeded)));
    }

    method Upsert(key: Key, id: int, spec: MonitorSpec, host: string, ghost snap: HM.Resource, ghost phase: HM.Phase)
      returns (r: Result<int>)
      requires Valid(ByHost(key)) && HostIn(s, key, snap, phase) && UpsertsNext(phase, host, id, spec)
      modifies this
      ensures Valid(ByHost(key)) && old(log) <= log
      ensures r.Err? ==> HostIn(s, key, snap, HM.Ended(HM.Error))
      ensures r.Ok? ==> HostIn(s, key, snap, HM.AfterUpsert(phase, host, phase.ids[host := FormatInt(r.value)]))
    {
      var now := Yield(ByHost(key));
      var made := Store.Upsert(s.kuma, ByHost(key), id, spec);
      r := if now.outcome == Succeeded && made.Some? then Ok(made.value.1) else Err;
      UpsertSeen(cfg, s, key, id, spec, now.outcome, host, snap, phase);
      Take(ByHost(key), S.Host(key, HM.Change(host, now.outcome)));
    }

    method Delete(key: Key, id: int, host: string, ghost snap: HM.Resource, ghost phase: HM.Phase) returns (ok: bool)
      requires Valid(ByHost(key)) && HostIn(s, key, snap, phase) && DeletesNext(phase, host, id)
      modifies this
      ensures Valid(ByHost(key)) && old(log) <= log
      ensures HostIn(s, key, snap, if ok then AfterDelete(snap, phase, host) else HM.Ended(HM.Error))
    {
      var now := Yield(ByHost(key));
      ok := now.outcome == Succeeded;
      Take(ByHost(key), S.Host(key, HM.Change(host, now.outcome)));
    }

    method Get(key: Key, ghost snap: HM.Resource, ghost write: HM.Write, ghost tries: nat) returns (got: Option<HM.Resource>)
      requires Valid(ByHost(key)) && HostIn(s, key, snap, HM.Reading(write, tries))
      modifies this
      ensures Valid(ByHost(key)) && old(log) <= log
      ensures got.None? ==> HostIn(s, key, snap, HM.Ended(HM.Error))
      ensures got.Some? ==> HostIn(s, key, snap, HM.Writing(write, tries, got.value))
    {
      var now := Yield(ByHost(key));
      got := if now.outcome == Succeeded then S.HostSlotAt(s, key).cur else None;
      Take(ByHost(key), S.Host(key, HM.Read(now.outcome == Succeeded)));
    }

    /** Update with the marks of persistMonitorIDs. */
    method Update(key: Key, obj: HM.Resource, ghost snap: HM.Resource, ghost write: HM.Write, ghost tries: nat, ghost got: HM.Resource)
      returns (r: UpdateResult)
      requires Valid(ByHost(key)) && HostIn(s, key, snap, HM.Writing(write, tries, got)) && obj == HM.Marked(got, write)
      modifies this
      ensures Valid(ByHost(key)) && old(log) <= log
      ensures r == Updated ==> HostIn(s, key, snap, HM.AfterWrite(write))
      ensures r == Conflicted ==> HostIn(s, key, snap, if tries < MAX_TRIES then HM.Reading(write, tries + 1) else HM.Ended(HM.Error))
      ensures r == Refused ==> HostIn(s, key, snap, HM.Ended(HM.Error))
    {
      var now := Yield(ByHost(key));
      var answer := HM.AnswerTo(S.HostSlotAt(s, key).cur, obj, obj.finalizer);
      r := Seen(now.outcome, answer);
      UpdateSeen(cfg, s, key, snap, write, tries, got, now.outcome);
      Take(ByHost(key), S.Host(key, HM.Change("", now.outcome)));
    }

    /** Update that drops the finalizer of a deleted resource. */
    method UpdateDropping(key: Key, obj: HM.Resource, ghost snap: HM.Resource) returns (ok: bool)
      requires Valid(ByHost(key)) && HostIn(s, key, snap, HM.DroppingFinalizer) && obj == snap.(finalizer := false)
      modifies this
      ensures Valid(ByHost(key)) && old(log) <= log
      ensures HostIn(s, key, snap, HM.Ended(if ok then HM.Gone else HM.Error))
    {
      var now := Yield(ByHost(key));
      ok := Seen(now.outcome, HM.AnswerTo(S.HostSlotAt(s, key).cur, obj, false)) == Updated;
      HostDropped(S.HostAt(s, key), now.outcome);
      Take(ByHost(key), S.Host(key, HM.Change("", now.outcome)));
    }

    method SyncTags(key: Key, id: int, names: seq<string>, host: string, ghost snap: HM.Resource, ghost plan: HM.Plan,
                    ghost ids: map<string, string>, ghost todo: map<string, string>)
      returns (ok: bool)
      requires Valid(ByHost(key)) && HostIn(s, key, snap, HM.Tagging(plan, ids, todo))
      requires host in todo && IDOf(todo[host]) == id && plan.tags == set t | t in names
      modifies this
      ensures Valid(ByHost(key)) && old(log) <= log
      ensures HostIn(s, key, snap, if ok then HM.Taggings(plan, ids, todo - {host}) else HM.Ended(HM.Error))
    {
      var now := Yield(ByHost(key));
      ok := now.outcome == Succeeded;
      Take(ByHost(key), S.Host(key, HM.Tag(host, ok, now.tags)));
    }
    // ------------------------------------------------- the calls of a Monitor's reconcile

    method MonitorBegin(key: Key) returns (snap: Option<MM.Monitor>)
      requires Valid(ByMonitor(key)) && MonitorIdle(s, key)
      modifies this
      ensures Valid(ByMonitor(key)) && old(log) <= log
      ensures snap.None? ==> MonitorIdle(s, key)
      ensures snap.Some? ==> MonitorIn(s, key, snap.value, MM.Start(snap.value))
    {
      var now := Yield(ByMonitor(key));
      if now.outcome != Succeeded {
        return None;
      }
      snap := S.MonitorSlotAt(s, key).cur;
      Take(ByMonitor(key), S.Monitor(key, MM.Begin));
    }

    method MonitorFinish(key: Key, ghost snap: MM.Monitor, ghost verdict: MM.Verdict)
      requires Valid(ByMonitor(key)) && MonitorIn(s, key, snap, MM.Ended(verdict))
      modifies this
      ensures Valid(ByMonitor(key)) && MonitorIdle(s, key) && log == old(log) + [S.Monitor(key, MM.Finish)]
    {
      MonitorFinished(cfg, s, key, snap, verdict);
      Take(ByMonitor(key), S.Monitor(key, MM.Finish));
    }

    /** Update that adds or drops the finalizer; the object is then the version written. */
    method UpdateFinalizer(key: Key, obj: MM.Monitor, ghost snap: MM.Monitor) returns (r: Option<MM.Monitor>)
      requires Valid(ByMonitor(key)) && obj == snap.(finalizer := !snap.finalizer) && snap.deleting == snap.finalizer
      requires MonitorIn(s, key, snap, if obj.finalizer then MM.AddingFinalizer else MM.DroppingFinalizer)
      modifies this
      ensures Valid(ByMonitor(key)) && old(log) <= log
      ensures r.None? ==> MonitorIn(s, key, snap, MM.Ended(MM.Error))
      ensures r.Some? && obj.finalizer ==> r.value == obj.(version := r.value.version)
      ensures r.Some? ==> MonitorIn(s, key, r.value, if obj.finalizer then MM.Resolve(snap) else MM.Ended(MM.Gone))
    {
      var now := Yield(ByMonitor(key));
      var l := S.MonitorAt(s, key);
      FinalizerAnswered(cfg.monitors, l, ByMonitor(key), now.outcome, now.message);
      var finalized := Finalizes(l, now.outcome);
      Take(ByMonitor(key), S.Monitor(key, MM.Change(now.outcome, now.message)));
      return if finalized then Some(S.MonitorSlotAt(s, key).attempt.value.snap) else None;
    }

    method MonitorNotifications(key: Key, ghost snap: MM.Monitor) returns (r: Result<map<string, int>>)
      requires Valid(ByMonitor(key)) && MonitorIn(s, key, snap, MM.AskingChannels)
      modifies this
      ensures Valid(ByMonitor(key)) && old(log) <= log
      ensures r.Err? ==> MonitorIn(s, key, snap, MM.Ended(MM.Error))
      ensures r.Ok? ==>
                match References.ResolveNotifications(r.value, snap.spec.notifications)
                case None => MonitorIn(s, key, snap, MM.Ended(MM.Error))
                case Some(channels) => MonitorIn(s, key, snap, MM.WithChannels(snap, channels))
    {
      var now := Yield(ByMonitor(key));
      r := if now.outcome == Succeeded then Ok(s.kuma.notifications) else Err;
      Take(ByMonitor(key), S.Monitor(key, MM.Read(now.outcome == Succeeded)));
    }

    method MonitorFindGroup(key: Key, name: string, ghost snap: MM.Monitor, ghost channels: seq<int>) returns (r: Result<Option<int>>)
      requires Valid(ByMonitor(key)) && MonitorIn(s, key, snap, MM.AskingGroup(channels))
      requires name == snap.spec.group && name != ""
      modifies this
      ensures Valid(ByMonitor(key)) && old(log) <= log
      ensures r.Err? || r.value.None? ==> MonitorIn(s, key, snap, MM.Ended(MM.Error))
      ensures r.Ok? && r.value.Some? ==> MonitorIn(s, key, snap, MM.WithGroup(snap, channels, r.value))
    {
      var now := Yield(ByMonitor(key));
      r := if now.outcome != Succeeded then Err
           else if name in s.kuma.groups then Ok(Some(s.kuma.groups[name])) else Ok(None);
      Take(ByMonitor(key), S.Monitor(key, MM.Read(now.outcome == Succeeded)));
    }

    /** resolveSecret for one reference. */
    method ReadSecret(key: Key, ref: MM.SecretRef, ghost snap: MM.Monitor, ghost channels: seq<int>, ghost group: Option<int>,
                      ghost read: MM.Secrets, ghost next: nat)
      returns (r: Option<string>)
      requires Valid(ByMonitor(key)) && MonitorIn(s, key, snap, MM.AskingSecrets(channels, group, read, next))
      requires next < |snap.spec.secretRefs| && ref == snap.spec.secretRefs[next]
      modifies this
      ensures Valid(ByMonitor(key)) && old(log) <= log
      ensures r.None? ==> MonitorIn(s, key, snap, MM.Ended(MM.Error))
      ensures r.Some? ==>
                MonitorIn(s, key, snap, MM.WithSecrets(snap, channels, group, MM.WithValue(read, ref, r.value), next + 1))
    {
      var now := Yield(ByMonitor(key));
      r := if now.outcome == Succeeded then Some(MM.ValueOf(S.MonitorSlotAt(s, key).secrets, ref)) else None;
      Take(ByMonitor(key), S.Monitor(key, MM.Read(now.outcome == Succeeded)));
    }

    method MonitorExistingSpecs(key: Key, ghost snap: MM.Monitor, ghost id: int, ghost desired: MonitorSpec)
      returns (r: Result<map<int, MonitorSpec>>)
      requires Valid(ByMonitor(key)) && MonitorIn(s, key, snap, MM.Listing(id, desired))
      modifies this
      ensures Valid(ByMonitor(key)) && old(log) <= log
      ensures r.Err? ==> MonitorIn(s, key, snap, MM.Ended(MM.Error))
      ensures r.Ok? ==>
                MonitorIn(s, key, snap,
                          if id !in r.value then MM.Upserting(0, desired)
                          else if Translate.Equivalent(desired, r.value[id])
                          then MM.Tagging(id, desired, MM.TagNames(cfg.monitors, snap))
                          else MM.Upserting(id, desired))
    {
      var now := Yield(ByMonitor(key));
      r := if now.outcome == Succeeded then Ok(s.kuma.monitors) else Err;
      Take(ByMonitor(key), S.Monitor(key, MM.Read(now.outcome == Succeeded)));
    }

    method MonitorUpsert(key: Key, id: int, desired: MonitorSpec, ghost snap: MM.Monitor) returns (r: UpsertResult)
      requires Valid(ByMonitor(key)) && MonitorIn(s, key, snap, MM.Upserting(id, desired))
      modifies this
      ensures Valid(ByMonitor(key)) && old(log) <= log
      ensures MonitorIn(s, key, snap, MM.Reading(if r.Made? then MM.Synced(r.id, desired) else MM.Failure(r.message), 1))
    {
      var now := Yield(ByMonitor(key));
      var made := Store.Upsert(s.kuma, ByMonitor(key), id, desired);
      r := if now.outcome == Succeeded && made.Some? then Made(made.value.1) else Broke(now.message);
      Take(ByMonitor(key), S.Monitor(key, MM.Change(now.outcome, now.message)));
    }

    method MonitorDelete(key: Key, id: int, ghost snap: MM.Monitor) returns (ok: bool)
      requires Valid(ByMonitor(key)) && MonitorIn(s, key, snap, MM.Deleting(id))
      modifies this
      ensures Valid(ByMonitor(key)) && old(log) <= log
      ensures MonitorIn(s, key, snap, if ok then MM.AfterDelete(snap) else MM.Ended(MM.Error))
    {
      var now := Yield(ByMonitor(key));
      ok := now.outcome == Succeeded;
      Take(ByMonitor(key), S.Monitor(key, MM.Change(now.outcome, now.message)));
    }

    method MonitorGet(key: Key, ghost snap: MM.Monitor, ghost report: MM.Report, ghost tries: nat) returns (got: Option<MM.Monitor>)
      requires Valid(ByMonitor(key)) && MonitorIn(s, key, snap, MM.Reading(report, tries))
      modifies this
      ensures Valid(ByMonitor(key)) && old(log) <= log
      ensures got.None? ==> MonitorIn(s, key, snap, MM.Ended(MM.Error))
      ensures got.Some? ==>
                MonitorIn(s, key, snap,
                          if MM.WithStatus(got.value, snap.generation, report) == got.value
                          then MM.AfterStatus(cfg.monitors, report, got.value)
                          else MM.Writing(report, tries, got.value))
    {
      var now := Yield(ByMonitor(key));
      got := if now.outcome == Succeeded then S.MonitorSlotAt(s, key).cur else None;
      Take(ByMonitor(key), S.Monitor(key, MM.Read(now.outcome == Succeeded)));
    }

    method UpdateStatus(key: Key, obj: MM.Monitor, ghost snap: MM.Monitor, ghost report: MM.Report, ghost tries: nat, ghost got: MM.Monitor)
      returns (r: UpdateResult)
      requires Valid(ByMonitor(key)) && MonitorIn(s, key, snap, MM.Writing(report, tries, got))
      requires obj == MM.WithStatus(got, snap.generation, report)
      modifies this
      ensures Valid(ByMonitor(key)) && old(log) <= log
      ensures r == Updated ==> MonitorIn(s, key, snap, MM.AfterStatus(cfg.monitors, report, got))
      ensures r == Conflicted ==>
                MonitorIn(s, key, snap, if tries < MAX_TRIES then MM.Reading(report, tries + 1) else MM.Ended(MM.Error))
      ensures r == Refused ==> MonitorIn(s, key, snap, MM.Ended(MM.Error))
    {
      var now := Yield(ByMonitor(key));
      var answer := MM.AnswerTo(S.MonitorSlotAt(s, key).cur, obj);
      r := Seen(now.outcome, answer);
      StatusSeen(cfg, s, key, snap, report, tries, got, now.outcome, now.message);
      Take(ByMonitor(key), S.Monitor(key, MM.Change(now.outcome, now.message)));
    }

    method MonitorSyncTags(key: Key, id: int, names: seq<string>, ghost snap: MM.Monitor, ghost desired: MonitorSpec, ghost tags: set<string>)
      returns (ok: bool)
      requires Valid(ByMonitor(key)) && MonitorIn(s, key, snap, MM.Tagging(id, desired, tags)) && tags == set t | t in names
      modifies this
      ensures Valid(ByMonitor(key)) && old(log) <= log
      ensures MonitorIn(s, key, snap, MM.Ended(if ok then MM.InSync(id, desired, tags) else MM.Error))
    {
      var now := Yield(ByMonitor(key));
      ok := now.outcome == Succeeded;
      Take(ByMonitor(key), S.Monitor(key, MM.Tag(ok, now.tags)));
    }
  }
}
