/** The reconcile of a Monitor as the code performs it, call by call
    (internal/controller/monitor_controller.go). Every method ends in the phase of the state
    machine that its calls lead to, whatever others do meanwhile. */
module MonitorReconciler {
  import opened Wrappers
  import opened Spec
  import opened Strconv
  import opened Store
  import opened Tracking
  import opened MonitorMachine
  import opened Server
  import S = System
  import HostMachine
  import Quiescence
  import Cleanup
  import MonitorLeaving
  import References
  import Tags
  import Translate

  /** status.monitorID as an id; 0 if there is none or it does not parse. */
  method ExistingID(mon: Monitor) returns (id: int)
    ensures id == IDOf(mon.monitorID)
  {
    id := 0;
    if mon.monitorID != "" {
      match ParseInt(mon.monitorID) {
        case None =>
        case Some(parsed) => id := parsed;
      }
    }
  }

  method MergedTags(cfg: Config, mon: Monitor) returns (names: seq<string>)
    ensures TagNames(cfg, mon) == set t | t in names
  {
    var derived := Tags.DeriveLabelTags(mon.labels, cfg.labelPatterns);
    var sources := [cfg.defaultTags, mon.spec.tags, derived];
    names := Tags.MergeTagsLoop(sources);
    Tags.MergeTagsExact(sources);
    MergedMembers(cfg, mon, derived, names);
  }

  lemma MergedMembers(cfg: Config, mon: Monitor, derived: seq<string>, names: seq<string>)
    requires forall t :: t in derived <==> t in Tags.LabelTags(mon.labels, cfg.labelPatterns)
    requires
      var sources := [cfg.defaultTags, mon.spec.tags, derived];
      forall t :: t in names <==> exists i :: 0 <= i < |sources| && t in sources[i]
    ensures TagNames(cfg, mon) == set t | t in names
  {
    var sources := [cfg.defaultTags, mon.spec.tags, derived];
    assert sources[0] == cfg.defaultTags && sources[1] == mon.spec.tags && sources[2] == derived;
    forall t
      ensures t in TagNames(cfg, mon) <==> t in names
    {}
  }

  /** What updateStatus is asked to record: "" and 0 leave the id and the generation as they
      are. */
  ghost predicate Asks(report: Report, generation: int, monitorID: string, observed: int, condition: Condition) {
    match report
    case Synced(id, _) => monitorID == FormatInt(id) && observed == generation && condition == Ready
    case Failure(message) => monitorID == "" && observed == 0 && condition == SyncFailed(message)
  }

  /** One try of updateStatus: read, change what differs, write only if something did. */
  method UpdateOnce(w: Server, key: Key, monitorID: string, observed: int, condition: Condition,
                    ghost snap: Monitor, ghost report: Report, ghost tries: nat)
    returns (r: UpdateResult, mon: Monitor)
    requires w.Valid(ByMonitor(key)) && MonitorIn(w.s, key, snap, Reading(report, tries))
    requires Asks(report, snap.generation, monitorID, observed, condition)
    modifies w
    ensures w.Valid(ByMonitor(key)) && old(w.log) <= w.log
    ensures r == Updated ==> MonitorIn(w.s, key, snap, AfterStatus(w.cfg.monitors, report, mon))
    ensures r == Conflicted ==> MonitorIn(w.s, key, snap, if tries < MAX_TRIES then Reading(report, tries + 1) else Ended(Error))
    ensures r == Refused ==> MonitorIn(w.s, key, snap, Ended(Error))
  {
    var got := w.MonitorGet(key, snap, report, tries);
    if got.None? {
      return Refused, *;
    }
    var changed;
    mon, changed := Edited(got.value, monitorID, observed, condition, snap.generation, report);
    SameTags(w.cfg.monitors, report, got.value, mon);
    if !changed {
      return Updated, mon;
    }
    r := w.UpdateStatus(key, mon, snap, report, tries, got.value);
  }

  /** updateStatus: again on a conflict, five tries in all. */
  method UpdateStatus(w: Server, key: Key, monitorID: string, observed: int, condition: Condition,
                      ghost snap: Monitor, ghost report: Report)
    returns (seen: Option<Monitor>)
    requires w.Valid(ByMonitor(key)) && MonitorIn(w.s, key, snap, Reading(report, 1))
    requires Asks(report, snap.generation, monitorID, observed, condition)
    modifies w
    ensures w.Valid(ByMonitor(key)) && old(w.log) <= w.log
    ensures seen.None? ==> MonitorIn(w.s, key, snap, Ended(Error))
    ensures seen.Some? ==> MonitorIn(w.s, key, snap, AfterStatus(w.cfg.monitors, report, seen.value))
  {
    var tries := 1;
    var r, mon := UpdateOnce(w, key, monitorID, observed, condition, snap, report, tries);
    while r == Conflicted && tries < MAX_TRIES
      invariant w.Valid(ByMonitor(key)) && old(w.log) <= w.log && 1 <= tries <= MAX_TRIES
      invariant r == Updated ==> MonitorIn(w.s, key, snap, AfterStatus(w.cfg.monitors, report, mon))
      invariant r == Conflicted ==> MonitorIn(w.s, key, snap, if tries < MAX_TRIES then Reading(report, tries + 1) else Ended(Error))
      invariant r == Refused ==> MonitorIn(w.s, key, snap, Ended(Error))
    {
      tries := tries + 1;
      r, mon := UpdateOnce(w, key, monitorID, observed, condition, snap, report, tries);
    }
    return if r == Updated then Some(mon) else None;
  }

  lemma SameTags(cfg: Config, report: Report, got: Monitor, mon: Monitor)
    requires mon.labels == got.labels && mon.spec == got.spec
    ensures AfterStatus(cfg, report, mon) == AfterStatus(cfg, report, got)
  {}

  method Edited(got: Monitor, monitorID: string, observed: int, condition: Condition, ghost generation: int, ghost report: Report)
    returns (mon: Monitor, changed: bool)
    requires Asks(report, generation, monitorID, observed, condition)
    ensures mon == WithStatus(got, generation, report) && (changed <==> mon != got)
  {
    mon, changed := got, false;
    if monitorID != "" && mon.monitorID != monitorID {
      mon := mon.(monitorID := monitorID);
      changed := true;
    }
    if observed != 0 && mon.observed != observed {
      mon := mon.(observed := observed);
      changed := true;
    }
    if mon.condition != condition {
      mon := mon.(condition := condition);
      changed := true;
    }
  }

  lemma VerdictHolds(cfg: S.Settings, init: S.State, log: seq<S.Action>, key: Key)
    ensures S.Initial(init) && HostMachine.CollisionFree(cfg.hosts) ==> MonitorLeaving.VerdictHolds(S.MonitorAt(S.Run(cfg, init, log), key))
  {
    if S.Initial(init) && HostMachine.CollisionFree(cfg.hosts) {
      Cleanup.MonitorVerdictHolds(cfg, init, log, key);
    }
  }

  /** The Monitor is being deleted. */
  method CleanUp(w: Server, key: Key, mon: Monitor) returns (verdict: Verdict, ghost last: Monitor)
    requires w.Valid(ByMonitor(key)) && mon.deleting && MonitorIn(w.s, key, mon, Start(mon))
    modifies w
    ensures w.Valid(ByMonitor(key)) && old(w.log) <= w.log && MonitorIn(w.s, key, last, Ended(verdict))
    ensures S.Initial(w.start) && HostMachine.CollisionFree(w.cfg.hosts) ==> MonitorLeaving.VerdictHolds(S.MonitorAt(w.s, key))
  {
    last := mon;
    if mon.monitorID != "" {
      match ParseInt(mon.monitorID) {
        case None =>
        case Some(id) =>
          var deleted := w.MonitorDelete(key, id, mon);
          if !deleted {
            return Error, mon;
          }
      }
    }
    if mon.finalizer {
      var updated := w.UpdateFinalizer(key, mon.(finalizer := false), mon);
      if updated.None? {
        return Error, mon;
      }
      last := updated.value;
    }
    VerdictHolds(w.cfg, w.start, w.log, key);
    return Gone, last;
  }

  method ResolveReferences(w: Server, key: Key, mon: Monitor) returns (r: Option<(seq<int>, Option<int>)>)
    requires w.Valid(ByMonitor(key)) && MonitorIn(w.s, key, mon, Resolve(mon))
    modifies w
    ensures w.Valid(ByMonitor(key)) && old(w.log) <= w.log
    ensures r.None? ==> MonitorIn(w.s, key, mon, Ended(Error))
    ensures r.Some? ==> MonitorIn(w.s, key, mon, WithGroup(mon, r.value.0, r.value.1))
  {
    var channels: seq<int> := [];
    if |mon.spec.notifications| > 0 {
      var known := w.MonitorNotifications(key, mon);
      if known.Err? {
        return None;
      }
      var resolved := References.ResolveNames(known.value, mon.spec.notifications);
      if resolved.None? {
        return None;
      }
      channels := resolved.value;
    }
    var group: Option<int> := None;
    if mon.spec.group != "" {
      var found := w.MonitorFindGroup(key, mon.spec.group, mon, channels);
      if found.Err? || found.value.None? {
        return None;
      }
      group := found.value;
    }
    return Some((channels, group));
  }

  /** The spec to sync, with Secret values read one after another where the Monitor refers to Secrets. */
  method DesiredSpec(w: Server, key: Key, mon: Monitor, channels: seq<int>, group: Option<int>) returns (desired: Option<MonitorSpec>)
    requires w.Valid(ByMonitor(key)) && MonitorIn(w.s, key, mon, WithGroup(mon, channels, group))
    modifies w
    ensures w.Valid(ByMonitor(key)) && old(w.log) <= w.log
    ensures desired.None? ==> MonitorIn(w.s, key, mon, Ended(Error))
    ensures desired.Some? ==> MonitorIn(w.s, key, mon, Decide(mon, desired.value))
  {
    var secrets := NO_SECRETS;
    for i := 0 to |mon.spec.secretRefs|
      invariant w.Valid(ByMonitor(key)) && old(w.log) <= w.log
      invariant MonitorIn(w.s, key, mon, WithSecrets(mon, channels, group, secrets, i))
    {
      var read := w.ReadSecret(key, mon.spec.secretRefs[i], mon, channels, group, secrets, i);
      if read.None? {
        return None;
      }
      secrets := WithValue(secrets, mon.spec.secretRefs[i], read.value);
    }
    return Some(Desired(mon.spec, channels, group, secrets));
  }

  method SyncTags(w: Server, key: Key, id: int, seen: Monitor, desired: MonitorSpec, ghost snap: Monitor) returns (verdict: Verdict)
    requires w.Valid(ByMonitor(key)) && MonitorIn(w.s, key, snap, Tagging(id, desired, TagNames(w.cfg.monitors, seen)))
    modifies w
    ensures w.Valid(ByMonitor(key)) && old(w.log) <= w.log && MonitorIn(w.s, key, snap, Ended(verdict))
  {
    var names := MergedTags(w.cfg.monitors, seen);
    var synced := w.MonitorSyncTags(key, id, names, snap, desired, TagNames(w.cfg.monitors, seen));
    return if synced then InSync(id, desired, set t | t in names) else Error;
  }

  /** The generation is synced: only a missing or drifted monitor is upserted. */
  method VerifyUnchanged(w: Server, key: Key, mon: Monitor, id: int, desired: MonitorSpec) returns (verdict: Verdict)
    requires w.Valid(ByMonitor(key)) && MonitorIn(w.s, key, mon, Listing(id, desired))
    modifies w
    ensures w.Valid(ByMonitor(key)) && old(w.log) <= w.log && MonitorIn(w.s, key, mon, Ended(verdict))
  {
    var live := w.MonitorExistingSpecs(key, mon, id, desired);
    if live.Err? {
      return Error;
    }
    var existingID := id;
    if id in live.value {
      if Translate.Equivalent(desired, live.value[id]) {
        verdict := SyncTags(w, key, id, mon, desired, mon);
        return;
      }
    } else {
      existingID := 0;
    }
    verdict := UpsertAndRecord(w, key, mon, existingID, desired);
  }

  /** Upsert, then the status, then tags; a failed Upsert is recorded too. */
  method UpsertAndRecord(w: Server, key: Key, mon: Monitor, existingID: int, desired: MonitorSpec) returns (verdict: Verdict)
    requires w.Valid(ByMonitor(key)) && MonitorIn(w.s, key, mon, Upserting(existingID, desired))
    modifies w
    ensures w.Valid(ByMonitor(key)) && old(w.log) <= w.log && MonitorIn(w.s, key, mon, Ended(verdict))
  {
    var generationToSync := mon.generation;
    var upserted := w.MonitorUpsert(key, existingID, desired, mon);
    match upserted {
      case Broke(message) =>
        var recorded := UpdateStatus(w, key, "", 0, SyncFailed(message), mon, Failure(message));
        return Error;
      case Made(newID) =>
        verdict := RecordSynced(w, key, mon, newID, generationToSync, desired);
    }
  }

  /** The status first, tags second. */
  method RecordSynced(w: Server, key: Key, mon: Monitor, newID: int, generation: int, desired: MonitorSpec) returns (verdict: Verdict)
    requires w.Valid(ByMonitor(key)) && generation == mon.generation
    requires MonitorIn(w.s, key, mon, Reading(Synced(newID, desired), 1))
    modifies w
    ensures w.Valid(ByMonitor(key)) && old(w.log) <= w.log && MonitorIn(w.s, key, mon, Ended(verdict))
  {
    var seen := UpdateStatus(w, key, FormatInt(newID), generation, Ready, mon, Synced(newID, desired));
    if seen.None? {
      return Error;
    }
    verdict := SyncTags(w, key, newID, seen.value, desired, mon);
  }

  /** The Monitor is live and carries the finalizer. */
  method Sync(w: Server, key: Key, mon: Monitor) returns (verdict: Verdict)
    requires w.Valid(ByMonitor(key)) && MonitorIn(w.s, key, mon, Resolve(mon))
    modifies w
    ensures w.Valid(ByMonitor(key)) && old(w.log) <= w.log && MonitorIn(w.s, key, mon, Ended(verdict))
  {
    var existingID := ExistingID(mon);
    var references := ResolveReferences(w, key, mon);
    if references.None? {
      return Error;
    }
    var desired := DesiredSpec(w, key, mon, references.value.0, references.value.1);
    if desired.None? {
      return Error;
    }
    if existingID != 0 && mon.observed == mon.generation {
      verdict := VerifyUnchanged(w, key, mon, existingID, desired.value);
    } else {
      verdict := UpsertAndRecord(w, key, mon, existingID, desired.value);
    }
  }

  /** One whole reconcile: whatever others do between its calls and however these end, a run
      of the system that ends with the attempt over with this verdict. */
  method Reconcile(w: Server, key: Key) returns (verdict: Option<Verdict>)
    requires w.Valid(ByMonitor(key)) && MonitorIdle(w.s, key)
    modifies w
    ensures w.Valid(ByMonitor(key)) && MonitorIdle(w.s, key) && old(w.log) <= w.log
    ensures verdict.Some? ==>
              && |old(w.log)| < |w.log| && w.log[|w.log| - 1] == S.Monitor(key, Finish)
              && MonitorEnded(S.Run(w.cfg, w.start, w.log[..|w.log| - 1]), key, verdict.value)
  {
    var got := w.MonitorBegin(key);
    if got.None? {
      return None;
    }
    var mon := got.value;
    var v: Verdict;
    ghost var last := mon;
    if mon.deleting {
      v, last := CleanUp(w, key, mon);
    } else {
      v, last := AddAndSync(w, key, mon);
    }
    ghost var log := w.log;
    w.MonitorFinish(key, last, v);
    assert w.log[..|w.log| - 1] == log;
    return Some(v);
  }

  /** The finalizer first, if it is missing. */
  method AddAndSync(w: Server, key: Key, mon: Monitor) returns (verdict: Verdict, ghost last: Monitor)
    requires w.Valid(ByMonitor(key)) && !mon.deleting && MonitorIn(w.s, key, mon, Start(mon))
    modifies w
    ensures w.Valid(ByMonitor(key)) && old(w.log) <= w.log && MonitorIn(w.s, key, last, Ended(verdict))
  {
    var current := mon;
    if !mon.finalizer {
      var updated := w.UpdateFinalizer(key, mon.(finalizer := true), mon);
      if updated.None? {
        return Error, mon;
      }
      current := updated.value;
    }
    verdict := Sync(w, key, current);
    last := current;
  }

  /** What a reconcile that returned in sync leaves behind, given its log `before + during` and
      that meanwhile nobody changed the Monitor's spec or Secrets, its monitor, or Kuma's
      channels and groups: a settled Monitor. Every later reconcile then writes nothing. */
  lemma ReconcileSettles(cfg: S.Settings, init: S.State, before: seq<S.Action>, during: seq<S.Action>, key: Key,
                         id: int, desired: MonitorSpec, tags: set<string>)
    requires HostMachine.CollisionFree(cfg.hosts) && S.Initial(init) && Quiescence.AllSpareReferences(during)
    requires forall i :: 0 <= i < |during| ==> Quiescence.SparesSecrets(key, during[i])
    requires MonitorIdle(S.Run(cfg, init, before), key)
    requires MonitorEnded(S.Run(cfg, init, before + during), key, InSync(id, desired, tags))
    requires
      var slot := S.MonitorSlotAt(S.Run(cfg, init, before + during), key);
      && slot.cur.Some? && slot.cur.value.generation == slot.attempt.value.snap.generation && !slot.cur.value.deleting
      && id !in slot.attempt.value.touched
    ensures Quiescence.MonitorSettled(S.Run(cfg, init, before + during + [S.Monitor(key, Finish)]), key, desired, id)
    ensures TagsOn(S.Run(cfg, init, before + during).kuma, id) == tags
    ensures
      Quiescence.AllSpareTags(S.Run(cfg, init, before), key, during) ==>
        tags == TagNames(cfg.monitors, S.MonitorSlotAt(S.Run(cfg, init, before + during), key).cur.value)
  {
    S.RunInv(cfg, init, before);
    RunConcat(cfg, init, before, during);
    RunOne(cfg, init, before + during, S.Monitor(key, Finish));
    Quiescence.MonitorConverges(cfg, S.Run(cfg, init, before), key, during, id, desired, tags);
  }
}
