/** Secret values over whole runs: whatever was sent to Kuma for a Monitor has, in each field its
    spec refers to a Secret for, a value which that Secret had at some time in the run, and
    nothing in the fields it does not. */
module SecretHistory {
  import opened Wrappers
  import opened Spec
  import opened Store
  import opened Tracking
  import opened System
  import opened MonitorSecrets
  import HM = HostMachine
  import MM = MonitorMachine
  import Quiescence
  import Safety
  import Translate

  /** The states the Secrets of a Monitor were in during a run. */
  ghost function History(cfg: Settings, init: State, actions: seq<Action>, key: Key): set<MM.Secrets> {
    var now := {MonitorAt(Run(cfg, init, actions), key).secrets};
    if actions == [] then now else History(cfg, init, actions[..|actions| - 1], key) + now
  }

  lemma OneStep(cfg: Settings, s: State, action: Action, key: Key, seen: set<MM.Secrets>)
    requires HM.CollisionFree(cfg.hosts) && Inv(cfg, s) && Sourced(MonitorAt(s, key), seen)
    ensures
      var after := MonitorAt(Apply(cfg, s, action), key);
      Sourced(after, seen + {after.secrets})
  {
    var l, t := MonitorAt(s, key), Apply(cfg, s, action);
    var after := MonitorAt(t, key);
    if action.MonitorUser? && action.key == key {
      UserSourced(l, action.monitorUser, seen);
    } else {
      if action.Monitor? && action.key == key {
        StepSourced(cfg.monitors, ByMonitor(key), l, action.monitor, seen);
      } else {
        Quiescence.MonitorIsShifted(cfg, s, action, key);
        ShiftSourced(l, seen, t.kuma, t.latest, if action.Hand? then Touches(action.hand) else {});
      }
      MoreSeenSourced(after, seen, seen + {after.secrets});
    }
  }

  lemma {:induction false} RunSourced(cfg: Settings, init: State, actions: seq<Action>, key: Key)
    requires HM.CollisionFree(cfg.hosts) && Initial(init)
    ensures Sourced(MonitorAt(Run(cfg, init, actions), key), History(cfg, init, actions, key))
  {
    if actions != [] {
      var before := actions[..|actions| - 1];
      RunSourced(cfg, init, before, key);
      RunInv(cfg, init, before);
      OneStep(cfg, Run(cfg, init, before), actions[|actions| - 1], key, History(cfg, init, before, key));
    }
  }

  /** What was last sent for the id has every Secret value in its own field, on the wire too. */
  ghost predicate SentInPlace(l: MM.Local, id: int, seen: set<MM.Secrets>) {
    id in l.sent ==>
      var source, spec := l.sent[id].source, l.sent[id].spec;
      && Placed(source, spec, seen)
      && (Translate.ToBremlMonitor(id, spec).Ok? ==> OnWire(source, seen, Translate.ToBremlMonitor(id, spec).value.details))
  }

  lemma SourcedIsInPlace(l: MM.Local, id: int, seen: set<MM.Secrets>)
    requires Sourced(l, seen)
    ensures SentInPlace(l, id, seen)
  {
    if id in l.sent && Translate.ToBremlMonitor(id, l.sent[id].spec).Ok? {
      SecretsOnWire(id, l.sent[id].source, l.sent[id].spec, seen, Translate.ToBremlMonitor(id, l.sent[id].spec).value);
    }
  }

  /** At a synced generation that was sent for the current spec. */
  ghost predicate SyncedInPlace(l: MM.Local, seen: set<MM.Secrets>) {
    l.cur.Some? && l.cur.value.monitorID != "" && l.cur.value.observed == l.cur.value.generation ==>
      var id := IDOf(l.cur.value.monitorID);
      id in l.sent && Placed(l.cur.value.spec, l.sent[id].spec, seen)
  }

  /** In every run: what was last sent for an id has every Secret value in its own field, on the
      wire too, and is otherwise the conversion of the spec it was sent for. */
  lemma SentSecrets(cfg: Settings, init: State, actions: seq<Action>, key: Key, id: int)
    requires HM.CollisionFree(cfg.hosts) && Initial(init)
    ensures SentInPlace(MonitorAt(Run(cfg, init, actions), key), id, History(cfg, init, actions, key))
  {
    RunSourced(cfg, init, actions, key);
    SourcedIsInPlace(MonitorAt(Run(cfg, init, actions), key), id, History(cfg, init, actions, key));
  }

  /** So at a synced generation, the tracked monitor was last sent the current spec with each
      Secret value in its own field. */
  lemma SyncedSecrets(cfg: Settings, init: State, actions: seq<Action>, key: Key)
    requires HM.CollisionFree(cfg.hosts) && Initial(init)
    ensures SyncedInPlace(MonitorAt(Run(cfg, init, actions), key), History(cfg, init, actions, key))
  {
    RunSourced(cfg, init, actions, key);
    Safety.GenerationSound(cfg, init, actions, key);
  }
}
