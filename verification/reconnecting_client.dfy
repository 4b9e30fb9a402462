/** The reconnecting client as the code performs it (internal/kuma/reconnect.go). Between two
    atomic steps of a thread any other threads may run; every method ends in the state of the
    machine that its own steps lead to, so all that holds of runs holds here. */
module ReconnectingClient {
  import opened Wrappers
  import opened ReconnectMachine

  /** What other threads do before a step, and how a dial or a call ends. */
  datatype Turn = Turn(others: seq<Action>, yes: bool)

  predicate ByOthers(actions: seq<Action>, me: Thread) {
    forall i :: 0 <= i < |actions| ==> actions[i].t != me
  }

  predicate At(s: State, t: Thread, pc: PC) {
    t in s.threads && s.threads[t] == pc
  }

  lemma {:induction false} OthersKeep(s: State, actions: seq<Action>, me: Thread)
    requires ByOthers(actions, me)
    ensures me in s.threads <==> me in Run(s, actions).threads
    ensures me in s.threads ==> Run(s, actions).threads[me] == s.threads[me]
  {
    if actions != [] {
      var init := actions[..|actions| - 1];
      OthersKeep(s, init, me);
      OneOtherKeeps(Run(s, init), actions[|actions| - 1], me);
    }
  }

  lemma OneOtherKeeps(s: State, action: Action, me: Thread)
    requires action.t != me
    ensures me in s.threads <==> me in Step(s, action).threads
    ensures me in s.threads ==> Step(s, action).threads[me] == s.threads[me]
  {
    if action.Go? && action.t in s.threads {
      GoFrame(s, action.t, action.yes);
    }
  }

  lemma {:induction false} RunConcat(s: State, a: seq<Action>, b: seq<Action>)
    ensures Run(s, a + b) == Run(Run(s, a), b)
  {
    if b == [] {
      assert a + b == a;
    } else {
      var init := b[..|b| - 1];
      RunConcat(s, a, init);
      assert (a + b)[..|a + b| - 1] == a + init;
    }
  }

  lemma RunOne(s: State, log: seq<Action>, action: Action)
    ensures Run(s, log + [action]) == Step(Run(s, log), action)
  {
    assert (log + [action])[..|log|] == log;
  }

  /** While a thread holds mu, no other changes current or down. */
  lemma {:induction false} MuProtects(actions: seq<Action>, others: seq<Action>, me: Thread)
    requires ByOthers(others, me)
    requires var s := Run(Initial(), actions); s.mu == Some(me)
    ensures
      var s, after := Run(Initial(), actions), Run(Run(Initial(), actions), others);
      after.mu == Some(me) && after.current == s.current && after.down == s.down
  {
    if others != [] {
      var init := others[..|others| - 1];
      MuProtects(actions, init, me);
      RunConcat(Initial(), actions, init);
      RunInv(actions + init);
      MuProtectsStep(Run(Initial(), actions + init), others[|others| - 1], me);
    }
  }

  lemma MuProtectsStep(s: State, action: Action, me: Thread)
    requires LockInv(s) && s.mu == Some(me) && action.t != me
    ensures Step(s, action).mu == Some(me) && Step(s, action).current == s.current && Step(s, action).down == s.down
  {
    if action.Go? && action.t in s.threads {
      assert !Holding(s.threads[action.t]);
    }
  }

  class Client {
    const turns: nat -> Turn
    var s: State
    var turn: nat
    ghost var log: seq<Action>

    /** The state is that of a run in which nobody else acts for thread `me`. */
    ghost predicate Valid(me: Thread)
      reads this
    {
      s == Run(Initial(), log) && forall i: nat :: ByOthers(turns(i).others, me)
    }

    constructor (turns: nat -> Turn)
      ensures this.turns == turns && s == Initial() && log == []
    {
      this.turns := turns;
      s, turn, log := Initial(), 0, [];
    }

    // ------------------------------------------------------------ building blocks

    /** Other threads run. */
    method Yield(me: Thread) returns (yes: bool)
      requires Valid(me)
      modifies this
      ensures Valid(me) && old(log) <= log
      ensures me in old(s).threads <==> me in s.threads
      ensures me in s.threads ==> s.threads[me] == old(s).threads[me]
      ensures old(s).mu == Some(me) ==> s.mu == Some(me) && s.current == old(s).current && s.down == old(s).down
      ensures turn == old(turn) + 1 && yes == turns(old(turn)).yes && s == Run(old(s), turns(old(turn)).others)
    {
      var now := turns(turn);
      turn := turn + 1;
      OthersKeep(s, now.others, me);
      if s.mu == Some(me) {
        MuProtects(log, now.others, me);
      }
      RunConcat(Initial(), log, now.others);
      s := Run(s, now.others);
      log := log + now.others;
      return now.yes;
    }

    /** One atomic step of thread `me`. */
    method Take(me: Thread, yes: bool)
      requires Valid(me) && me in s.threads
      modifies this
      ensures Valid(me) && old(log) <= log && s == GoStep(old(s), me, yes) && turn == old(turn)
    {
      RunOne(Initial(), log, Go(me, yes));
      log := log + [Go(me, yes)];
      s := GoStep(s, me, yes);
    }

    /** A new thread begins a call, or a readiness probe. */
    method Begin(me: Thread, action: Action)
      requires Valid(me) && me !in s.threads && (action == Call(me) || action == Probe(me))
      modifies this
      ensures Valid(me) && old(log) <= log && At(s, me, if action.Call? then Waiting else Probing)
      ensures s == Step(old(s), action) && turn == old(turn)
    {
      RunOne(Initial(), log, action);
      log := log + [action];
      s := Step(s, action);
    }

    // ------------------------------------------------------------ mu, current and down

    /** mu.Lock. Not every thread that waits gets the lock: false if it still waits. */
    method Lock(me: Thread, ghost pc: PC) returns (locked: bool)
      requires Valid(me) && At(s, me, pc) && (pc.Waiting? || pc.Checking?)
      modifies this
      ensures Valid(me) && old(log) <= log
      ensures if locked then At(s, me, if pc.Waiting? then Testing(true) else Comparing(pc.c)) && s.mu == Some(me) else At(s, me, pc)
    {
      var yes := Yield(me);
      if s.mu.Some? {
        return false;
      }
      Take(me, yes);
      return true;
    }

    /** mu.TryLock: gets the lock exactly if it is free when the thread tries. */
    method TryLock(me: Thread) returns (locked: bool)
      requires Valid(me) && At(s, me, Trying)
      modifies this
      ensures Valid(me) && old(log) <= log
      ensures if locked then At(s, me, Testing(false)) && s.mu == Some(me) else At(s, me, Over)
      ensures turn == old(turn) + 1
      ensures
        var met := Run(old(s), turns(old(turn)).others);
        && (locked <==> met.mu.None?)
        && s.current == met.current && s.down == met.down && (!locked ==> s.mu == met.mu)
    {
      var yes := Yield(me);
      locked := s.mu.None?;
      Take(me, yes);
    }

    method Unlock(me: Thread, ghost pc: PC)
      requires Valid(me) && At(s, me, pc) && (pc.Leaving? || pc.Parting?)
      modifies this
      ensures Valid(me) && old(log) <= log
      ensures At(s, me, match pc
                        case Leaving(caller, got) => if caller && got.Some? then Calling(got.value) else Over
                        case Parting(toClose) => if toClose.Some? then Closing(toClose.value) else Over)
      ensures
        var met := Run(old(s), turns(old(turn)).others);
        s.mu.None? && s.current == met.current && s.down == met.down
    {
      var yes := Yield(me);
      Take(me, yes);
    }

    method ReadCurrent(me: Thread, ghost caller: bool) returns (current: Option<Conn>)
      requires Valid(me) && At(s, me, Testing(caller)) && s.mu == Some(me)
      modifies this
      ensures Valid(me) && old(log) <= log && s.mu == Some(me)
      ensures At(s, me, if current.Some? then Leaving(caller, current) else Dialing(caller))
      ensures current == old(s).current == s.current && s.down == old(s).down
    {
      var yes := Yield(me);
      current := s.current;
      Take(me, yes);
    }

    method Dial(me: Thread, ghost caller: bool) returns (c: Option<Conn>)
      requires Valid(me) && At(s, me, Dialing(caller)) && s.mu == Some(me)
      modifies this
      ensures Valid(me) && old(log) <= log && s.mu == Some(me)
      ensures At(s, me, if c.Some? then Dialed(caller, c.value) else Refused(caller))
      ensures c.Some? <==> turns(old(turn)).yes
    {
      var yes := Yield(me);
      c := if yes then Some(s.made) else None;
      Take(me, yes);
    }

    method SetCurrent(me: Thread, c: Conn, ghost caller: bool)
      requires Valid(me) && At(s, me, Dialed(caller, c)) && s.mu == Some(me)
      modifies this
      ensures Valid(me) && old(log) <= log && s.mu == Some(me) && At(s, me, Installed(caller, c))
      ensures s.current == Some(c)
    {
      var yes := Yield(me);
      Take(me, yes);
    }

    /** The comparison in check, and clearing current if the connection is still the same. */
    method ClearIfSame(me: Thread, c: Conn) returns (cleared: bool)
      requires Valid(me) && At(s, me, Comparing(c)) && s.mu == Some(me)
      modifies this
      ensures Valid(me) && old(log) <= log && s.mu == Some(me)
      ensures cleared <==> old(s).current == Some(c)
      ensures if cleared then At(s, me, Cleared(c)) && s.current.None? else At(s, me, Parting(None)) && s.current == old(s).current
    {
      var yes := Yield(me);
      cleared := s.current == Some(c);
      Take(me, yes);
    }

    /** setDown, under mu. */
    method SetDown(me: Thread, down: Option<Reason>, ghost pc: PC)
      requires Valid(me) && At(s, me, pc) && s.mu == Some(me)
      requires (pc.Installed? && down == None) || (pc.Refused? && down == Some(DialFailed)) || (pc.Cleared? && down == Some(Reason.Lost(pc.c)))
      modifies this
      ensures Valid(me) && old(log) <= log && s.mu == Some(me) && s.down == down && s.current == old(s).current
      ensures At(s, me, match pc
                        case Installed(caller, c) => Leaving(caller, Some(c))
                        case Refused(caller) => Leaving(caller, None)
                        case Cleared(c) => Parting(Some(c)))
    {
      var yes := Yield(me);
      Take(me, yes);
    }

    method ReadDown(me: Thread) returns (down: Option<Reason>)
      requires Valid(me) && At(s, me, Probing)
      modifies this
      ensures Valid(me) && old(log) <= log && At(s, me, if down.None? then Over else Trying)
      ensures turn == old(turn) + 1
      ensures
        var met := Run(old(s), turns(old(turn)).others);
        down == met.down == s.down && s.current == met.current && s.mu == met.mu
    {
      var yes := Yield(me);
      down := s.down;
      Take(me, yes);
    }

    /** A call on the connection; whether it reports the connection lost. */
    method Request(me: Thread, c: Conn) returns (lost: bool)
      requires Valid(me) && At(s, me, Calling(c))
      modifies this
      ensures Valid(me) && old(log) <= log && At(s, me, if lost then Checking(c) else Over)
    {
      lost := Yield(me);
      Take(me, lost);
    }

    method Close(me: Thread, c: Conn)
      requires Valid(me) && At(s, me, Closing(c))
      modifies this
      ensures Valid(me) && old(log) <= log && At(s, me, Over)
    {
      var closer := Yield(me);
      Take(me, closer);
    }

    // ------------------------------------------------------------ the client's methods

    /** getLocked: the connection held, or a new one. On return current and down agree with
        what is returned. */
    method GetLocked(me: Thread, caller: bool) returns (c: Option<Conn>)
      requires Valid(me) && At(s, me, Testing(caller)) && s.mu == Some(me)
      modifies this
      ensures Valid(me) && old(log) <= log && s.mu == Some(me) && At(s, me, Leaving(caller, c))
      ensures s.current == c && (c.Some? <==> s.down.None?)
      ensures old(s).current.Some? ==> c == old(s).current
      ensures (forall i: nat :: turns(i).yes) ==> c.Some?
    {
      c := ReadCurrent(me, caller);
      if c.None? {
        c := Dial(me, caller);
        if c.None? {
          SetDown(me, Some(DialFailed), Refused(caller));
        } else {
          SetCurrent(me, c.value, caller);
          SetDown(me, None, Installed(caller, c.value));
        }
      }
      RunInv(log);
    }

    /** What a caller gets: nothing yet, an error, or a connection. */
    method Get(me: Thread) returns (locked: bool, c: Option<Conn>)
      requires Valid(me) && At(s, me, Waiting)
      modifies this
      ensures Valid(me) && old(log) <= log
      ensures At(s, me, if !locked then Waiting else if c.Some? then Calling(c.value) else Over)
    {
      locked := Lock(me, Waiting);
      if !locked {
        return false, None;
      }
      c := GetLocked(me, true);
      Unlock(me, Leaving(true, c));
    }

    /** check after a call that reported its connection lost. */
    method Check(me: Thread, c: Conn) returns (locked: bool)
      requires Valid(me) && At(s, me, Checking(c))
      modifies this
      ensures Valid(me) && old(log) <= log && At(s, me, if locked then Over else Checking(c))
    {
      locked := Lock(me, Checking(c));
      if !locked {
        return;
      }
      var cleared := ClearIfSame(me, c);
      if !cleared {
        Unlock(me, Parting(None));
        return;
      }
      SetDown(me, Some(Reason.Lost(c)), Cleared(c));
      Unlock(me, Parting(Some(c)));
      Close(me, c);
    }

    /** Every wrapper: get a connection, make the call, check its error. */
    method Wrapper(me: Thread) returns (finished: bool)
      requires Valid(me) && me !in s.threads
      modifies this
      ensures Valid(me) && old(log) <= log && me in s.threads
      ensures finished ==> At(s, me, Over)
      ensures !finished ==> s.threads[me].Waiting? || s.threads[me].Checking?
    {
      Begin(me, Call(me));
      var locked, c := Get(me);
      if !locked || c.None? {
        return locked;
      }
      var lost := Request(me, c.value);
      if lost {
        finished := Check(me, c.value);
      } else {
        finished := true;
      }
    }

    /** What a probe that got the lock leaves to run in the background. */
    method DialInBackground(me: Thread)
      requires Valid(me) && At(s, me, Testing(false)) && s.mu == Some(me)
      modifies this
      ensures Valid(me) && old(log) <= log && At(s, me, Over)
      ensures (forall i: nat :: turns(i) == Turn([], true)) ==> s.mu.None? && s.down.None? && s.current.Some?
    {
      var c := GetLocked(me, false);
      Unlock(me, Leaving(false, c));
    }

    /** No other thread steps in between. */
    ghost predicate Alone() {
      forall i: nat :: turns(i).others == []
    }

    method TryDial(me: Thread)
      requires Valid(me) && At(s, me, Trying)
      modifies this
      ensures Valid(me) && old(log) <= log && At(s, me, Over)
      ensures (forall i: nat :: turns(i) == Turn([], true)) && old(s).mu.None? ==> s.mu.None? && s.down.None? && s.current.Some?
      ensures Alone() && old(s).mu.Some? ==> s.mu == old(s).mu && s.down == old(s).down && s.current == old(s).current
    {
      var locked := TryLock(me);
      if locked {
        DialInBackground(me);
      }
    }

    /** ReadyCheck: it never waits for a dial; if the connection is down and no one holds mu,
        a dial is started in the background. */
    method ReadyCheck(me: Thread) returns (down: Option<Reason>)
      requires Valid(me) && me !in s.threads
      modifies this
      ensures Valid(me) && old(log) <= log && At(s, me, Over)
      ensures Alone() ==> down == old(s).down
      ensures (forall i: nat :: turns(i) == Turn([], true)) && old(s).mu.None? ==> s.mu.None? && s.down.None? && s.current.Some?
      ensures Alone() && old(s).mu.Some? ==> s.mu == old(s).mu && s.down == old(s).down && s.current == old(s).current
    {
      FreeMeansConsistent(log);
      Begin(me, Probe(me));
      down := ReadDown(me);
      if down.Some? {
        TryDial(me);
      }
    }
  }
}
