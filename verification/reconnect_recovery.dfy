/** What one thread of the reconnecting client achieves when no other thread steps in between
    (internal/kuma/reconnect.go): a probe brings a lost connection back without any reconcile, a
    caller gets the connection held or a new one, and a lost connection is discarded and closed. */
module ReconnectRecovery {
  import opened Wrappers
  import opened ReconnectMachine
  import ReconnectingClient

  /** The next `n` steps of one thread. */
  function Own(t: Thread, yes: bool, n: nat): seq<Action> {
    seq(n, i => Go(t, yes))
  }

  /** Where they lead. */
  function Alone(s: State, t: Thread, yes: bool, n: nat): State
    decreases n
  {
    if n == 0 || t !in s.threads then s else Alone(GoStep(s, t, yes), t, yes, n - 1)
  }

  lemma FirstRuns(s: State, first: Action, rest: seq<Action>)
    ensures Run(s, [first] + rest) == Run(Step(s, first), rest)
  {
    ReconnectingClient.RunConcat(s, [first], rest);
    ReconnectingClient.RunOne(s, [], first);
    assert [] + [first] == [first];
  }

  lemma {:induction false} OwnIsAlone(s: State, t: Thread, yes: bool, n: nat)
    requires t in s.threads
    ensures Run(s, Own(t, yes, n)) == Alone(s, t, yes, n)
    decreases n
  {
    if n > 0 {
      GoFrame(s, t, yes);
      assert Own(t, yes, n) == [Go(t, yes)] + Own(t, yes, n - 1);
      FirstRuns(s, Go(t, yes), Own(t, yes, n - 1));
      OwnIsAlone(GoStep(s, t, yes), t, yes, n - 1);
    }
  }

  lemma OneMore(s: State, t: Thread, yes: bool, n: nat)
    requires t in s.threads && n > 0
    ensures Alone(s, t, yes, n) == Alone(GoStep(s, t, yes), t, yes, n - 1)
  {}

  /** A new thread begins and takes its steps. */
  lemma BegunIsAlone(s: State, first: Action, t: Thread, yes: bool, n: nat)
    requires t in Step(s, first).threads
    ensures Run(s, [first] + Own(t, yes, n)) == Alone(Step(s, first), t, yes, n)
  {
    FirstRuns(s, first, Own(t, yes, n));
    OwnIsAlone(Step(s, first), t, yes, n);
  }

  predicate Fresh(s: State, t: Thread) {
    t !in s.threads
  }

  predicate Is(s: State, t: Thread, pc: PC) {
    t in s.threads && s.threads[t] == pc
  }

  // ---------------------------------------------------------------------- dialing

  /** A thread that holds mu and has a new connection installs it and lets go. */
  lemma DialedToEnd(s: State, t: Thread, caller: bool, c: Conn)
    requires Is(s, t, Dialed(caller, c))
    ensures
      var after := Alone(s, t, true, 3);
      && Is(after, t, if caller then Calling(c) else Over)
      && after.mu.None? && after.down.None? && after.current == Some(c) && after.made == s.made
  {
    var a := GoStep(s, t, true);
    OneMore(s, t, true, 3);
    assert Is(a, t, Installed(caller, c)) && a.current == Some(c) && a.made == s.made;
    var b := GoStep(a, t, true);
    OneMore(a, t, true, 2);
    assert Is(b, t, Leaving(caller, Some(c))) && b.current == Some(c) && b.down.None? && b.made == s.made;
    OneMore(b, t, true, 1);
  }

  lemma DialFromTest(s: State, t: Thread, caller: bool)
    requires Is(s, t, Testing(caller)) && s.current.None?
    ensures
      var after := Alone(s, t, true, 5);
      && Is(after, t, if caller then Calling(s.made) else Over)
      && after.mu.None? && after.down.None? && after.current == Some(s.made) && after.made == s.made + 1
  {
    var a := GoStep(s, t, true);
    OneMore(s, t, true, 5);
    assert Is(a, t, Dialing(caller)) && a.made == s.made;
    var b := GoStep(a, t, true);
    OneMore(a, t, true, 4);
    assert Is(b, t, Dialed(caller, s.made)) && b.made == s.made + 1;
    DialedToEnd(b, t, caller, s.made);
  }

  /** If the dial fails, that is recorded and nothing is held. */
  lemma DialFails(s: State, t: Thread, caller: bool)
    requires Is(s, t, Testing(caller)) && s.current.None?
    ensures
      var after := Alone(s, t, false, 4);
      Is(after, t, Over) && after.mu.None? && after.down == Some(DialFailed) && after.current.None? && after.made == s.made
  {
    var a := GoStep(s, t, false);
    OneMore(s, t, false, 4);
    assert Is(a, t, Dialing(caller)) && a.current.None? && a.made == s.made;
    var b := GoStep(a, t, false);
    OneMore(a, t, false, 3);
    assert Is(b, t, Refused(caller)) && b.current.None? && b.made == s.made;
    var c := GoStep(b, t, false);
    OneMore(b, t, false, 2);
    assert Is(c, t, Leaving(caller, None)) && c.down == Some(DialFailed) && c.current.None? && c.made == s.made;
    OneMore(c, t, false, 1);
  }

  // ----------------------------------------------------------------------- probes

  lemma ProbeTests(s: State, t: Thread, yes: bool)
    requires Is(s, t, Trying) && s.mu.None?
    ensures
      var tested := GoStep(s, t, yes);
      Is(tested, t, Testing(false)) && tested.current == s.current && tested.made == s.made
  {}

  lemma ProbeTries(s: State, t: Thread, yes: bool)
    requires Is(s, t, Probing) && s.down.Some?
    ensures GoStep(s, t, yes) == s.(threads := s.threads[t := Trying])
  {}

  lemma ProbeDials(s: State, t: Thread)
    requires Is(s, t, Probing) && s.mu.None? && s.down.Some? && s.current.None?
    ensures
      var after := Alone(s, t, true, 7);
      && Is(after, t, Over)
      && after.mu.None? && after.down.None? && after.current == Some(s.made) && after.made == s.made + 1
  {
    ProbeTries(s, t, true);
    var a := GoStep(s, t, true);
    OneMore(s, t, true, 7);
    ProbeTests(a, t, true);
    OneMore(a, t, true, 6);
    DialFromTest(GoStep(a, t, true), t, false);
  }

  lemma ProbeDialsInVain(s: State, t: Thread)
    requires Is(s, t, Probing) && s.mu.None? && s.down.Some? && s.current.None?
    ensures
      var after := Alone(s, t, false, 6);
      && Is(after, t, Over)
      && after.mu.None? && after.down == Some(DialFailed) && after.current.None? && after.made == s.made
  {
    ProbeTries(s, t, false);
    var a := GoStep(s, t, false);
    OneMore(s, t, false, 6);
    ProbeTests(a, t, false);
    OneMore(a, t, false, 5);
    DialFails(GoStep(a, t, false), t, false);
  }

  /** In every reachable state with mu free and the connection down: a readiness probe alone dials,
      and if the dial succeeds the connection is up again, mu is free and the probe is over; no
      caller is needed. If the dial fails the state stays down. */
  lemma ProbeRecovers(actions: seq<Action>, t: Thread)
    requires
      var s := Run(Initial(), actions);
      Fresh(s, t) && s.mu.None? && s.down.Some?
    ensures
      var s := Run(Initial(), actions);
      var after := Run(s, [Probe(t)] + Own(t, true, 7));
      && Is(after, t, Over)
      && after.mu.None? && after.down.None? && after.current == Some(s.made) && after.made == s.made + 1
    ensures
      var s := Run(Initial(), actions);
      var after := Run(s, [Probe(t)] + Own(t, false, 6));
      && Is(after, t, Over)
      && after.mu.None? && after.down == Some(DialFailed) && after.current.None? && after.made == s.made
  {
    FreeMeansConsistent(actions);
    var s := Run(Initial(), actions);
    BegunIsAlone(s, Probe(t), t, true, 7);
    BegunIsAlone(s, Probe(t), t, false, 6);
    ProbeDials(Step(s, Probe(t)), t);
    ProbeDialsInVain(Step(s, Probe(t)), t);
  }

  lemma ProbeEnds(s: State, t: Thread, yes: bool)
    requires Is(s, t, Probing) && (s.mu.Some? || s.down.None?)
    ensures Alone(s, t, yes, 2) == s.(threads := s.threads[t := Over])
  {
    OneMore(s, t, yes, 2);
    var a := GoStep(s, t, yes);
    assert a == s.(threads := s.threads[t := if s.down.None? then Over else Trying]);
    OneMore(a, t, yes, 1);
    assert GoStep(a, t, yes) == s.(threads := s.threads[t := Over]);
  }

  /** A probe never waits: with mu held, or nothing down, it is over after two steps and has
      changed nothing. */
  lemma ProbeYields(s: State, t: Thread, yes: bool)
    requires Fresh(s, t) && (s.mu.Some? || s.down.None?)
    ensures Run(s, [Probe(t)] + Own(t, yes, 2)) == s.(threads := s.threads[t := Over])
  {
    BegunIsAlone(s, Probe(t), t, yes, 2);
    ProbeEnds(Step(s, Probe(t)), t, yes);
  }

  // ------------------------------------------------------------------------ calls

  lemma HeldIsReturned(s: State, t: Thread)
    requires Is(s, t, Waiting) && s.mu.None? && s.current.Some?
    ensures Alone(s, t, true, 3) == s.(threads := s.threads[t := Calling(s.current.value)])
  {
    OneMore(s, t, true, 3);
    var a := GoStep(s, t, true);
    assert a == s.(threads := s.threads[t := Testing(true)], mu := Some(t));
    OneMore(a, t, true, 2);
    var b := GoStep(a, t, true);
    assert b == s.(threads := s.threads[t := Leaving(true, s.current)], mu := Some(t));
    OneMore(b, t, true, 1);
    assert GoStep(b, t, true) == s.(threads := s.threads[t := Calling(s.current.value)]);
  }

  lemma NoneIsDialed(s: State, t: Thread)
    requires Is(s, t, Waiting) && s.mu.None? && s.current.None?
    ensures
      var after := Alone(s, t, true, 6);
      && Is(after, t, Calling(s.made))
      && after.mu.None? && after.down.None? && after.current == Some(s.made) && after.made == s.made + 1
  {
    OneMore(s, t, true, 6);
    var a := GoStep(s, t, true);
    assert Is(a, t, Testing(true)) && a.current.None? && a.made == s.made;
    DialFromTest(a, t, true);
  }

  /** A call with mu free gets the connection held, and dials only if none is. */
  lemma CallGets(s: State, t: Thread)
    requires Fresh(s, t) && s.mu.None?
    ensures
      if s.current.Some? then
        Run(s, [Call(t)] + Own(t, true, 3)) == s.(threads := s.threads[t := Calling(s.current.value)])
      else
        var after := Run(s, [Call(t)] + Own(t, true, 6));
        && Is(after, t, Calling(s.made))
        && after.mu.None? && after.down.None? && after.current == Some(s.made) && after.made == s.made + 1
  {
    if s.current.Some? {
      BegunIsAlone(s, Call(t), t, true, 3);
      HeldIsReturned(Step(s, Call(t)), t);
    } else {
      BegunIsAlone(s, Call(t), t, true, 6);
      NoneIsDialed(Step(s, Call(t)), t);
    }
  }

  lemma CheckClears(s: State, t: Thread, c: Conn)
    requires Is(s, t, Checking(c)) && s.mu.None? && s.current == Some(c)
    ensures
      var after := Alone(s, t, true, 5);
      && Is(after, t, Over) && after.mu.None?
      && after.current.None? && after.down == Some(Reason.Lost(c)) && after.closed == s.closed + multiset{c}
  {
    OneMore(s, t, true, 5);
    var a := GoStep(s, t, true);
    assert Is(a, t, Comparing(c)) && a.current == Some(c) && a.closed == s.closed;
    OneMore(a, t, true, 4);
    var b := GoStep(a, t, true);
    assert Is(b, t, Cleared(c)) && b.current.None? && b.closed == s.closed;
    OneMore(b, t, true, 3);
    var d := GoStep(b, t, true);
    assert Is(d, t, Parting(Some(c))) && d.current.None? && d.down == Some(Reason.Lost(c)) && d.closed == s.closed;
    PartingCloses(d, t, c);
  }

  lemma PartingCloses(s: State, t: Thread, c: Conn)
    requires Is(s, t, Parting(Some(c)))
    ensures
      var after := Alone(s, t, true, 2);
      && Is(after, t, Over) && after.mu.None?
      && after.current == s.current && after.down == s.down && after.closed == s.closed + multiset{c}
  {
    OneMore(s, t, true, 2);
    var a := GoStep(s, t, true);
    assert Is(a, t, Closing(c)) && a.mu.None? && a.current == s.current && a.down == s.down && a.closed == s.closed;
    OneMore(a, t, true, 1);
  }

  lemma LateLoss(s: State, t: Thread, c: Conn)
    requires Is(s, t, Checking(c)) && s.mu.None? && s.current != Some(c)
    ensures Alone(s, t, true, 3) == s.(threads := s.threads[t := Over])
  {
    OneMore(s, t, true, 3);
    var a := GoStep(s, t, true);
    assert a == s.(threads := s.threads[t := Comparing(c)], mu := Some(t));
    OneMore(a, t, true, 2);
    var b := GoStep(a, t, true);
    assert b == s.(threads := s.threads[t := Parting(None)], mu := Some(t));
    OneMore(b, t, true, 1);
    assert GoStep(b, t, true) == s.(threads := s.threads[t := Over]);
  }

  lemma LossIsChecked(s: State, t: Thread, c: Conn)
    requires Is(s, t, Calling(c))
    ensures
      var after := GoStep(s, t, true);
      Is(after, t, Checking(c)) && after == s.(threads := after.threads, lost := s.lost + {c})
  {}

  /** A call that reports its connection lost discards and closes it if it is still the current
      one, so that the next call or probe dials; otherwise nothing changes but the report. */
  lemma LossIsHandled(actions: seq<Action>, t: Thread, c: Conn)
    requires
      var s := Run(Initial(), actions);
      Is(s, t, Calling(c)) && s.mu.None?
    ensures
      var s := Run(Initial(), actions);
      if s.current == Some(c) then
        var after := Run(s, Own(t, true, 6));
        && Is(after, t, Over) && after.mu.None?
        && after.current.None? && after.down == Some(Reason.Lost(c)) && after.closed[c] == 1
      else Run(s, Own(t, true, 4)) == s.(threads := s.threads[t := Over], lost := s.lost + {c})
  {
    var s := Run(Initial(), actions);
    OwnIsAlone(s, t, true, 6);
    OwnIsAlone(s, t, true, 4);
    LossIsChecked(s, t, c);
    var checking := GoStep(s, t, true);
    if s.current == Some(c) {
      RunInv(actions);
      CurrentIsOpen(s, c);
      OneMore(s, t, true, 6);
      CheckClears(checking, t, c);
    } else {
      OneMore(s, t, true, 4);
      LateLoss(checking, t, c);
    }
  }

  lemma CurrentIsOpen(s: State, c: Conn)
    requires Inv(s) && s.current == Some(c)
    ensures s.closed[c] == 0
  {
    CurrentIsKept(s, c);
  }
}
