/** The assumption on the fingerprint can be met: some function tells all host sets apart. */
module Fingerprint {
  import opened Spec
  import Derive
  import HostMachine

  /** Every character behind a dot, and a semicolon at the end. */
  function Marked(host: string): (s: string)
    ensures |s| > 0
  {
    if host == "" then ";" else "." + [host[0]] + Marked(host[1..])
  }

  function Listed(hosts: seq<string>): string {
    if hosts == [] then "" else Marked(hosts[0]) + Listed(hosts[1..])
  }

  function HostList(desired: seq<DesiredMonitor>): seq<string> {
    seq(|desired|, i requires 0 <= i < |desired| => desired[i].host)
  }

  function Fingerprint(desired: seq<DesiredMonitor>): string {
    "#" + Listed(HostList(desired))
  }

  lemma {:induction false} MarkedUnique(a: string, b: string, x: string, y: string)
    requires Marked(a) + x == Marked(b) + y
    ensures a == b && x == y
  {
    var left, right := Marked(a) + x, Marked(b) + y;
    assert left[0] == right[0];
    if a == "" {
      assert b == "";
      assert x == left[1..] && y == right[1..];
    } else {
      assert b != "";
      assert left[1] == a[0] && right[1] == b[0];
      assert left[2..] == Marked(a[1..]) + x && right[2..] == Marked(b[1..]) + y;
      MarkedUnique(a[1..], b[1..], x, y);
      assert a == [a[0]] + a[1..] && b == [b[0]] + b[1..];
    }
  }

  lemma {:induction false} ListedUnique(a: seq<string>, b: seq<string>)
    requires Listed(a) == Listed(b)
    ensures a == b
  {
    if a != [] && b != [] {
      MarkedUnique(a[0], b[0], Listed(a[1..]), Listed(b[1..]));
      ListedUnique(a[1..], b[1..]);
      assert a == [a[0]] + a[1..] && b == [b[0]] + b[1..];
    }
  }

  lemma FingerprintsDiffer(d: seq<DesiredMonitor>, e: seq<DesiredMonitor>)
    requires Fingerprint(d) == Fingerprint(e)
    ensures Derive.Hosts(d) == Derive.Hosts(e)
  {
    assert Fingerprint(d)[1..] == Listed(HostList(d)) && Fingerprint(e)[1..] == Listed(HostList(e));
    ListedUnique(HostList(d), HostList(e));
    SameHosts(d, e);
  }

  lemma SameHosts(d: seq<DesiredMonitor>, e: seq<DesiredMonitor>)
    requires HostList(d) == HostList(e)
    ensures Derive.Hosts(d) == Derive.Hosts(e)
  {
    assert forall i :: 0 <= i < |d| ==> HostList(d)[i] == d[i].host && HostList(e)[i] == e[i].host;
    forall h
      ensures h in Derive.Hosts(d) <==> h in Derive.Hosts(e)
    {
      if h in Derive.Hosts(d) {
        var i :| 0 <= i < |d| && d[i].host == h;
        assert e[i].host == h;
      }
      if h in Derive.Hosts(e) {
        var i :| 0 <= i < |e| && e[i].host == h;
        assert d[i].host == h;
      }
    }
  }

  /** A configuration with such a fingerprint exists. */
  lemma CollisionFreeIsPossible(optIn: bool, tags: seq<string>, patterns: seq<string -> bool>)
    ensures HostMachine.CollisionFree(HostMachine.Config(optIn, tags, patterns, Fingerprint))
  {
    var cfg := HostMachine.Config(optIn, tags, patterns, Fingerprint);
    forall d, e | cfg.digest(d) == cfg.digest(e)
      ensures Derive.Hosts(d) == Derive.Hosts(e)
    {
      FingerprintsDiffer(d, e);
    }
  }
}
