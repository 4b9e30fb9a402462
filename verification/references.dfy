/** Resolution of notification channel names and a group name to Kuma ids
    (resolveReferences in internal/controller/sync.go). */
module References {
  import opened Wrappers

  ghost predicate StrictlyIncreasing(s: seq<int>) {
    forall i, j :: 0 <= i < j < |s| ==> s[i] < s[j]
  }

  /** `x` put at its place in an increasing sequence, unless it is already there. */
  function Insert(s: seq<int>, x: int): seq<int> {
    if s == [] || x < s[0] then [x] + s
    else if x == s[0] then s
    else [s[0]] + Insert(s[1..], x)
  }

  lemma {:induction false} InsertExact(s: seq<int>, x: int)
    requires StrictlyIncreasing(s)
    ensures StrictlyIncreasing(Insert(s, x))
    ensures forall y :: y in Insert(s, x) <==> y == x || y in s
  {
    if s != [] && s[0] < x {
      InsertExact(s[1..], x);
      assert forall y :: y in s <==> y == s[0] || y in s[1..];
      var rest := Insert(s[1..], x);
      assert forall k :: 0 <= k < |rest| ==> rest[k] in rest;
      assert forall k :: 0 <= k < |rest| ==> s[0] < rest[k];
    }
  }

  predicate AllKnown(known: map<string, int>, names: seq<string>) {
    forall i :: 0 <= i < |names| ==> names[i] in known
  }

  /** The ids of the named channels, sorted and without repetition. */
  function ChannelIDs(known: map<string, int>, names: seq<string>): seq<int>
    requires AllKnown(known, names)
  {
    if names == [] then []
    else Insert(ChannelIDs(known, names[..|names| - 1]), known[names[|names| - 1]])
  }

  /** No lookup is needed for an empty list or name; an unknown name is an error. */
  function ResolveNotifications(known: map<string, int>, names: seq<string>): Option<seq<int>> {
    if AllKnown(known, names) then Some(ChannelIDs(known, names)) else None
  }

  function ResolveGroup(groups: map<string, int>, name: string): Option<Option<int>> {
    if name == "" then Some(None)
    else if name in groups then Some(Some(groups[name]))
    else None
  }

  // ------------------------------------------------------------ canonical form

  lemma {:induction false} ChannelIDsExact(known: map<string, int>, names: seq<string>)
    requires AllKnown(known, names)
    ensures StrictlyIncreasing(ChannelIDs(known, names))
    ensures forall y :: y in ChannelIDs(known, names) <==> exists i :: 0 <= i < |names| && known[names[i]] == y
  {
    if names != [] {
      var init, last := names[..|names| - 1], names[|names| - 1];
      ChannelIDsExact(known, init);
      InsertExact(ChannelIDs(known, init), known[last]);
      forall y | y in ChannelIDs(known, names)
        ensures exists i :: 0 <= i < |names| && known[names[i]] == y
      {
        if y != known[last] {
          var i :| 0 <= i < |init| && known[init[i]] == y;
          assert known[names[i]] == y;
        }
      }
      forall i | 0 <= i < |names|
        ensures known[names[i]] in ChannelIDs(known, names)
      {
        if i < |init| {
          assert known[init[i]] in ChannelIDs(known, init);
        }
      }
    }
  }

  lemma EmptyTogether(a: seq<int>, b: seq<int>)
    requires forall y :: y in a ==> y in b
    ensures a != [] ==> b != []
  {
    if a != [] {
      var y := a[0];
      assert y in a && y in b;
    }
  }

  lemma {:induction false} IncreasingIsUnique(a: seq<int>, b: seq<int>)
    requires StrictlyIncreasing(a) && StrictlyIncreasing(b)
    requires forall y :: y in a <==> y in b
    ensures a == b
  {
    if a == [] || b == [] {
      EmptyTogether(a, b);
      EmptyTogether(b, a);
    } else {
      assert a[0] in b && b[0] in a;
      forall y | y in a[1..]
        ensures y in b[1..]
      {
        assert y in b;
      }
      forall y | y in b[1..]
        ensures y in a[1..]
      {
        assert y in a;
      }
      IncreasingIsUnique(a[1..], b[1..]);
      assert a == [a[0]] + a[1..] && b == [b[0]] + b[1..];
    }
  }

  /** Reordering or repeating names never changes the resolved ids, and so never the hash. */
  lemma ResolutionIsCanonical(known: map<string, int>, a: seq<string>, b: seq<string>)
    requires forall n :: n in a <==> n in b
    ensures ResolveNotifications(known, a) == ResolveNotifications(known, b)
  {
    assert AllKnown(known, a) <==> AllKnown(known, b) by {
      assert AllKnown(known, a) <==> forall n :: n in a ==> n in known;
      assert AllKnown(known, b) <==> forall n :: n in b ==> n in known;
    }
    if AllKnown(known, a) {
      ChannelIDsExact(known, a);
      ChannelIDsExact(known, b);
      forall y | y in ChannelIDs(known, a)
        ensures y in ChannelIDs(known, b)
      {
        var i :| 0 <= i < |a| && known[a[i]] == y;
        assert a[i] in b;
      }
      forall y | y in ChannelIDs(known, b)
        ensures y in ChannelIDs(known, a)
      {
        var i :| 0 <= i < |b| && known[b[i]] == y;
        assert b[i] in a;
      }
      IncreasingIsUnique(ChannelIDs(known, a), ChannelIDs(known, b));
    }
  }

  // --------------------------------------------------------- the code as written

  /** sort.Slice with `<` on distinct ids. */
  method SortDistinct(ids: seq<int>) returns (sorted: seq<int>)
    ensures StrictlyIncreasing(sorted)
    ensures forall y :: y in sorted <==> y in ids
  {
    sorted := [];
    for i := 0 to |ids|
      invariant StrictlyIncreasing(sorted)
      invariant forall y :: y in sorted <==> y in ids[..i]
    {
      InsertExact(sorted, ids[i]);
      sorted := Insert(sorted, ids[i]);
      assert ids[..i + 1] == ids[..i] + [ids[i]];
    }
    assert ids[..|ids|] == ids;
  }

  /** The loop of resolveReferences on the channels Kuma answered with. */
  method ResolveNames(known: map<string, int>, names: seq<string>) returns (r: Option<seq<int>>)
    ensures r == ResolveNotifications(known, names)
  {
    var ids: seq<int> := [];
    var seen: set<int> := {};
    for i := 0 to |names|
      invariant AllKnown(known, names[..i])
      invariant forall y :: y in ids <==> y in ChannelIDs(known, names[..i])
      invariant forall y :: y in seen <==> y in ids
    {
      if names[i] !in known {
        return None;
      }
      var id := known[names[i]];
      assert names[..i + 1] == names[..i] + [names[i]];
      assert names[..i + 1][..i] == names[..i];
      ChannelIDsExact(known, names[..i]);
      InsertExact(ChannelIDs(known, names[..i]), id);
      if id in seen {
        continue;
      }
      seen := seen + {id};
      ids := ids + [id];
    }
    assert names[..|names|] == names;
    ChannelIDsExact(known, names);
    ids := SortDistinct(ids);
    IncreasingIsUnique(ids, ChannelIDs(known, names));
    return Some(ids);
  }
}
