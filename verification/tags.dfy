/** Tag names and Kuma's tag associations: mergeTags, deriveLabelTags, syncTags
    (internal/controller/sync.go) and SetMonitorTags (internal/kuma/client.go). */
module Tags {
  import opened Wrappers
  import opened Iteration

  // ------------------------------------------------------------ the set of names

  ghost predicate NoRepeats<T>(s: seq<T>) {
    forall i, j :: 0 <= i < j < |s| ==> s[i] != s[j]
  }

  /** The elements of `s` in the order of their first occurrence. */
  function FirstOccurrences(s: seq<string>): seq<string> {
    if s == [] then []
    else
      var before := FirstOccurrences(s[..|s| - 1]);
      if s[|s| - 1] in before then before else before + [s[|s| - 1]]
  }

  function Concat(sources: seq<seq<string>>): seq<string> {
    if sources == [] then [] else Concat(sources[..|sources| - 1]) + sources[|sources| - 1]
  }

  function MergeTags(sources: seq<seq<string>>): seq<string> {
    FirstOccurrences(Concat(sources))
  }

  lemma {:induction false} FirstOccurrencesExact(s: seq<string>)
    ensures NoRepeats(FirstOccurrences(s))
    ensures forall x :: x in FirstOccurrences(s) <==> x in s
  {
    if s != [] {
      FirstOccurrencesExact(s[..|s| - 1]);
      assert s == s[..|s| - 1] + [s[|s| - 1]];
    }
  }

  lemma {:induction false} ConcatExact(sources: seq<seq<string>>)
    ensures forall x :: x in Concat(sources) <==> exists i :: 0 <= i < |sources| && x in sources[i]
  {
    if sources != [] {
      var init := sources[..|sources| - 1];
      ConcatExact(init);
      forall x | x in Concat(sources)
        ensures exists i :: 0 <= i < |sources| && x in sources[i]
      {
        if x in Concat(init) {
          var i :| 0 <= i < |init| && x in init[i];
          assert x in sources[i];
        }
      }
      forall i, x | 0 <= i < |sources| && x in sources[i]
        ensures x in Concat(sources)
      {
        assert i < |init| ==> x in init[i];
      }
    }
  }

  /** A duplicate-free union of the sources; no source after the first can reorder what an
      earlier one put in. */
  lemma MergeTagsExact(sources: seq<seq<string>>)
    ensures NoRepeats(MergeTags(sources))
    ensures forall x :: x in MergeTags(sources) <==> exists i :: 0 <= i < |sources| && x in sources[i]
    ensures sources != [] ==> MergeTags(sources[..|sources| - 1]) <= MergeTags(sources)
  {
    ConcatExact(sources);
    FirstOccurrencesExact(Concat(sources));
    if sources != [] {
      PrefixKept(Concat(sources[..|sources| - 1]), sources[|sources| - 1]);
    }
  }

  lemma {:induction false} PrefixKept(a: seq<string>, b: seq<string>)
    ensures FirstOccurrences(a) <= FirstOccurrences(a + b)
  {
    if b == [] {
      assert a + b == a;
    } else {
      PrefixKept(a, b[..|b| - 1]);
      assert (a + b)[..|a + b| - 1] == a + b[..|b| - 1];
    }
  }

  method MergeTagsLoop(sources: seq<seq<string>>) returns (merged: seq<string>)
    ensures merged == MergeTags(sources)
  {
    var seen: set<string> := {};
    merged := [];
    for i := 0 to |sources|
      invariant merged == FirstOccurrences(Concat(sources[..i]))
      invariant forall x :: x in seen <==> x in merged
    {
      assert Concat(sources[..i]) + sources[i][..0] == Concat(sources[..i]);
      for j := 0 to |sources[i]|
        invariant merged == FirstOccurrences(Concat(sources[..i]) + sources[i][..j])
        invariant forall x :: x in seen <==> x in merged
      {
        var name := sources[i][j];
        var prefix := Concat(sources[..i]) + sources[i][..j + 1];
        assert prefix[..|prefix| - 1] == Concat(sources[..i]) + sources[i][..j];
        if name !in seen {
          seen := seen + {name};
          merged := merged + [name];
        }
      }
      assert sources[i][..|sources[i]|] == sources[i];
      assert sources[..i + 1][..i] == sources[..i];
    }
    assert sources[..|sources|] == sources;
  }

  // ---------------------------------------------------------------- label tags

  predicate MatchesAny(patterns: seq<string -> bool>, key: string) {
    exists i :: 0 <= i < |patterns| && patterns[i](key)
  }

  function LabelTags(labels: map<string, string>, patterns: seq<string -> bool>): set<string> {
    set key | key in labels && MatchesAny(patterns, key) :: key + "=" + labels[key]
  }

  /** One tag per matching label, in any order the labels come in. */
  method DeriveLabelTags(labels: map<string, string>, patterns: seq<string -> bool>) returns (tags: seq<string>)
    ensures forall t :: t in tags <==> t in LabelTags(labels, patterns)
  {
    tags := [];
    if |patterns| == 0 {
      return;
    }
    var order := AnyOrder(labels.Keys);
    for i := 0 to |order|
      invariant forall t :: t in tags <==>
                  exists k :: 0 <= k < i && MatchesAny(patterns, order[k]) && t == order[k] + "=" + labels[order[k]]
    {
      for j := 0 to |patterns|
        invariant forall k :: 0 <= k < j ==> !patterns[k](order[i])
      {
        if patterns[j](order[i]) {
          tags := tags + [order[i] + "=" + labels[order[i]]];
          break;
        }
      }
    }
    assert order[..|order|] == order;
  }

  // ------------------------------------------------------- Kuma's tag associations

  /** The tags Kuma knows, the tag ids on each monitor, and the changes made so far. Any
      call may fail without an effect. */
  class TagServer {
    var tagIDs: map<string, int>
    var nextTagID: int
    var attached: map<int, set<int>>
    var created: nat
    var added: nat
    var removed: nat

    function On(monitorID: int): set<int>
      reads this`attached
    {
      TagsOn(attached, monitorID)
    }

    method CreateTag(name: string) returns (r: Result<int>)
      requires name !in tagIDs
      modifies this`tagIDs, this`nextTagID, this`created
      ensures r.Err? ==> tagIDs == old(tagIDs) && created == old(created) && nextTagID == old(nextTagID)
      ensures r.Ok? ==> tagIDs == old(tagIDs)[name := r.value] && created == old(created) + 1
    {
      if * {
        return Err;
      }
      nextTagID := nextTagID + 1;
      created := created + 1;
      tagIDs := tagIDs[name := nextTagID];
      return Ok(nextTagID);
    }

    method AddMonitorTag(tagID: int, monitorID: int) returns (ok: bool)
      modifies this`attached, this`added
      ensures ok ==> attached == old(attached)[monitorID := old(On(monitorID)) + {tagID}] && added == old(added) + 1
      ensures !ok ==> attached == old(attached) && added == old(added)
    {
      if * {
        return false;
      }
      added := added + 1;
      attached := attached[monitorID := On(monitorID) + {tagID}];
      return true;
    }

    method DeleteMonitorTag(tagID: int, monitorID: int) returns (ok: bool)
      modifies this`attached, this`removed
      ensures ok ==> attached == old(attached)[monitorID := old(On(monitorID)) - {tagID}] && removed == old(removed) + 1
      ensures !ok ==> attached == old(attached) && removed == old(removed)
    {
      if * {
        return false;
      }
      removed := removed + 1;
      attached := attached[monitorID := On(monitorID) - {tagID}];
      return true;
    }

    method AddAll(tags: set<int>, monitorID: int) returns (ok: bool)
      modifies this`attached, this`added
      ensures SameBut(old(attached), attached, {monitorID})
      ensures ok ==> On(monitorID) == old(On(monitorID)) + tags && added == old(added) + |tags|
    {
      var order := AnyOrder(tags);
      for i := 0 to |order|
        invariant SameBut(old(attached), attached, {monitorID})
        invariant On(monitorID) == old(On(monitorID)) + Elements(order[..i])
        invariant added == old(added) + i
      {
        var done := AddMonitorTag(order[i], monitorID);
        if !done {
          return false;
        }
        assert order[..i + 1] == order[..i] + [order[i]];
      }
      assert order[..|order|] == order;
      EnumerationLength(order, tags);
      return true;
    }

    method DeleteAll(tags: set<int>, monitorID: int) returns (ok: bool)
      modifies this`attached, this`removed
      ensures SameBut(old(attached), attached, {monitorID})
      ensures ok ==> On(monitorID) == old(On(monitorID)) - tags && removed == old(removed) + |tags|
    {
      var order := AnyOrder(tags);
      for i := 0 to |order|
        invariant SameBut(old(attached), attached, {monitorID})
        invariant On(monitorID) == old(On(monitorID)) - Elements(order[..i])
        invariant removed == old(removed) + i
      {
        var done := DeleteMonitorTag(order[i], monitorID);
        if !done {
          return false;
        }
        assert order[..i + 1] == order[..i] + [order[i]];
      }
      assert order[..|order|] == order;
      EnumerationLength(order, tags);
      return true;
    }

    /** realClient.SetMonitorTags: adds what is missing and removes what is not wanted, one
        call each, in any order. Nothing is called when the tags are already right. */
    method SetMonitorTags(monitorID: int, tags: seq<int>) returns (ok: bool)
      modifies this`attached, this`added, this`removed
      ensures SameBut(old(attached), attached, {monitorID})
      ensures ok ==> On(monitorID) == Elements(tags)
      ensures ok ==> added == old(added) + |On(monitorID) - old(On(monitorID))|
      ensures ok ==> removed == old(removed) + |old(On(monitorID)) - On(monitorID)|
    {
      var current := On(monitorID);
      var want := set t | t in tags;
      ok := AddAll(want - current, monitorID);
      if !ok {
        return false;
      }
      ok := DeleteAll(current - want, monitorID);
      if ok {
        assert current + (want - current) - (current - want) == want;
      }
    }

    /** The ids of the named tags, creating the tags that did not exist when the loop began.
        Because that list is not refreshed, names must not repeat. */
    method LookUpOrCreate(names: seq<string>) returns (r: Result<seq<int>>)
      requires NoRepeats(names)
      modifies this`tagIDs, this`nextTagID, this`created
      ensures Grown(old(tagIDs), tagIDs, names)
      ensures r.Ok? ==> AreIDsOf(r.value, names, tagIDs)
      ensures created + |Missing(names, tagIDs)| == old(created) + |Missing(names, old(tagIDs))|
    {
      var known := tagIDs;
      var ids: seq<int> := [];
      for i := 0 to |names|
        invariant Grown(known, tagIDs, names[..i])
        invariant AreIDsOf(ids, names[..i], tagIDs)
        invariant created + |Missing(names, tagIDs)| == old(created) + |Missing(names, known)|
      {
        GrownSoFar(known, tagIDs, names, i);
        if names[i] in known {
          IDsByOne(tagIDs, ids, names, i);
          ids := ids + [known[names[i]]];
        } else {
          ghost var before := tagIDs;
          var id := CreateTag(names[i]);
          if id.Err? {
            return Err;
          }
          GrownByOne(known, before, ids, names, i, id.value);
          MissingShrinks(names, before, names[i], id.value);
          ids := ids + [id.value];
        }
      }
      assert names[..|names|] == names;
      return Ok(ids);
    }

    /** The ids of the names; nothing is looked up when there are none. */
    method WantedIDs(names: seq<string>) returns (r: Result<seq<int>>)
      requires NoRepeats(names)
      modifies this`tagIDs, this`nextTagID, this`created
      ensures Grown(old(tagIDs), tagIDs, names)
      ensures created + |Missing(names, tagIDs)| == old(created) + |Missing(names, old(tagIDs))|
      ensures r.Ok? ==> CarriesExactly(tagIDs, Elements(r.value), names)
    {
      if |names| > 0 {
        r := LookUpOrCreate(names);
      } else {
        r := Ok([]);
      }
      if r.Ok? {
        CarriesTheirIDs(tagIDs, r.value, names);
      }
    }

    /** syncTags: afterwards the monitor carries exactly the named tags. Each missing tag is
        created once, other monitors keep their tags, and nothing is changed when the tags
        were right already. */
    method SyncTags(monitorID: int, names: seq<string>) returns (ok: bool)
      requires NoRepeats(names)
      modifies this
      ensures SameBut(old(attached), attached, {monitorID})
      ensures Grown(old(tagIDs), tagIDs, names)
      ensures ok ==> CarriesExactly(tagIDs, On(monitorID), names)
      ensures created + |Missing(names, tagIDs)| == old(created) + |Missing(names, old(tagIDs))|
      ensures ok ==> added == old(added) + |On(monitorID) - old(On(monitorID))|
      ensures ok ==> removed == old(removed) + |old(On(monitorID)) - On(monitorID)|
    {
      var ids := WantedIDs(names);
      ok := false;
      if ids.Ok? {
        ok := SetMonitorTags(monitorID, ids.value);
      }
    }

    /** syncTagsForHosts over the tracked monitors in any order: all of them end with exactly
        the named tags, each missing tag is created once in all, and monitors that are not
        tracked keep their tags. */
    method SyncTagsForHosts(monitors: seq<int>, names: seq<string>) returns (ok: bool)
      requires NoRepeats(names)
      modifies this
      ensures SameBut(old(attached), attached, Elements(monitors))
      ensures Grown(old(tagIDs), tagIDs, names)
      ensures ok ==> AllTagged(tagIDs, attached, monitors, names)
      ensures created + |Missing(names, tagIDs)| == old(created) + |Missing(names, old(tagIDs))|
    {
      for i := 0 to |monitors|
        invariant SameBut(old(attached), attached, Elements(monitors))
        invariant Grown(old(tagIDs), tagIDs, names)
        invariant AllTagged(tagIDs, attached, monitors[..i], names)
        invariant created + |Missing(names, tagIDs)| == old(created) + |Missing(names, old(tagIDs))|
      {
        ghost var tagsBefore, attachedBefore := tagIDs, attached;
        ok := SyncTags(monitors[i], names);
        GrownTwice(old(tagIDs), tagsBefore, tagIDs, names);
        SameButTwice(old(attached), attachedBefore, attached, monitors, i);
        if !ok {
          return false;
        }
        OneMoreTagged(attachedBefore, tagsBefore, attached, tagIDs, monitors, i, names);
      }
      assert monitors[..|monitors|] == monitors;
      return true;
    }
  }

  ghost predicate AllTagged(tagIDs: map<string, int>, attached: map<int, set<int>>, monitors: seq<int>, names: seq<string>) {
    forall k :: 0 <= k < |monitors| ==> CarriesExactly(tagIDs, TagsOn(attached, monitors[k]), names)
  }

  lemma OneMoreTagged(before: map<int, set<int>>, tagsBefore: map<string, int>, after: map<int, set<int>>,
                      tagsAfter: map<string, int>, monitors: seq<int>, i: nat, names: seq<string>)
    requires i < |monitors| && SameBut(before, after, {monitors[i]}) && Grown(tagsBefore, tagsAfter, names)
    requires AllTagged(tagsBefore, before, monitors[..i], names)
    requires CarriesExactly(tagsAfter, TagsOn(after, monitors[i]), names)
    ensures AllTagged(tagsAfter, after, monitors[..i + 1], names)
  {
    forall k | 0 <= k <= i
      ensures CarriesExactly(tagsAfter, TagsOn(after, monitors[k]), names)
    {
      if monitors[k] != monitors[i] {
        assert monitors[..i][k] == monitors[k];
        SameTagsOutside(before, after, monitors[i], monitors[k]);
        CarriesGrown(tagsBefore, tagsAfter, TagsOn(after, monitors[k]), names);
      }
    }
  }

  function TagsOn(attached: map<int, set<int>>, monitorID: int): set<int> {
    if monitorID in attached then attached[monitorID] else {}
  }

  lemma SameTagsOutside(before: map<int, set<int>>, after: map<int, set<int>>, changed: int, monitorID: int)
    requires SameBut(before, after, {changed}) && monitorID != changed
    ensures TagsOn(before, monitorID) == TagsOn(after, monitorID)
  {
    assert monitorID in before <==> monitorID in before - {changed};
    assert monitorID in after <==> monitorID in after - {changed};
    if monitorID in before {
      assert (before - {changed})[monitorID] == before[monitorID];
      assert (after - {changed})[monitorID] == after[monitorID];
    }
  }

  lemma SameButTwice(a: map<int, set<int>>, b: map<int, set<int>>, c: map<int, set<int>>, monitors: seq<int>, i: nat)
    requires i < |monitors| && SameBut(a, b, Elements(monitors)) && SameBut(b, c, {monitors[i]})
    ensures SameBut(a, c, Elements(monitors))
  {
    var all := Elements(monitors);
    assert monitors[i] in all;
    assert b - all == (b - {monitors[i]}) - all;
    assert c - all == (c - {monitors[i]}) - all;
  }

  lemma GrownTwice(a: map<string, int>, b: map<string, int>, c: map<string, int>, names: seq<string>)
    requires Grown(a, b, names) && Grown(b, c, names)
    ensures Grown(a, c, names)
  {}

  /** The same tags on every monitor outside `ids`. */
  ghost predicate SameBut(before: map<int, set<int>>, after: map<int, set<int>>, ids: set<int>) {
    forall m :: m !in ids ==> (m in before <==> m in after) && (m in before ==> before[m] == after[m])
  }

  /** Every tag is still there with its id, and only named tags are new. */
  ghost predicate Grown(before: map<string, int>, after: map<string, int>, names: seq<string>) {
    && (forall n :: n in before ==> n in after && after[n] == before[n])
    && (forall n :: n in after ==> n in before || n in names)
  }

  lemma GrownSoFar(known: map<string, int>, tagIDs: map<string, int>, names: seq<string>, i: nat)
    requires NoRepeats(names) && i < |names| && Grown(known, tagIDs, names[..i])
    ensures Grown(known, tagIDs, names) && Grown(known, tagIDs, names[..i + 1])
    ensures names[i] in known <==> names[i] in tagIDs
    ensures names[..i + 1] == names[..i] + [names[i]]
  {
    assert forall n :: n in names[..i] ==> n in names && n in names[..i + 1];
  }

  lemma IDsByOne(tagIDs: map<string, int>, ids: seq<int>, names: seq<string>, i: nat)
    requires i < |names| && names[i] in tagIDs && AreIDsOf(ids, names[..i], tagIDs)
    ensures AreIDsOf(ids + [tagIDs[names[i]]], names[..i + 1], tagIDs)
  {
    assert forall k :: 0 <= k < i ==> names[..i][k] == names[k];
  }

  lemma GrownByOne(known: map<string, int>, before: map<string, int>, ids: seq<int>, names: seq<string>, i: nat, id: int)
    requires NoRepeats(names) && i < |names| && Grown(known, before, names[..i])
    requires names[i] !in before && AreIDsOf(ids, names[..i], before)
    ensures Grown(known, before[names[i] := id], names[..i + 1])
    ensures AreIDsOf(ids + [id], names[..i + 1], before[names[i] := id])
  {
    assert forall n :: n in names[..i] ==> n in names[..i + 1];
    assert names[..i + 1][i] == names[i];
  }

  ghost predicate AreIDsOf(ids: seq<int>, names: seq<string>, tagIDs: map<string, int>) {
    && |ids| == |names|
    && forall k :: 0 <= k < |names| ==> names[k] in tagIDs && ids[k] == tagIDs[names[k]]
  }

  predicate AllExist(names: seq<string>, tagIDs: map<string, int>) {
    forall k :: 0 <= k < |names| ==> names[k] in tagIDs
  }

  function IDsOf(names: seq<string>, tagIDs: map<string, int>): seq<int>
    requires AllExist(names, tagIDs)
  {
    seq(|names|, k requires 0 <= k < |names| => tagIDs[names[k]])
  }

  /** A monitor with the tag ids `on` carries exactly the named tags. */
  ghost predicate CarriesExactly(tagIDs: map<string, int>, on: set<int>, names: seq<string>) {
    AllExist(names, tagIDs) && on == Elements(IDsOf(names, tagIDs))
  }

  lemma CarriesTheirIDs(tagIDs: map<string, int>, ids: seq<int>, names: seq<string>)
    requires AreIDsOf(ids, names, tagIDs)
    ensures CarriesExactly(tagIDs, Elements(ids), names) && |Missing(names, tagIDs)| == 0
  {
    assert ids == IDsOf(names, tagIDs);
    assert Missing(names, tagIDs) == {};
  }

  lemma CarriesGrown(before: map<string, int>, after: map<string, int>, on: set<int>, names: seq<string>)
    requires Grown(before, after, names) && CarriesExactly(before, on, names)
    ensures CarriesExactly(after, on, names)
  {
    assert IDsOf(names, before) == IDsOf(names, after);
  }

  /** The named tags that do not exist yet. */
  ghost function Missing(names: seq<string>, tagIDs: map<string, int>): set<string> {
    Elements(names) - tagIDs.Keys
  }

  lemma MissingShrinks(names: seq<string>, tagIDs: map<string, int>, name: string, id: int)
    requires name in names && name !in tagIDs
    ensures |Missing(names, tagIDs[name := id])| + 1 == |Missing(names, tagIDs)|
  {
    assert Missing(names, tagIDs) == Missing(names, tagIDs[name := id]) + {name};
  }

  ghost function Elements<T(!new)>(s: seq<T>): set<T> {
    set x | x in s
  }

  lemma {:induction false} EnumerationLength<T(!new)>(order: seq<T>, s: set<T>)
    requires Enumerates(order, s)
    ensures |order| == |s|
    decreases |order|
  {
    if order == [] {
      assert forall x :: x !in s;
      assert s == {};
    } else {
      var last := order[|order| - 1];
      assert last in order;
      var init := order[..|order| - 1];
      assert order == init + [last];
      assert Enumerates(init, s - {last});
      EnumerationLength(init, s - {last});
    }
  }
}
