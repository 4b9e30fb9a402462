/** Annotation values (internal/annotations/annotations.go): comma-separated lists, and the
    two marks the operator keeps on a routed resource. */
module Annotations {
  import opened Wrappers
  import HostMachine

  // -------------------------------------------------------------- strings, as in Go

  /** unicode.IsSpace */
  predicate IsSpace(c: char) {
    || c == ' ' || '\t' <= c <= '\r' || c == '\U{85}' || c == '\U{A0}' || c == '\U{1680}' || '\U{2000}' <= c <= '\U{200A}'
    || c == '\U{2028}' || c == '\U{2029}' || c == '\U{202F}' || c == '\U{205F}' || c == '\U{3000}'
  }

  function TrimLeft(s: string): string {
    if s != "" && IsSpace(s[0]) then TrimLeft(s[1..]) else s
  }

  function TrimRight(s: string): string {
    if s != "" && IsSpace(s[|s| - 1]) then TrimRight(s[..|s| - 1]) else s
  }

  /** strings.TrimSpace */
  function TrimSpace(s: string): string {
    TrimRight(TrimLeft(s))
  }

  /** strings.Split(s, ",") */
  function Split(s: string): (parts: seq<string>)
    ensures |parts| >= 1
  {
    if s == "" then [""]
    else
      var rest := Split(s[1..]);
      if s[0] == ',' then [""] + rest else [[s[0]] + rest[0]] + rest[1..]
  }

  /** strings.Join(parts, ",") */
  function Join(parts: seq<string>): string {
    if |parts| == 0 then ""
    else if |parts| == 1 then parts[0]
    else parts[0] + "," + Join(parts[1..])
  }

  // --------------------------------------------------------------------- the list

  /** The entries of a comma-separated value: trimmed, empty ones left out. */
  function Entries(parts: seq<string>): seq<string> {
    if parts == [] then []
    else
      var before := Entries(parts[..|parts| - 1]);
      var entry := TrimSpace(parts[|parts| - 1]);
      if entry == "" then before else before + [entry]
  }

  function CommaList(v: string): seq<string> {
    Entries(Split(v))
  }

  method ParseCommaList(v: string) returns (out: seq<string>)
    ensures out == CommaList(v)
  {
    out := [];
    if v == "" {
      return;
    }
    var parts := Split(v);
    for i := 0 to |parts|
      invariant out == Entries(parts[..i])
    {
      assert parts[..i + 1][..i] == parts[..i];
      var s := TrimSpace(parts[i]);
      if s == "" {
        continue;
      }
      out := out + [s];
    }
    assert parts[..|parts|] == parts;
  }

  /** The entries are exactly the parts between commas, trimmed, that are not empty then. */
  lemma {:induction false} EntriesExact(parts: seq<string>)
    ensures forall e :: e in Entries(parts) <==> e != "" && exists i :: 0 <= i < |parts| && TrimSpace(parts[i]) == e
  {
    if parts != [] {
      var init, last := parts[..|parts| - 1], parts[|parts| - 1];
      EntriesExact(init);
      forall e | e != "" && exists i :: 0 <= i < |parts| && TrimSpace(parts[i]) == e
        ensures e in Entries(parts)
      {
        var i :| 0 <= i < |parts| && TrimSpace(parts[i]) == e;
        assert i < |init| ==> TrimSpace(init[i]) == e;
      }
      forall e | e in Entries(parts)
        ensures exists i :: 0 <= i < |parts| && TrimSpace(parts[i]) == e
      {
        if e in Entries(init) {
          var i :| 0 <= i < |init| && TrimSpace(init[i]) == e;
          assert TrimSpace(parts[i]) == e;
        } else {
          assert TrimSpace(parts[|parts| - 1]) == e;
        }
      }
    }
  }

  // -------------------------------------------------------------------- round trips

  predicate Clean(s: string) {
    s != "" && ',' !in s && TrimSpace(s) == s
  }

  ghost predicate AllClean(list: seq<string>) {
    forall i :: 0 <= i < |list| ==> Clean(list[i])
  }

  ghost predicate CommaFree(parts: seq<string>) {
    forall i :: 0 <= i < |parts| ==> ',' !in parts[i]
  }

  /** Split takes a string apart at every comma and loses nothing. */
  lemma {:induction false} SplitExact(s: string)
    ensures Join(Split(s)) == s && CommaFree(Split(s))
  {
    if s != "" {
      SplitExact(s[1..]);
      var rest := Split(s[1..]);
      if s[0] == ',' {
        assert ([""] + rest)[1..] == rest;
        assert s == "" + "," + s[1..];
      } else {
        var parts := [[s[0]] + rest[0]] + rest[1..];
        assert parts[1..] == rest[1..];
        assert s == [s[0]] + s[1..];
      }
    }
  }

  lemma {:induction false} SplitOne(s: string)
    requires ',' !in s
    ensures Split(s) == [s]
  {
    if s != "" {
      assert s[0] != ',';
      SplitOne(s[1..]);
      assert s == [s[0]] + s[1..];
    }
  }

  lemma {:induction false} SplitFirst(s: string, rest: string)
    requires ',' !in s
    ensures Split(s + "," + rest) == [s] + Split(rest)
  {
    var whole := s + "," + rest;
    if s == "" {
      assert whole[1..] == rest;
    } else {
      assert s[0] != ',' && whole[0] == s[0];
      SplitFirst(s[1..], rest);
      assert whole[1..] == s[1..] + "," + rest;
      assert s == [s[0]] + s[1..];
    }
  }

  /** Comma-free strings come back from their join. */
  lemma {:induction false} SplitJoin(parts: seq<string>)
    requires |parts| >= 1 && CommaFree(parts)
    ensures Split(Join(parts)) == parts
  {
    if |parts| == 1 {
      SplitOne(parts[0]);
    } else {
      SplitJoin(parts[1..]);
      SplitFirst(parts[0], Join(parts[1..]));
    }
  }

  lemma {:induction false} EntriesOfClean(list: seq<string>)
    requires AllClean(list)
    ensures Entries(list) == list
  {
    if list != [] {
      var init, last := list[..|list| - 1], list[|list| - 1];
      EntriesOfClean(init);
      assert Clean(last);
      assert Entries(list) == Entries(init) + [last];
      assert list == init + [last];
    }
  }

  lemma {:induction false} TrimLeftFacts(s: string)
    ensures TrimLeft(s) == "" || !IsSpace(TrimLeft(s)[0])
    ensures ',' !in s ==> ',' !in TrimLeft(s)
    ensures |TrimLeft(s)| <= |s| && TrimLeft(s) == s[|s| - |TrimLeft(s)|..]
  {
    if s != "" && IsSpace(s[0]) {
      TrimLeftFacts(s[1..]);
    }
  }

  lemma {:induction false} TrimRightFacts(s: string)
    ensures TrimRight(s) == "" || !IsSpace(TrimRight(s)[|TrimRight(s)| - 1])
    ensures ',' !in s ==> ',' !in TrimRight(s)
    ensures |TrimRight(s)| <= |s| && TrimRight(s) == s[..|TrimRight(s)|]
  {
    if s != "" && IsSpace(s[|s| - 1]) {
      TrimRightFacts(s[..|s| - 1]);
    }
  }

  predicate AllSpace(s: string) {
    forall i :: 0 <= i < |s| ==> IsSpace(s[i])
  }

  lemma {:induction false} TrimLeftDrops(s: string)
    ensures |TrimLeft(s)| <= |s| && AllSpace(s[..|s| - |TrimLeft(s)|])
  {
    if s != "" && IsSpace(s[0]) {
      TrimLeftDrops(s[1..]);
      TrimLeftFacts(s[1..]);
    }
  }

  lemma {:induction false} TrimRightDrops(s: string)
    ensures |TrimRight(s)| <= |s| && AllSpace(s[|TrimRight(s)|..])
  {
    if s != "" && IsSpace(s[|s| - 1]) {
      var init, k := s[..|s| - 1], |TrimRight(s)|;
      TrimRightDrops(init);
      assert s[k..] == init[k..] + [s[|s| - 1]];
    }
  }

  /** Trimming takes exactly the white space off both ends. */
  lemma TrimSpaceExact(s: string)
    ensures exists i, j ::
      && 0 <= i <= j <= |s| && TrimSpace(s) == s[i..j] && AllSpace(s[..i]) && AllSpace(s[j..])
      && (i < j ==> !IsSpace(s[i]) && !IsSpace(s[j - 1]))
  {
    var left := TrimLeft(s);
    TrimLeftFacts(s);
    TrimLeftDrops(s);
    TrimRightFacts(left);
    TrimRightDrops(left);
    var i := |s| - |left|;
    var j := i + |TrimSpace(s)|;
    assert s[j..] == left[|TrimSpace(s)|..];
    assert TrimSpace(s) == s[i..j];
  }

  lemma TrimmedIsTrimmed(s: string)
    ensures TrimSpace(TrimSpace(s)) == TrimSpace(s)
    ensures ',' !in s ==> ',' !in TrimSpace(s)
  {
    TrimLeftFacts(s);
    TrimRightFacts(TrimLeft(s));
    var t := TrimSpace(s);
    assert t != "" ==> t[0] == TrimLeft(s)[0];
  }

  lemma {:induction false} EntriesAreClean(parts: seq<string>)
    requires CommaFree(parts)
    ensures AllClean(Entries(parts))
  {
    if parts != [] {
      EntriesAreClean(parts[..|parts| - 1]);
      TrimmedIsTrimmed(parts[|parts| - 1]);
    }
  }

  /** No parsed entry is empty, padded, or contains a comma. */
  lemma ParsedIsClean(v: string)
    ensures AllClean(CommaList(v))
  {
    SplitExact(v);
    EntriesAreClean(Split(v));
  }

  /** A list comes back from its comma join exactly when all its strings are non-empty,
      trimmed and free of commas. */
  lemma JoinParse(list: seq<string>)
    ensures CommaList(Join(list)) == list <==> AllClean(list)
  {
    ParsedIsClean(Join(list));
    if AllClean(list) && list != [] {
      SplitJoin(list);
      EntriesOfClean(list);
    }
  }

  /** Parsing, joining and parsing again gives what the first parsing gave. */
  lemma ParseIsStable(v: string)
    ensures CommaList(Join(CommaList(v))) == CommaList(v)
  {
    ParsedIsClean(v);
    JoinParse(CommaList(v));
  }

  // ------------------------------------------------------------ the operator's marks

  const MONITOR_IDS := "uptime-kuma.io/monitor-ids"
  const SYNCED_HASH := "uptime-kuma.io/synced-hash"

  /** json.Marshal and json.Unmarshal of a map of strings. */
  datatype Codec = Codec(encode: map<string, string> -> string, decode: string -> Option<map<string, string>>)

  ghost predicate Lossless(codec: Codec) {
    forall ids :: codec.decode(codec.encode(ids)) == Some(ids) && codec.encode(ids) != ""
  }

  /** The annotations of an object, changed in place. */
  class Annotated {
    var ann: map<string, string>

    constructor (ann: map<string, string>)
      ensures this.ann == ann
    {
      this.ann := ann;
    }

    method SetMonitorIDs(codec: Codec, ids: map<string, string>)
      modifies this
      ensures forall key :: key != MONITOR_IDS ==> (key in ann <==> key in old(ann)) && (key in ann ==> ann[key] == old(ann)[key])
      ensures if ids == map[] then MONITOR_IDS !in ann else MONITOR_IDS in ann && ann[MONITOR_IDS] == codec.encode(ids)
      ensures Lossless(codec) ==> IDsOf(codec, ann) == HostMachine.IDs(ids)
    {
      if |ids| == 0 {
        ann := ann - {MONITOR_IDS};
      } else {
        ann := ann[MONITOR_IDS := codec.encode(ids)];
      }
    }

    method SetSyncedHash(hash: string)
      modifies this
      ensures forall key :: key != SYNCED_HASH ==> (key in ann <==> key in old(ann)) && (key in ann ==> ann[key] == old(ann)[key])
      ensures HashOf(ann) == hash && (hash == "" ==> SYNCED_HASH !in ann)
    {
      if hash == "" {
        ann := ann - {SYNCED_HASH};
      } else {
        ann := ann[SYNCED_HASH := hash];
      }
    }

    /** The marking in persistMonitorIDs: what is read back is what was written, and no other
        annotation changed. */
    method Mark(codec: Codec, ids: map<string, string>, hash: string)
      requires Lossless(codec)
      modifies this
      ensures IDsOf(codec, ann) == HostMachine.IDs(ids) && HashOf(ann) == hash
      ensures forall key :: key != MONITOR_IDS && key != SYNCED_HASH ==>
                (key in ann <==> key in old(ann)) && (key in ann ==> ann[key] == old(ann)[key])
    {
      SetMonitorIDs(codec, ids);
      ghost var marked := ann;
      SetSyncedHash(hash);
      assert IDsOf(codec, ann) == IDsOf(codec, marked);
    }
  }

  /** ParseMonitorIDs: no annotation and an empty one are the empty map. */
  function IDsOf(codec: Codec, ann: map<string, string>): HostMachine.IDs {
    if MONITOR_IDS !in ann || ann[MONITOR_IDS] == "" then HostMachine.IDs(map[])
    else
      match codec.decode(ann[MONITOR_IDS])
      case None => HostMachine.Malformed
      case Some(ids) => HostMachine.IDs(ids)
  }

  function HashOf(ann: map<string, string>): string {
    if SYNCED_HASH in ann then ann[SYNCED_HASH] else ""
  }
}
