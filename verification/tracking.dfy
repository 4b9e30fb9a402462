/** Ids as they are stored on a resource. */
module Tracking {
  import opened Wrappers
  import opened Strconv
  import opened Store
  import Spec

  /** strconv.ParseInt on a stored id, 0 when it does not parse. */
  function IDOf(s: string): int {
    match ParseInt(s)
    case Some(id) => id
    case None => 0
  }

  /** A stored id as the operator writes it: the decimal form of a monitor it created. */
  ghost predicate Canonical(k: Kuma, who: Owner, s: string) {
    ParseInt(s) == Some(IDOf(s)) && s == FormatInt(IDOf(s)) && Owned(k, who, IDOf(s))
  }

  /** The API server's answer to an update based on a version it issued. */
  datatype Answer = NotFound | Conflict | Invalid | Accepted

  /** retry.DefaultRetry: five attempts in all. */
  const MAX_TRIES: nat := 5

  // ------------------------------------------------- one Upsert, whoever makes it

  /** Kuma after `who` upserted `spec` and got `got` back. */
  ghost predicate Upserted(k: Kuma, after: Kuma, who: Owner, id: int, spec: Spec.MonitorSpec, got: int) {
    && Valid(k) && (id == 0 || BelongsTo(k, who, id))
    && Upsert(k, who, id, spec) == Some((after, got))
  }

  lemma UpsertedFacts(k: Kuma, after: Kuma, who: Owner, id: int, spec: Spec.MonitorSpec, got: int)
    requires Upserted(k, after, who, id, spec, got)
    ensures Valid(after) && Acted(k, after, who) && BelongsTo(after, who, got)
    ensures if id == 0 then got !in k.owner else got == id
    ensures got in after.monitors && after.monitors[got] == spec
    ensures forall other :: other != got ==> SameAt(k, after, other)
    ensures after.orphans == k.orphans
    ensures ParseInt(FormatInt(got)) == Some(got)
  {
    UpsertActs(k, who, id, spec);
    FormatParse(got);
  }
}
