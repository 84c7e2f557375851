/**
  The candidate record written at the end of an assessment
  (`save_candidate_to_file`, main.py:18-43): the four bookkeeping keys are
  filled in only where the caller left them out, and the record's id is
  returned. The fresh UUID and the current time are parameters.
*/
module CandidateStore {
  import opened Wrappers
  import opened Dicts
  import opened JsonValue

  const DefaultReason := "TESTING"
  const DefaultTestType := "reasoning"
  const BookkeepingKeys := ["candidate_id", "timestamp", "reason", "test_type"]

  /** `if k not in d: d[k] = v`. */
  function PutIfMissing(d: Dict<Json>, k: string, v: Json): Dict<Json> {
    if HasKey(d, k) then d else Put(d, k, v)
  }

  /**
    `r` holds every key of `d` with its value, the keys of `d` first and in
    their order, and no key twice when `d` has none twice.
  */
  ghost predicate Extends(d: Dict<Json>, r: Dict<Json>) {
    && |Keys(d)| <= |Keys(r)| && Keys(r)[..|Keys(d)|] == Keys(d)
    && (forall k :: HasKey(d, k) ==> Get(r, k) == Get(d, k))
    && (UniqueKeys(d) ==> UniqueKeys(r))
  }

  lemma ExtendsTransitive(a: Dict<Json>, b: Dict<Json>, c: Dict<Json>)
    requires Extends(a, b) && Extends(b, c)
    ensures Extends(a, c)
  {
    assert Keys(c)[..|Keys(a)|] == Keys(c)[..|Keys(b)|][..|Keys(a)|];
    forall k | HasKey(a, k) ensures HasKey(b, k) {
      var i :| 0 <= i < |Keys(a)| && Keys(a)[i] == k;
      assert Keys(b)[i] == Keys(b)[..|Keys(a)|][i];
    }
  }

  lemma PutIfMissingFacts(d: Dict<Json>, k: string, v: Json)
    ensures Extends(d, PutIfMissing(d, k, v))
    ensures Get(PutIfMissing(d, k, v), k) == Some(Get(d, k).GetOr(v))
  {
    if HasKey(d, k) {
      assert Keys(d)[..|Keys(d)|] == Keys(d);
    } else {
      var r := Put(d, k, v);
      assert Keys(r)[..|Keys(d)|] == Keys(d);
      forall k' | HasKey(d, k') ensures Get(r, k') == Get(d, k') {
        PutElsewhere(d, k, v, k');
      }
      if UniqueKeys(d) { PutKeepsUnique(d, k, v); }
    }
  }

  lemma PutIfMissingElsewhere(d: Dict<Json>, k: string, v: Json, k': string)
    requires k' != k
    ensures Get(PutIfMissing(d, k, v), k') == Get(d, k')
  {
    if !HasKey(d, k) { PutElsewhere(d, k, v, k'); }
  }

  /**
    Filling four distinct keys in turn: the first key ends up as
    `PutIfMissing` left it, whatever the three later steps do.
  */
  lemma FirstOfFour(d: Dict<Json>, k1: string, v1: Json, k2: string, v2: Json,
                    k3: string, v3: Json, k4: string, v4: Json)
    requires k1 != k2 && k1 != k3 && k1 != k4
    ensures var r := PutIfMissing(PutIfMissing(PutIfMissing(PutIfMissing(d, k1, v1), k2, v2), k3, v3), k4, v4);
            Get(r, k1) == Some(Get(d, k1).GetOr(v1))
  {
    var d1 := PutIfMissing(d, k1, v1);
    var d2 := PutIfMissing(d1, k2, v2);
    var d3 := PutIfMissing(d2, k3, v3);
    PutIfMissingFacts(d, k1, v1);
    PutIfMissingElsewhere(d1, k2, v2, k1);
    PutIfMissingElsewhere(d2, k3, v3, k1);
    PutIfMissingElsewhere(d3, k4, v4, k1);
  }

  /** The record after the four defaulting steps of main.py:21-34, in that order. */
  function WithDefaults(d: Dict<Json>, newId: string, now: string): Dict<Json> {
    var d1 := PutIfMissing(d, "candidate_id", Str(newId));
    var d2 := PutIfMissing(d1, "timestamp", Str(now));
    var d3 := PutIfMissing(d2, "reason", Str(DefaultReason));
    PutIfMissing(d3, "test_type", Str(DefaultTestType))
  }

  /**
    A key the caller supplied is never changed; the caller's keys keep their
    order and the added ones follow them.
  */
  lemma DefaultsKeepSuppliedKeys(d: Dict<Json>, newId: string, now: string)
    ensures Extends(d, WithDefaults(d, newId, now))
  {
    var d1 := PutIfMissing(d, "candidate_id", Str(newId));
    var d2 := PutIfMissing(d1, "timestamp", Str(now));
    var d3 := PutIfMissing(d2, "reason", Str(DefaultReason));
    PutIfMissingFacts(d, "candidate_id", Str(newId));
    PutIfMissingFacts(d1, "timestamp", Str(now));
    PutIfMissingFacts(d2, "reason", Str(DefaultReason));
    PutIfMissingFacts(d3, "test_type", Str(DefaultTestType));
    ExtendsTransitive(d, d1, d2);
    ExtendsTransitive(d, d2, d3);
    ExtendsTransitive(d, d3, WithDefaults(d, newId, now));
  }

  /** Each bookkeeping key is present afterwards, with its default where it was missing. */
  lemma DefaultsFillBookkeepingKeys(d: Dict<Json>, newId: string, now: string)
    ensures var r := WithDefaults(d, newId, now);
            && Get(r, "candidate_id") == Some(Get(d, "candidate_id").GetOr(Str(newId)))
            && Get(r, "timestamp") == Some(Get(d, "timestamp").GetOr(Str(now)))
            && Get(r, "reason") == Some(Get(d, "reason").GetOr(Str(DefaultReason)))
            && Get(r, "test_type") == Some(Get(d, "test_type").GetOr(Str(DefaultTestType)))
  {
    var d1 := PutIfMissing(d, "candidate_id", Str(newId));
    var d2 := PutIfMissing(d1, "timestamp", Str(now));
    var d3 := PutIfMissing(d2, "reason", Str(DefaultReason));
    FirstOfFour(d, "candidate_id", Str(newId), "timestamp", Str(now),
                "reason", Str(DefaultReason), "test_type", Str(DefaultTestType));
    PutIfMissingFacts(d1, "timestamp", Str(now));
    PutIfMissingElsewhere(d, "candidate_id", Str(newId), "timestamp");
    PutIfMissingElsewhere(d2, "reason", Str(DefaultReason), "timestamp");
    PutIfMissingElsewhere(d3, "test_type", Str(DefaultTestType), "timestamp");
    PutIfMissingFacts(d2, "reason", Str(DefaultReason));
    PutIfMissingElsewhere(d, "candidate_id", Str(newId), "reason");
    PutIfMissingElsewhere(d1, "timestamp", Str(now), "reason");
    PutIfMissingElsewhere(d3, "test_type", Str(DefaultTestType), "reason");
    PutIfMissingFacts(d3, "test_type", Str(DefaultTestType));
    PutIfMissingElsewhere(d, "candidate_id", Str(newId), "test_type");
    PutIfMissingElsewhere(d1, "timestamp", Str(now), "test_type");
    PutIfMissingElsewhere(d2, "reason", Str(DefaultReason), "test_type");
  }

  /** No key other than the four bookkeeping keys is touched. */
  lemma DefaultsTouchNothingElse(d: Dict<Json>, newId: string, now: string, k: string)
    requires k !in BookkeepingKeys
    ensures Get(WithDefaults(d, newId, now), k) == Get(d, k)
  {
    var d1 := PutIfMissing(d, "candidate_id", Str(newId));
    var d2 := PutIfMissing(d1, "timestamp", Str(now));
    var d3 := PutIfMissing(d2, "reason", Str(DefaultReason));
    PutIfMissingElsewhere(d, "candidate_id", Str(newId), k);
    PutIfMissingElsewhere(d1, "timestamp", Str(now), k);
    PutIfMissingElsewhere(d2, "reason", Str(DefaultReason), k);
    PutIfMissingElsewhere(d3, "test_type", Str(DefaultTestType), k);
  }

  /** Saving a record a second time adds nothing: every default is already in place. */
  lemma {:induction false} DefaultsAreIdempotent(d: Dict<Json>, newId: string, now: string, id2: string, now2: string)
    ensures WithDefaults(WithDefaults(d, newId, now), id2, now2) == WithDefaults(d, newId, now)
  {
    var r := WithDefaults(d, newId, now);
    DefaultsFillBookkeepingKeys(d, newId, now);
    assert HasKey(r, "candidate_id") && HasKey(r, "timestamp");
    assert HasKey(r, "reason") && HasKey(r, "test_type");
    assert PutIfMissing(r, "candidate_id", Str(id2)) == r;
    assert PutIfMissing(r, "timestamp", Str(now2)) == r;
  }

  /** The record a caller hands to `save_candidate_to_file`, updated in place. */
  class CandidateRecord {
    var fields: Dict<Json>

    constructor(data: Dict<Json>)
      ensures fields == data
    {
      fields := data;
    }

    /**
      Fills in the defaults and returns the record's `candidate_id`; writing
      `<candidate_id>.json` is not part of this model.
    */
    method Save(newId: string, now: string) returns (id: Json)
      modifies this
      ensures fields == WithDefaults(old(fields), newId, now)
      ensures Get(fields, "candidate_id") == Some(id)
    {
      if !HasKey(fields, "candidate_id") {
        fields := Put(fields, "candidate_id", Str(newId));
      }
      if !HasKey(fields, "timestamp") {
        fields := Put(fields, "timestamp", Str(now));
      }
      if !HasKey(fields, "reason") {
        fields := Put(fields, "reason", Str(DefaultReason));
      }
      if !HasKey(fields, "test_type") {
        fields := Put(fields, "test_type", Str(DefaultTestType));
      }
      id := Get(fields, "candidate_id").value;
    }
  }
}
