/**
  The candidate browser's ordering (main.py:827): the loaded records sorted
  by their `timestamp` strings, newest first. Python's `list.sort` is stable,
  also with `reverse=True`, so records with equal timestamps keep their
  loading order. The sort is written out as an insertion sort on sequences.
*/
module CandidateBrowser {
  import opened Wrappers
  import opened Text
  import opened Dicts
  import opened JsonValue

  /** Every element's key is at least the key of every later element. */
  ghost predicate NonIncreasing<T>(s: seq<T>, key: T -> string) {
    forall i, j :: 0 <= i < j < |s| ==> !Below(key(s[i]), key(s[j]))
  }

  /**
    `x` placed in front of the first element whose key is not above its own:
    it goes after every larger key and before the equal ones.
  */
  function Insert<T>(x: T, s: seq<T>, key: T -> string): (r: seq<T>)
    ensures multiset(r) == multiset(s) + multiset{x}
  {
    if s == [] then [x]
    else
      assert s == [s[0]] + s[1..];
      if Below(key(x), key(s[0])) then [s[0]] + Insert(x, s[1..], key)
      else [x] + s
  }

  /** The stable sort by key, largest key first. */
  function SortDescending<T>(s: seq<T>, key: T -> string): (r: seq<T>)
    ensures multiset(r) == multiset(s)
  {
    if s == [] then []
    else
      assert s == [s[0]] + s[1..];
      Insert(s[0], SortDescending(s[1..], key), key)
  }

  lemma {:induction false} InsertKeepsOrder<T>(x: T, s: seq<T>, key: T -> string)
    requires NonIncreasing(s, key)
    ensures NonIncreasing(Insert(x, s, key), key)
  {
    if s == [] {
    } else if Below(key(x), key(s[0])) {
      var t := Insert(x, s[1..], key);
      InsertKeepsOrder(x, s[1..], key);
      forall j | 0 <= j < |t| ensures !Below(key(s[0]), key(t[j])) {
        assert t[j] in multiset(t);
        if t[j] == x {
          BelowAsymmetric(key(x), key(s[0]));
        } else {
          assert t[j] in multiset(s[1..]);
          var m :| 0 <= m < |s[1..]| && s[1..][m] == t[j];
          assert s[m + 1] == t[j];
        }
      }
      var r := [s[0]] + t;
      forall i, j | 0 <= i < j < |r| ensures !Below(key(r[i]), key(r[j])) {
        if i > 0 { assert r[i] == t[i - 1] && r[j] == t[j - 1]; }
      }
    } else {
      var r := [x] + s;
      forall i, j | 0 <= i < j < |r| ensures !Below(key(r[i]), key(r[j])) {
        if i == 0 {
          if j > 1 { NotBelowTransitive(key(x), key(s[0]), key(s[j - 1])); }
        } else {
          assert r[i] == s[i - 1] && r[j] == s[j - 1];
        }
      }
    }
  }

  /** The result is ordered newest first. */
  lemma {:induction false} SortIsNonIncreasing<T>(s: seq<T>, key: T -> string)
    ensures NonIncreasing(SortDescending(s, key), key)
  {
    if s != [] {
      SortIsNonIncreasing(s[1..], key);
      InsertKeepsOrder(s[0], SortDescending(s[1..], key), key);
    }
  }

  /** The elements of `s` whose key is `k`, in the order of `s`. */
  function WithKey<T>(s: seq<T>, key: T -> string, k: string): seq<T> {
    if s == [] then []
    else (if key(s[0]) == k then [s[0]] else []) + WithKey(s[1..], key, k)
  }

  /** The part an element contributes to `WithKey`. */
  function KeptIf<T>(y: T, key: T -> string, k: string): seq<T> {
    if key(y) == k then [y] else []
  }

  lemma WithKeyCons<T>(y: T, t: seq<T>, key: T -> string, k: string)
    ensures WithKey([y] + t, key, k) == KeptIf(y, key, k) + WithKey(t, key, k)
  {
    assert ([y] + t)[1..] == t;
  }

  /** Two elements with different keys can trade places in `WithKey`. */
  lemma SwapKept<T>(y: T, x: T, rest: seq<T>, key: T -> string, k: string)
    requires key(y) != key(x)
    ensures KeptIf(y, key, k) + (KeptIf(x, key, k) + rest) == KeptIf(x, key, k) + (KeptIf(y, key, k) + rest)
  {
  }

  lemma {:induction false} InsertWithKey<T>(x: T, s: seq<T>, key: T -> string, k: string)
    ensures WithKey(Insert(x, s, key), key, k) == KeptIf(x, key, k) + WithKey(s, key, k)
  {
    if s == [] {
      WithKeyCons(x, [], key, k);
    } else if Below(key(x), key(s[0])) {
      var t := Insert(x, s[1..], key);
      assert Insert(x, s, key) == [s[0]] + t;
      InsertWithKey(x, s[1..], key, k);
      WithKeyCons(s[0], t, key, k);
      assert WithKey(s, key, k) == KeptIf(s[0], key, k) + WithKey(s[1..], key, k);
      BelowIrreflexive(key(x));
      SwapKept(s[0], x, WithKey(s[1..], key, k), key, k);
    } else {
      WithKeyCons(x, s, key, k);
    }
  }

  /**
    Stability: among records with the same timestamp the sorted list keeps
    the original order.
  */
  lemma {:induction false} SortIsStable<T>(s: seq<T>, key: T -> string, k: string)
    ensures WithKey(SortDescending(s, key), key, k) == WithKey(s, key, k)
  {
    if s != [] {
      SortIsStable(s[1..], key, k);
      InsertWithKey(s[0], SortDescending(s[1..], key), key, k);
    }
  }

  /** `x["timestamp"]` for a record whose timestamp is a string. */
  function Timestamp(c: Dict<Json>): string {
    var v := Get(c, "timestamp");
    if v.Some? && v.value.Str? then v.value.s else ""
  }

  /** Python can sort only when every key exists and all of them are strings. */
  predicate HasTimestamp(c: Dict<Json>) {
    Get(c, "timestamp").Some? && Get(c, "timestamp").value.Str?
  }

  /** The browser's list of loaded candidate records, sorted in place. */
  class Browser {
    var candidates: seq<Dict<Json>>

    constructor(loaded: seq<Dict<Json>>)
      ensures candidates == loaded
    {
      candidates := loaded;
    }

    /** `candidates.sort(key=lambda x: x["timestamp"], reverse=True)`. */
    method SortNewestFirst()
      requires forall i :: 0 <= i < |candidates| ==> HasTimestamp(candidates[i])
      modifies this
      ensures candidates == SortDescending(old(candidates), Timestamp)
      ensures multiset(candidates) == multiset(old(candidates))
      ensures NonIncreasing(candidates, Timestamp)
      ensures forall t :: WithKey(candidates, Timestamp, t) == WithKey(old(candidates), Timestamp, t)
    {
      ghost var loaded := candidates;
      candidates := SortDescending(candidates, Timestamp);
      SortIsNonIncreasing(loaded, Timestamp);
      forall t ensures WithKey(candidates, Timestamp, t) == WithKey(loaded, Timestamp, t) {
        SortIsStable(loaded, Timestamp, t);
      }
    }
  }
}
