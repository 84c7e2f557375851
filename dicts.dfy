/**
  Python dictionaries with string keys, as the program uses them: keys keep
  their insertion order (which `json.dump` and `dict.items()` expose), and
  `d[k] = v` overwrites the value of a present key in place or appends a new
  key at the end.
*/
module Dicts {
  import opened Wrappers

  /** A dictionary as its list of items, in insertion order. */
  type Dict<V> = seq<(string, V)>

  function Keys<V>(d: Dict<V>): seq<string> {
    seq(|d|, i requires 0 <= i < |d| => d[i].0)
  }

  predicate HasKey<V>(d: Dict<V>, k: string) {
    k in Keys(d)
  }

  /** Every key occurs once, as in every Python dict. */
  predicate UniqueKeys<V>(d: Dict<V>) {
    forall i, j :: 0 <= i < j < |d| ==> d[i].0 != d[j].0
  }

  /** Position of the item holding key `k`; |d| when there is none. */
  function IndexOfKey<V>(d: Dict<V>, k: string): (i: nat)
    ensures i <= |d|
    ensures i < |d| <==> HasKey(d, k)
    ensures i < |d| ==> d[i].0 == k
    ensures forall j :: 0 <= j < i ==> d[j].0 != k
  {
    if d == [] then 0
    else if d[0].0 == k then
      assert Keys(d)[0] == k;
      0
    else
      assert Keys(d) == [d[0].0] + Keys(d[1..]);
      1 + IndexOfKey(d[1..], k)
  }

  /** `d.get(k)`: the value stored under `k`, or None. */
  function Get<V>(d: Dict<V>, k: string): (r: Option<V>)
    ensures r.Some? <==> HasKey(d, k)
    ensures r.Some? ==> exists i :: 0 <= i < |d| && d[i] == (k, r.value)
  {
    var i := IndexOfKey(d, k);
    if i < |d| then Some(d[i].1) else None
  }

  /** Two dictionaries that agree on the first item for `k` agree on `d.get(k)`. */
  lemma SameFirstItem<V>(d: Dict<V>, e: Dict<V>, k: string, i: nat)
    requires i <= |d| && i <= |e|
    requires forall j :: 0 <= j < i ==> d[j].0 != k && e[j].0 != k
    requires i < |d| <==> i < |e|
    requires i < |d| ==> d[i] == e[i] && d[i].0 == k
    requires i == |d| ==> !HasKey(d, k) && !HasKey(e, k)
    ensures Get(d, k) == Get(e, k)
  {
    var a, b := IndexOfKey(d, k), IndexOfKey(e, k);
    if i < |d| {
      assert a <= i && b <= i;
      assert a == i && b == i;
    }
  }

  /**
    `d[k] = v`: a present key keeps its position and gets the new value, a
    missing key is appended.
  */
  function Put<V>(d: Dict<V>, k: string, v: V): (r: Dict<V>)
    ensures Keys(r) == if HasKey(d, k) then Keys(d) else Keys(d) + [k]
    ensures Get(r, k) == Some(v)
  {
    var i := IndexOfKey(d, k);
    var r := if i < |d| then d[i := (k, v)] else d + [(k, v)];
    assert Keys(r) == if HasKey(d, k) then Keys(d) else Keys(d) + [k];
    assert HasKey(r, k) by { assert Keys(r)[i] == k; }
    SameFirstItem(r, r, k, IndexOfKey(r, k));
    assert IndexOfKey(r, k) == i by {
      var b := IndexOfKey(r, k);
      assert b <= i;
    }
    r
  }

  /** `d[k] = v` changes no other key. */
  lemma PutElsewhere<V>(d: Dict<V>, k: string, v: V, k': string)
    requires k' != k
    ensures Get(Put(d, k, v), k') == Get(d, k')
  {
    var r := Put(d, k, v);
    var i := IndexOfKey(d, k);
    assert r == if i < |d| then d[i := (k, v)] else d + [(k, v)];
    var a := IndexOfKey(d, k');
    if a < |d| {
      SameFirstItem(r, d, k', a);
    } else {
      assert !HasKey(r, k');
    }
  }

  /** `d[k] = v` keeps every key unique. */
  lemma PutKeepsUnique<V>(d: Dict<V>, k: string, v: V)
    requires UniqueKeys(d)
    ensures UniqueKeys(Put(d, k, v))
  {
    var r := Put(d, k, v);
    forall i, j | 0 <= i < j < |r| ensures r[i].0 != r[j].0 {
      assert Keys(r)[i] == r[i].0 && Keys(r)[j] == r[j].0;
      if !HasKey(d, k) && j == |d| {
        assert Keys(d)[i] == r[i].0;
      } else {
        assert Keys(d)[i] == r[i].0 && Keys(d)[j] == r[j].0;
      }
    }
  }

  /** The dictionary with every value passed through `f`, keys and order kept. */
  function MapValues<V, W>(d: Dict<V>, f: V -> W): (r: Dict<W>)
    ensures Keys(r) == Keys(d)
    ensures forall i :: 0 <= i < |d| ==> r[i] == (d[i].0, f(d[i].1))
  {
    seq(|d|, i requires 0 <= i < |d| => (d[i].0, f(d[i].1)))
  }
}
