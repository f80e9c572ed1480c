/** Python dictionaries with string keys.

    A Python `dict` remembers the order in which its keys were first
    inserted, and the channel scan depends on that order, so a dictionary is
    modelled as a sequence of (key, value) pairs with distinct keys. `ToMap`
    gives the mapping it stands for. */
module Dicts {
  import opened Faults

  predicate DistinctKeys<V>(items: seq<(string, V)>) {
    forall i, j :: 0 <= i < j < |items| ==> items[i].0 != items[j].0
  }

  type Dict<V> = items: seq<(string, V)> | DistinctKeys(items) witness []

  /** The keys in iteration order. */
  function Keys<V>(items: seq<(string, V)>): (ks: seq<string>)
    ensures |ks| == |items| && forall i :: 0 <= i < |items| ==> ks[i] == items[i].0
  {
    seq(|items|, i requires 0 <= i < |items| => items[i].0)
  }

  /** The mapping that the assignments `d[k] = v`, made in the order of
      `items`, leave behind: the last assignment to a key wins. */
  function ToMap<V>(items: seq<(string, V)>): map<string, V> {
    if |items| == 0 then map[]
    else ToMap(items[..|items| - 1])[items[|items| - 1].0 := items[|items| - 1].1]
  }

  lemma {:induction false} InToMap<V>(items: seq<(string, V)>, k: string)
    ensures k in ToMap(items) <==> k in Keys(items)
  {
    if |items| > 0 {
      InToMap(items[..|items| - 1], k);
      assert Keys(items) == Keys(items[..|items| - 1]) + [items[|items| - 1].0];
    }
  }

  /** The value a key ends up with is the one from its last pair. */
  lemma {:induction false} ToMapLastWins<V>(items: seq<(string, V)>, i: nat)
    requires i < |items|
    requires forall j :: i < j < |items| ==> items[j].0 != items[i].0
    ensures items[i].0 in ToMap(items) && ToMap(items)[items[i].0] == items[i].1
  {
    if i < |items| - 1 {
      ToMapLastWins(items[..|items| - 1], i);
    }
  }

  /** Pairs with the keys of a dictionary, in its order, have distinct keys too. */
  lemma {:induction false} DistinctKeysByKeys<V, W>(a: seq<(string, V)>, b: seq<(string, W)>)
    requires Keys(a) == Keys(b) && DistinctKeys(b)
    ensures DistinctKeys(a)
  {
    forall i, j | 0 <= i < j < |a| ensures a[i].0 != a[j].0 {
      assert Keys(a)[i] == b[i].0 && Keys(a)[j] == b[j].0;
    }
  }

  /** Index of the last pair with key `k`. */
  function IndexOf<V>(items: seq<(string, V)>, k: string): (r: Option<nat>)
    ensures r.None? <==> k !in Keys(items)
    ensures r.Some? ==> r.value < |items| && items[r.value].0 == k
    ensures r.Some? ==> forall j :: r.value < j < |items| ==> items[j].0 != k
  {
    if |items| == 0 then None
    else if items[|items| - 1].0 == k then Some(|items| - 1)
    else
      var r := IndexOf(items[..|items| - 1], k);
      assert Keys(items) == Keys(items[..|items| - 1]) + [items[|items| - 1].0];
      r
  }

  /** `d.get(k)`: the value `d[k]` would give, or None where it would raise
      KeyError. */
  function Get<V>(d: Dict<V>, k: string): (r: Option<V>)
    ensures r == if k in ToMap(d) then Some(ToMap(d)[k]) else None
  {
    InToMap(d, k);
    match IndexOf(d, k)
    case None => None
    case Some(i) => ToMapLastWins(d, i); Some(d[i].1)
  }

  /** `d[k]`: the value, or KeyError where the key is missing. */
  function Lookup<V>(d: Dict<V>, k: string): (r: Result<V>)
    ensures r == if k in ToMap(d) then Ok(ToMap(d)[k]) else Err(KeyError(k))
  {
    match Get(d, k)
    case None => Err(KeyError(k))
    case Some(v) => Ok(v)
  }

  /** An assignment after the others. */
  lemma {:induction false} ToMapAppend<V>(items: seq<(string, V)>, k: string, v: V)
    ensures ToMap(items + [(k, v)]) == ToMap(items)[k := v]
  {
    assert (items + [(k, v)])[..|items|] == items;
  }

  lemma {:induction false} ToMapReplace<V>(d: Dict<V>, i: nat, v: V)
    requires i < |d|
    ensures DistinctKeys(d[i := (d[i].0, v)])
    ensures ToMap(d[i := (d[i].0, v)]) == ToMap(d)[d[i].0 := v]
  {
    var r := d[i := (d[i].0, v)];
    var n := |d| - 1;
    if i < n {
      var init: Dict<V> := d[..n];
      ToMapReplace(init, i, v);
      assert r[..n] == init[i := (d[i].0, v)];
      assert d[n].0 != d[i].0;
    } else {
      assert r[..n] == d[..n];
    }
  }

  /** `d[k] = v`: an existing key keeps its place and takes the new value, a
      new key goes last (`PutKeys`). */
  function Put<V>(d: Dict<V>, k: string, v: V): (r: Dict<V>)
    ensures ToMap(r) == ToMap(d)[k := v]
  {
    match IndexOf(d, k)
    case Some(i) =>
      ToMapReplace(d, i, v);
      d[i := (k, v)]
    case None =>
      var r: Dict<V> := d + [(k, v)];
      assert r[..|d|] == d;
      r
  }

  /** Where the key of `d[k] = v` goes: it stays in place when present and is
      appended otherwise. */
  lemma {:induction false} PutKeys<V>(d: Dict<V>, k: string, v: V)
    ensures k in Keys(d) ==> Keys(Put(d, k, v)) == Keys(d)
    ensures k !in Keys(d) ==> Keys(Put(d, k, v)) == Keys(d) + [k]
  {
  }

  /** The assignments of `items` made one after another on `d`. */
  function PutAll<V>(d: Dict<V>, items: seq<(string, V)>): (r: Dict<V>)
    ensures ToMap(r) == ToMap(d) + ToMap(items)
    decreases |items|
  {
    if |items| == 0 then d
    else
      var (k, v) := items[|items| - 1];
      var init := PutAll(d, items[..|items| - 1]);
      assert ToMap(d) + ToMap(items) == (ToMap(d) + ToMap(items[..|items| - 1]))[k := v];
      Put(init, k, v)
  }

  /** One more assignment after the others. */
  lemma {:induction false} PutAllStep<V>(d: Dict<V>, items: seq<(string, V)>, k: string, v: V)
    ensures PutAll(d, items + [(k, v)]) == Put(PutAll(d, items), k, v)
  {
    assert (items + [(k, v)])[..|items|] == items;
  }

  /** Each assignment adds at most one key. */
  lemma {:induction false} PutAllLength<V>(d: Dict<V>, items: seq<(string, V)>)
    ensures |PutAll(d, items)| <= |d| + |items|
    decreases |items|
  {
    if |items| > 0 {
      PutAllLength(d, items[..|items| - 1]);
    }
  }

  /** Assignments never move a key that is already there. */
  lemma {:induction false} PutAllKeys<V>(d: Dict<V>, items: seq<(string, V)>)
    ensures Keys(d) <= Keys(PutAll(d, items))
    decreases |items|
  {
    if |items| > 0 {
      var (k, v) := items[|items| - 1];
      PutAllKeys(d, items[..|items| - 1]);
      PutKeys(PutAll(d, items[..|items| - 1]), k, v);
    }
  }

  /** Assignments to keys that are all there already keep the key order. */
  lemma {:induction false} PutAllKnownKeys<V>(d: Dict<V>, items: seq<(string, V)>)
    requires forall i :: 0 <= i < |items| ==> items[i].0 in Keys(d)
    ensures Keys(PutAll(d, items)) == Keys(d)
    decreases |items|
  {
    if |items| > 0 {
      var (k, v) := items[|items| - 1];
      PutAllKnownKeys(d, items[..|items| - 1]);
      PutKeys(PutAll(d, items[..|items| - 1]), k, v);
    }
  }

  /** `{**a, **b}`: every key of either, the value from `b` where both have
      one, and the keys of `a` first, in their own order. */
  function Merge<V>(a: Dict<V>, b: Dict<V>): (r: Dict<V>)
    ensures ToMap(r) == ToMap(a) + ToMap(b)
    ensures Keys(a) <= Keys(r)
  {
    PutAllKeys(a, b);
    PutAll(a, b)
  }
}
