/**
 * Python's insertion-ordered `dict` with string keys, as a sequence of
 * key/value pairs: `d[k] = v` replaces the value in place when `k` is present
 * and appends the pair otherwise, and `d.update(e)` does that for every pair
 * of `e` in order.
 */
module Dicts {
  import opened Wrappers

  type Dict<V> = seq<(string, V)>

  /** The keys in insertion order. */
  function Keys<V>(d: Dict<V>): (ks: seq<string>)
    ensures |ks| == |d| && forall i :: 0 <= i < |d| ==> ks[i] == d[i].0
  {
    if d == [] then [] else [d[0].0] + Keys(d[1..])
  }

  /** `k in d`. */
  predicate HasKey<V>(d: Dict<V>, k: string)
  {
    k in Keys(d)
  }

  /** No key occurs twice, as in every Python dict. */
  predicate UniqueKeys<V>(d: Dict<V>)
  {
    forall i, j :: 0 <= i < j < |d| ==> d[i].0 != d[j].0
  }

  /** The position of `k` in `d`, if present. */
  function KeyIndex<V>(d: Dict<V>, k: string): (r: Option<nat>)
    ensures r.None? <==> !HasKey(d, k)
    ensures r.Some? ==> r.value < |d| && d[r.value].0 == k && forall m :: 0 <= m < r.value ==> d[m].0 != k
  {
    if d == [] then None
    else if d[0].0 == k then Some(0)
    else
      var r := KeyIndex(d[1..], k);
      assert Keys(d) == [d[0].0] + Keys(d[1..]);
      if r.None? then None else Some(r.value + 1)
  }

  /** `d.get(k)`. */
  function Get<V>(d: Dict<V>, k: string): (r: Option<V>)
    ensures r.None? <==> !HasKey(d, k)
    ensures r.Some? ==> (k, r.value) in d
  {
    match KeyIndex(d, k)
    case None => None
    case Some(i) => Some(d[i].1)
  }

  /** Looking up a key in a dict with one pair in front of `rest`. */
  lemma GetCons<V>(a: string, v: V, rest: Dict<V>, k: string)
    ensures Get([(a, v)] + rest, k) == if a == k then Some(v) else Get(rest, k)
  {
    var d := [(a, v)] + rest;
    assert d[1..] == rest;
    assert Keys(d) == [a] + Keys(rest);
  }

  /** In a dict with unique keys, a stored pair is what a lookup of its key finds. */
  lemma GetUnique<V>(d: Dict<V>, k: string, v: V)
    requires UniqueKeys(d) && (k, v) in d
    ensures Get(d, k) == Some(v)
  {
    var i :| 0 <= i < |d| && d[i] == (k, v);
    assert Keys(d)[i] == k;
  }

  /** `d[k] = v`. */
  function Put<V>(d: Dict<V>, k: string, v: V): (r: Dict<V>)
    ensures HasKey(d, k) ==> |r| == |d| && Keys(r) == Keys(d)
    ensures !HasKey(d, k) ==> r == d + [(k, v)]
    ensures forall j :: HasKey(r, j) <==> HasKey(d, j) || j == k
  {
    match KeyIndex(d, k)
    case None =>
      assert Keys(d + [(k, v)]) == Keys(d) + [k];
      d + [(k, v)]
    case Some(i) =>
      assert Keys(d[i := (k, v)]) == Keys(d);
      d[i := (k, v)]
  }

  /** `d.update(e)`. */
  function Update<V>(d: Dict<V>, e: Dict<V>): Dict<V>
    decreases |e|
  {
    if e == [] then d else Update(Put(d, e[0].0, e[0].1), e[1..])
  }

  /** Two dicts with the same keys in the same order find every key at the same position. */
  lemma {:induction false} KeyIndexByKeys<V>(d1: Dict<V>, d2: Dict<V>, j: string)
    requires Keys(d1) == Keys(d2)
    ensures KeyIndex(d1, j) == KeyIndex(d2, j)
    decreases |d1|
  {
    if d1 != [] {
      assert Keys(d1) == [d1[0].0] + Keys(d1[1..]);
      assert Keys(d2) == [d2[0].0] + Keys(d2[1..]);
      assert Keys(d1[1..]) == Keys(d1)[1..];
      KeyIndexByKeys(d1[1..], d2[1..], j);
    }
  }

  /** Appending a pair finds the old keys where they were and a new key at the end. */
  lemma {:induction false} KeyIndexAppend<V>(d: Dict<V>, k: string, v: V, j: string)
    ensures KeyIndex(d + [(k, v)], j) ==
      if KeyIndex(d, j).Some? then KeyIndex(d, j) else if j == k then Some(|d|) else None
    decreases |d|
  {
    if d != [] {
      assert (d + [(k, v)])[1..] == d[1..] + [(k, v)];
      KeyIndexAppend(d[1..], k, v, j);
    }
  }

  /** Appending a new key leaves every other key where it was. */
  lemma GetAppend<V>(d: Dict<V>, k: string, v: V, j: string)
    requires !HasKey(d, k)
    ensures Get(d + [(k, v)], j) == if j == k then Some(v) else Get(d, j)
  {
    KeyIndexAppend(d, k, v, j);
    var x := KeyIndex(d, j);
    if x.Some? {
      assert (d + [(k, v)])[x.value] == d[x.value];
    }
  }

  /** Reading back a stored key gives its new value; other keys are untouched. */
  lemma GetPut<V>(d: Dict<V>, k: string, v: V, j: string)
    ensures Get(Put(d, k, v), j) == if j == k then Some(v) else Get(d, j)
  {
    match KeyIndex(d, k)
    case Some(i) =>
      KeyIndexByKeys(Put(d, k, v), d, j);
    case None =>
      GetAppend(d, k, v, j);
  }

  /** Storing keeps the keys unique. */
  lemma PutUnique<V>(d: Dict<V>, k: string, v: V)
    requires UniqueKeys(d)
    ensures UniqueKeys(Put(d, k, v))
  {
  }

  /** After `d.update(e)`, the keys of `e` carry `e`'s values and every other key keeps `d`'s. */
  lemma {:induction false} GetUpdate<V>(d: Dict<V>, e: Dict<V>, j: string)
    requires UniqueKeys(e)
    ensures Get(Update(d, e), j) == if HasKey(e, j) then Get(e, j) else Get(d, j)
    decreases |e|
  {
    if e != [] {
      var d1 := Put(d, e[0].0, e[0].1);
      assert UniqueKeys(e[1..]) by {
        forall a, b | 0 <= a < b < |e[1..]|
          ensures e[1..][a].0 != e[1..][b].0
        {
          assert e[1..][a] == e[a + 1] && e[1..][b] == e[b + 1];
        }
      }
      GetUpdate(d1, e[1..], j);
      GetPut(d, e[0].0, e[0].1, j);
      if j == e[0].0 {
        assert !HasKey(e[1..], j);
      } else {
        assert HasKey(e, j) <==> HasKey(e[1..], j) by {
          if HasKey(e, j) {
            var m :| 0 <= m < |e| && e[m].0 == j;
            assert e[1..][m - 1].0 == j;
          }
          if HasKey(e[1..], j) {
            var m :| 0 <= m < |e[1..]| && e[1..][m].0 == j;
            assert e[m + 1].0 == j;
          }
        }
      }
    }
  }

  /** Updating keeps the keys unique. */
  lemma {:induction false} UpdateUnique<V>(d: Dict<V>, e: Dict<V>)
    requires UniqueKeys(d)
    ensures UniqueKeys(Update(d, e))
    decreases |e|
  {
    if e != [] {
      PutUnique(d, e[0].0, e[0].1);
      UpdateUnique(Put(d, e[0].0, e[0].1), e[1..]);
    }
  }

  /** The keys of `d.update(e)` are those of `d` and those of `e`. */
  lemma {:induction false} UpdateKeys<V>(d: Dict<V>, e: Dict<V>, j: string)
    ensures HasKey(Update(d, e), j) <==> HasKey(d, j) || HasKey(e, j)
    decreases |e|
  {
    if e != [] {
      var d1 := Put(d, e[0].0, e[0].1);
      UpdateKeys(d1, e[1..], j);
      assert Update(d, e) == Update(d1, e[1..]);
      assert HasKey(d1, j) <==> HasKey(d, j) || j == e[0].0;
      HasKeyCons(e, j);
    }
  }

  /** A key of a non-empty dict is its first key or a key of the rest. */
  lemma HasKeyCons<V>(e: Dict<V>, j: string)
    requires e != []
    ensures HasKey(e, j) <==> e[0].0 == j || HasKey(e[1..], j)
  {
    assert Keys(e) == [e[0].0] + Keys(e[1..]);
  }

  /** The dict built by `for x in xs: d[key(x)] = val(x)`, starting empty. */
  function PutEach<X, V>(xs: seq<X>, key: X -> string, val: X -> V): Dict<V>
  {
    if xs == [] then [] else Put(PutEach(xs[..|xs| - 1], key, val), key(xs[|xs| - 1]), val(xs[|xs| - 1]))
  }

  lemma {:induction false} PutEachUnique<X, V>(xs: seq<X>, key: X -> string, val: X -> V)
    ensures UniqueKeys(PutEach(xs, key, val))
    decreases |xs|
  {
    if xs != [] {
      PutEachUnique(xs[..|xs| - 1], key, val);
      PutUnique(PutEach(xs[..|xs| - 1], key, val), key(xs[|xs| - 1]), val(xs[|xs| - 1]));
    }
  }

  /** The key of each element, in order. */
  function KeysOf<X>(xs: seq<X>, key: X -> string): (r: seq<string>)
    ensures |r| == |xs| && forall i :: 0 <= i < |xs| ==> r[i] == key(xs[i])
  {
    if xs == [] then [] else KeysOf(xs[..|xs| - 1], key) + [key(xs[|xs| - 1])]
  }

  /** The keys are exactly the keys of the elements. */
  lemma {:induction false} PutEachKeys<X, V>(xs: seq<X>, key: X -> string, val: X -> V, k: string)
    ensures HasKey(PutEach(xs, key, val), k) <==> k in KeysOf(xs, key)
    decreases |xs|
  {
    if xs != [] {
      var init, last := xs[..|xs| - 1], xs[|xs| - 1];
      PutEachKeys(init, key, val, k);
      assert PutEach(xs, key, val) == Put(PutEach(init, key, val), key(last), val(last));
      assert KeysOf(xs, key) == KeysOf(init, key) + [key(last)];
    }
  }

  /** When equal keys carry equal values, every element is found under its key with its value. */
  lemma {:induction false} PutEachLookup<X, V>(xs: seq<X>, key: X -> string, val: X -> V, x: X)
    requires x in xs
    requires forall a, b :: key(a) == key(b) ==> val(a) == val(b)
    ensures Get(PutEach(xs, key, val), key(x)) == Some(val(x))
    decreases |xs|
  {
    var init := xs[..|xs| - 1];
    var last := xs[|xs| - 1];
    assert xs == init + [last];
    if key(last) != key(x) {
      assert x in init;
      PutEachLookup(init, key, val, x);
    }
    GetPut(PutEach(init, key, val), key(last), val(last), key(x));
  }
}
