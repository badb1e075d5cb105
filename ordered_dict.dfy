/** A Python dict keyed by strings, which remembers the order in which its keys were first
    inserted: the keys in that order, and beside each key its value. `values()` walks the
    values in the same order. */
module OrderedDict {

  datatype Dict<V> = Dict(keys: seq<string>, values: seq<V>)

  function EmptyDict<V>(): Dict<V>
  {
    Dict([], [])
  }

  /** Every key is listed once, each with one value. */
  ghost predicate WellFormed<V>(d: Dict<V>)
  {
    |d.keys| == |d.values| &&
    forall i, j :: 0 <= i < j < |d.keys| ==> d.keys[i] != d.keys[j]
  }

  /** No value is stored under two keys. */
  ghost predicate Injective<V>(d: Dict<V>)
  {
    forall i, j :: 0 <= i < j < |d.values| ==> d.values[i] != d.values[j]
  }

  /** The position of key `k` in the insertion order. */
  function IndexOf(keys: seq<string>, k: string): (i: nat)
    requires k in keys
    ensures i < |keys| && keys[i] == k
    ensures forall j :: 0 <= j < i ==> keys[j] != k
  {
    if keys[0] == k then 0 else 1 + IndexOf(keys[1..], k)
  }

  /** With distinct keys, the one position holding `k` is its index. */
  lemma IndexOfUnique(keys: seq<string>, k: string, i: int)
    requires forall a, b :: 0 <= a < b < |keys| ==> keys[a] != keys[b]
    requires 0 <= i < |keys| && keys[i] == k
    ensures IndexOf(keys, k) == i
  {
  }

  /** `d[k]`. */
  function Get<V>(d: Dict<V>, k: string): V
    requires WellFormed(d) && k in d.keys
  {
    d.values[IndexOf(d.keys, k)]
  }

  /** The dict seen as a plain map from keys to values, order forgotten. */
  ghost function AsMap<V>(d: Dict<V>): map<string, V>
    requires WellFormed(d)
  {
    map k | k in d.keys :: Get(d, k)
  }

  /** `d[k] = v`: a new key goes to the end of the order with its value, an existing key
      keeps its place and only its value is replaced. */
  function Put<V>(d: Dict<V>, k: string, v: V): (r: Dict<V>)
    requires WellFormed(d)
    ensures WellFormed(r)
    ensures k in r.keys
    ensures forall k' :: k' in r.keys <==> k' == k || k' in d.keys
  {
    if k in d.keys then Dict(d.keys, d.values[IndexOf(d.keys, k) := v]) else Dict(d.keys + [k], d.values + [v])
  }

  /** Storing under a key behaves as a map update: `k` now maps to `v` and every other key
      keeps its value. */
  lemma {:induction false} PutAsMap<V>(d: Dict<V>, k: string, v: V)
    requires WellFormed(d)
    ensures AsMap(Put(d, k, v)) == AsMap(d)[k := v]
  {
    var r := Put(d, k, v);
    forall k' | k' in r.keys
      ensures Get(r, k') == AsMap(d)[k := v][k']
    {
      if k in d.keys {
        if k' != k {
          IndexOfUnique(r.keys, k', IndexOf(d.keys, k'));
        }
      } else {
        if k == k' {
          IndexOfUnique(r.keys, k, |d.keys|);
        } else {
          IndexOfUnique(r.keys, k', IndexOf(d.keys, k'));
        }
      }
    }
  }

  /** Storing under a new key grows the dict by one entry at the end of the order, leaving
      the earlier keys and values where they were. */
  lemma PutNewKey<V>(d: Dict<V>, k: string, v: V)
    requires WellFormed(d) && k !in d.keys
    ensures |Put(d, k, v).keys| == |d.keys| + 1
    ensures Put(d, k, v).keys == d.keys + [k]
    ensures Put(d, k, v).values == d.values + [v]
  {
  }

  /** Storing under an existing key keeps the size and the key order, and replaces the
      value at that key's position only. */
  lemma PutExistingKey<V>(d: Dict<V>, k: string, v: V)
    requires WellFormed(d) && k in d.keys
    ensures Put(d, k, v).keys == d.keys
    ensures Put(d, k, v).values == d.values[IndexOf(d.keys, k) := v]
  {
  }

  /** The value order lists exactly the values the dict stores. */
  lemma {:induction false} ValuesAreStored<V>(d: Dict<V>)
    requires WellFormed(d)
    ensures forall x :: x in d.values <==> x in AsMap(d).Values
  {
    forall x | x in d.values
      ensures x in AsMap(d).Values
    {
      var i :| 0 <= i < |d.values| && d.values[i] == x;
      IndexOfUnique(d.keys, d.keys[i], i);
      assert AsMap(d)[d.keys[i]] == x;
    }
  }

  /** The values after a store are the old ones, less possibly the one replaced, plus the
      new one. */
  lemma PutValues<V>(d: Dict<V>, k: string, v: V)
    requires WellFormed(d)
    ensures forall x :: x in Put(d, k, v).values ==> x == v || x in d.values
  {
    var r := Put(d, k, v);
    forall x | x in r.values
      ensures x == v || x in d.values
    {
      var i :| 0 <= i < |r.values| && r.values[i] == x;
      if i < |d.values| && x != v {
        assert d.values[i] == x;
      }
    }
  }

  /** Storing a value that is stored nowhere else keeps the dict injective. */
  lemma {:induction false} PutFreshKeepsInjective<V>(d: Dict<V>, k: string, v: V)
    requires WellFormed(d) && Injective(d) && v !in d.values
    ensures Injective(Put(d, k, v))
  {
    var r := Put(d, k, v);
    forall i, j | 0 <= i < j < |r.values|
      ensures r.values[i] != r.values[j]
    {
      if i < |d.values| && r.values[i] != d.values[i] {
        assert r.values[i] == v;
        assert r.values[j] == d.values[j];
      } else if j < |d.values| && r.values[j] != d.values[j] {
        assert r.values[i] == d.values[i];
      } else if j >= |d.values| {
        assert r.values[i] == d.values[i];
      }
    }
  }
}
