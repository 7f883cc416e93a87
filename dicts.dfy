/**
 * Python's insertion-ordered `dict`: a key order plus a map. Assigning an
 * existing key keeps its position; a new key goes to the end; `del`
 * removes the key from the order.
 */
module Dicts {
  import opened Wrappers

  datatype Dict<K(==,!new), V> = Dict(keys: seq<K>, m: map<K, V>) {
    /** The key order lists each key of the map exactly once. */
    ghost predicate Valid() {
      Distinct(keys)
      && (forall k :: k in m ==> k in keys) && (forall k :: k in keys ==> k in m)
    }

    function Size(): nat {
      |keys|
    }

    predicate Has(k: K) {
      k in m
    }

    /** `d.get(k)` */
    function Get(k: K): (r: Option<V>)
      ensures r.Some? <==> k in m
      ensures r.Some? ==> r.value == m[k]
    {
      if k in m then Some(m[k]) else None
    }

    /** `d.get(k, default)` */
    function GetOr(k: K, default: V): V {
      if k in m then m[k] else default
    }

    /** `d[k] = v` */
    function Put(k: K, v: V): (r: Dict<K, V>)
      ensures r.m == m[k := v]
      ensures k in m ==> r.keys == keys
      ensures k !in m ==> r.keys == keys + [k]
    {
      if k in m then Dict(keys, m[k := v]) else Dict(keys + [k], m[k := v])
    }

    /** `del d[k]` (a no-op for an absent key) */
    function Remove(k: K): (r: Dict<K, V>)
      ensures r.m == map j | j in m && j != k :: m[j]
      ensures forall j :: j in r.keys <==> j in keys && j != k
    {
      Dict(RemoveKey(keys, k), map j | j in m && j != k :: m[j])
    }

    /** `list(d.values())` */
    function Values(): (r: seq<V>)
      requires Valid()
      ensures |r| == |keys|
      ensures forall i :: 0 <= i < |keys| ==> r[i] == m[keys[i]]
    {
      ValuesOf(keys, m)
    }
  }

  ghost predicate Distinct<K>(s: seq<K>) {
    forall i, j :: 0 <= i < j < |s| ==> s[i] != s[j]
  }

  function Empty<K(==,!new), V>(): (r: Dict<K, V>)
    ensures r.Valid() && r.Size() == 0 && r.m == map[]
  {
    Dict([], map[])
  }

  function RemoveKey<K(==,!new)>(ks: seq<K>, k: K): (r: seq<K>)
    ensures forall j :: j in r <==> j in ks && j != k
    ensures |r| <= |ks|
  {
    if ks == [] then []
    else if ks[0] == k then RemoveKey(ks[1..], k)
    else [ks[0]] + RemoveKey(ks[1..], k)
  }

  function ValuesOf<K(==,!new), V>(ks: seq<K>, m: map<K, V>): (r: seq<V>)
    requires forall k :: k in ks ==> k in m
    ensures |r| == |ks|
    ensures forall i :: 0 <= i < |ks| ==> r[i] == m[ks[i]]
  {
    if ks == [] then [] else [m[ks[0]]] + ValuesOf(ks[1..], m)
  }

  lemma PutValid<K(!new), V>(d: Dict<K, V>, k: K, v: V)
    requires d.Valid()
    ensures d.Put(k, v).Valid()
    ensures d.Put(k, v).Size() == d.Size() + (if k in d.m then 0 else 1)
  {
  }

  lemma {:induction false} RemoveKeyDistinct<K(!new)>(ks: seq<K>, k: K)
    requires Distinct(ks)
    ensures Distinct(RemoveKey(ks, k))
  {
    if ks != [] {
      RemoveKeyDistinct(ks[1..], k);
      var r' := RemoveKey(ks[1..], k);
      assert ks[0] !in ks[1..];
      assert ks[0] !in r';
      if ks[0] != k {
        var r := RemoveKey(ks, k);
        assert r == [ks[0]] + r';
        forall i, j | 0 <= i < j < |r| ensures r[i] != r[j] {
          if i == 0 {
            assert r[j] == r'[j - 1] && r'[j - 1] in r';
          } else {
            assert r[i] == r'[i - 1] && r[j] == r'[j - 1];
          }
        }
      }
    }
  }

  lemma RemoveValid<K(!new), V>(d: Dict<K, V>, k: K)
    requires d.Valid()
    ensures d.Remove(k).Valid()
    ensures k !in d.Remove(k).m
  {
    RemoveKeyDistinct(d.keys, k);
  }

  /** `{**d, **e}`: `e`'s entries assigned into `d` in `e`'s key order. */
  function Merged<K(==,!new), V>(d: Dict<K, V>, e: Dict<K, V>): Dict<K, V> {
    MergeKeys(d, e.m, e.keys)
  }

  function MergeKeys<K(==,!new), V>(d: Dict<K, V>, m: map<K, V>, ks: seq<K>): Dict<K, V>
    decreases |ks|
  {
    if ks == [] then d
    else
      var r := MergeKeys(d, m, ks[..|ks| - 1]);
      var k := ks[|ks| - 1];
      if k in m then r.Put(k, m[k]) else r
  }

  lemma {:induction false} MergeKeysMap<K(!new), V>(d: Dict<K, V>, m: map<K, V>, ks: seq<K>)
    ensures MergeKeys(d, m, ks).m == d.m + map k | k in ks && k in m :: m[k]
    decreases |ks|
  {
    if ks != [] {
      var init := ks[..|ks| - 1];
      MergeKeysMap(d, m, init);
      assert forall k :: k in ks <==> k in init || k == ks[|ks| - 1];
    }
  }

  lemma {:induction false} MergeKeysValid<K(!new), V>(d: Dict<K, V>, m: map<K, V>, ks: seq<K>)
    requires d.Valid()
    ensures MergeKeys(d, m, ks).Valid()
    decreases |ks|
  {
    if ks != [] {
      var init := ks[..|ks| - 1];
      MergeKeysValid(d, m, init);
      var k := ks[|ks| - 1];
      if k in m {
        PutValid(MergeKeys(d, m, init), k, m[k]);
      }
    }
  }

  /** The later dict wins on shared keys; every other key keeps its value. */
  lemma MergedMap<K(!new), V>(d: Dict<K, V>, e: Dict<K, V>)
    requires e.Valid()
    ensures Merged(d, e).m == d.m + e.m
  {
    MergeKeysMap(d, e.m, e.keys);
  }

  lemma MergedValid<K(!new), V>(d: Dict<K, V>, e: Dict<K, V>)
    requires d.Valid()
    ensures Merged(d, e).Valid()
  {
    MergeKeysValid(d, e.m, e.keys);
  }
}
