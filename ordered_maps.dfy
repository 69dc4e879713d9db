/**
 * Python dictionaries keep their keys in insertion order. An OMap is a key
 * sequence plus a map; overwriting a present key keeps its position and a
 * deletion removes the key from the sequence.
 */
module OrderedMaps {

  predicate Distinct<K(==)>(ks: seq<K>)
  {
    forall i, j :: 0 <= i < j < |ks| ==> ks[i] != ks[j]
  }

  datatype OMap<K(==,!new), V> = OMap(keys: seq<K>, m: map<K, V>)
  {
    ghost predicate Valid()
    {
      Distinct(keys) && (forall k :: k in keys <==> k in m)
    }

    predicate Has(k: K) { k in m }

    function Len(): nat { |keys| }

    /** d[k] = v */
    function Put(k: K, v: V): (r: OMap<K, V>)
      requires Valid()
      ensures r.Valid()
      ensures r.m == m[k := v]
      ensures k in m ==> r.keys == keys
      ensures k !in m ==> r.keys == keys + [k]
    {
      if k in m then OMap(keys, m[k := v]) else OMap(keys + [k], m[k := v])
    }

    /** del d[k], when k is present */
    function Remove(k: K): (r: OMap<K, V>)
      requires Valid()
      ensures r.Valid()
      ensures r.m == m - {k}
      ensures forall x :: x in r.keys <==> x in keys && x != k
    {
      OMap(RemoveKey(keys, k), m - {k})
    }
  }

  function Empty<K(==,!new), V>(): (r: OMap<K, V>)
    ensures r.Valid() && r.keys == [] && r.m == map[]
  {
    OMap([], map[])
  }

  function RemoveKey<K(==,!new)>(ks: seq<K>, k: K): (r: seq<K>)
    requires Distinct(ks)
    ensures Distinct(r)
    ensures forall x :: x in r <==> x in ks && x != k
    ensures |r| <= |ks|
  {
    if ks == [] then []
    else if ks[0] == k then RemoveKey(ks[1..], k)
    else
      var rest := RemoveKey(ks[1..], k);
      ConsDistinct(ks[0], rest);
      [ks[0]] + rest
  }

  lemma ConsDistinct<K>(x: K, s: seq<K>)
    requires Distinct(s) && x !in s
    ensures Distinct([x] + s)
  {
    forall i, j | 0 <= i < j < |[x] + s| ensures ([x] + s)[i] != ([x] + s)[j] {
      if i > 0 { assert ([x] + s)[i] == s[i - 1]; }
      assert ([x] + s)[j] == s[j - 1];
    }
  }
}
