/**
 * Looking keys up in Python dictionaries, and in unions of dictionaries. The
 * entries a codec writes are a union, in writing order, of maps whose key
 * sets are pairwise disjoint; each key is then found in the map of its own
 * group (Pick2 to Pick8).
 */
module Dicts {
  import opened Wrappers

  /** d.get(key): the stored value, or None for an absent key. */
  function MetaValue<V>(d: map<string, V>, key: string): (r: Option<V>)
    ensures r.Some? <==> key in d
    ensures r.Some? ==> r.value == d[key]
  {
    if key in d then Some(d[key]) else None
  }

  lemma MapUnionAssoc<V>(x: map<string, V>, y: map<string, V>, z: map<string, V>)
    ensures (x + y) + z == x + (y + z)
  {
  }

  /** A key the right part of a union does not hold is looked up on the left. */
  lemma LookupLeft<V>(a: map<string, V>, b: map<string, V>, k: string)
    requires k !in b
    ensures MetaValue(a + b, k) == MetaValue(a, k)
  {}

  /** A key the left part of a union does not hold is looked up on the right. */
  lemma LookupRight<V>(a: map<string, V>, b: map<string, V>, k: string)
    requires k !in a
    ensures MetaValue(a + b, k) == MetaValue(b, k)
  {}

  lemma Pick2<V>(m0: map<string, V>, m1: map<string, V>,
              s0: set<string>, s1: set<string>)
    requires m0.Keys <= s0 && m1.Keys <= s1
    requires s0 !! s1
    ensures forall k :: k in s0 ==> MetaValue(m0 + m1, k) == MetaValue(m0, k)
    ensures forall k :: k in s1 ==> MetaValue(m0 + m1, k) == MetaValue(m1, k)
  {
  }

  lemma Pick3<V>(m0: map<string, V>, m1: map<string, V>, m2: map<string, V>,
              s0: set<string>, s1: set<string>, s2: set<string>)
    requires m0.Keys <= s0 && m1.Keys <= s1 && m2.Keys <= s2
    requires s0 !! s1 && s0 !! s2 && s1 !! s2
    ensures forall k :: k in s0 ==> MetaValue(m0 + m1 + m2, k) == MetaValue(m0, k)
    ensures forall k :: k in s1 ==> MetaValue(m0 + m1 + m2, k) == MetaValue(m1, k)
    ensures forall k :: k in s2 ==> MetaValue(m0 + m1 + m2, k) == MetaValue(m2, k)
  {
    Pick2(m0, m1,
          s0, s1);
    Pick2(m0 + m1, m2, s0 + s1, s2);
  }

  lemma Pick4<V>(m0: map<string, V>, m1: map<string, V>, m2: map<string, V>, m3: map<string, V>,
              s0: set<string>, s1: set<string>, s2: set<string>, s3: set<string>)
    requires m0.Keys <= s0 && m1.Keys <= s1 && m2.Keys <= s2 && m3.Keys <= s3
    requires s0 !! s1 && s0 !! s2 && s0 !! s3 && s1 !! s2 && s1 !! s3 && s2 !! s3
    ensures forall k :: k in s0 ==> MetaValue(m0 + m1 + m2 + m3, k) == MetaValue(m0, k)
    ensures forall k :: k in s1 ==> MetaValue(m0 + m1 + m2 + m3, k) == MetaValue(m1, k)
    ensures forall k :: k in s2 ==> MetaValue(m0 + m1 + m2 + m3, k) == MetaValue(m2, k)
    ensures forall k :: k in s3 ==> MetaValue(m0 + m1 + m2 + m3, k) == MetaValue(m3, k)
  {
    Pick3(m0, m1, m2,
          s0, s1, s2);
    Pick2(m0 + m1 + m2, m3, s0 + s1 + s2, s3);
  }

  lemma Pick5<V>(m0: map<string, V>, m1: map<string, V>, m2: map<string, V>, m3: map<string, V>, m4: map<string, V>,
              s0: set<string>, s1: set<string>, s2: set<string>, s3: set<string>, s4: set<string>)
    requires m0.Keys <= s0 && m1.Keys <= s1 && m2.Keys <= s2 && m3.Keys <= s3 && m4.Keys <= s4
    requires s0 !! s1 && s0 !! s2 && s0 !! s3 && s0 !! s4 && s1 !! s2 && s1 !! s3
    requires s1 !! s4 && s2 !! s3 && s2 !! s4 && s3 !! s4
    ensures forall k :: k in s0 ==> MetaValue(m0 + m1 + m2 + m3 + m4, k) == MetaValue(m0, k)
    ensures forall k :: k in s1 ==> MetaValue(m0 + m1 + m2 + m3 + m4, k) == MetaValue(m1, k)
    ensures forall k :: k in s2 ==> MetaValue(m0 + m1 + m2 + m3 + m4, k) == MetaValue(m2, k)
    ensures forall k :: k in s3 ==> MetaValue(m0 + m1 + m2 + m3 + m4, k) == MetaValue(m3, k)
    ensures forall k :: k in s4 ==> MetaValue(m0 + m1 + m2 + m3 + m4, k) == MetaValue(m4, k)
  {
    Pick4(m0, m1, m2, m3,
          s0, s1, s2, s3);
    Pick2(m0 + m1 + m2 + m3, m4, s0 + s1 + s2 + s3, s4);
  }

  lemma Pick6<V>(m0: map<string, V>, m1: map<string, V>, m2: map<string, V>, m3: map<string, V>, m4: map<string, V>, m5: map<string, V>,
              s0: set<string>, s1: set<string>, s2: set<string>, s3: set<string>, s4: set<string>, s5: set<string>)
    requires m0.Keys <= s0 && m1.Keys <= s1 && m2.Keys <= s2 && m3.Keys <= s3 && m4.Keys <= s4 && m5.Keys <= s5
    requires s0 !! s1 && s0 !! s2 && s0 !! s3 && s0 !! s4 && s0 !! s5 && s1 !! s2
    requires s1 !! s3 && s1 !! s4 && s1 !! s5 && s2 !! s3 && s2 !! s4 && s2 !! s5
    requires s3 !! s4 && s3 !! s5 && s4 !! s5
    ensures forall k :: k in s0 ==> MetaValue(m0 + m1 + m2 + m3 + m4 + m5, k) == MetaValue(m0, k)
    ensures forall k :: k in s1 ==> MetaValue(m0 + m1 + m2 + m3 + m4 + m5, k) == MetaValue(m1, k)
    ensures forall k :: k in s2 ==> MetaValue(m0 + m1 + m2 + m3 + m4 + m5, k) == MetaValue(m2, k)
    ensures forall k :: k in s3 ==> MetaValue(m0 + m1 + m2 + m3 + m4 + m5, k) == MetaValue(m3, k)
    ensures forall k :: k in s4 ==> MetaValue(m0 + m1 + m2 + m3 + m4 + m5, k) == MetaValue(m4, k)
    ensures forall k :: k in s5 ==> MetaValue(m0 + m1 + m2 + m3 + m4 + m5, k) == MetaValue(m5, k)
  {
    Pick5(m0, m1, m2, m3, m4,
          s0, s1, s2, s3, s4);
    Pick2(m0 + m1 + m2 + m3 + m4, m5, s0 + s1 + s2 + s3 + s4, s5);
  }

  lemma Pick7<V>(m0: map<string, V>, m1: map<string, V>, m2: map<string, V>, m3: map<string, V>, m4: map<string, V>, m5: map<string, V>, m6: map<string, V>,
              s0: set<string>, s1: set<string>, s2: set<string>, s3: set<string>, s4: set<string>, s5: set<string>, s6: set<string>)
    requires m0.Keys <= s0 && m1.Keys <= s1 && m2.Keys <= s2 && m3.Keys <= s3 && m4.Keys <= s4 && m5.Keys <= s5 && m6.Keys <= s6
    requires s0 !! s1 && s0 !! s2 && s0 !! s3 && s0 !! s4 && s0 !! s5 && s0 !! s6
    requires s1 !! s2 && s1 !! s3 && s1 !! s4 && s1 !! s5 && s1 !! s6 && s2 !! s3
    requires s2 !! s4 && s2 !! s5 && s2 !! s6 && s3 !! s4 && s3 !! s5 && s3 !! s6
    requires s4 !! s5 && s4 !! s6 && s5 !! s6
    ensures forall k :: k in s0 ==> MetaValue(m0 + m1 + m2 + m3 + m4 + m5 + m6, k) == MetaValue(m0, k)
    ensures forall k :: k in s1 ==> MetaValue(m0 + m1 + m2 + m3 + m4 + m5 + m6, k) == MetaValue(m1, k)
    ensures forall k :: k in s2 ==> MetaValue(m0 + m1 + m2 + m3 + m4 + m5 + m6, k) == MetaValue(m2, k)
    ensures forall k :: k in s3 ==> MetaValue(m0 + m1 + m2 + m3 + m4 + m5 + m6, k) == MetaValue(m3, k)
    ensures forall k :: k in s4 ==> MetaValue(m0 + m1 + m2 + m3 + m4 + m5 + m6, k) == MetaValue(m4, k)
    ensures forall k :: k in s5 ==> MetaValue(m0 + m1 + m2 + m3 + m4 + m5 + m6, k) == MetaValue(m5, k)
    ensures forall k :: k in s6 ==> MetaValue(m0 + m1 + m2 + m3 + m4 + m5 + m6, k) == MetaValue(m6, k)
  {
    Pick6(m0, m1, m2, m3, m4, m5,
          s0, s1, s2, s3, s4, s5);
    Pick2(m0 + m1 + m2 + m3 + m4 + m5, m6, s0 + s1 + s2 + s3 + s4 + s5, s6);
  }

  lemma Pick8<V>(m0: map<string, V>, m1: map<string, V>, m2: map<string, V>, m3: map<string, V>, m4: map<string, V>, m5: map<string, V>, m6: map<string, V>, m7: map<string, V>,
              s0: set<string>, s1: set<string>, s2: set<string>, s3: set<string>, s4: set<string>, s5: set<string>, s6: set<string>, s7: set<string>)
    requires m0.Keys <= s0 && m1.Keys <= s1 && m2.Keys <= s2 && m3.Keys <= s3 && m4.Keys <= s4 && m5.Keys <= s5 && m6.Keys <= s6 && m7.Keys <= s7
    requires s0 !! s1 && s0 !! s2 && s0 !! s3 && s0 !! s4 && s0 !! s5 && s0 !! s6
    requires s0 !! s7 && s1 !! s2 && s1 !! s3 && s1 !! s4 && s1 !! s5 && s1 !! s6
    requires s1 !! s7 && s2 !! s3 && s2 !! s4 && s2 !! s5 && s2 !! s6 && s2 !! s7
    requires s3 !! s4 && s3 !! s5 && s3 !! s6 && s3 !! s7 && s4 !! s5 && s4 !! s6
    requires s4 !! s7 && s5 !! s6 && s5 !! s7 && s6 !! s7
    ensures forall k :: k in s0 ==> MetaValue(m0 + m1 + m2 + m3 + m4 + m5 + m6 + m7, k) == MetaValue(m0, k)
    ensures forall k :: k in s1 ==> MetaValue(m0 + m1 + m2 + m3 + m4 + m5 + m6 + m7, k) == MetaValue(m1, k)
    ensures forall k :: k in s2 ==> MetaValue(m0 + m1 + m2 + m3 + m4 + m5 + m6 + m7, k) == MetaValue(m2, k)
    ensures forall k :: k in s3 ==> MetaValue(m0 + m1 + m2 + m3 + m4 + m5 + m6 + m7, k) == MetaValue(m3, k)
    ensures forall k :: k in s4 ==> MetaValue(m0 + m1 + m2 + m3 + m4 + m5 + m6 + m7, k) == MetaValue(m4, k)
    ensures forall k :: k in s5 ==> MetaValue(m0 + m1 + m2 + m3 + m4 + m5 + m6 + m7, k) == MetaValue(m5, k)
    ensures forall k :: k in s6 ==> MetaValue(m0 + m1 + m2 + m3 + m4 + m5 + m6 + m7, k) == MetaValue(m6, k)
    ensures forall k :: k in s7 ==> MetaValue(m0 + m1 + m2 + m3 + m4 + m5 + m6 + m7, k) == MetaValue(m7, k)
  {
    Pick7(m0, m1, m2, m3, m4, m5, m6,
          s0, s1, s2, s3, s4, s5, s6);
    Pick2(m0 + m1 + m2 + m3 + m4 + m5 + m6, m7, s0 + s1 + s2 + s3 + s4 + s5 + s6, s7);
  }
}
