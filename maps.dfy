/** The values a map holds under a set of its keys, counted with their
    multiplicity: what collecting `values()` of a HashMap (in whatever order
    it iterates) gives, up to order. */
module Maps {

  ghost function ValuesOf<K, V>(m: map<K, V>, ks: set<K>): multiset<V>
    requires ks <= m.Keys
    decreases ks
  {
    if ks == {} then multiset{}
    else
      var k :| k in ks;
      multiset{m[k]} + ValuesOf(m, ks - {k})
  }

  /** Any key of the set may be taken out first. */
  lemma {:induction false} ValuesOfRemove<K, V>(m: map<K, V>, ks: set<K>, k: K)
    requires ks <= m.Keys && k in ks
    ensures ValuesOf(m, ks) == multiset{m[k]} + ValuesOf(m, ks - {k})
    decreases ks
  {
    var j :| j in ks && ValuesOf(m, ks) == multiset{m[j]} + ValuesOf(m, ks - {j});
    if j != k {
      ValuesOfRemove(m, ks - {j}, k);
      ValuesOfRemove(m, ks - {k}, j);
      assert ks - {j} - {k} == ks - {k} - {j};
    }
  }

  /** Adding a key adds its value. */
  lemma {:induction false} ValuesOfAdd<K, V>(m: map<K, V>, ks: set<K>, k: K)
    requires ks <= m.Keys && k in m && k !in ks
    ensures ValuesOf(m, ks + {k}) == ValuesOf(m, ks) + multiset{m[k]}
  {
    ValuesOfRemove(m, ks + {k}, k);
    assert ks + {k} - {k} == ks;
  }

  /** Every value counted is held under one of the keys. */
  lemma {:induction false} ValuesOfMember<K, V>(m: map<K, V>, ks: set<K>, v: V)
    requires ks <= m.Keys && v in ValuesOf(m, ks)
    ensures exists k :: k in ks && m[k] == v
    decreases ks
  {
    var k :| k in ks && ValuesOf(m, ks) == multiset{m[k]} + ValuesOf(m, ks - {k});
    if m[k] != v {
      ValuesOfMember(m, ks - {k}, v);
    }
  }

  /** The number of values counted is the number of keys. */
  lemma {:induction false} ValuesOfSize<K, V>(m: map<K, V>, ks: set<K>)
    requires ks <= m.Keys
    ensures |ValuesOf(m, ks)| == |ks|
    decreases ks
  {
    if ks != {} {
      var k :| k in ks && ValuesOf(m, ks) == multiset{m[k]} + ValuesOf(m, ks - {k});
      ValuesOfSize(m, ks - {k});
    }
  }
}
