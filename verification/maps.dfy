/** Facts about map union (`+`, the right operand winning) that the proofs
    about sequences of dictionary and registry writes use. */
module Maps {

  lemma UnionAssoc<K, V>(a: map<K, V>, b: map<K, V>, c: map<K, V>)
    ensures (a + b) + c == a + (b + c)
  {
  }

  /** Data laid over a base and then overwritten on a superset of its keys
      is as if only the overwrite happened. */
  lemma UnionAbsorb<K, V>(base: map<K, V>, p: map<K, V>, w: map<K, V>)
    requires p.Keys <= w.Keys
    ensures (base + p) + w == base + w
  {
  }

  /** Assigning one key after a union is a union with the assigned entry. */
  lemma UpdateIsUnion<K, V>(m: map<K, V>, e: map<K, V>, k: K, v: V)
    ensures (m + e)[k := v] == m + e[k := v]
  {
  }
}
