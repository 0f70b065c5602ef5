/** Lookup with a default over an ordered map (src/map_utils.hpp). */
module MapUtils {

  /** The value stored under `key`, or `val` when `m` has no entry for `key`.
      The map is read only: a function over a map value cannot change it. */
  function GetValueDefault<K, V(==)>(m: map<K, V>, key: K, val: V): (r: V)
    ensures key in m ==> r == m[key]
    ensures key !in m ==> r == val
    ensures r in m.Values || r == val
  {
    if key in m then m[key] else val
  }

  /** On an empty map every lookup yields the default. */
  lemma EmptyMapGivesDefault<K, V>(key: K, val: V)
    ensures GetValueDefault(map[], key, val) == val
  {
  }

  /** After storing `v` under `key`, the lookup finds `v` whatever the default. */
  lemma StoredValueIsFound<K, V>(m: map<K, V>, key: K, v: V, val: V)
    ensures GetValueDefault(m[key := v], key, val) == v
  {
  }

  /** Storing under one key does not change the lookup of another. */
  lemma OtherKeysUnaffected<K, V>(m: map<K, V>, key: K, other: K, v: V, val: V)
    requires other != key
    ensures GetValueDefault(m[key := v], other, val) == GetValueDefault(m, other, val)
  {
  }

  /** The default is consulted only when the key is absent. */
  lemma DefaultIrrelevantWhenPresent<K, V>(m: map<K, V>, key: K, val1: V, val2: V)
    requires key in m
    ensures GetValueDefault(m, key, val1) == GetValueDefault(m, key, val2)
  {
  }
}
