/**
 * Kotlin's insertion-ordered `LinkedHashMap` keyed by strings: putting an
 * existing key replaces its value and keeps its position.
 */
module LinkedMaps {
  import opened Wrappers
  import opened Seqs

  datatype LinkedMap<V> = LinkedMap(keys: seq<string>, values: map<string, V>) {
    ghost predicate Valid() {
      Distinct(keys) && (forall k :: k in values <==> k in keys)
    }
  }

  function EmptyMap<V>(): (r: LinkedMap<V>)
    ensures r.Valid() && r.keys == []
  {
    LinkedMap([], map[])
  }

  function Put<V>(m: LinkedMap<V>, k: string, v: V): (r: LinkedMap<V>)
    requires m.Valid()
    ensures r.Valid()
    ensures r.values == m.values[k := v]
    ensures k in m.values ==> r.keys == m.keys
    ensures k !in m.values ==> r.keys == m.keys + [k]
  {
    if k in m.values then m.(values := m.values[k := v])
    else LinkedMap(m.keys + [k], m.values[k := v])
  }

  /** The values in key order: `values.toList()`. */
  function Values<V>(m: LinkedMap<V>): (r: seq<V>)
    requires m.Valid()
    ensures |r| == |m.keys|
    ensures forall i :: 0 <= i < |r| ==> r[i] == m.values[m.keys[i]]
  {
    seq(|m.keys|, i requires 0 <= i < |m.keys| => m.values[m.keys[i]])
  }

  /** Putting every element of `vs` in turn under its key. */
  function PutAll<V>(m: LinkedMap<V>, vs: seq<V>, key: V -> string): (r: LinkedMap<V>)
    requires m.Valid()
    ensures r.Valid()
    decreases |vs|
  {
    if vs == [] then m
    else Put(PutAll(m, vs[..|vs| - 1], key), key(vs[|vs| - 1]), vs[|vs| - 1])
  }

  /** The last element of `vs` whose key is `k`, if any. */
  function LastWithKey<V>(vs: seq<V>, key: V -> string, k: string): (r: Option<V>)
    ensures r.Some? ==> r.value in vs && key(r.value) == k
    ensures r.None? <==> forall i :: 0 <= i < |vs| ==> key(vs[i]) != k
    decreases |vs|
  {
    if vs == [] then None
    else if key(vs[|vs| - 1]) == k then Some(vs[|vs| - 1])
    else
      var r := LastWithKey(vs[..|vs| - 1], key, k);
      assert forall i :: 0 <= i < |vs| - 1 ==> vs[i] == vs[..|vs| - 1][i];
      r
  }

  /**
   * After putting all of `vs`, a key is present when it was before or some
   * element has it, and its value is the last such element, or else the
   * value it had.
   */
  lemma {:induction false} PutAllValue<V>(m: LinkedMap<V>, vs: seq<V>, key: V -> string, k: string)
    requires m.Valid()
    ensures k in PutAll(m, vs, key).values <==> k in m.values || LastWithKey(vs, key, k).Some?
    ensures LastWithKey(vs, key, k).Some? ==> PutAll(m, vs, key).values[k] == LastWithKey(vs, key, k).value
    ensures LastWithKey(vs, key, k).None? && k in m.values ==> PutAll(m, vs, key).values[k] == m.values[k]
    decreases |vs|
  {
    if vs != [] {
      PutAllValue(m, vs[..|vs| - 1], key, k);
    }
  }

  /** Every key of the map is then the key of the value stored under it. */
  ghost predicate Keyed<V>(m: LinkedMap<V>, key: V -> string) {
    forall k :: k in m.values ==> key(m.values[k]) == k
  }

  lemma {:induction false} PutAllKeyed<V>(m: LinkedMap<V>, vs: seq<V>, key: V -> string)
    requires m.Valid() && Keyed(m, key)
    ensures Keyed(PutAll(m, vs, key), key)
    decreases |vs|
  {
    if vs != [] {
      PutAllKeyed(m, vs[..|vs| - 1], key);
    }
  }
}
