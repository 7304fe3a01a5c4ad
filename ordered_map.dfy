/** The JavaScript `Map` that several services keep as state: a finite map whose
    keys remember the order in which they were first inserted. `set` on a key
    already present replaces its value and keeps its position; `delete` removes
    the key and leaves the order of the others alone; iteration (`keys()`,
    `values()`) follows insertion order. */
module OrderedMap {

  import opened Common

  predicate Distinct<K(==)>(s: seq<K>) {
    forall i, j :: 0 <= i < j < |s| ==> s[i] != s[j]
  }

  /** `s` with every occurrence of `x` taken out, the rest in order. */
  function Without<K(==)>(s: seq<K>, x: K): (r: seq<K>)
    ensures forall i :: 0 <= i < |r| ==> r[i] in s && r[i] != x
    ensures forall i :: 0 <= i < |s| && s[i] != x ==> s[i] in r
    ensures |r| <= |s|
  {
    if |s| == 0 then []
    else (if s[0] == x then [] else [s[0]]) + Without(s[1..], x)
  }

  lemma {:induction false} WithoutDistinct<K>(s: seq<K>, x: K)
    requires Distinct(s)
    ensures Distinct(Without(s, x))
  {
    if |s| > 0 {
      WithoutDistinct(s[1..], x);
    }
  }

  lemma {:induction false} WithoutAbsent<K>(s: seq<K>, x: K)
    requires x !in s
    ensures Without(s, x) == s
  {
    if |s| > 0 {
      WithoutAbsent(s[1..], x);
    }
  }

  lemma {:induction false} WithoutAppended<K>(s: seq<K>, x: K)
    requires x !in s
    ensures Without(s + [x], x) == s
  {
    if |s| == 0 {
    } else {
      assert (s + [x])[1..] == s[1..] + [x];
      WithoutAppended(s[1..], x);
    }
  }

  lemma WithoutFacts<K>(s: seq<K>, x: K)
    requires Distinct(s)
    ensures Distinct(Without(s, x))
    ensures x !in s ==> Without(s, x) == s
    ensures x in s ==> |Without(s, x)| == |s| - 1
  {
    WithoutDistinct(s, x);
    if x !in s {
      WithoutAbsent(s, x);
    } else {
      DistinctCardinality(s);
      DistinctCardinality(Without(s, x));
      assert (set y | y in Without(s, x)) == (set y | y in s) - {x};
    }
  }

  /** A sequence without repetitions has as many elements as the set of them. */
  lemma {:induction false} DistinctCardinality<K>(s: seq<K>)
    requires Distinct(s)
    ensures |set x | x in s| == |s|
  {
    if |s| > 0 {
      DistinctCardinality(s[1..]);
      assert (set x | x in s) == {s[0]} + (set x | x in s[1..]);
    }
  }

  datatype OMap<K(==), V> = OMap(keys: seq<K>, values: map<K, V>) {

    /** Keys are listed once each, and exactly the keys of the map are listed. */
    predicate Valid() {
      Distinct(keys) && values.Keys == set k | k in keys
    }

    /** `map.size` */
    function Size(): nat {
      |keys|
    }

    /** `map.get(k)` */
    function Get(k: K): (r: Option<V>)
      ensures r.Some? <==> k in values
      ensures r.Some? ==> r.value == values[k]
    {
      if k in values then Some(values[k]) else None
    }

    /** `map.set(k, v)`: a new key goes last, an existing key keeps its place. */
    function Put(k: K, v: V): (r: OMap<K, V>)
      requires Valid()
      ensures r.Valid()
      ensures r.values == values[k := v]
      ensures k in values ==> r.keys == keys
      ensures k !in values ==> r.keys == keys + [k]
      ensures r.Size() == Size() + (if k in values then 0 else 1)
    {
      if k in values then OMap(keys, values[k := v]) else OMap(keys + [k], values[k := v])
    }

    /** `map.delete(k)`: the other keys keep their values and their order. */
    function Remove(k: K): (r: OMap<K, V>)
      requires Valid()
      ensures r.Valid()
      ensures r.values == values - {k}
      ensures r.keys == Without(keys, k)
      ensures k !in values ==> r == this
      ensures r.Size() == Size() - (if k in values then 1 else 0)
    {
      WithoutFacts(keys, k);
      OMap(Without(keys, k), values - {k})
    }

    /** The values in iteration order (`Array.from(map.values())`). */
    function ValuesInOrder(): (r: seq<V>)
      requires Valid()
      ensures |r| == Size()
      ensures forall i :: 0 <= i < |r| ==> r[i] == values[keys[i]]
    {
      seq(|keys|, i requires 0 <= i < |keys| && Valid() => values[keys[i]])
    }

    /** The value of the most recently inserted key still present, if any. */
    function Last(): (r: Option<V>)
      requires Valid()
      ensures r.None? <==> Size() == 0
      ensures r.Some? ==> r.value == values[keys[|keys| - 1]]
    {
      if |keys| == 0 then None else Some(values[keys[|keys| - 1]])
    }
  }

  function Empty<K, V>(): (r: OMap<K, V>)
    ensures r.Valid() && r.Size() == 0 && r.values == map[]
  {
    OMap([], map[])
  }

  /** `size` counts the entries of the map. */
  lemma SizeIsCardinality<K, V>(m: OMap<K, V>)
    requires m.Valid()
    ensures m.Size() == |m.values|
  {
    DistinctCardinality(m.keys);
  }

  /** Registering a fresh key and deleting it again restores the map exactly:
      same entries, same order. */
  lemma PutThenRemoveFresh<K, V>(m: OMap<K, V>, k: K, v: V)
    requires m.Valid() && k !in m.values
    ensures m.Put(k, v).Remove(k) == m
  {
    WithoutAppended(m.keys, k);
    assert m.values[k := v] - {k} == m.values;
  }

  /** Removing a key that was put last makes the previous last entry current again. */
  lemma LastAfterRemoveOfLast<K, V>(m: OMap<K, V>, k: K, v: V)
    requires m.Valid() && k !in m.values
    ensures m.Put(k, v).Last() == Some(v)
    ensures m.Put(k, v).Remove(k).Last() == m.Last()
  {
    PutThenRemoveFresh(m, k, v);
  }
}
