/**
 * Python's `dict`, which the source uses for every table: a map together with the order in
 * which its keys were first inserted. Iteration (`.values()`, `.items()`) follows that order,
 * assigning to an existing key keeps the key's place, and `del` drops the key from the order.
 */
module OrderedDicts {
  import opened Wrappers
  import opened Sequences

  datatype ODict<K(==,!new), V> = ODict(keys: seq<K>, items: map<K, V>)
  {
    /** The keys are listed once each, and exactly the keys of the map are listed. */
    ghost predicate Valid()
    {
      Distinct(keys) && forall k :: k in items <==> k in keys
    }

    /** `len(d)`. */
    function Len(): nat
    {
      |keys|
    }

    /** `d.get(k)`. */
    function Get(k: K): (r: Option<V>)
      ensures r.Some? <==> k in items
      ensures r.Some? ==> r.value == items[k]
    {
      if k in items then Some(items[k]) else None
    }

    /** `d[k] = v`: the value is replaced in place, or the key is appended at the end. */
    function Put(k: K, v: V): (d: ODict<K, V>)
      requires Valid()
      ensures d.Valid()
      ensures d.items == items[k := v]
      ensures k in items ==> d.keys == keys
      ensures k !in items ==> d.keys == keys + [k]
    {
      if k in items then ODict(keys, items[k := v]) else ODict(keys + [k], items[k := v])
    }

    /** `del d[k]`. */
    function Remove(k: K): (d: ODict<K, V>)
      requires Valid()
      ensures d.Valid()
      ensures d.items == items - {k}
      ensures d.keys == Without(keys, k)
    {
      ODict(Without(keys, k), items - {k})
    }

    /** `list(d.values())`, in key order. */
    function Values(): (vs: seq<V>)
      requires Valid()
      ensures |vs| == |keys|
      ensures forall i :: 0 <= i < |keys| ==> vs[i] == items[keys[i]]
    {
      seq(|keys|, i requires 0 <= i < |keys| => items[keys[i]])
    }
  }

  function Empty<K(==,!new), V>(): (d: ODict<K, V>)
    ensures d.Valid() && d.keys == [] && d.items == map[]
  {
    ODict([], map[])
  }

  /** Storing under a new key adds the value at the end of the iteration order. */
  lemma PutNewValues<K(!new), V>(d: ODict<K, V>, k: K, v: V)
    requires d.Valid() && k !in d.items
    ensures d.Put(k, v).Values() == d.Values() + [v]
  {
    var e := d.Put(k, v);
    assert forall i :: 0 <= i < |d.keys| ==> d.keys[i] != k;
    assert e.Values() == d.Values() + [v];
  }

  /** Storing under a present key changes only that key's value and keeps the order. */
  lemma PutExistingValues<K(!new), V>(d: ODict<K, V>, k: K, v: V, i: nat)
    requires d.Valid() && i < |d.keys| && d.keys[i] == k
    ensures d.Put(k, v).Values() == d.Values()[i := v]
  {
    var e := d.Put(k, v);
    assert forall j :: 0 <= j < |d.keys| && j != i ==> d.keys[j] != k;
  }
}
