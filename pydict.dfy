/** Python's `dict`: a finite map that remembers the order in which its keys were first inserted,
    so that `next(iter(d.values()))` is the value of the oldest key still present. */
module PyDict {

  datatype Dict<K, V> = Dict(keys: seq<K>, values: map<K, V>)
  {
    /** The insertion order lists every key of the map exactly once. */
    ghost predicate Valid()
    {
      && values.Keys == (set i | 0 <= i < |keys| :: keys[i])
      && (forall i, j :: 0 <= i < j < |keys| ==> keys[i] != keys[j])
    }

    predicate IsEmpty()
    {
      keys == []
    }

    /** `d[k] = v`: a new key goes to the end of the order; an existing key keeps its place and
        only its value changes. */
    function Set(k: K, v: V): (d: Dict<K, V>)
      requires Valid()
      ensures d.Valid()
      ensures d.values.Keys == values.Keys + {k} && d.values[k] == v
      ensures forall j :: j in values && j != k ==> d.values[j] == values[j]
      ensures k in values ==> d.keys == keys
      ensures k !in values ==> d.keys == keys + [k]
    {
      if k in values then Dict(keys, values[k := v])
      else
        var ks := keys + [k];
        assert ks[|keys|] == k;
        assert forall i :: 0 <= i < |keys| ==> ks[i] == keys[i];
        assert (set i | 0 <= i < |ks| :: ks[i]) == values.Keys + {k};
        Dict(ks, values[k := v])
    }

    /** The key `next(iter(d))` yields: the oldest one. */
    function First(): (k: K)
      requires Valid() && !IsEmpty()
      ensures k in values
    {
      keys[0]
    }
  }

  /** `{}`, also what `d.clear()` leaves. */
  function Empty<K, V>(): (d: Dict<K, V>)
    ensures d.Valid() && d.IsEmpty() && d.values == map[]
  {
    Dict([], map[])
  }

  /** A valid dict is empty exactly when its map has no entries, so `if d:` tests either. */
  lemma EmptyIffNoEntries<K, V>(d: Dict<K, V>)
    requires d.Valid()
    ensures d.IsEmpty() <==> d.values == map[]
  {
    if !d.IsEmpty() {
      assert d.keys[0] in d.values;
    }
  }

  /** Assigning to a key never moves the oldest entry: the first key stays first. */
  lemma SetKeepsFirst<K, V>(d: Dict<K, V>, k: K, v: V)
    requires d.Valid() && !d.IsEmpty()
    ensures !d.Set(k, v).IsEmpty() && d.Set(k, v).First() == d.First()
  {
  }
}
