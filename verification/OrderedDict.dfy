/** Python's insertion-ordered dict: assigning to a present key keeps its
    position, assigning to a new key appends, and removing then assigning
    again moves the key to the end. */
module OrderedDict {
  import opened Seqs

  datatype Option<+T> = None | Some(value: T)

  function OtherThan<K(==,!new)>(k: K): K -> bool {
    x => x != k
  }

  datatype Dict<K(==,!new), V> = Dict(keys: seq<K>, vals: map<K, V>) {

    predicate Valid() {
      Distinct(keys) && vals.Keys == Elements(keys)
    }

    function Get(k: K): Option<V> {
      if k in vals then Some(vals[k]) else None
    }

    function Put(k: K, v: V): (d: Dict<K, V>)
      ensures Valid() ==> d.Valid()
    {
      Dict(if k in vals then keys else keys + [k], vals[k := v])
    }

    function Remove(k: K): (d: Dict<K, V>)
      ensures Valid() ==> d.Valid()
      ensures k !in d.vals
    {
      var d := Dict(Filter(OtherThan(k), keys), vals - {k});
      assert Valid() ==> d.Valid() by {
        if Valid() { FilterDistinct(OtherThan(k), keys); FilterMembers(OtherThan(k), keys); }
      }
      d
    }

    /** The values in key order. */
    function Values(): (r: seq<V>)
      requires Valid()
      ensures |r| == |keys|
    {
      seq(|keys|, i requires 0 <= i < |keys| => vals[keys[i]])
    }
  }

  function Empty<K(==,!new), V>(): (d: Dict<K, V>)
    ensures d.Valid()
  {
    Dict([], map[])
  }
}
