/** Python's `dict`, which remembers the order in which keys were first
    inserted: `values()` follows that order, and re-assigning an existing key
    keeps its place. */
module PyDict {

  datatype Dict<K(==), V> = Dict(keys: seq<K>, items: map<K, V>)

  /** The key order lists every key exactly once. */
  ghost predicate Valid<K, V>(d: Dict<K, V>) {
    && (forall i, j :: 0 <= i < j < |d.keys| ==> d.keys[i] != d.keys[j])
    && d.items.Keys == (set i | 0 <= i < |d.keys| :: d.keys[i])
  }

  function Empty<K(==), V>(): (d: Dict<K, V>)
    ensures Valid(d) && d.items == map[]
  {
    Dict([], map[])
  }

  /** `d[k] = v`. */
  function Put<K(==), V>(d: Dict<K, V>, k: K, v: V): (r: Dict<K, V>)
    requires Valid(d)
    ensures Valid(r)
    ensures r.items == d.items[k := v]
    ensures k in d.items ==> r.keys == d.keys
    ensures k !in d.items ==> r.keys == d.keys + [k]
  {
    if k in d.items then Dict(d.keys, d.items[k := v])
    else
      var r := Dict(d.keys + [k], d.items[k := v]);
      assert forall i :: 0 <= i < |d.keys| ==> r.keys[i] == d.keys[i];
      assert (set i | 0 <= i < |r.keys| :: r.keys[i]) == (set i | 0 <= i < |d.keys| :: d.keys[i]) + {r.keys[|d.keys|]};
      r
  }

  /** `list(d.values())`: one value per key, in key order. */
  function Values<K(==), V>(d: Dict<K, V>): (vs: seq<V>)
    requires Valid(d)
    ensures |vs| == |d.keys|
    ensures forall i :: 0 <= i < |vs| ==> vs[i] == d.items[d.keys[i]]
  {
    seq(|d.keys|, i requires 0 <= i < |d.keys| => d.items[d.keys[i]])
  }

  /** A sequence without repetitions has as many elements as its set. */
  lemma {:induction false} DistinctCard<K>(s: seq<K>)
    requires forall i, j :: 0 <= i < j < |s| ==> s[i] != s[j]
    ensures |set x | x in s| == |s|
  {
    if s != [] {
      var t := s[1..];
      DistinctCard(t);
      assert (set x | x in s) == (set x | x in t) + {s[0]};
      assert s[0] !in t by {
        forall j | 0 <= j < |t| ensures t[j] != s[0] { assert t[j] == s[j + 1]; }
      }
    }
  }

  /** The number of values is the number of distinct keys. */
  lemma ValuesCount<K, V>(d: Dict<K, V>)
    requires Valid(d)
    ensures |Values(d)| == |d.items|
  {
    DistinctCard(d.keys);
    assert d.items.Keys == set x | x in d.keys;
  }

  /** Exactly the stored values appear in `values()`. */
  lemma ValuesMembership<K, V>(d: Dict<K, V>, v: V)
    requires Valid(d)
    ensures v in Values(d) <==> exists k :: k in d.items && d.items[k] == v
  {
    var vs := Values(d);
    if v in vs {
      var i :| 0 <= i < |vs| && vs[i] == v;
      assert d.keys[i] in d.items;
    }
    if exists k :: k in d.items && d.items[k] == v {
      var k :| k in d.items && d.items[k] == v;
      var i :| 0 <= i < |d.keys| && d.keys[i] == k;
      assert vs[i] == v;
    }
  }
}
