/** A Python `dict` as the forecast code uses it: a finite map whose keys
    remember the order in which they were first inserted, so that iterating
    over `items()` visits them in that order. */
module PyDict {

  /** The storage behind a dict: the keys in insertion order and the map itself. */
  datatype RawDict<K(==), V> = RawDict(keys: seq<K>, vals: map<K, V>)

  /** Every mapped key is listed, nothing else is, and no key is listed twice. */
  ghost predicate Valid<K, V>(d: RawDict<K, V>)
  {
    && (forall i :: 0 <= i < |d.keys| ==> d.keys[i] in d.vals)
    && (forall k :: k in d.vals ==> k in d.keys)
    && (forall i, j :: 0 <= i < j < |d.keys| ==> d.keys[i] != d.keys[j])
  }

  type Dict<K(==), V> = d: RawDict<K, V> | Valid(d) witness RawDict([], map[])

  /** `{}` */
  function Empty<K(==), V>(): (d: Dict<K, V>)
    ensures d.keys == [] && d.vals == map[]
  {
    RawDict([], map[])
  }

  /** `d[k] = v`: the value under k becomes v and nothing else changes value;
      a new key goes to the end of the order, a key already present keeps its place. */
  function Put<K(==), V>(d: Dict<K, V>, k: K, v: V): (r: Dict<K, V>)
    ensures k in r.vals && r.vals[k] == v
    ensures r.vals.Keys == d.vals.Keys + {k}
    ensures forall j :: j in d.vals && j != k ==> r.vals[j] == d.vals[j]
    ensures k in d.vals ==> r.keys == d.keys
    ensures k !in d.vals ==> r.keys == d.keys + [k]
  {
    if k in d.vals then RawDict(d.keys, d.vals[k := v])
    else RawDict(d.keys + [k], d.vals[k := v])
  }

  /** Storing the value a key already has leaves the dict as it was. */
  lemma PutSame<K, V>(d: Dict<K, V>, k: K)
    requires k in d.vals
    ensures Put(d, k, d.vals[k]) == d
  {
    assert Put(d, k, d.vals[k]).vals == d.vals;
  }

  /** `m.get(k, default)` */
  function GetOr<K(==), V>(m: map<K, V>, k: K, default: V): V
  {
    if k in m then m[k] else default
  }

  /** `list(d.items())`: the key/value pairs in insertion order. */
  function Items<K(==), V>(d: Dict<K, V>): (r: seq<(K, V)>)
    ensures |r| == |d.keys|
    ensures forall i :: 0 <= i < |r| ==> r[i].0 == d.keys[i] && r[i].0 in d.vals && r[i].1 == d.vals[r[i].0]
  {
    seq(|d.keys|, i requires 0 <= i < |d.keys| => (d.keys[i], d.vals[d.keys[i]]))
  }
}
