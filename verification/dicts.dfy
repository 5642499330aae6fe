/** Python's `dict`: a finite map that remembers the order in which keys were
    first inserted. Iteration (`for k in d`) follows `keys`; assigning to a key
    that is already present keeps its position. JSON objects loaded from disk
    and returned by the remote API are dicts too. */
module Dicts {

  datatype DictRep<K, V> = DictRep(keys: seq<K>, entries: map<K, V>)

  /** The key order lists every key of the map exactly once. */
  ghost predicate WellFormed<K, V>(d: DictRep<K, V>) {
    && (forall i, j :: 0 <= i < j < |d.keys| ==> d.keys[i] != d.keys[j])
    && (forall k :: k in d.entries ==> k in d.keys)
    && (forall i :: 0 <= i < |d.keys| ==> d.keys[i] in d.entries)
  }

  type Dict<K, V> = d: DictRep<K, V> | WellFormed(d) witness DictRep([], map[])

  /** `{}` */
  function Empty<K, V>(): (r: Dict<K, V>)
    ensures r.keys == [] && r.entries == map[]
  {
    DictRep([], map[])
  }

  /** `d[k] = v`: a new key goes to the end, an existing key keeps its place. */
  function Put<K, V>(d: Dict<K, V>, k: K, v: V): (r: Dict<K, V>)
    ensures r.entries == d.entries[k := v]
    ensures k in d.entries ==> r.keys == d.keys
    ensures k !in d.entries ==> r.keys == d.keys + [k]
  {
    if k in d.entries then DictRep(d.keys, d.entries[k := v])
    else DictRep(d.keys + [k], d.entries[k := v])
  }

  /** Assigning a key twice leaves what the second assignment wrote, in the
      place the first one gave the key. */
  lemma PutPut<K, V>(d: Dict<K, V>, k: K, v: V, w: V)
    ensures Put(Put(d, k, v), k, w) == Put(d, k, w)
  {
  }

  /** Writing back a stored value changes nothing, order included. */
  lemma PutStored<K, V>(d: Dict<K, V>, k: K)
    requires k in d.entries
    ensures Put(d, k, d.entries[k]) == d
  {
  }

  /** A duplicate-free sequence has as many distinct elements as positions. */
  lemma {:induction false} DistinctCount<T>(s: seq<T>)
    requires forall i, j :: 0 <= i < j < |s| ==> s[i] != s[j]
    ensures |set x | x in s| == |s|
  {
    if s != [] {
      var front := s[..|s| - 1];
      var last := s[|s| - 1];
      assert forall i, j :: 0 <= i < j < |front| ==> front[i] != front[j];
      DistinctCount(front);
      assert last !in front;
      assert (set x | x in s) == (set x | x in front) + {last};
    }
  }

  /** `len(d)` counts the iteration order as well as the map. */
  lemma SizeMatches<K, V>(d: Dict<K, V>)
    ensures |d.entries| == |d.keys|
  {
    assert d.entries.Keys == set x | x in d.keys;
    DistinctCount(d.keys);
  }

  /** No key is removed or moved: the old keys are a prefix of the new ones. */
  ghost predicate KeepsOrder<K, V>(d: Dict<K, V>, d': Dict<K, V>) {
    d.keys <= d'.keys
  }

  /** Two dicts with the same order and the same entries are the same dict. */
  lemma Extensional<K, V>(a: Dict<K, V>, b: Dict<K, V>)
    requires a.keys == b.keys
    requires forall k :: k in a.entries ==> a.entries[k] == b.entries[k]
    ensures a == b
  {
    assert a.entries.Keys == b.entries.Keys;
  }

  /** Every key of a loop over `keys` is in the dict. */
  ghost predicate KeysIn<K, V>(d: Dict<K, V>, keys: seq<K>) {
    forall i :: 0 <= i < |keys| ==> keys[i] in d.entries
  }

  lemma KeysInFront<K, V>(d: Dict<K, V>, keys: seq<K>)
    requires KeysIn(d, keys) && keys != []
    ensures KeysIn(d, keys[..|keys| - 1]) && keys[|keys| - 1] in d.entries
  {
    var front := keys[..|keys| - 1];
    assert forall i :: 0 <= i < |front| ==> front[i] == keys[i];
  }
}
