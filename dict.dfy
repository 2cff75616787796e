/**
 * A Python `dict` whose insertion order is observable, as an association list.
 * Keys are kept in insertion order; `Get` returns the binding of the key.
 * A Python dict never holds a key twice, which `UniqueKeys` states of an association list.
 */
module Dict {
  import opened Wrappers

  type Dict<K, V> = seq<(K, V)>

  /** The keys in insertion order, as `list(d.keys())` gives them. */
  function Keys<K, V>(d: Dict<K, V>): (ks: seq<K>)
    ensures |ks| == |d|
    ensures forall i :: 0 <= i < |d| ==> ks[i] == d[i].0
  {
    if d == [] then [] else [d[0].0] + Keys(d[1..])
  }

  /** `d[k]` when `k in d`, otherwise `None`. */
  function Get<K(==), V>(d: Dict<K, V>, k: K): (r: Option<V>)
    ensures r.Some? <==> k in Keys(d)
    ensures r.Some? ==> (k, r.value) in d
  {
    if d == [] then None
    else if d[0].0 == k then Some(d[0].1)
    else Get(d[1..], k)
  }

  ghost predicate UniqueKeys<K, V>(d: Dict<K, V>) {
    forall i, j :: 0 <= i < j < |d| ==> d[i].0 != d[j].0
  }

  /** In a dict without repeated keys, every entry is what its key looks up. */
  lemma GetEntry<K, V>(d: Dict<K, V>, i: nat)
    requires UniqueKeys(d)
    requires i < |d|
    ensures Get(d, d[i].0) == Some(d[i].1)
  {
    // `Get` finds some binding of the key, and the key has no other binding.
  }
}
