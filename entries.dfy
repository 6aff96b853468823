/** A JavaScript object used as a dictionary, as the pages update it with
    `{ ...prev, [key]: value }`: an existing key keeps its position and takes
    the new value, a new key goes last. This insertion order is what
    JavaScript iterates for keys that are not array indices, such as the
    backend's ids. */
module Entries {
  import opened Common

  type Entries<V> = seq<(string, V)>

  predicate DistinctKeys<V>(e: Entries<V>) {
    forall i, j :: 0 <= i < j < |e| ==> e[i].0 != e[j].0
  }

  function Lookup<V>(e: Entries<V>, key: string): (r: Option<V>)
    ensures r.None? <==> forall i :: 0 <= i < |e| ==> e[i].0 != key
  {
    if e == [] then None
    else if e[0].0 == key then Some(e[0].1)
    else Lookup(e[1..], key)
  }

  /** `{ ...e, [key]: value }`. */
  function Put<V>(e: Entries<V>, key: string, value: V): (r: Entries<V>)
    ensures DistinctKeys(e) ==> DistinctKeys(r)
    ensures Lookup(r, key) == Some(value)
    ensures forall k :: k != key ==> Lookup(r, k) == Lookup(e, k)
    ensures forall i :: 0 <= i < |r| ==> r[i].0 == key || exists j :: 0 <= j < |e| && e[j].0 == r[i].0
  {
    if e == [] then [(key, value)]
    else if e[0].0 == key then [(key, value)] + e[1..]
    else [e[0]] + Put(e[1..], key, value)
  }
}
