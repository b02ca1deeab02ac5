/** The key order of a JavaScript `Map`: `set` of a new key appends it, `set` of a
    present key keeps its place, `delete` removes it; `values()` walks the keys in
    that order. A store keeps this order beside a Dafny `map` of its entries. */
module OrderedMaps {

  ghost predicate Distinct<K(!new)>(s: seq<K>) {
    forall i, j :: 0 <= i < j < |s| ==> s[i] != s[j]
  }

  /** `order` lists the keys of `m`, each once. */
  ghost predicate Consistent<K(!new), V>(order: seq<K>, m: map<K, V>) {
    Distinct(order) && (forall k :: k in order <==> k in m)
  }

  /** The key order after `map.set(k, _)`. */
  function KeysAfterSet<K(==,!new)>(order: seq<K>, k: K): (r: seq<K>)
    ensures forall x :: x in r <==> x in order || x == k
  {
    if k in order then order else order + [k]
  }

  /** The key order after `map.delete(k)`. */
  function KeysAfterDelete<K(==,!new)>(order: seq<K>, k: K): (r: seq<K>)
    ensures forall x :: x in r <==> x in order && x != k
    ensures |r| <= |order|
  {
    if order == [] then []
    else if order[0] == k then KeysAfterDelete(order[1..], k)
    else [order[0]] + KeysAfterDelete(order[1..], k)
  }

  lemma SetKeepsConsistent<K(!new), V>(order: seq<K>, m: map<K, V>, k: K, v: V)
    requires Consistent(order, m)
    ensures Consistent(KeysAfterSet(order, k), m[k := v])
    ensures k !in m ==> |KeysAfterSet(order, k)| == |order| + 1
    ensures k in m ==> KeysAfterSet(order, k) == order
  {
  }

  lemma {:induction false} DeleteKeepsDistinct<K(!new)>(order: seq<K>, k: K)
    requires Distinct(order)
    ensures Distinct(KeysAfterDelete(order, k))
  {
    if order != [] {
      DeleteKeepsDistinct(order[1..], k);
      var rest := KeysAfterDelete(order[1..], k);
      assert order[0] !in order[1..];
      assert order[0] !in rest;
    }
  }

  lemma DeleteKeepsConsistent<K(!new), V>(order: seq<K>, m: map<K, V>, k: K)
    requires Consistent(order, m)
    ensures Consistent(KeysAfterDelete(order, k), m - {k})
  {
    DeleteKeepsDistinct(order, k);
  }

  /** `Array.from(map.values())`. */
  function Values<K(==,!new), V>(order: seq<K>, m: map<K, V>): (vs: seq<V>)
    requires forall k :: k in order ==> k in m
    ensures |vs| == |order|
    ensures forall i :: 0 <= i < |order| ==> vs[i] == m[order[i]]
  {
    seq(|order|, i requires 0 <= i < |order| => m[order[i]])
  }
}
