/** Python's `dict`, which remembers insertion order, as the list of its entries. */
module Dicts {
  import opened Runtime

  type Dict<K, V> = seq<(K, V)>

  /** The keys in insertion order, what iterating the dict yields. */
  function Keys<K, V>(d: Dict<K, V>): (ks: seq<K>)
    ensures |ks| == |d|
    ensures forall i | 0 <= i < |d| :: ks[i] == d[i].0
  {
    if d == [] then [] else [d[0].0] + Keys(d[1..])
  }

  /** No key occurs twice: what every Python dict satisfies. */
  predicate UniqueKeys<K(==), V>(d: Dict<K, V>) {
    forall i, j | 0 <= i < j < |d| :: d[i].0 != d[j].0
  }

  /** `d.get(k)` */
  function Get<K(==), V>(d: Dict<K, V>, k: K): (r: Option<V>)
    ensures r.Some? <==> k in Keys(d)
  {
    if d == [] then None
    else if d[0].0 == k then Some(d[0].1)
    else
      assert Keys(d) == [d[0].0] + Keys(d[1..]);
      Get(d[1..], k)
  }

  /** `d[k] = v`: an existing key keeps its place and takes the new value,
      a new key goes at the end. */
  function Assign<K(==), V>(d: Dict<K, V>, k: K, v: V): (r: Dict<K, V>)
    requires UniqueKeys(d)
    ensures UniqueKeys(r)
    ensures Keys(r) == if k in Keys(d) then Keys(d) else Keys(d) + [k]
  {
    if d == [] then [(k, v)]
    else if d[0].0 == k then
      [(k, v)] + d[1..]
    else
      var rest := Assign(d[1..], k, v);
      assert Keys(d) == [d[0].0] + Keys(d[1..]);
      assert Keys([d[0]] + rest) == [d[0].0] + Keys(rest);
      [d[0]] + rest
  }

  /** After `d[k] = v`, looking up `k` gives `v` and every other key is as before. */
  lemma {:induction false} AssignGet<K, V>(d: Dict<K, V>, k: K, v: V, k': K)
    requires UniqueKeys(d)
    ensures Get(Assign(d, k, v), k') == if k' == k then Some(v) else Get(d, k')
  {
    if d != [] && d[0].0 != k {
      AssignGet(d[1..], k, v, k');
      assert Assign(d, k, v)[1..] == Assign(d[1..], k, v);
    }
  }

  /** Assigning a key the dictionary does not hold appends the pair. */
  lemma {:induction false} AssignNew<K, V>(d: Dict<K, V>, k: K, v: V)
    requires UniqueKeys(d) && k !in Keys(d)
    ensures Assign(d, k, v) == d + [(k, v)]
  {
    if d != [] {
      assert Keys(d) == [d[0].0] + Keys(d[1..]);
      AssignNew(d[1..], k, v);
      assert d == [d[0]] + d[1..];
    }
  }
}
