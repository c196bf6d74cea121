/** A map that remembers insertion order; a key that is set again keeps its place. */
module OrderedMaps {
  import opened Types

  datatype OrderedMap<V> = OrderedMap(order: seq<Id>, at: map<Id, V>)

  predicate Distinct(order: seq<Id>) {
    forall i, j :: 0 <= i < j < |order| ==> order[i] != order[j]
  }

  ghost predicate WellFormed<V>(m: OrderedMap<V>) {
    && Distinct(m.order)
    && (forall k :: k in m.order <==> k in m.at)
  }

  function Empty<V>(): OrderedMap<V> { OrderedMap([], map[]) }

  function Set<V>(m: OrderedMap<V>, k: Id, v: V): OrderedMap<V> {
    OrderedMap(if k in m.at then m.order else m.order + [k], m.at[k := v])
  }

  function Without(order: seq<Id>, k: Id): (rest: seq<Id>)
    ensures |rest| <= |order|
  {
    if order == [] then []
    else if order[0] == k then Without(order[1..], k)
    else [order[0]] + Without(order[1..], k)
  }

  function Remove<V>(m: OrderedMap<V>, k: Id): OrderedMap<V> {
    if k in m.at then OrderedMap(Without(m.order, k), m.at - {k}) else m
  }

  /** Make room for `keep` in a map of at most `max` entries. */
  function DropOldest<V>(m: OrderedMap<V>, max: nat, keep: Id): OrderedMap<V>
    requires max > 0
  {
    if |m.order| < max || keep in m.at then m else Remove(m, m.order[0])
  }

  lemma ConsDistinct(x: Id, rest: seq<Id>)
    requires x !in rest && Distinct(rest)
    ensures Distinct([x] + rest)
  {}

  lemma {:induction false} WithoutMembers(order: seq<Id>, k: Id)
    requires Distinct(order)
    ensures forall x :: x in Without(order, k) <==> x in order && x != k
    ensures Distinct(Without(order, k))
    ensures k in order ==> |Without(order, k)| == |order| - 1
  {
    if order != [] {
      WithoutMembers(order[1..], k);
      assert order == [order[0]] + order[1..];
      assert order[0] !in order[1..];
      if order[0] == k { WithoutAbsent(order[1..], k); } else { ConsDistinct(order[0], Without(order[1..], k)); }
    }
  }

  lemma {:induction false} WithoutAbsent(order: seq<Id>, k: Id)
    requires k !in order
    ensures Without(order, k) == order
  {
    if order != [] {
      WithoutAbsent(order[1..], k);
      assert order == [order[0]] + order[1..];
    }
  }

  lemma RemoveKeeps<V>(m: OrderedMap<V>, k: Id)
    requires WellFormed(m)
    ensures WellFormed(Remove(m, k)) && k !in Remove(m, k).at
    ensures |Remove(m, k).order| == |m.order| - (if k in m.at then 1 else 0)
  {
    WithoutMembers(m.order, k);
  }

  lemma SetTwice<V>(m: OrderedMap<V>, k: Id, v: V, v': V)
    ensures Set(Set(m, k, v), k, v') == Set(m, k, v')
  {}

  lemma SetKeeps<V>(m: OrderedMap<V>, k: Id, v: V)
    requires WellFormed(m)
    ensures WellFormed(Set(m, k, v))
    ensures |Set(m, k, v).order| == |m.order| + (if k in m.at then 0 else 1)
  {}

  /** Dropping first and setting then never exceeds the bound, and never loses the kept key. */
  lemma BoundedSet<V>(m: OrderedMap<V>, max: nat, k: Id, v: V)
    requires WellFormed(m) && max > 0 && |m.order| <= max
    ensures WellFormed(DropOldest(m, max, k)) && (k in m.at <==> k in DropOldest(m, max, k).at)
    ensures WellFormed(Set(DropOldest(m, max, k), k, v)) && |Set(DropOldest(m, max, k), k, v).order| <= max
  {
    if !(|m.order| < max || k in m.at) {
      assert m.order[0] in m.order;
      RemoveKeeps(m, m.order[0]);
    }
    SetKeeps(DropOldest(m, max, k), k, v);
  }
}
