/** Python dictionaries as the model sees them: the ordered list of items
    (the order in which `d.items()` and `d.keys()` yield them) and the lookup
    map that the items denote. */
module Dicts {

  function Keys<K, V>(items: seq<(K, V)>): (ks: seq<K>)
    ensures |ks| == |items|
    ensures forall i :: 0 <= i < |items| ==> ks[i] == items[i].0
  {
    seq(|items|, i requires 0 <= i < |items| => items[i].0)
  }

  function Values<K, V>(items: seq<(K, V)>): (vs: seq<V>)
    ensures |vs| == |items|
    ensures forall i :: 0 <= i < |items| ==> vs[i] == items[i].1
  {
    seq(|items|, i requires 0 <= i < |items| => items[i].1)
  }

  /** Every item turned round: `(k, v)` becomes `(v, k)`. */
  function Swapped<K, V>(items: seq<(K, V)>): (r: seq<(V, K)>)
    ensures |r| == |items|
    ensures forall i :: 0 <= i < |items| ==> r[i] == (items[i].1, items[i].0)
  {
    seq(|items|, i requires 0 <= i < |items| => (items[i].1, items[i].0))
  }

  /** No element occurs twice. */
  ghost predicate Distinct<T>(s: seq<T>) {
    forall j :: 0 <= j < |s| ==> forall i :: 0 <= i < j ==> s[i] != s[j]
  }

  /** No element of `s` occurs in `t`. */
  ghost predicate Disjoint<T>(s: seq<T>, t: seq<T>) {
    forall j :: 0 <= j < |t| ==> forall i :: 0 <= i < |s| ==> s[i] != t[j]
  }

  lemma DistinctConcat<T>(s: seq<T>, t: seq<T>)
    requires Distinct(s) && Distinct(t) && Disjoint(s, t)
    ensures Distinct(s + t)
  {
    forall i, j | 0 <= i < j < |s + t| ensures (s + t)[i] != (s + t)[j] {
      if j < |s| {
      } else if i < |s| {
        assert (s + t)[i] == s[i] && (s + t)[j] == t[j - |s|];
      } else {
        assert (s + t)[i] == t[i - |s|] && (s + t)[j] == t[j - |s|];
      }
    }
  }

  lemma DisjointConcat<T>(a: seq<T>, b: seq<T>, c: seq<T>)
    requires Disjoint(a, c) && Disjoint(b, c)
    ensures Disjoint(a + b, c)
  {
    forall i, j | 0 <= i < |a + b| && 0 <= j < |c| ensures (a + b)[i] != c[j] {
      if i >= |a| {
        assert (a + b)[i] == b[i - |a|];
      }
    }
  }

  lemma KeysConcat<K, V>(a: seq<(K, V)>, b: seq<(K, V)>)
    ensures Keys(a + b) == Keys(a) + Keys(b)
  {
  }

  lemma ValuesConcat<K, V>(a: seq<(K, V)>, b: seq<(K, V)>)
    ensures Values(a + b) == Values(a) + Values(b)
  {
  }

  /** The dictionary that the literal `{k0: v0, k1: v1, ...}` denotes: a
      later entry for a key overrides an earlier one. */
  function ToMap<K, V>(items: seq<(K, V)>): map<K, V>
  {
    if |items| == 0 then map[]
    else ToMap(items[..|items| - 1])[items[|items| - 1].0 := items[|items| - 1].1]
  }

  /** The keys of the dictionary are exactly the keys listed. */
  lemma {:induction false} ToMapKeys<K, V>(items: seq<(K, V)>)
    ensures ToMap(items).Keys == set i | 0 <= i < |items| :: items[i].0
  {
    if |items| > 0 {
      var front := items[..|items| - 1];
      ToMapKeys(front);
      assert forall i :: 0 <= i < |front| ==> front[i] == items[i];
      assert (set i | 0 <= i < |items| :: items[i].0)
          == (set i | 0 <= i < |front| :: front[i].0) + {items[|items| - 1].0};
    }
  }

  /** With distinct keys, each listed item is what the dictionary holds. */
  lemma {:induction false} ToMapAt<K, V>(items: seq<(K, V)>, i: int)
    requires Distinct(Keys(items))
    requires 0 <= i < |items|
    ensures items[i].0 in ToMap(items) && ToMap(items)[items[i].0] == items[i].1
  {
    var front := items[..|items| - 1];
    if i < |items| - 1 {
      assert Keys(front) == Keys(items)[..|items| - 1];
      ToMapAt(front, i);
      assert items[i].0 != items[|items| - 1].0 by {
        assert Keys(items)[i] != Keys(items)[|items| - 1];
      }
    }
  }

  /** With distinct keys the dictionary has one entry per listed item. */
  lemma {:induction false} ToMapSize<K, V>(items: seq<(K, V)>)
    requires Distinct(Keys(items))
    ensures |ToMap(items)| == |items|
  {
    if |items| > 0 {
      var front := items[..|items| - 1];
      var last := items[|items| - 1];
      assert Keys(front) == Keys(items)[..|items| - 1];
      ToMapSize(front);
      ToMapKeys(front);
      forall i | 0 <= i < |front| ensures front[i].0 != last.0 {
        assert Keys(items)[i] != Keys(items)[|items| - 1];
      }
      assert last.0 !in ToMap(front);
    }
  }

  /** `d[k] = v` on an ordered dictionary: the value of an existing key is
      replaced where it stands, a new key is appended at the end. */
  function Assign<K(==), V>(d: seq<(K, V)>, k: K, v: V): seq<(K, V)>
  {
    if |d| == 0 then [(k, v)]
    else if d[0].0 == k then [(k, v)] + d[1..]
    else [d[0]] + Assign(d[1..], k, v)
  }

  /** The comprehension `{v: k for k, v in d.items()}`, item by item. */
  function Invert<K, V(==)>(items: seq<(K, V)>): seq<(V, K)>
  {
    if |items| == 0 then []
    else Assign(Invert(items[..|items| - 1]), items[|items| - 1].1, items[|items| - 1].0)
  }

  /** Assigning a key that is not yet present appends it. */
  lemma {:induction false} AssignFresh<K, V>(d: seq<(K, V)>, k: K, v: V)
    requires forall i :: 0 <= i < |d| ==> d[i].0 != k
    ensures Assign(d, k, v) == d + [(k, v)]
  {
    if |d| > 0 {
      AssignFresh(d[1..], k, v);
    }
  }

  /** When no value is listed twice, inverting just turns every item round,
      keeping the order of the original items. */
  lemma {:induction false} InvertInjective<K, V>(items: seq<(K, V)>)
    requires Distinct(Values(items))
    ensures Invert(items) == Swapped(items)
  {
    if |items| > 0 {
      var front := items[..|items| - 1];
      var last := items[|items| - 1];
      assert Values(front) == Values(items)[..|items| - 1];
      InvertInjective(front);
      forall i | 0 <= i < |front| ensures Swapped(front)[i].0 != last.1 {
        assert Values(items)[i] != Values(items)[|items| - 1];
      }
      AssignFresh(Swapped(front), last.1, last.0);
      assert Swapped(front) + [(last.1, last.0)] == Swapped(items);
    }
  }

  /** A key of the dictionary is the key of some listed item. */
  lemma ToMapIndex<K, V>(items: seq<(K, V)>, k: K) returns (i: int)
    requires k in ToMap(items)
    ensures 0 <= i < |items| && items[i].0 == k
  {
    ToMapKeys(items);
    i :| 0 <= i < |items| && items[i].0 == k;
  }

  /** Looking a key up in `fwd` and the result up in `inv` gives the key back. */
  ghost predicate Undoes<K, V>(fwd: map<K, V>, inv: map<V, K>) {
    forall k :: k in fwd ==> fwd[k] in inv && inv[fwd[k]] == k
  }

  lemma SwappedKeys<K, V>(items: seq<(K, V)>)
    ensures Keys(Swapped(items)) == Values(items)
  {
  }

  /** Looking an item's key up, and then its value up in the turned-round
      list, leads back to the key. */
  lemma SwappedUndoesAt<K, V>(items: seq<(K, V)>, k: K)
    requires Distinct(Keys(items)) && Distinct(Values(items))
    requires k in ToMap(items)
    ensures ToMap(items)[k] in ToMap(Swapped(items))
    ensures ToMap(Swapped(items))[ToMap(items)[k]] == k
  {
    SwappedKeys(items);
    var i := ToMapIndex(items, k);
    ToMapAt(items, i);
    ToMapAt(Swapped(items), i);
  }

  lemma SwappedUndoes<K, V>(items: seq<(K, V)>)
    requires Distinct(Keys(items)) && Distinct(Values(items))
    ensures Undoes(ToMap(items), ToMap(Swapped(items)))
  {
    forall k | k in ToMap(items) {
      SwappedUndoesAt(items, k);
    }
  }

  /** Looking a value up in the turned-round list, and then the result up
      in the original, leads back to the value. */
  lemma SwappedUndoneAt<K, V>(items: seq<(K, V)>, v: V)
    requires Distinct(Keys(items)) && Distinct(Values(items))
    requires v in ToMap(Swapped(items))
    ensures ToMap(Swapped(items))[v] in ToMap(items)
    ensures ToMap(items)[ToMap(Swapped(items))[v]] == v
  {
    SwappedKeys(items);
    var i := ToMapIndex(Swapped(items), v);
    ToMapAt(items, i);
    ToMapAt(Swapped(items), i);
  }

  lemma SwappedUndone<K, V>(items: seq<(K, V)>)
    requires Distinct(Keys(items)) && Distinct(Values(items))
    ensures Undoes(ToMap(Swapped(items)), ToMap(items))
  {
    forall v | v in ToMap(Swapped(items)) {
      SwappedUndoneAt(items, v);
    }
  }

  /** Turning round a list with distinct keys and distinct values gives a
      dictionary that undoes the original one, and the other way round. */
  lemma SwappedRoundTrip<K, V>(items: seq<(K, V)>)
    requires Distinct(Keys(items)) && Distinct(Values(items))
    ensures |ToMap(Swapped(items))| == |ToMap(items)| == |items|
    ensures Undoes(ToMap(items), ToMap(Swapped(items)))
    ensures Undoes(ToMap(Swapped(items)), ToMap(items))
  {
    SwappedKeys(items);
    ToMapSize(items);
    ToMapSize(Swapped(items));
    SwappedUndoes(items);
    SwappedUndone(items);
  }

  /** The inverse of a one-to-one dictionary has as many entries as the
      dictionary, and each undoes the other. */
  lemma InvertRoundTrip<K, V>(items: seq<(K, V)>)
    requires Distinct(Keys(items)) && Distinct(Values(items))
    ensures |ToMap(Invert(items))| == |ToMap(items)| == |items|
    ensures Undoes(ToMap(items), ToMap(Invert(items)))
    ensures Undoes(ToMap(Invert(items)), ToMap(items))
  {
    InvertInjective(items);
    SwappedRoundTrip(items);
  }
}
