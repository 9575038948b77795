/** Python's `sorted` and prefix slicing, as the grid uses them: a sort by
    a total preorder, the code-point order of `str`, and `s[:k]`. */
module Sorting {

  /** `le` is total and transitive, as the `<` of ints and of strings is. */
  ghost predicate TotalPreorder<T(!new)>(le: (T, T) -> bool) {
    && (forall a, b :: le(a, b) || le(b, a))
    && (forall a, b, c :: le(a, b) && le(b, c) ==> le(a, c))
  }

  ghost predicate SortedBy<T>(s: seq<T>, le: (T, T) -> bool) {
    forall i, j :: 0 <= i < j < |s| ==> le(s[i], s[j])
  }

  /** `x` placed before the first element it does not follow; an element
      equal to `x` in the order stays after it. */
  function Insert<T>(x: T, s: seq<T>, le: (T, T) -> bool): (r: seq<T>)
    ensures multiset(r) == multiset(s) + multiset{x}
  {
    if |s| == 0 then [x]
    else if le(x, s[0]) then [x] + s
    else
      assert s == [s[0]] + s[1..];
      [s[0]] + Insert(x, s[1..], le)
  }

  /** `sorted(s)`: each element is inserted into the sorted rest of the
      list. */
  function Sort<T>(s: seq<T>, le: (T, T) -> bool): (r: seq<T>)
    ensures multiset(r) == multiset(s)
  {
    if |s| == 0 then []
    else
      assert s == [s[0]] + s[1..];
      Insert(s[0], Sort(s[1..], le), le)
  }

  /** `s[:k]`: the first `k` elements, or all of them when there are fewer. */
  function Take<T>(s: seq<T>, k: nat): (r: seq<T>)
    ensures |r| == if |s| < k then |s| else k
    ensures forall i :: 0 <= i < |r| ==> r[i] == s[i]
  {
    if |s| <= k then s else s[..k]
  }

  lemma {:induction false} InsertSorted<T(!new)>(x: T, s: seq<T>, le: (T, T) -> bool)
    requires TotalPreorder(le) && SortedBy(s, le)
    ensures SortedBy(Insert(x, s, le), le)
  {
    if |s| > 0 && !le(x, s[0]) {
      InsertSorted(x, s[1..], le);
      var r := Insert(x, s, le);
      var tail := Insert(x, s[1..], le);
      assert r == [s[0]] + tail;
      forall j | 0 < j < |r| ensures le(s[0], r[j]) {
        assert r[j] in multiset(tail);
        assert r[j] in multiset(s[1..]) + multiset{x};
        if r[j] != x {
          assert r[j] in s[1..];
        }
      }
    }
  }

  /** The result of `sorted` is in order. */
  lemma {:induction false} SortSorted<T(!new)>(s: seq<T>, le: (T, T) -> bool)
    requires TotalPreorder(le)
    ensures SortedBy(Sort(s, le), le)
  {
    if |s| > 0 {
      SortSorted(s[1..], le);
      InsertSorted(s[0], Sort(s[1..], le), le);
    }
  }

  /** Sorting a list that is already in order leaves it as it is. */
  lemma {:induction false} SortOfSorted<T>(s: seq<T>, le: (T, T) -> bool)
    requires SortedBy(s, le)
    ensures Sort(s, le) == s
  {
    if |s| > 0 {
      assert SortedBy(s[1..], le);
      SortOfSorted(s[1..], le);
      if |s| > 1 {
        assert le(s[0], s[1]);
      }
    }
  }

  /** Sorting keeps exactly the elements of the list. */
  lemma SortElements<T>(s: seq<T>, le: (T, T) -> bool)
    ensures |Sort(s, le)| == |s|
    ensures forall x :: x in Sort(s, le) <==> x in s
  {
    var r := Sort(s, le);
    assert |r| == |multiset(r)| == |multiset(s)| == |s|;
    forall x ensures x in r <==> x in s {
      assert x in r <==> x in multiset(r);
      assert x in s <==> x in multiset(s);
    }
  }

  /** The first `k` elements of a sorted list are some of its elements, and
      each of them comes before every element left out. */
  lemma TakeSmallest<T>(s: seq<T>, k: nat, le: (T, T) -> bool)
    requires SortedBy(s, le)
    ensures multiset(Take(s, k)) <= multiset(s)
    ensures forall x, y :: x in Take(s, k) && y in multiset(s) - multiset(Take(s, k)) ==> le(x, y)
  {
    if k < |s| {
      assert s == s[..k] + s[k..];
      assert multiset(s) == multiset(s[..k]) + multiset(s[k..]);
      forall x, y | x in s[..k] && y in multiset(s) - multiset(s[..k]) ensures le(x, y) {
        assert y in s[k..];
        var i :| 0 <= i < k && s[i] == x;
        var j :| 0 <= j < |s| - k && s[k..][j] == y;
        assert s[k + j] == y;
      }
    }
  }

  /** `sorted(s)[:k]`: the first `k` elements in order, or all of them
      when there are fewer; some of the elements of `s`, each coming before
      every element left out. */
  lemma SortTake<T(!new)>(s: seq<T>, k: nat, le: (T, T) -> bool)
    requires TotalPreorder(le)
    ensures |Take(Sort(s, le), k)| == if |s| < k then |s| else k
    ensures SortedBy(Take(Sort(s, le), k), le)
    ensures multiset(Take(Sort(s, le), k)) <= multiset(s)
    ensures forall x, y :: x in Take(Sort(s, le), k) && y in multiset(s) - multiset(Take(Sort(s, le), k)) ==>
      le(x, y)
    ensures |s| <= k ==> multiset(Take(Sort(s, le), k)) == multiset(s)
  {
    var sorted := Sort(s, le);
    SortSorted(s, le);
    SortElements(s, le);
    TakeSmallest(sorted, k, le);
  }

  /** The order of `str`: code point by code point, a proper prefix first. */
  function LexLe(a: string, b: string): bool {
    |a| == 0 || (|b| > 0 && (a[0] < b[0] || (a[0] == b[0] && LexLe(a[1..], b[1..]))))
  }

  lemma {:induction false} LexLeTotal(a: string, b: string)
    ensures LexLe(a, b) || LexLe(b, a)
  {
    if |a| > 0 && |b| > 0 && a[0] == b[0] {
      LexLeTotal(a[1..], b[1..]);
    }
  }

  lemma {:induction false} LexLeTransitive(a: string, b: string, c: string)
    requires LexLe(a, b) && LexLe(b, c)
    ensures LexLe(a, c)
  {
    if |a| > 0 && a[0] == b[0] && b[0] == c[0] {
      LexLeTransitive(a[1..], b[1..], c[1..]);
    }
  }

  lemma LexOrder()
    ensures TotalPreorder(LexLe)
  {
    forall a, b ensures LexLe(a, b) || LexLe(b, a) {
      LexLeTotal(a, b);
    }
    forall a, b, c | LexLe(a, b) && LexLe(b, c) ensures LexLe(a, c) {
      LexLeTransitive(a, b, c);
    }
  }
}
