/** Python's `sorted(xs, key=..., reverse=...)` on real-valued keys: a
    stable sort, ascending or (with `reverse=True`) descending, in which
    elements with equal keys keep their original order in both directions. */
module Sorting {

  /** An element paired with the sort key Python computed for it. */
  datatype Keyed<T> = Keyed(key: real, item: T)

  /** `a` may come before `b` in the requested direction. */
  predicate Before(a: real, b: real, descending: bool) {
    if descending then a >= b else a <= b
  }

  predicate SortedBy<T>(s: seq<Keyed<T>>, descending: bool) {
    forall i, j :: 0 <= i < j < |s| ==> Before(s[i].key, s[j].key, descending)
  }

  /** Inserts `x`, which came before every element of `s` in the input,
      ahead of the first element it may precede. */
  function Insert<T>(x: Keyed<T>, s: seq<Keyed<T>>, descending: bool): (r: seq<Keyed<T>>)
    requires SortedBy(s, descending)
    ensures SortedBy(r, descending)
    ensures |r| == |s| + 1
    ensures r[0] == x || (s != [] && r[0] == s[0])
  {
    if s == [] || Before(x.key, s[0].key, descending) then [x] + s
    else
      var t := Insert(x, s[1..], descending);
      assert Before(s[0].key, t[0].key, descending);
      [s[0]] + t
  }

  /** Inserting adds exactly the one element. */
  lemma {:induction false} InsertAddsOne<T>(x: Keyed<T>, s: seq<Keyed<T>>, descending: bool)
    requires SortedBy(s, descending)
    ensures multiset(Insert(x, s, descending)) == multiset(s) + multiset{x}
  {
    if s != [] && !Before(x.key, s[0].key, descending) {
      InsertAddsOne(x, s[1..], descending);
      assert s == [s[0]] + s[1..];
    }
  }

  /** `sorted(s, key=..., reverse=descending)` */
  function Sort<T>(s: seq<Keyed<T>>, descending: bool): (r: seq<Keyed<T>>)
    ensures SortedBy(r, descending)
    ensures multiset(r) == multiset(s)
    ensures |r| == |s|
  {
    if s == [] then []
    else
      assert s == [s[0]] + s[1..];
      InsertAddsOne(s[0], Sort(s[1..], descending), descending);
      Insert(s[0], Sort(s[1..], descending), descending)
  }

  function Items<T>(s: seq<Keyed<T>>): (r: seq<T>)
    ensures |r| == |s| && forall i :: 0 <= i < |s| ==> r[i] == s[i].item
  {
    if s == [] then [] else [s[0].item] + Items(s[1..])
  }

  /** The elements whose key is `k`, in order. */
  function WithKey<T>(s: seq<Keyed<T>>, k: real): seq<Keyed<T>> {
    if s == [] then [] else (if s[0].key == k then [s[0]] else []) + WithKey(s[1..], k)
  }

  lemma {:induction false} InsertWithKey<T>(x: Keyed<T>, s: seq<Keyed<T>>, descending: bool, k: real)
    requires SortedBy(s, descending)
    ensures WithKey(Insert(x, s, descending), k) == (if x.key == k then [x] else []) + WithKey(s, k)
  {
    var here: seq<Keyed<T>> := if x.key == k then [x] else [];
    if s == [] || Before(x.key, s[0].key, descending) {
      assert ([x] + s)[1..] == s;
    } else {
      var t := Insert(x, s[1..], descending);
      var first: seq<Keyed<T>> := if s[0].key == k then [s[0]] else [];
      assert Insert(x, s, descending) == [s[0]] + t;
      assert ([s[0]] + t)[1..] == t;
      assert WithKey([s[0]] + t, k) == first + WithKey(t, k);
      InsertWithKey(x, s[1..], descending, k);
      assert WithKey(s, k) == first + WithKey(s[1..], k);
      assert x.key != s[0].key;
      assert first == [] || here == [];
      calc {
        first + WithKey(t, k);
        first + (here + WithKey(s[1..], k));
        { assert first == [] || here == []; }
        here + (first + WithKey(s[1..], k));
      }
    }
  }

  /** Stability: among elements with the same key, the sort keeps the input
      order (in both directions, as Python's `sorted` does). */
  lemma {:induction false} SortIsStable<T>(s: seq<Keyed<T>>, descending: bool, k: real)
    ensures WithKey(Sort(s, descending), k) == WithKey(s, k)
  {
    if s != [] {
      SortIsStable(s[1..], descending, k);
      InsertWithKey(s[0], Sort(s[1..], descending), descending, k);
    }
  }

  /** A sequence already in order comes back unchanged. */
  lemma {:induction false} SortOfSortedIsIdentity<T>(s: seq<Keyed<T>>, descending: bool)
    requires SortedBy(s, descending)
    ensures Sort(s, descending) == s
  {
    if s != [] {
      SortOfSortedIsIdentity(s[1..], descending);
      assert Sort(s[1..], descending) == s[1..];
      if |s| > 1 {
        assert Before(s[0].key, s[1].key, descending);
      }
      assert [s[0]] + s[1..] == s;
    }
  }

  lemma {:induction false} InsertItems<T>(x: Keyed<T>, s: seq<Keyed<T>>, descending: bool)
    requires SortedBy(s, descending)
    ensures multiset(Items(Insert(x, s, descending))) == multiset(Items(s)) + multiset{x.item}
  {
    if s == [] || Before(x.key, s[0].key, descending) {
      assert ([x] + s)[1..] == s;
    } else {
      var t := Insert(x, s[1..], descending);
      assert ([s[0]] + t)[1..] == t;
      InsertItems(x, s[1..], descending);
    }
  }

  /** Sorting only reorders the elements. */
  lemma {:induction false} SortItemsPermutation<T>(s: seq<Keyed<T>>, descending: bool)
    ensures multiset(Items(Sort(s, descending))) == multiset(Items(s))
  {
    if s != [] {
      SortItemsPermutation(s[1..], descending);
      InsertItems(s[0], Sort(s[1..], descending), descending);
    }
  }

  /** Every key is `f` of its element. */
  predicate KeysBy<T>(s: seq<Keyed<T>>, f: T -> real) {
    forall i :: 0 <= i < |s| ==> s[i].key == f(s[i].item)
  }

  /** Sorting elements keyed by `f` orders their items by `f`. */
  lemma SortOrdersItems<T>(s: seq<Keyed<T>>, descending: bool, f: T -> real)
    requires KeysBy(s, f)
    ensures var r := Items(Sort(s, descending));
      forall i, j :: 0 <= i < j < |r| ==> Before(f(r[i]), f(r[j]), descending)
  {
    var t := Sort(s, descending);
    forall i | 0 <= i < |t| ensures t[i].key == f(t[i].item) {
      assert t[i] in multiset(s);
    }
  }
}
