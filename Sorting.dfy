/** Array.prototype.sort with a numeric comparator on one integer key, as
    the order helpers and the orders page use it (`b.createdAt - a.createdAt`
    for newest first, `a.createdAt - b.createdAt` for oldest first). The sort
    is stable, as the language requires since ES2019: it is modelled as an
    insertion sort that puts an element before every later element with the
    same key. */
module Sorting {
  import opened Lists

  /** `a` may come before `b`: keys descending when `newestFirst`, else ascending. */
  predicate InOrder(a: int, b: int, newestFirst: bool) {
    if newestFirst then a >= b else a <= b
  }

  ghost predicate Sorted<T>(s: seq<T>, key: T -> int, newestFirst: bool) {
    forall i, j :: 0 <= i < j < |s| ==> InOrder(key(s[i]), key(s[j]), newestFirst)
  }

  /** y may come before every element of s. */
  ghost predicate PrecedesAll<T>(y: T, s: seq<T>, key: T -> int, newestFirst: bool) {
    forall k :: 0 <= k < |s| ==> InOrder(key(y), key(s[k]), newestFirst)
  }

  /** Whatever may come after y keeps doing so once reordered and joined
      by another element that may come after y. */
  lemma PrecedesPermutation<T>(y: T, s: seq<T>, x: T, t: seq<T>, key: T -> int, newestFirst: bool)
    requires PrecedesAll(y, s, key, newestFirst) && InOrder(key(y), key(x), newestFirst)
    requires multiset(t) == multiset(s) + multiset{x}
    ensures PrecedesAll(y, t, key, newestFirst)
  {
    forall k | 0 <= k < |t| ensures InOrder(key(y), key(t[k]), newestFirst) {
      assert t[k] in multiset(t);
      if t[k] != x {
        assert t[k] in multiset(s);
        var m :| 0 <= m < |s| && s[m] == t[k];
      }
    }
  }

  lemma SortedCons<T>(y: T, t: seq<T>, key: T -> int, newestFirst: bool)
    requires PrecedesAll(y, t, key, newestFirst) && Sorted(t, key, newestFirst)
    ensures Sorted([y] + t, key, newestFirst)
  {
  }

  /** Puts x, which came before every element of s, in front of the first
      element it may precede. */
  function Insert<T>(x: T, s: seq<T>, key: T -> int, newestFirst: bool): (r: seq<T>)
    requires Sorted(s, key, newestFirst)
    ensures Sorted(r, key, newestFirst)
    ensures multiset(r) == multiset(s) + multiset{x}
    ensures |r| == |s| + 1
  {
    if s == [] || InOrder(key(x), key(s[0]), newestFirst) then
      assert PrecedesAll(x, s, key, newestFirst);
      SortedCons(x, s, key, newestFirst);
      [x] + s
    else
      var rest := Insert(x, s[1..], key, newestFirst);
      assert s == [s[0]] + s[1..];
      PrecedesPermutation(s[0], s[1..], x, rest, key, newestFirst);
      SortedCons(s[0], rest, key, newestFirst);
      [s[0]] + rest
  }

  /** The sorted copy of s. */
  function Sort<T>(s: seq<T>, key: T -> int, newestFirst: bool): (r: seq<T>)
    ensures Sorted(r, key, newestFirst)
    ensures multiset(r) == multiset(s)
    ensures |r| == |s|
  {
    if s == [] then []
    else
      assert s == [s[0]] + s[1..];
      Insert(s[0], Sort(s[1..], key, newestFirst), key, newestFirst)
  }

  /** Sorting keeps exactly the elements of the input: one is in the result
      if and only if it is in the input. */
  lemma SortSameElements<T>(s: seq<T>, key: T -> int, newestFirst: bool, x: T)
    ensures x in Sort(s, key, newestFirst) <==> x in s
  {
    var r := Sort(s, key, newestFirst);
    assert x in r <==> x in multiset(r);
    assert x in s <==> x in multiset(s);
  }

  /** The test "has key v". */
  function KeyIs<T>(key: T -> int, v: int): T -> bool {
    (y: T) => key(y) == v
  }

  /** Inserting x leaves the elements of every key in their order, x
      joining those of its own key in front: the elements Insert steps over
      all have a key other than x's. */
  lemma {:induction false} InsertStable<T>(x: T, t: seq<T>, key: T -> int, newestFirst: bool, v: int)
    requires Sorted(t, key, newestFirst)
    ensures Filter(Insert(x, t, key, newestFirst), KeyIs(key, v))
         == (if key(x) == v then [x] else []) + Filter(t, KeyIs(key, v))
  {
    var p := KeyIs(key, v);
    if t == [] || InOrder(key(x), key(t[0]), newestFirst) {
      FilterCons(x, t, p);
    } else {
      var rest := Insert(x, t[1..], key, newestFirst);
      InsertStable(x, t[1..], key, newestFirst, v);
      FilterCons(t[0], rest, p);
      FilterCons(t[0], t[1..], p);
      assert t == [t[0]] + t[1..];
      assert key(x) != key(t[0]);
    }
  }

  /** The sort is stable: the elements sharing any one key come out in the
      order they went in. */
  lemma {:induction false} SortStable<T>(s: seq<T>, key: T -> int, newestFirst: bool, v: int)
    ensures Filter(Sort(s, key, newestFirst), KeyIs(key, v)) == Filter(s, KeyIs(key, v))
  {
    if s != [] {
      SortStable(s[1..], key, newestFirst, v);
      InsertStable(s[0], Sort(s[1..], key, newestFirst), key, newestFirst, v);
    }
  }
}
