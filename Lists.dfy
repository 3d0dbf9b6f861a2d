/** The Array.prototype methods the console uses to derive a new list from
    an old one: `filter`, `map` that rewrites the elements a test selects,
    and `find`. Each is written element by element, as the language defines
    it, and the lemmas state what the result holds. */
module Lists {
  import opened Common

  /** `s.filter(keep)`. */
  function Filter<T>(s: seq<T>, keep: T -> bool): seq<T> {
    if s == [] then [] else (if keep(s[0]) then [s[0]] else []) + Filter(s[1..], keep)
  }

  /** Filtering keeps exactly the elements that pass the test, never adds
      one, and never makes the list longer. */
  lemma FilterMembers<T>(s: seq<T>, keep: T -> bool)
    ensures |Filter(s, keep)| <= |s|
    ensures multiset(Filter(s, keep)) <= multiset(s)
    ensures forall x :: x in Filter(s, keep) <==> x in s && keep(x)
  {
    FilterLength(s, keep);
    forall x ensures (x in Filter(s, keep) <==> x in s && keep(x))
                  && multiset(Filter(s, keep))[x] <= multiset(s)[x] {
      FilterCount(s, keep, x);
      assert x in Filter(s, keep) <==> x in multiset(Filter(s, keep));
      assert x in s <==> x in multiset(s);
    }
  }

  lemma {:induction false} FilterLength<T>(s: seq<T>, keep: T -> bool)
    ensures |Filter(s, keep)| <= |s|
  {
    if s != [] {
      FilterLength(s[1..], keep);
    }
  }

  /** Filtering a list with one more element in front. */
  lemma FilterCons<T>(a: T, t: seq<T>, keep: T -> bool)
    ensures Filter([a] + t, keep) == (if keep(a) then [a] else []) + Filter(t, keep)
  {
    assert ([a] + t)[0] == a && ([a] + t)[1..] == t;
  }

  /** Every element passes: nothing is dropped. */
  lemma {:induction false} FilterKeepsAll<T>(s: seq<T>, keep: T -> bool)
    requires forall i :: 0 <= i < |s| ==> keep(s[i])
    ensures Filter(s, keep) == s
  {
    if s != [] {
      FilterKeepsAll(s[1..], keep);
      assert s == [s[0]] + s[1..];
    }
  }

  /** No element passes: the result is empty. */
  lemma {:induction false} FilterKeepsNone<T>(s: seq<T>, keep: T -> bool)
    requires forall i :: 0 <= i < |s| ==> !keep(s[i])
    ensures Filter(s, keep) == []
  {
    if s != [] {
      FilterKeepsNone(s[1..], keep);
    }
  }

  /** Filtering works piece by piece: the kept elements keep their order. */
  lemma {:induction false} FilterAppend<T>(a: seq<T>, b: seq<T>, keep: T -> bool)
    ensures Filter(a + b, keep) == Filter(a, keep) + Filter(b, keep)
  {
    if a == [] {
      assert a + b == b;
    } else {
      var h := if keep(a[0]) then [a[0]] else [];
      FilterAppend(a[1..], b, keep);
      assert (a + b)[0] == a[0] && (a + b)[1..] == a[1..] + b;
      calc {
        Filter(a + b, keep);
        h + Filter(a[1..] + b, keep);
        h + (Filter(a[1..], keep) + Filter(b, keep));
        (h + Filter(a[1..], keep)) + Filter(b, keep);
      }
    }
  }

  /** Each element that passes is kept as often as it occurs; every other
      one is gone. */
  lemma {:induction false} FilterCount<T>(s: seq<T>, keep: T -> bool, x: T)
    ensures multiset(Filter(s, keep))[x] == if keep(x) then multiset(s)[x] else 0
  {
    if s != [] {
      FilterCount(s[1..], keep, x);
      assert s == [s[0]] + s[1..];
    }
  }

  /** When exactly the element at k fails the test, filtering removes that
      one position and keeps the others in order. */
  lemma {:induction false} FilterRemovesAt<T>(s: seq<T>, keep: T -> bool, k: int)
    requires 0 <= k < |s| && !keep(s[k])
    requires forall i :: 0 <= i < |s| && i != k ==> keep(s[i])
    ensures Filter(s, keep) == s[..k] + s[k + 1..]
  {
    var rest := s[1..];
    assert forall i :: 0 <= i < |rest| ==> rest[i] == s[i + 1];
    if k == 0 {
      FilterKeepsAll(rest, keep);
    } else {
      FilterRemovesAt(rest, keep, k - 1);
      assert rest[..k - 1] == s[1..k] && rest[k..] == s[k + 1..];
      assert [s[0]] + s[1..k] == s[..k];
    }
  }

  /** `s.map(x => sel(x) ? f(x) : x)`: rewrites the selected elements. */
  function MapWhere<T>(s: seq<T>, sel: T -> bool, f: T -> T): seq<T> {
    if s == [] then [] else [if sel(s[0]) then f(s[0]) else s[0]] + MapWhere(s[1..], sel, f)
  }

  /** Rewriting keeps the length and the position of every element; the
      selected ones are rewritten and the others are left as they were. */
  lemma {:induction false} MapWhereAt<T>(s: seq<T>, sel: T -> bool, f: T -> T)
    ensures |MapWhere(s, sel, f)| == |s|
    ensures forall i :: 0 <= i < |s| ==> MapWhere(s, sel, f)[i] == if sel(s[i]) then f(s[i]) else s[i]
  {
    if s != [] {
      MapWhereAt(s[1..], sel, f);
      var r := MapWhere(s, sel, f);
      forall i | 1 <= i < |s| ensures r[i] == if sel(s[i]) then f(s[i]) else s[i] {
        assert r[i] == MapWhere(s[1..], sel, f)[i - 1];
        assert s[1..][i - 1] == s[i];
      }
    }
  }

  /** `s.find(test)`: the first element that passes, or undefined. */
  function Find<T>(s: seq<T>, test: T -> bool): Option<T> {
    if s == [] then None else if test(s[0]) then Some(s[0]) else Find(s[1..], test)
  }

  /** Find returns the element at the first passing position, and None
      exactly when no element passes. */
  lemma {:induction false} FindFirst<T>(s: seq<T>, test: T -> bool)
    ensures Find(s, test).None? <==> forall i :: 0 <= i < |s| ==> !test(s[i])
    ensures Find(s, test).Some? ==>
      exists k :: 0 <= k < |s| && s[k] == Find(s, test).value && test(s[k])
        && forall i :: 0 <= i < k ==> !test(s[i])
  {
    if s != [] && !test(s[0]) {
      FindFirst(s[1..], test);
      if Find(s[1..], test).Some? {
        var k :| 0 <= k < |s[1..]| && s[1..][k] == Find(s[1..], test).value && test(s[1..][k])
          && forall i :: 0 <= i < k ==> !test(s[1..][i]);
        assert s[k + 1] == s[1..][k];
        assert forall i :: 1 <= i < k + 1 ==> s[i] == s[1..][i - 1];
      }
      assert forall i :: 1 <= i < |s| ==> s[i] == s[1..][i - 1];
    } else if s != [] {
      assert s[0] == Find(s, test).value;
    }
  }
}
