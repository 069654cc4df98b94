/**
 * `Array.prototype.sort` with a comparator. The engine's sort is stable
 * (ECMAScript 2019 onwards), and for a comparator that is a total preorder
 * there is exactly one stable sorted permutation, so a stable insertion sort
 * has the same result as the engine's sort.
 */
module Sorting {

  /** A comparator that orders consistently: sign-antisymmetric and transitive. */
  ghost predicate TotalPreorder<T(!new)>(cmp: (T, T) -> int) {
    (forall a, b :: cmp(a, b) < 0 <==> cmp(b, a) > 0)
    && (forall a, b, c :: cmp(a, b) <= 0 && cmp(b, c) <= 0 ==> cmp(a, c) <= 0)
  }

  /** Every element precedes or ties with every later element. */
  predicate Sorted<T>(s: seq<T>, cmp: (T, T) -> int) {
    forall i, j :: 0 <= i < j < |s| ==> cmp(s[i], s[j]) <= 0
  }

  /** Places `x` in front of the first element it does not come after. */
  function Insert<T>(x: T, s: seq<T>, cmp: (T, T) -> int): (r: seq<T>)
    ensures multiset(r) == multiset(s) + multiset{x}
    ensures |r| == |s| + 1
  {
    if s == [] then [x]
    else if cmp(x, s[0]) <= 0 then [x] + s
    else
      assert s == [s[0]] + s[1..];
      [s[0]] + Insert(x, s[1..], cmp)
  }

  /** Stable insertion sort: `s.slice().sort(cmp)`. */
  function Sort<T>(s: seq<T>, cmp: (T, T) -> int): (r: seq<T>)
    ensures multiset(r) == multiset(s)
    ensures |r| == |s|
  {
    if s == [] then []
    else
      assert s == [s[0]] + s[1..];
      Insert(s[0], Sort(s[1..], cmp), cmp)
  }

  /** `y` precedes or ties with every element of `s`. */
  predicate LowerBound<T>(y: T, s: seq<T>, cmp: (T, T) -> int) {
    forall k :: 0 <= k < |s| ==> cmp(y, s[k]) <= 0
  }

  lemma SortedCons<T>(y: T, t: seq<T>, cmp: (T, T) -> int)
    ensures Sorted([y] + t, cmp) <==> LowerBound(y, t, cmp) && Sorted(t, cmp)
  {
    var r := [y] + t;
    if LowerBound(y, t, cmp) && Sorted(t, cmp) {
      forall i, j | 0 <= i < j < |r|
        ensures cmp(r[i], r[j]) <= 0
      {
        if i > 0 {
          assert r[i] == t[i - 1] && r[j] == t[j - 1];
        }
      }
    }
    if Sorted(r, cmp) {
      forall i, j | 0 <= i < j < |t|
        ensures cmp(t[i], t[j]) <= 0
      {
        assert t[i] == r[i + 1] && t[j] == r[j + 1];
      }
      forall k | 0 <= k < |t|
        ensures cmp(y, t[k]) <= 0
      {
        assert r[0] == y && r[k + 1] == t[k];
      }
    }
  }

  lemma Transitive<T(!new)>(a: T, b: T, c: T, cmp: (T, T) -> int)
    requires TotalPreorder(cmp)
    requires cmp(a, b) <= 0 && cmp(b, c) <= 0
    ensures cmp(a, c) <= 0
  {
  }

  /** A bound below the first element of a sorted list bounds all of it. */
  lemma LowerBoundOfSorted<T(!new)>(y: T, s: seq<T>, cmp: (T, T) -> int)
    requires TotalPreorder(cmp)
    requires Sorted(s, cmp) && s != [] && cmp(y, s[0]) <= 0
    ensures LowerBound(y, s, cmp)
  {
    forall k | 0 <= k < |s|
      ensures cmp(y, s[k]) <= 0
    {
      if k > 0 {
        Transitive(y, s[0], s[k], cmp);
      }
    }
  }

  lemma {:induction false} InsertKeepsLowerBound<T>(y: T, x: T, s: seq<T>, cmp: (T, T) -> int)
    requires LowerBound(y, s, cmp) && cmp(y, x) <= 0
    ensures LowerBound(y, Insert(x, s, cmp), cmp)
  {
    if s != [] && cmp(x, s[0]) > 0 {
      InsertKeepsLowerBound(y, x, s[1..], cmp);
      var r := Insert(x, s, cmp);
      forall k | 0 <= k < |r|
        ensures cmp(y, r[k]) <= 0
      {
        if k > 0 {
          assert r[k] == Insert(x, s[1..], cmp)[k - 1];
        }
      }
    }
  }

  lemma {:induction false} InsertSorted<T(!new)>(x: T, s: seq<T>, cmp: (T, T) -> int)
    requires TotalPreorder(cmp)
    requires Sorted(s, cmp)
    ensures Sorted(Insert(x, s, cmp), cmp)
  {
    if s == [] {
    } else {
      SortedCons(s[0], s[1..], cmp);
      assert s == [s[0]] + s[1..];
      if cmp(x, s[0]) <= 0 {
        LowerBoundOfSorted(x, s, cmp);
        SortedCons(x, s, cmp);
      } else {
        assert cmp(s[0], x) < 0;
        InsertSorted(x, s[1..], cmp);
        InsertKeepsLowerBound(s[0], x, s[1..], cmp);
        SortedCons(s[0], Insert(x, s[1..], cmp), cmp);
      }
    }
  }

  /** The result is ordered by the comparator. */
  lemma {:induction false} SortSorted<T(!new)>(s: seq<T>, cmp: (T, T) -> int)
    requires TotalPreorder(cmp)
    ensures Sorted(Sort(s, cmp), cmp)
  {
    if s != [] {
      SortSorted(s[1..], cmp);
      InsertSorted(s[0], Sort(s[1..], cmp), cmp);
    }
  }

  lemma {:induction false} InsertFrontOfSorted<T>(x: T, s: seq<T>, cmp: (T, T) -> int)
    requires s == [] || cmp(x, s[0]) <= 0
    ensures Insert(x, s, cmp) == [x] + s
  {
  }

  /** Sorting an already ordered list leaves it as it is, so sorting is idempotent. */
  lemma {:induction false} SortOfSortedIsIdentity<T>(s: seq<T>, cmp: (T, T) -> int)
    requires Sorted(s, cmp)
    ensures Sort(s, cmp) == s
  {
    if s != [] {
      var t := s[1..];
      assert s == [s[0]] + t;
      SortedCons(s[0], t, cmp);
      SortOfSortedIsIdentity(t, cmp);
      InsertFrontOfSorted(s[0], t, cmp);
    }
  }

  lemma SortIdempotent<T(!new)>(s: seq<T>, cmp: (T, T) -> int)
    requires TotalPreorder(cmp)
    ensures Sort(Sort(s, cmp), cmp) == Sort(s, cmp)
  {
    SortSorted(s, cmp);
    SortOfSortedIsIdentity(Sort(s, cmp), cmp);
  }

  /** Two comparators that agree on every pair of elements of `s`. */
  ghost predicate AgreeOn<T>(s: seq<T>, c1: (T, T) -> int, c2: (T, T) -> int) {
    forall a, b :: a in s && b in s ==> c1(a, b) == c2(a, b)
  }

  lemma {:induction false} InsertCongruent<T>(x: T, s: seq<T>, c1: (T, T) -> int, c2: (T, T) -> int)
    requires AgreeOn([x] + s, c1, c2)
    ensures Insert(x, s, c1) == Insert(x, s, c2)
  {
    if s != [] {
      assert x in [x] + s && s[0] in [x] + s;
      var t := s[1..];
      forall a, b | a in [x] + t && b in [x] + t
        ensures c1(a, b) == c2(a, b)
      {
        assert a in [x] + s && b in [x] + s;
      }
      InsertCongruent(x, t, c1, c2);
    }
  }

  /** Comparators that agree on a list agree on any list drawn from its elements. */
  lemma AgreeOnDrawn<T>(s: seq<T>, t: seq<T>, c1: (T, T) -> int, c2: (T, T) -> int)
    requires AgreeOn(s, c1, c2)
    requires forall x :: x in t ==> x in s
    ensures AgreeOn(t, c1, c2)
  {
  }

  /** Lists with the same multiset have the same elements. */
  lemma SameElements<T>(a: seq<T>, b: seq<T>)
    requires multiset(a) == multiset(b)
    ensures forall x :: x in a ==> x in b
  {
    forall x | x in a
      ensures x in b
    {
      assert x in multiset(a);
    }
  }

  /** The sort consults the comparator only on the list's own elements. */
  lemma {:induction false} SortCongruent<T>(s: seq<T>, c1: (T, T) -> int, c2: (T, T) -> int)
    requires AgreeOn(s, c1, c2)
    ensures Sort(s, c1) == Sort(s, c2)
  {
    if s != [] {
      var t := s[1..];
      assert s == [s[0]] + t;
      assert forall x :: x in t ==> x in s;
      AgreeOnDrawn(s, t, c1, c2);
      SortCongruent(t, c1, c2);
      var st := Sort(t, c1);
      assert multiset([s[0]] + st) == multiset(s);
      SameElements([s[0]] + st, s);
      AgreeOnDrawn(s, [s[0]] + st, c1, c2);
      InsertCongruent(s[0], st, c1, c2);
    }
  }

  /** Every element of the sorted list comes from the input. */
  lemma SortKeepsElements<T>(s: seq<T>, cmp: (T, T) -> int, i: int)
    requires 0 <= i < |Sort(s, cmp)|
    ensures Sort(s, cmp)[i] in s
  {
    assert Sort(s, cmp)[i] in multiset(Sort(s, cmp));
  }
}
