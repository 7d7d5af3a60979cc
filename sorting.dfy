/**
 * The ordering the engine gets from `std::sort` with a comparator.  The
 * library leaves the relative order of equivalent elements unspecified;
 * `SortBy` is one admissible outcome (the stable one), and the properties
 * the modules prove about sorted data assume only `Sorted` and a
 * permutation, so they hold for every outcome the library may choose.
 */
module Sorting {

  /** `le` is a total preorder: every two elements compare, and it chains. */
  ghost predicate TotalPreorder<T(!new)>(le: (T, T) -> bool)
  {
    (forall a, b :: le(a, b) || le(b, a)) &&
    (forall a, b, c :: le(a, b) && le(b, c) ==> le(a, c))
  }

  /** Each element is `le` every later one. */
  ghost predicate Sorted<T>(s: seq<T>, le: (T, T) -> bool)
  {
    forall i, j :: 0 <= i < j < |s| ==> le(s[i], s[j])
  }

  /** `x` placed after every element that is `le` it, ahead of the rest. */
  function Insert<T>(s: seq<T>, x: T, le: (T, T) -> bool): (r: seq<T>)
    ensures multiset(r) == multiset(s) + multiset{x}
    ensures |r| == |s| + 1
  {
    if s == [] then [x]
    else if le(s[0], x) then
      assert s == [s[0]] + s[1..];
      [s[0]] + Insert(s[1..], x, le)
    else [x] + s
  }

  lemma {:induction false} InsertSorted<T(!new)>(s: seq<T>, x: T, le: (T, T) -> bool)
    requires TotalPreorder(le)
    requires Sorted(s, le)
    ensures Sorted(Insert(s, x, le), le)
    ensures forall y :: y in Insert(s, x, le) ==> y == x || y in s
    decreases |s|
  {
    var r := Insert(s, x, le);
    if s != [] && le(s[0], x) {
      var t := Insert(s[1..], x, le);
      InsertSorted(s[1..], x, le);
      assert r == [s[0]] + t;
      forall j | 0 < j < |r| ensures le(r[0], r[j]) {
        assert r[j] in t;
        assert r[j] == x || r[j] in s[1..];
      }
    }
  }

  /** The sequence in `le` order; equivalent elements keep their input order. */
  function SortBy<T(!new)>(s: seq<T>, le: (T, T) -> bool): (r: seq<T>)
    requires TotalPreorder(le)
    ensures Sorted(r, le)
    ensures multiset(r) == multiset(s)
    decreases |s|
  {
    if s == [] then []
    else
      var init := SortBy(s[..|s| - 1], le);
      InsertSorted(init, s[|s| - 1], le);
      assert s == s[..|s| - 1] + [s[|s| - 1]];
      Insert(init, s[|s| - 1], le)
  }

  /** `le` is a total order: a total preorder that only relates equal elements both ways. */
  ghost predicate TotalOrder<T(!new)>(le: (T, T) -> bool)
  {
    TotalPreorder(le) && forall a, b :: le(a, b) && le(b, a) ==> a == b
  }

  /** Under a total order there is only one sorted arrangement of a multiset. */
  lemma {:induction false} SortedUnique<T(!new)>(a: seq<T>, b: seq<T>, le: (T, T) -> bool)
    requires TotalOrder(le)
    requires Sorted(a, le) && Sorted(b, le)
    requires multiset(a) == multiset(b)
    ensures a == b
    decreases |a|
  {
    if a != [] {
      assert |b| == |multiset(b)| == |a|;
      SortedHeads(a, b, le);
      SameTails(a, b);
      SortedTail(a, le);
      SortedTail(b, le);
      SortedUnique(a[1..], b[1..], le);
      assert a == [a[0]] + a[1..];
      assert b == [b[0]] + b[1..];
    }
  }

  /** Two sorted arrangements of one multiset start with the same element. */
  lemma SortedHeads<T(!new)>(a: seq<T>, b: seq<T>, le: (T, T) -> bool)
    requires TotalOrder(le)
    requires Sorted(a, le) && Sorted(b, le)
    requires multiset(a) == multiset(b) && a != [] && b != []
    ensures a[0] == b[0]
  {
    assert a[0] in multiset(b);
    assert b[0] in multiset(a);
    var i :| 0 <= i < |b| && b[i] == a[0];
    var j :| 0 <= j < |a| && a[j] == b[0];
    assert le(b[0], a[0]) by {
      if i > 0 {
        assert le(b[0], b[i]);
      }
    }
    assert le(a[0], b[0]) by {
      if j > 0 {
        assert le(a[0], a[j]);
      }
    }
  }

  lemma SameTails<T>(a: seq<T>, b: seq<T>)
    requires multiset(a) == multiset(b) && a != [] && b != [] && a[0] == b[0]
    ensures multiset(a[1..]) == multiset(b[1..])
  {
    assert a == [a[0]] + a[1..];
    assert b == [b[0]] + b[1..];
    assert multiset(a[1..]) == multiset(a) - multiset{a[0]};
    assert multiset(b[1..]) == multiset(b) - multiset{b[0]};
  }

  lemma SortedTail<T>(a: seq<T>, le: (T, T) -> bool)
    requires Sorted(a, le) && a != []
    ensures Sorted(a[1..], le)
  {
    forall i, j | 0 <= i < j < |a| - 1 ensures le(a[1..][i], a[1..][j]) {
      assert a[1..][i] == a[i + 1] && a[1..][j] == a[j + 1];
    }
  }

  /** Sorting both sides and comparing tells exactly whether they are permutations of each other. */
  lemma SortedEqualIffPermutation<T(!new)>(a: seq<T>, b: seq<T>, le: (T, T) -> bool)
    requires TotalOrder(le)
    ensures SortBy(a, le) == SortBy(b, le) <==> multiset(a) == multiset(b)
  {
    if multiset(a) == multiset(b) {
      SortedUnique(SortBy(a, le), SortBy(b, le), le);
    }
  }
}
