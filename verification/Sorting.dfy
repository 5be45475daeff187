/** Sorting by a weak order.  The library sorts are trusted only to be sorts: the
    lemmas say when that alone fixes the result. */
module Sorting {

  /** A strict weak order: asymmetric, with transitive incomparability. */
  ghost predicate WeakOrder<T(!new)>(less: (T, T) -> bool) {
    && (forall x, y :: less(x, y) ==> !less(y, x))
    && (forall x, y, z :: !less(y, x) && !less(z, y) ==> !less(z, x))
  }

  ghost predicate Sorted<T>(less: (T, T) -> bool, s: seq<T>) {
    forall i, j :: 0 <= i < j < |s| ==> !less(s[j], s[i])
  }

  /** Incomparable elements of s are equal. */
  ghost predicate Distinguishes<T>(less: (T, T) -> bool, s: seq<T>) {
    forall i, j :: 0 <= i < |s| && 0 <= j < |s| && !less(s[i], s[j]) && !less(s[j], s[i]) ==> s[i] == s[j]
  }

  /** `out` is what some correct sort may return for `s`. */
  ghost predicate IsSortOf<T>(less: (T, T) -> bool, s: seq<T>, out: seq<T>) {
    multiset(out) == multiset(s) && Sorted(less, out)
  }

  function Insert<T>(less: (T, T) -> bool, s: seq<T>, x: T): seq<T> {
    if s == [] || !less(x, s[|s| - 1]) then s + [x]
    else Insert(less, s[..|s| - 1], x) + [s[|s| - 1]]
  }

  /** A stable sort. */
  function SortBy<T>(less: (T, T) -> bool, s: seq<T>): seq<T> {
    if s == [] then [] else Insert(less, SortBy(less, s[..|s| - 1]), s[|s| - 1])
  }

  lemma {:induction false} InsertElements<T>(less: (T, T) -> bool, s: seq<T>, x: T)
    ensures multiset(Insert(less, s, x)) == multiset(s) + multiset{x}
  {
    if s != [] && less(x, s[|s| - 1]) {
      InsertElements(less, s[..|s| - 1], x);
      assert s == s[..|s| - 1] + [s[|s| - 1]];
    }
  }

  /** A sorted sequence extends by an element that is not below any of it. */
  lemma SortedSnoc<T>(less: (T, T) -> bool, s: seq<T>, x: T)
    requires Sorted(less, s)
    requires forall y :: y in multiset(s) ==> !less(x, y)
    ensures Sorted(less, s + [x])
  {
    assert forall i :: 0 <= i < |s| ==> s[i] in multiset(s);
  }

  lemma AboveLast<T(!new)>(less: (T, T) -> bool, s: seq<T>, x: T)
    requires WeakOrder(less) && Sorted(less, s)
    requires s != [] ==> !less(x, s[|s| - 1])
    ensures forall y :: y in multiset(s) ==> !less(x, y)
  {
    forall y | y in multiset(s)
      ensures !less(x, y)
    {
      var i :| 0 <= i < |s| && s[i] == y;
      assert i == |s| - 1 || !less(s[|s| - 1], s[i]);
    }
  }

  lemma {:induction false} InsertSorted<T(!new)>(less: (T, T) -> bool, s: seq<T>, x: T)
    requires WeakOrder(less) && Sorted(less, s)
    ensures Sorted(less, Insert(less, s, x))
  {
    if s != [] && less(x, s[|s| - 1]) {
      var rest, last := s[..|s| - 1], s[|s| - 1];
      InsertSorted(less, rest, x);
      InsertElements(less, rest, x);
      AboveLast(less, rest, last);
      SortedSnoc(less, Insert(less, rest, x), last);
    } else {
      AboveLast(less, s, x);
      SortedSnoc(less, s, x);
    }
  }

  lemma {:induction false} SortBySorts<T(!new)>(less: (T, T) -> bool, s: seq<T>)
    requires WeakOrder(less)
    ensures IsSortOf(less, s, SortBy(less, s))
  {
    if s != [] {
      var n := |s| - 1;
      SortBySorts(less, s[..n]);
      InsertSorted(less, SortBy(less, s[..n]), s[n]);
      InsertElements(less, SortBy(less, s[..n]), s[n]);
      assert s == s[..n] + [s[n]];
    }
  }

  lemma HeadsAgree<T>(less: (T, T) -> bool, a: seq<T>, b: seq<T>)
    requires multiset(a) == multiset(b) && a != [] && b != []
    requires Sorted(less, a) && Sorted(less, b) && Distinguishes(less, a)
    requires forall x :: x in multiset(a) ==> !less(x, x)
    ensures a[0] == b[0]
  {
    assert a[0] in multiset(b) && b[0] in multiset(a);
    var k :| 0 <= k < |b| && b[k] == a[0];
    var m :| 0 <= m < |a| && a[m] == b[0];
    assert !less(a[m], a[0]) && !less(b[k], b[0]);
  }

  lemma TailMultiset<T>(a: seq<T>)
    requires a != []
    ensures multiset(a[1..]) == multiset(a) - multiset{a[0]}
  {
    assert a == [a[0]] + a[1..];
  }

  /** Two sorted arrangements of one multiset are equal when the order
      distinguishes its elements. */
  lemma {:induction false} SortedUnique<T>(less: (T, T) -> bool, a: seq<T>, b: seq<T>)
    requires multiset(a) == multiset(b)
    requires Sorted(less, a) && Sorted(less, b) && Distinguishes(less, a)
    requires forall x :: x in multiset(a) ==> !less(x, x)
    ensures a == b
  {
    assert |a| == |multiset(a)| == |multiset(b)| == |b|;
    if a != [] {
      HeadsAgree(less, a, b);
      TailMultiset(a);
      TailMultiset(b);
      SortedUnique(less, a[1..], b[1..]);
      assert a == [a[0]] + a[1..] && b == [b[0]] + b[1..];
    }
  }

  lemma DistinguishesMultiset<T>(less: (T, T) -> bool, a: seq<T>, b: seq<T>)
    requires multiset(a) == multiset(b) && Distinguishes(less, a)
    ensures Distinguishes(less, b)
  {
    forall i, j | 0 <= i < |b| && 0 <= j < |b| && !less(b[i], b[j]) && !less(b[j], b[i])
      ensures b[i] == b[j]
    {
      assert b[i] in multiset(a) && b[j] in multiset(a);
      var k :| 0 <= k < |a| && a[k] == b[i];
      var m :| 0 <= m < |a| && a[m] == b[j];
    }
  }

  /** Any correct sort of any arrangement of the same elements returns the same
      sequence, provided incomparable elements are equal. */
  lemma AnySortAgrees<T(!new)>(less: (T, T) -> bool, s: seq<T>, t: seq<T>, a: seq<T>, b: seq<T>)
    requires WeakOrder(less) && Distinguishes(less, s)
    requires multiset(s) == multiset(t)
    requires IsSortOf(less, s, a) && IsSortOf(less, t, b)
    ensures a == b
  {
    DistinguishesMultiset(less, s, a);
    SortedUnique(less, a, b);
  }

  /** Without that proviso a sort is free to disagree: some other arrangement is
      just as sorted, differing at k between elements the order cannot tell apart. */
  lemma AmbiguousSort<T(!new)>(less: (T, T) -> bool, s: seq<T>) returns (a: seq<T>, b: seq<T>, k: nat)
    requires WeakOrder(less) && !Distinguishes(less, s)
    ensures IsSortOf(less, s, a) && IsSortOf(less, s, b)
    ensures k < |a| == |b| && a[k] != b[k] && !less(a[k], b[k]) && !less(b[k], a[k])
  {
    hide SortBy;
    a := SortBy(less, s);
    SortBySorts(less, s);
    assert !Distinguishes(less, a) by {
      if Distinguishes(less, a) {
        DistinguishesMultiset(less, a, s);
      }
    }
    var i, j :| 0 <= i < |a| && 0 <= j < |a| && !less(a[i], a[j]) && !less(a[j], a[i]) && a[i] != a[j];
    b, k := a[i := a[j]][j := a[i]], i;
    assert Sorted(less, b);
  }
}
