/** `std::sort` with a comparator, modelled by what it promises: the range ends up as a
  * permutation of itself in which no element is `less` than one before it. The algorithm
  * used to reach that state is an insertion sort by adjacent swaps. */
module Sorting {

  /** The comparator requirements of `std::sort`: a strict weak ordering. */
  ghost predicate StrictWeakOrder<T(!new)>(less: (T, T) -> bool)
  {
    && (forall x :: !less(x, x))
    && (forall x, y :: less(x, y) ==> !less(y, x))
    && (forall x, y, z :: less(x, y) && less(y, z) ==> less(x, z))
    && (forall x, y, z :: !less(x, y) && !less(y, z) ==> !less(x, z))
  }

  /** No element is `less` than an element before it. */
  ghost predicate SortedBy<T>(s: seq<T>, less: (T, T) -> bool)
  {
    forall i, j :: 0 <= i < j < |s| ==> !less(s[j], s[i])
  }

  /** Sorts `a` in place with `less`. */
  method SortBy<T(!new)>(a: array<T>, less: (T, T) -> bool)
    requires StrictWeakOrder(less)
    modifies a
    ensures SortedBy(a[..], less)
    ensures multiset(a[..]) == multiset(old(a[..]))
  {
    if a.Length < 2 {
      return;
    }
    var i := 1;
    while i < a.Length
      invariant 1 <= i <= a.Length
      invariant SortedBy(a[..i], less)
      invariant multiset(a[..]) == multiset(old(a[..]))
    {
      InsertLast(a, i, less);
      i := i + 1;
    }
  }

  /** Moves `a[i]` left into the sorted prefix `a[..i]`, leaving `a[..i + 1]` sorted. */
  method InsertLast<T(!new)>(a: array<T>, i: nat, less: (T, T) -> bool)
    requires StrictWeakOrder(less)
    requires i < a.Length && SortedBy(a[..i], less)
    modifies a
    ensures SortedBy(a[..i + 1], less)
    ensures multiset(a[..]) == multiset(old(a[..]))
    ensures a[i + 1..] == old(a[i + 1..])
  {
    ghost var s := a[..i];
    ghost var rest := a[i + 1..];
    var x := a[i];
    assert a[..] == s + [x] + rest;
    var j := i;
    while j > 0 && less(x, a[j - 1])
      invariant 0 <= j <= i
      invariant a[..] == s[..j] + [x] + s[j..] + rest
      invariant forall m :: j <= m < i ==> less(x, s[m])
    {
      ghost var before := a[..];
      assert before[j - 1] == s[j - 1] && before[j] == x;
      a[j] := a[j - 1];
      a[j - 1] := x;
      assert a[..] == before[j := s[j - 1]][j - 1 := x];
      SwapLeft(s, j, x, rest);
      j := j - 1;
    }
    InsertSorted(s, j, x, less);
    InsertedShape(s, j, x, rest, less);
  }

  /** One step of the insertion loop: `x` swaps places with its left neighbour. */
  lemma {:induction false} SwapLeft<T>(s: seq<T>, j: nat, x: T, rest: seq<T>)
    requires 0 < j <= |s|
    ensures (s[..j] + [x] + s[j..] + rest)[j := s[j - 1]][j - 1 := x] == s[..j - 1] + [x] + s[j - 1..] + rest
  {
    var u := (s[..j] + [x] + s[j..] + rest)[j := s[j - 1]][j - 1 := x];
    var v := s[..j - 1] + [x] + s[j - 1..] + rest;
    assert |u| == |v|;
    forall m | 0 <= m < |u|
      ensures u[m] == v[m]
    {
      if m < j - 1 {
      } else if m == j - 1 {
      } else if m == j {
      } else if m <= |s| {
        assert u[m] == s[m - 1] && v[m] == s[m - 1];
      } else {
        assert u[m] == rest[m - |s| - 1];
      }
    }
  }

  /** The array after the insertion loop: its first `|s| + 1` cells are sorted, the rest is
    * untouched, and nothing was lost or duplicated. */
  lemma InsertedShape<T>(s: seq<T>, j: nat, x: T, rest: seq<T>, less: (T, T) -> bool)
    requires j <= |s| && SortedBy(s[..j] + [x] + s[j..], less)
    ensures var t := s[..j] + [x] + s[j..] + rest;
      SortedBy(t[..|s| + 1], less) && t[|s| + 1..] == rest &&
      multiset(t) == multiset(s + [x] + rest)
  {
    var t := s[..j] + [x] + s[j..] + rest;
    assert t[..|s| + 1] == s[..j] + [x] + s[j..];
    assert t[|s| + 1..] == rest;
    assert s == s[..j] + s[j..];
  }

  /** Putting `x` at position `j` of a sorted `s` keeps it sorted when `x` is not less than
    * its left neighbour and is less than everything to its right. */
  lemma InsertSorted<T(!new)>(s: seq<T>, j: nat, x: T, less: (T, T) -> bool)
    requires StrictWeakOrder(less) && SortedBy(s, less)
    requires j <= |s|
    requires j > 0 ==> !less(x, s[j - 1])
    requires forall m :: j <= m < |s| ==> less(x, s[m])
    ensures SortedBy(s[..j] + [x] + s[j..], less)
  {
    var t := s[..j] + [x] + s[j..];
    forall p, q | 0 <= p < q < |t|
      ensures !less(t[q], t[p])
    {
      if q < j {
        assert t[p] == s[p] && t[q] == s[q];
      } else if q == j {
        assert t[p] == s[p] && t[q] == x;
        assert p < j - 1 ==> !less(s[j - 1], s[p]);
      } else if p < j {
        assert t[p] == s[p] && t[q] == s[q - 1];
      } else if p == j {
        assert t[q] == s[q - 1] && less(x, s[q - 1]);
      } else {
        assert t[p] == s[p - 1] && t[q] == s[q - 1];
      }
    }
  }
}
