/** SortedVectorDetails.hpp: a vector kept in the order of a `Compare`
 *  strict ordering. New elements go at `findSortedPlacement`, the first
 *  element that compares greater (an upper bound), so a sorted vector stays
 *  sorted and equal elements keep their insertion order. */
module SortedVectors {

  /** What `std::sort` and the sorted insertions demand of `Compare`: a
   *  strict weak ordering (irreflexive, transitive, and incomparability
   *  is transitive, stated as: `a < c` implies `a < b` or `b < c`). */
  ghost predicate StrictWeakOrder<T(!new)>(less: (T, T) -> bool) {
    && (forall a :: !less(a, a))
    && (forall a, b, c :: less(a, b) && less(b, c) ==> less(a, c))
    && (forall a, b, c :: less(a, c) ==> less(a, b) || less(b, c))
  }

  /** No element compares less than one before it. */
  ghost predicate Sorted<T>(s: seq<T>, less: (T, T) -> bool) {
    forall i, j | 0 <= i < j < |s| :: !less(s[j], s[i])
  }

  /** The position `findSortedPlacement(value)` finds: the first element
   *  `e` with `Compare(value, e)`, or the end. */
  function UpperBound<T>(s: seq<T>, value: T, less: (T, T) -> bool): (p: nat)
    ensures p <= |s|
    ensures forall i | 0 <= i < p :: !less(value, s[i])
    ensures p < |s| ==> less(value, s[p])
    decreases |s|
  {
    if s == [] || less(value, s[0]) then 0
    else
      var q := UpperBound(s[1..], value, less);
      assert forall i | 1 <= i < q + 1 :: s[i] == s[1..][i - 1];
      q + 1
  }

  /** Any position with the upper-bound property is the upper bound. */
  lemma UpperBoundUnique<T>(s: seq<T>, value: T, less: (T, T) -> bool, p: nat)
    requires p <= |s|
    requires forall i | 0 <= i < p :: !less(value, s[i])
    requires p < |s| ==> less(value, s[p])
    ensures p == UpperBound(s, value, less)
  {
  }

  /** `s` with `value` inserted at position `at`. */
  function InsertAt<T>(s: seq<T>, at: nat, value: T): (r: seq<T>)
    requires at <= |s|
    ensures |r| == |s| + 1 && r[at] == value
    ensures r[..at] == s[..at] && r[at + 1..] == s[at..]
    ensures multiset(r) == multiset(s) + multiset{value}
  {
    assert s == s[..at] + s[at..];
    s[..at] + [value] + s[at..]
  }

  /** Inserting at the upper bound into a sorted sequence keeps it sorted. */
  lemma {:induction false} InsertKeepsSorted<T(!new)>(s: seq<T>, value: T, less: (T, T) -> bool)
    requires StrictWeakOrder(less) && Sorted(s, less)
    ensures Sorted(InsertAt(s, UpperBound(s, value, less), value), less)
  {
    var p := UpperBound(s, value, less);
    var r := InsertAt(s, p, value);
    forall i, j | 0 <= i < j < |r|
      ensures !less(r[j], r[i])
    {
      if j < p {
        assert r[i] == s[i] && r[j] == s[j];
      } else if j == p {
        assert r[i] == s[i];
      } else if i == p {
        assert r[j] == s[j - 1];
        assert !less(s[j - 1], s[p]);
        assert less(value, s[p]);
      } else if i < p {
        assert r[i] == s[i] && r[j] == s[j - 1];
      } else {
        assert r[i] == s[i - 1] && r[j] == s[j - 1];
      }
    }
  }

  /** In a sorted sequence the upper bound separates the elements that are
   *  not greater than `value` (before it, equal ones included) from the
   *  ones that are (from it on). */
  lemma UpperBoundSplits<T(!new)>(s: seq<T>, value: T, less: (T, T) -> bool)
    requires StrictWeakOrder(less) && Sorted(s, less)
    ensures var p := UpperBound(s, value, less);
            forall j | p <= j < |s| :: less(value, s[j])
  {
    var p := UpperBound(s, value, less);
    forall j | p <= j < |s|
      ensures less(value, s[j])
    {
      if j > p {
        assert less(value, s[p]) && !less(s[j], s[p]);
      }
    }
  }

  /** A stable insertion sort: the reference ordering of a sequence. */
  function SortBy<T>(s: seq<T>, less: (T, T) -> bool): (r: seq<T>)
    ensures |r| == |s|
    decreases |s|
  {
    if s == [] then []
    else
      var init := SortBy(s[..|s| - 1], less);
      InsertAt(init, UpperBound(init, s[|s| - 1], less), s[|s| - 1])
  }

  /** The reference sort is a permutation. */
  lemma {:induction false} SortByPermutation<T>(s: seq<T>, less: (T, T) -> bool)
    ensures multiset(SortBy(s, less)) == multiset(s)
    decreases |s|
  {
    if s != [] {
      var init := s[..|s| - 1];
      SortByPermutation(init, less);
      assert s == init + [s[|s| - 1]];
    }
  }

  /** The reference sort is sorted. */
  lemma {:induction false} SortBySorted<T(!new)>(s: seq<T>, less: (T, T) -> bool)
    requires StrictWeakOrder(less)
    ensures Sorted(SortBy(s, less), less)
    decreases |s|
  {
    if s != [] {
      SortBySorted(s[..|s| - 1], less);
      InsertKeepsSorted(SortBy(s[..|s| - 1], less), s[|s| - 1], less);
    }
  }

  class SortedVector<T(!new)> {
    /** The `Compare` template parameter. */
    const less: (T, T) -> bool
    /** The elements, in storage order. */
    var elements: seq<T>

    /** The default constructor: no elements. */
    constructor (less: (T, T) -> bool)
      ensures this.less == less && elements == []
    {
      this.less := less;
      elements := [];
    }

    /** Copy assignment: `resize(other.begin(), other.end())`. */
    method CopyAssign(other: SortedVector<T>)
      requires other.less == less
      modifies this
      ensures elements == old(other.elements)
    {
      elements := other.elements;
    }

    /** Move assignment: `steal(other)` takes other's storage and leaves it empty. */
    method MoveAssign(other: SortedVector<T>)
      requires other != this && other.less == less
      modifies this, other
      ensures elements == old(other.elements) && other.elements == []
    {
      elements := other.elements;
      other.elements := [];
    }

    /** `findSortedPlacement(value)`: a linear `find` of the first element
     *  `e` with `Compare(value, e)`; the end when there is none. */
    method FindSortedPlacement(value: T) returns (p: nat)
      ensures p <= |elements|
      ensures forall i | 0 <= i < p :: !less(value, elements[i])
      ensures p < |elements| ==> less(value, elements[p])
      ensures p == UpperBound(elements, value, less)
    {
      p := 0;
      while p < |elements| && !less(value, elements[p])
        invariant p <= |elements|
        invariant forall i | 0 <= i < p :: !less(value, elements[i])
      {
        p := p + 1;
      }
      UpperBoundUnique(elements, value, less, p);
    }

    /** `insert(value)`, that is `push(value)`: the value goes at
     *  `findSortedPlacement(value)` and its position is returned. A sorted
     *  vector stays sorted, with the value after every element not
     *  greater than it and before every greater one. */
    method Insert(value: T) returns (p: nat)
      modifies this
      ensures p == UpperBound(old(elements), value, less)
      ensures elements == InsertAt(old(elements), p, value)
      ensures forall i | 0 <= i < p :: !less(value, elements[i])
      ensures StrictWeakOrder(less) && Sorted(old(elements), less) ==>
                && Sorted(elements, less)
                && forall j | p < j < |elements| :: less(value, elements[j])
    {
      p := FindSortedPlacement(value);
      if StrictWeakOrder(less) && Sorted(elements, less) {
        InsertKeepsSorted(elements, value, less);
        UpperBoundSplits(elements, value, less);
      }
      elements := InsertAt(elements, p, value);
    }

    /** `insertAt(at, value)`: the value goes exactly at `at`, with no
     *  sorting; its position is returned. */
    method InsertAtPosition(at: nat, value: T) returns (p: nat)
      requires at <= |elements|
      modifies this
      ensures p == at && elements == InsertAt(old(elements), at, value)
    {
      elements := InsertAt(elements, at, value);
      p := at;
    }

    /** `sort()`: `std::sort` by `Compare`, which must be a strict weak
     *  ordering; the result is sorted and a permutation of the elements. */
    method Sort()
      requires StrictWeakOrder(less)
      modifies this
      ensures Sorted(elements, less)
      ensures multiset(elements) == multiset(old(elements))
    {
      SortBySorted(elements, less);
      SortByPermutation(elements, less);
      elements := SortBy(elements, less);
    }
  }

  /** Sorting [3, 1, 2] by `<` gives [1, 2, 3]. */
  method SortThree() returns (v: SortedVector<int>)
    ensures fresh(v) && v.elements == [1, 2, 3]
    ensures forall a: int, b: int :: v.less(a, b) == (a < b)
  {
    v := new SortedVector<int>((a: int, b: int) => a < b);
    v.elements := [3, 1, 2];
    assert multiset(v.elements) == multiset{1, 2, 3};
    v.Sort();
    SortedOfThree(v.elements);
  }

  /** Inserting 2 into [1, 2, 3] puts it after the existing 2. */
  method InsertAfterEqual()
  {
    var v := SortThree();
    var p := v.Insert(2);
    assert p == 2 && v.elements == [1, 2, 2, 3];
  }

  /** The only sorted arrangement of {1, 2, 3} under `<`. */
  lemma SortedOfThree(s: seq<int>)
    requires multiset(s) == multiset{1, 2, 3}
    requires Sorted(s, (a: int, b: int) => a < b)
    ensures s == [1, 2, 3]
  {
    assert |s| == 3 by {
      assert |multiset(s)| == |s|;
    }
    assert s[0] in multiset(s) && s[1] in multiset(s) && s[2] in multiset(s);
    assert s[0] <= s[1] <= s[2];
    assert 1 in multiset(s) && 2 in multiset(s) && 3 in multiset(s);
  }
}
