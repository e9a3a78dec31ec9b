/** `Array.prototype.sort` with a comparator: ECMAScript requires the sort
    to be stable, so the reference here is a stable insertion sort, and the
    in-place method is proved to compute exactly it. */
module Sorting {

  /** Swapping the arguments negates the comparator. */
  ghost predicate Antisymmetric<T(!new)>(cmp: (T, T) -> int) {
    forall a, b :: cmp(a, b) == -cmp(b, a)
  }

  /** "Goes first or ties" is transitive. */
  ghost predicate Transitive<T(!new)>(cmp: (T, T) -> int) {
    forall a, b, c :: cmp(a, b) <= 0 && cmp(b, c) <= 0 ==> cmp(a, c) <= 0
  }

  /** Elements that tie compare the same way against any other. */
  ghost predicate TieConsistent<T(!new)>(cmp: (T, T) -> int) {
    forall a, b, c :: cmp(a, b) == 0 ==> cmp(a, c) == cmp(b, c)
  }

  /** `s` is ordered by the comparator. */
  predicate SortedBy<T>(cmp: (T, T) -> int, s: seq<T>) {
    forall i, j :: 0 <= i < j < |s| ==> cmp(s[i], s[j]) <= 0
  }

  /** Places `x` after the last element of `s` that does not compare
      greater than it, scanning from the right. */
  function InsertSorted<T>(cmp: (T, T) -> int, s: seq<T>, x: T): (r: seq<T>)
    ensures |r| == |s| + 1
  {
    if s == [] then [x]
    else if cmp(s[|s| - 1], x) > 0 then InsertSorted(cmp, s[..|s| - 1], x) + [s[|s| - 1]]
    else s + [x]
  }

  /** The stable sort by insertion. */
  function SortBy<T>(cmp: (T, T) -> int, s: seq<T>): (r: seq<T>)
    ensures |r| == |s|
  {
    if s == [] then [] else InsertSorted(cmp, SortBy(cmp, s[..|s| - 1]), s[|s| - 1])
  }

  /** The elements of `s` tied with `x`, in order. */
  function Ties<T>(cmp: (T, T) -> int, x: T, s: seq<T>): seq<T> {
    if s == [] then []
    else Ties(cmp, x, s[..|s| - 1]) + (if cmp(x, s[|s| - 1]) == 0 then [s[|s| - 1]] else [])
  }

  // ---------------------------------------------------------------------
  // The sort is a sorted, stable permutation

  lemma {:induction false} InsertSortedPermutes<T>(cmp: (T, T) -> int, s: seq<T>, x: T)
    ensures multiset(InsertSorted(cmp, s, x)) == multiset(s) + multiset{x}
  {
    if s != [] && cmp(s[|s| - 1], x) > 0 {
      InsertSortedPermutes(cmp, s[..|s| - 1], x);
      assert s == s[..|s| - 1] + [s[|s| - 1]];
    }
  }

  /** The sort returns a permutation of its input. */
  lemma {:induction false} SortByPermutes<T>(cmp: (T, T) -> int, s: seq<T>)
    ensures multiset(SortBy(cmp, s)) == multiset(s)
  {
    if s != [] {
      SortByPermutes(cmp, s[..|s| - 1]);
      InsertSortedPermutes(cmp, SortBy(cmp, s[..|s| - 1]), s[|s| - 1]);
      assert s == s[..|s| - 1] + [s[|s| - 1]];
    }
  }

  lemma {:induction false} InsertSortedKeepsSorted<T(!new)>(cmp: (T, T) -> int, s: seq<T>, x: T)
    requires Antisymmetric(cmp) && Transitive(cmp)
    requires SortedBy(cmp, s)
    ensures SortedBy(cmp, InsertSorted(cmp, s, x))
  {
    if s != [] {
      if cmp(s[|s| - 1], x) > 0 {
        InsertSortedKeepsSorted(cmp, s[..|s| - 1], x);
        InsertBeforeLast(cmp, s, x);
      } else {
        AppendAfterLast(cmp, s, x);
      }
    }
  }

  /** The step of InsertSortedKeepsSorted that moves `x` past the last
      element. */
  lemma InsertBeforeLast<T(!new)>(cmp: (T, T) -> int, s: seq<T>, x: T)
    requires Antisymmetric(cmp)
    requires s != [] && cmp(s[|s| - 1], x) > 0
    requires SortedBy(cmp, s) && SortedBy(cmp, InsertSorted(cmp, s[..|s| - 1], x))
    ensures SortedBy(cmp, InsertSorted(cmp, s, x))
  {
    var last := s[|s| - 1];
    var init := s[..|s| - 1];
    var t := InsertSorted(cmp, init, x);
    InsertSortedPermutes(cmp, init, x);
    forall i | 0 <= i < |t| ensures cmp(t[i], last) <= 0 {
      assert t[i] in multiset(t);
      if t[i] == x {
        assert cmp(x, last) == -cmp(last, x);
      } else {
        assert t[i] in init;
      }
    }
  }

  /** The step of InsertSortedKeepsSorted that appends `x`. */
  lemma AppendAfterLast<T(!new)>(cmp: (T, T) -> int, s: seq<T>, x: T)
    requires Transitive(cmp)
    requires s != [] && cmp(s[|s| - 1], x) <= 0 && SortedBy(cmp, s)
    ensures SortedBy(cmp, s + [x])
  {
    forall i | 0 <= i < |s| ensures cmp(s[i], x) <= 0 {
      if i < |s| - 1 {
        assert cmp(s[i], s[|s| - 1]) <= 0;
      }
    }
  }

  /** The sort's result is ordered by a comparator that is a total
      preorder. */
  lemma {:induction false} SortBySorted<T(!new)>(cmp: (T, T) -> int, s: seq<T>)
    requires Antisymmetric(cmp) && Transitive(cmp)
    ensures SortedBy(cmp, SortBy(cmp, s))
  {
    if s != [] {
      SortBySorted(cmp, s[..|s| - 1]);
      InsertSortedKeepsSorted(cmp, SortBy(cmp, s[..|s| - 1]), s[|s| - 1]);
    }
  }

  /** An already ordered list is left as it is. */
  lemma {:induction false} SortByOfSorted<T>(cmp: (T, T) -> int, s: seq<T>)
    requires SortedBy(cmp, s)
    ensures SortBy(cmp, s) == s
  {
    if s != [] {
      var init := s[..|s| - 1];
      assert SortedBy(cmp, init);
      SortByOfSorted(cmp, init);
      if |init| > 0 {
        assert cmp(init[|init| - 1], s[|s| - 1]) <= 0;
      }
      assert s == init + [s[|s| - 1]];
    }
  }

  lemma TiesSnoc<T>(cmp: (T, T) -> int, x: T, s: seq<T>, y: T)
    ensures Ties(cmp, x, s + [y]) == Ties(cmp, x, s) + (if cmp(x, y) == 0 then [y] else [])
  {
    assert (s + [y])[..|s|] == s;
  }

  lemma {:induction false} InsertSortedTies<T(!new)>(cmp: (T, T) -> int, x: T, s: seq<T>, y: T)
    requires Antisymmetric(cmp) && TieConsistent(cmp)
    ensures Ties(cmp, x, InsertSorted(cmp, s, y)) == Ties(cmp, x, s) + (if cmp(x, y) == 0 then [y] else [])
  {
    if s == [] {
      TiesSnoc(cmp, x, [], y);
    } else {
      var last := s[|s| - 1];
      var init := s[..|s| - 1];
      if cmp(last, y) > 0 {
        InsertSortedTies(cmp, x, init, y);
        TiesSnoc(cmp, x, InsertSorted(cmp, init, y), last);
        if cmp(x, y) == 0 {
          assert cmp(x, last) == cmp(y, last);
          assert cmp(y, last) == -cmp(last, y);
        }
      } else {
        TiesSnoc(cmp, x, s, y);
      }
    }
  }

  /** Stability: elements that compare equal keep their relative order. */
  lemma {:induction false} SortByStable<T(!new)>(cmp: (T, T) -> int, x: T, s: seq<T>)
    requires Antisymmetric(cmp) && TieConsistent(cmp)
    ensures Ties(cmp, x, SortBy(cmp, s)) == Ties(cmp, x, s)
  {
    if s != [] {
      SortByStable(cmp, x, s[..|s| - 1]);
      InsertSortedTies(cmp, x, SortBy(cmp, s[..|s| - 1]), s[|s| - 1]);
    }
  }

  // ---------------------------------------------------------------------
  // The in-place sort

  /** `a.sort(cmp)`: an insertion sort in place, equal to SortBy. */
  method SortInPlace<T>(a: array<T>, cmp: (T, T) -> int)
    modifies a
    ensures a[..] == SortBy(cmp, old(a[..]))
  {
    ghost var input := a[..];
    var i := 0;
    while i < a.Length
      invariant 0 <= i <= a.Length
      invariant a[..i] == SortBy(cmp, input[..i])
      invariant a[i..] == input[i..]
    {
      InsertNext(a, cmp, i);
      assert input[..i + 1] == input[..i] + [input[i]];
      assert input[..i + 1][..i] == input[..i];
      i := i + 1;
    }
    assert a[..] == a[..a.Length] && input == input[..a.Length];
  }

  /** One pass of the insertion sort: shifts right every element of
      `a[..i]` that compares greater than `a[i]`, from the right, and puts
      `a[i]` in the gap. */
  method InsertNext<T>(a: array<T>, cmp: (T, T) -> int, i: nat)
    requires i < a.Length
    modifies a
    ensures a[..i + 1] == InsertSorted(cmp, old(a[..i]), old(a[i]))
    ensures a[i + 1..] == old(a[i + 1..])
  {
    var x := a[i];
    ghost var sorted := a[..i];
    var j := i;
    assert sorted[..j] == sorted && sorted[j..i] == [];
    while j > 0 && cmp(a[j - 1], x) > 0
      invariant 0 <= j <= i
      invariant forall k :: 0 <= k < j ==> a[k] == sorted[k]
      invariant forall k :: j < k <= i ==> a[k] == sorted[k - 1]
      invariant forall k :: i < k < a.Length ==> a[k] == old(a[k])
      invariant InsertSorted(cmp, sorted, x) == InsertSorted(cmp, sorted[..j], x) + sorted[j..i]
    {
      ShiftStep(cmp, sorted, x, j, i);
      a[j] := a[j - 1];
      j := j - 1;
    }
    a[j] := x;
    InsertStops(cmp, sorted, x, j);
    Placed(a[..], sorted, x, j);
    assert a[..i + 1] == a[..][..i + 1];
  }

  /** The array after the inner loop and the final write, as a sequence. */
  lemma Placed<T>(s: seq<T>, sorted: seq<T>, x: T, j: nat)
    requires j <= |sorted| < |s| && s[j] == x
    requires forall k :: 0 <= k < j ==> s[k] == sorted[k]
    requires forall k :: j < k <= |sorted| ==> s[k] == sorted[k - 1]
    ensures s[..|sorted| + 1] == sorted[..j] + [x] + sorted[j..]
  {
    var r := sorted[..j] + [x] + sorted[j..];
    forall k | 0 <= k <= |sorted| ensures s[k] == r[k] {
      if k < j {
        assert r[k] == sorted[..j][k];
      } else if j < k {
        assert r[k] == sorted[j..][k - j - 1];
      }
    }
  }

  /** Where the inner loop stops, the element goes in the gap. */
  lemma InsertStops<T>(cmp: (T, T) -> int, sorted: seq<T>, x: T, j: nat)
    requires j <= |sorted|
    requires j == 0 || cmp(sorted[j - 1], x) <= 0
    ensures InsertSorted(cmp, sorted[..j], x) == sorted[..j] + [x]
  {
  }

  /** One shift of the inner loop in terms of InsertSorted. */
  lemma ShiftStep<T>(cmp: (T, T) -> int, sorted: seq<T>, x: T, j: nat, i: nat)
    requires 0 < j <= i == |sorted|
    requires cmp(sorted[j - 1], x) > 0
    ensures InsertSorted(cmp, sorted[..j], x) + sorted[j..i] == InsertSorted(cmp, sorted[..j - 1], x) + sorted[j - 1..i]
  {
    assert sorted[..j][..j - 1] == sorted[..j - 1];
    assert sorted[j - 1..i] == [sorted[j - 1]] + sorted[j..i];
  }
}
