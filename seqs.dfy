/** The array operations the store relies on: `filter` with a predicate,
    and the duplicate removal of `Array.from(new Set(xs))`. */
module Seqs {

  /** `xs.filter(p)`: the elements satisfying `p`, in their original order. */
  function Filter<T(!new)>(p: T -> bool, s: seq<T>): (r: seq<T>)
    ensures |r| <= |s|
    ensures forall x :: x in r <==> x in s && p(x)
    ensures forall i :: 0 <= i < |r| ==> p(r[i])
  {
    if s == [] then []
    else (if p(s[0]) then [s[0]] else []) + Filter(p, s[1..])
  }

  /** `xs.map(f)`. */
  function MapSeq<A, B>(f: A -> B, s: seq<A>): (r: seq<B>)
    ensures |r| == |s|
    ensures forall i :: 0 <= i < |s| ==> r[i] == f(s[i])
  {
    if s == [] then [] else [f(s[0])] + MapSeq(f, s[1..])
  }

  /** Mapping a prefix one element longer appends that element's image. */
  lemma {:induction false} MapSeqSnoc<A, B>(f: A -> B, s: seq<A>, i: nat)
    requires i < |s|
    ensures MapSeq(f, s[..i + 1]) == MapSeq(f, s[..i]) + [f(s[i])]
  {
    var m := MapSeq(f, s[..i + 1]);
    assert m[..i] == MapSeq(f, s[..i]);
    assert m == m[..i] + [m[i]];
  }

  /** `a` occurs in `b` as a subsequence: order is kept, elements may be
      skipped. */
  predicate IsSubsequence<T(==)>(a: seq<T>, b: seq<T>)
    decreases |b|
  {
    if a == [] then true
    else if b == [] then false
    else if a[0] == b[0] then IsSubsequence(a[1..], b[1..])
    else IsSubsequence(a, b[1..])
  }

  lemma {:induction false} FilterIsSubsequence<T(!new)>(p: T -> bool, s: seq<T>)
    ensures IsSubsequence(Filter(p, s), s)
  {
    if s != [] {
      FilterIsSubsequence(p, s[1..]);
      if p(s[0]) {
        assert Filter(p, s) == [s[0]] + Filter(p, s[1..]);
        assert (Filter(p, s))[1..] == Filter(p, s[1..]);
      } else {
        assert Filter(p, s) == Filter(p, s[1..]);
        SubsequenceSkip(Filter(p, s), s);
      }
    }
  }

  /** Skipping an element of `b` keeps a subsequence of the rest one of `b`. */
  lemma {:induction false} SubsequenceSkip<T>(a: seq<T>, b: seq<T>)
    requires b != [] && IsSubsequence(a, b[1..])
    ensures IsSubsequence(a, b)
    decreases |b|, 0
  {
    if a != [] && a[0] == b[0] {
      SubsequenceTail(a, b[1..]);
    }
  }

  /** Dropping the head of a subsequence keeps it a subsequence. */
  lemma {:induction false} SubsequenceTail<T>(a: seq<T>, b: seq<T>)
    requires a != [] && IsSubsequence(a, b)
    ensures IsSubsequence(a[1..], b)
    decreases |b|, 1
  {
    if b != [] {
      if a[0] == b[0] {
        if a[1..] != [] {
          SubsequenceSkip(a[1..], b);
        }
      } else {
        SubsequenceTail(a, b[1..]);
        if a[1..] != [] {
          SubsequenceSkip(a[1..], b);
        }
      }
    }
  }

  /** Filtering distributes over concatenation. */
  lemma {:induction false} FilterConcat<T(!new)>(p: T -> bool, a: seq<T>, b: seq<T>)
    ensures Filter(p, a + b) == Filter(p, a) + Filter(p, b)
  {
    if a != [] {
      assert (a + b)[1..] == a[1..] + b;
      FilterConcat(p, a[1..], b);
    } else {
      assert a + b == b;
    }
  }

  /** Two successive filters are one filter by the conjunction `pq`. */
  lemma {:induction false} FilterFilter<T(!new)>(p: T -> bool, q: T -> bool, pq: T -> bool, s: seq<T>)
    requires forall x :: pq(x) == (p(x) && q(x))
    ensures Filter(q, Filter(p, s)) == Filter(pq, s)
  {
    if s != [] {
      FilterFilter(p, q, pq, s[1..]);
      if p(s[0]) {
        assert Filter(p, s) == [s[0]] + Filter(p, s[1..]);
        FilterConcat(q, [s[0]], Filter(p, s[1..]));
      } else {
        assert Filter(p, s) == Filter(p, s[1..]);
      }
    }
  }

  /** Filters by pointwise-equal predicates agree. */
  lemma {:induction false} FilterExt<T(!new)>(p: T -> bool, q: T -> bool, s: seq<T>)
    requires forall x :: x in s ==> (p(x) <==> q(x))
    ensures Filter(p, s) == Filter(q, s)
  {
    if s != [] {
      assert forall x :: x in s[1..] ==> x in s;
      FilterExt(p, q, s[1..]);
    }
  }

  /** A filter every element passes changes nothing. */
  lemma {:induction false} FilterAll<T(!new)>(p: T -> bool, s: seq<T>)
    requires forall x :: x in s ==> p(x)
    ensures Filter(p, s) == s
  {
    if s != [] {
      assert forall x :: x in s[1..] ==> x in s;
      FilterAll(p, s[1..]);
      assert s == [s[0]] + s[1..];
    }
  }

  predicate NoDuplicates<T(==)>(s: seq<T>) {
    forall i, j :: 0 <= i < j < |s| ==> s[i] != s[j]
  }

  /** `Array.from(new Set(s))`: a `Set` enumerates its elements in first
      insertion order, so this keeps the first occurrence of every value. */
  function Dedup<T(==,!new)>(s: seq<T>): (r: seq<T>)
    ensures forall x :: x in r <==> x in s
    ensures NoDuplicates(r)
    ensures |r| <= |s|
  {
    if s == [] then []
    else
      var d := Dedup(s[..|s| - 1]);
      var last := s[|s| - 1];
      assert forall x :: x in s <==> x in s[..|s| - 1] || x == last by {
        assert s == s[..|s| - 1] + [last];
      }
      if last in d then d else d + [last]
  }

  /** A sequence without duplicates is its own deduplication. */
  lemma {:induction false} DedupOfDistinct<T(!new)>(s: seq<T>)
    requires NoDuplicates(s)
    ensures Dedup(s) == s
  {
    if s != [] {
      var init := s[..|s| - 1];
      assert NoDuplicates(init);
      DedupOfDistinct(init);
      assert s[|s| - 1] !in init;
      assert s == init + [s[|s| - 1]];
    }
  }

  /** Deduplication keeps the order of first occurrences: its result is a
      subsequence of the input. */
  lemma {:induction false} DedupIsSubsequence<T(!new)>(s: seq<T>)
    ensures IsSubsequence(Dedup(s), s)
  {
    if s != [] {
      var init := s[..|s| - 1];
      DedupIsSubsequence(init);
      if s[|s| - 1] in Dedup(init) {
        SubsequenceAppendRight(Dedup(init), init, [s[|s| - 1]]);
      } else {
        SubsequenceAppendBoth(Dedup(init), init, [s[|s| - 1]]);
      }
      assert s == init + [s[|s| - 1]];
    }
  }

  /** Deduplicating a prefix gives a prefix of the deduplicated whole. */
  lemma {:induction false} DedupPrefix<T(!new)>(s: seq<T>, k: nat)
    requires k <= |s|
    ensures Dedup(s[..k]) <= Dedup(s)
    decreases |s|
  {
    if k < |s| {
      var init := s[..|s| - 1];
      assert init[..k] == s[..k];
      DedupPrefix(init, k);
    } else {
      assert s[..k] == s;
    }
  }

  /** Deduplication keeps first occurrences in their order: when `s[j]` is
      the first occurrence of its value, every value met before it is
      placed before it. */
  lemma DedupKeepsFirstOrder<T(!new)>(s: seq<T>, i: nat, j: nat)
    requires i < j < |s| && s[j] !in s[..j]
    ensures exists p, q :: 0 <= p < q < |Dedup(s)| && Dedup(s)[p] == s[i] && Dedup(s)[q] == s[j]
  {
    var d := Dedup(s[..j]);
    assert s[..j + 1][..j] == s[..j];
    assert Dedup(s[..j + 1]) == d + [s[j]];
    DedupPrefix(s, j + 1);
    assert s[i] in s[..j];
    var p :| 0 <= p < |d| && d[p] == s[i];
    var q := |d|;
    assert Dedup(s)[p] == s[i] && Dedup(s)[q] == s[j];
  }

  /** A subsequence of `b` is one of `b + t`. */
  lemma {:induction false} SubsequenceAppendRight<T>(a: seq<T>, b: seq<T>, t: seq<T>)
    requires IsSubsequence(a, b)
    ensures IsSubsequence(a, b + t)
    decreases |b|
  {
    if a != [] && b != [] {
      assert (b + t)[0] == b[0] && (b + t)[1..] == b[1..] + t;
      if a[0] == b[0] {
        SubsequenceAppendRight(a[1..], b[1..], t);
      } else {
        SubsequenceAppendRight(a, b[1..], t);
      }
    }
  }

  /** Every sequence is a subsequence of itself. */
  lemma {:induction false} SubsequenceRefl<T>(a: seq<T>)
    ensures IsSubsequence(a, a)
  {
    if a != [] {
      SubsequenceRefl(a[1..]);
    }
  }

  /** A subsequence of `b` is one of `p + b`. */
  lemma {:induction false} SubsequencePrepend<T>(a: seq<T>, p: seq<T>, b: seq<T>)
    requires IsSubsequence(a, b)
    ensures IsSubsequence(a, p + b)
    decreases |p|
  {
    if p == [] {
      assert p + b == b;
    } else {
      SubsequencePrepend(a, p[1..], b);
      assert (p + b)[1..] == p[1..] + b;
      SubsequenceSkip(a, p + b);
    }
  }

  /** Appending the same tail to both sides keeps the relation. */
  lemma {:induction false} SubsequenceAppendBoth<T>(a: seq<T>, b: seq<T>, t: seq<T>)
    requires IsSubsequence(a, b)
    ensures IsSubsequence(a + t, b + t)
    decreases |b|
  {
    if a == [] {
      SubsequenceRefl(t);
      SubsequencePrepend(t, b, t);
      assert a + t == t;
    } else if b != [] {
      assert (b + t)[0] == b[0] && (b + t)[1..] == b[1..] + t;
      assert (a + t)[0] == a[0] && (a + t)[1..] == a[1..] + t;
      if a[0] == b[0] {
        SubsequenceAppendBoth(a[1..], b[1..], t);
      } else {
        SubsequenceAppendBoth(a, b[1..], t);
      }
    }
  }
}
