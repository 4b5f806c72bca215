/** The ascending sort applied to a channel's repetition samples before
    quartiles are taken. The library sort itself is not part of the model; it
    is stood in for by insertion sort, and SortedPermutationUnique shows that
    every sorted permutation of the samples is the same sequence, so the
    statistics do not depend on which algorithm sorts. */
module SampleSort {

  predicate IsSorted(s: seq<real>)
  {
    forall i, j :: 0 <= i < j < |s| ==> s[i] <= s[j]
  }

  /** Inserts x before the first element greater than it. */
  function Insert(x: real, s: seq<real>): (r: seq<real>)
    requires IsSorted(s)
    ensures IsSorted(r)
    ensures multiset(r) == multiset(s) + multiset{x}
    ensures |r| == |s| + 1
  {
    if |s| == 0 then [x]
    else if x <= s[0] then
      ConsSorted(x, s);
      [x] + s
    else
      var rest := Insert(x, s[1..]);
      assert s == [s[0]] + s[1..];
      HeadBoundsTail(s, x);
      assert multiset(rest) == multiset(s[1..] + [x]);
      BoundedByMultiset(s[0], rest, s[1..] + [x]);
      ConsSorted(s[0], rest);
      [s[0]] + rest
  }

  /** The head of a sorted sequence bounds its tail and anything above the head. */
  lemma HeadBoundsTail(s: seq<real>, x: real)
    requires IsSorted(s) && |s| > 0 && s[0] < x
    ensures forall k :: 0 <= k < |s[1..] + [x]| ==> s[0] <= (s[1..] + [x])[k]
  {
    forall k | 0 <= k < |s[1..] + [x]| ensures s[0] <= (s[1..] + [x])[k] {
      if k < |s| - 1 {
        assert (s[1..] + [x])[k] == s[k + 1];
      }
    }
  }

  /** A sorted sequence stays sorted behind a head no greater than its first element. */
  lemma ConsSorted(h: real, t: seq<real>)
    requires IsSorted(t) && (|t| > 0 ==> h <= t[0])
    ensures IsSorted([h] + t)
  {
    var r := [h] + t;
    forall i, j | 0 <= i < j < |r| ensures r[i] <= r[j] {
      if i > 0 {
        assert r[i] == t[i - 1] && r[j] == t[j - 1];
      } else {
        assert r[j] == t[j - 1];
      }
    }
  }

  /** A lower bound of every element of b bounds every element of a
      sequence with the same elements. */
  lemma BoundedByMultiset(lo: real, a: seq<real>, b: seq<real>)
    requires multiset(a) == multiset(b)
    requires forall k :: 0 <= k < |b| ==> lo <= b[k]
    ensures forall k :: 0 <= k < |a| ==> lo <= a[k]
  {
    forall k | 0 <= k < |a| ensures lo <= a[k] {
      assert a[k] in multiset(b);
    }
  }

  /** The samples in ascending order, duplicates kept. */
  function SortSamples(s: seq<real>): (r: seq<real>)
    ensures IsSorted(r)
    ensures multiset(r) == multiset(s)
    ensures |r| == |s|
  {
    if |s| == 0 then []
    else
      assert s == s[..|s| - 1] + [s[|s| - 1]];
      Insert(s[|s| - 1], SortSamples(s[..|s| - 1]))
  }

  /** The head of a sorted sequence is below every element it holds. */
  lemma SortedHeadIsLeast(s: seq<real>, x: real)
    requires IsSorted(s) && x in multiset(s)
    ensures |s| > 0 && s[0] <= x
  {
    var k :| 0 <= k < |s| && s[k] == x;
  }

  lemma TailMultiset(s: seq<real>)
    requires |s| > 0
    ensures multiset(s[1..]) == multiset(s) - multiset{s[0]}
  {
    assert s == [s[0]] + s[1..];
  }

  lemma SortedTail(s: seq<real>)
    requires IsSorted(s) && |s| > 0
    ensures IsSorted(s[1..])
  {
    forall i, j | 0 <= i < j < |s| - 1 ensures s[1..][i] <= s[1..][j] {
      assert s[1..][i] == s[i + 1] && s[1..][j] == s[j + 1];
    }
  }

  /** Sorted sequences with the same elements start with the same (least) one. */
  lemma SortedHeadsAgree(a: seq<real>, b: seq<real>)
    requires IsSorted(a) && IsSorted(b) && |a| > 0
    requires multiset(a) == multiset(b)
    ensures |b| > 0 && a[0] == b[0]
  {
    assert a[0] in multiset(a);
    SortedHeadIsLeast(b, a[0]);
    assert b[0] in multiset(b);
    SortedHeadIsLeast(a, b[0]);
  }

  /** Two sorted sequences with the same elements are equal. */
  lemma {:induction false} SortedPermutationUnique(a: seq<real>, b: seq<real>)
    requires IsSorted(a) && IsSorted(b)
    requires multiset(a) == multiset(b)
    ensures a == b
  {
    if |a| == 0 {
      assert |b| == |multiset(b)| == 0;
    } else {
      SortedHeadsAgree(a, b);
      TailMultiset(a);
      TailMultiset(b);
      SortedTail(a);
      SortedTail(b);
      SortedPermutationUnique(a[1..], b[1..]);
      assert a == [a[0]] + a[1..];
      assert b == [b[0]] + b[1..];
    }
  }

  /** Sorting is idempotent and ignores the input order. */
  lemma SortIgnoresOrder(a: seq<real>, b: seq<real>)
    requires multiset(a) == multiset(b)
    ensures SortSamples(a) == SortSamples(b)
  {
    SortedPermutationUnique(SortSamples(a), SortSamples(b));
  }

  lemma SortOfSorted(s: seq<real>)
    requires IsSorted(s)
    ensures SortSamples(s) == s
  {
    SortedPermutationUnique(SortSamples(s), s);
  }
}
