/**
 * `sorted(samples)[len(samples) // 2]`: the element at the middle index of
 * the ascending order of the samples (the upper of the two middle values
 * when their number is even).
 */
module Median {

  /** Ascending order. */
  predicate Sorted(s: seq<real>)
  {
    forall i, j :: 0 <= i < j < |s| ==> s[i] <= s[j]
  }

  /** Inserts x before the first element of s that is not below it. */
  function Insert(x: real, s: seq<real>): (r: seq<real>)
    ensures |r| == |s| + 1
  {
    if s == [] || x <= s[0] then [x] + s else [s[0]] + Insert(x, s[1..])
  }

  /** Python's `sorted(s)`, by insertion. */
  function SortedCopy(s: seq<real>): (r: seq<real>)
    ensures |r| == |s|
  {
    if s == [] then [] else Insert(s[0], SortedCopy(s[1..]))
  }

  /** Insertion adds exactly x to the elements. */
  lemma {:induction false} InsertPermutes(x: real, s: seq<real>)
    ensures multiset(Insert(x, s)) == multiset(s) + multiset{x}
  {
    if s != [] && x > s[0] {
      InsertPermutes(x, s[1..]);
      assert s == [s[0]] + s[1..];
    }
  }

  /** A lower bound of x and of every element of s bounds every element after insertion. */
  lemma {:induction false} InsertBounded(x: real, s: seq<real>, lo: real)
    requires lo <= x && forall i :: 0 <= i < |s| ==> lo <= s[i]
    ensures forall i :: 0 <= i < |Insert(x, s)| ==> lo <= Insert(x, s)[i]
  {
    if s != [] && x > s[0] {
      InsertBounded(x, s[1..], lo);
    }
  }

  /** Putting a lower bound of an ascending sequence in front keeps it ascending. */
  lemma ConsSorted(h: real, t: seq<real>)
    requires Sorted(t) && forall i :: 0 <= i < |t| ==> h <= t[i]
    ensures Sorted([h] + t)
  {
  }

  /** Inserting into an ascending sequence keeps it ascending and adds exactly x. */
  lemma {:induction false} InsertSorted(x: real, s: seq<real>)
    requires Sorted(s)
    ensures Sorted(Insert(x, s))
    ensures multiset(Insert(x, s)) == multiset(s) + multiset{x}
  {
    InsertPermutes(x, s);
    if s == [] || x <= s[0] {
      assert forall i :: 0 <= i < |s| ==> x <= s[0] <= s[i];
      ConsSorted(x, s);
    } else {
      InsertSorted(x, s[1..]);
      InsertBounded(x, s[1..], s[0]);
      ConsSorted(s[0], Insert(x, s[1..]));
    }
  }

  /** `SortedCopy` sorts: its result is ascending and a permutation of the input. */
  lemma {:induction false} SortedCopySorts(s: seq<real>)
    ensures Sorted(SortedCopy(s))
    ensures multiset(SortedCopy(s)) == multiset(s)
  {
    if s != [] {
      SortedCopySorts(s[1..]);
      InsertSorted(s[0], SortedCopy(s[1..]));
      assert s == [s[0]] + s[1..];
    }
  }

  /** `sorted(s)[len(s) // 2]`. */
  function UpperMedian(s: seq<real>): (m: real)
    requires s != []
    ensures m in s
  {
    var t := SortedCopy(s);
    SortedCopySorts(s);
    assert t[|s| / 2] in multiset(t);
    t[|s| / 2]
  }

  /** How many elements of s lie strictly below m. */
  function CountBelow(s: seq<real>, m: real): (n: nat)
    ensures n <= |s|
  {
    if s == [] then 0 else (if s[0] < m then 1 else 0) + CountBelow(s[1..], m)
  }

  /** How many elements of s lie strictly above m. */
  function CountAbove(s: seq<real>, m: real): (n: nat)
    ensures n <= |s|
  {
    if s == [] then 0 else (if s[0] > m then 1 else 0) + CountAbove(s[1..], m)
  }

  /** Insertion adds the inserted element to the counts and nothing else. */
  lemma {:induction false} CountInsert(x: real, s: seq<real>, m: real)
    ensures CountBelow(Insert(x, s), m) == CountBelow(s, m) + (if x < m then 1 else 0)
    ensures CountAbove(Insert(x, s), m) == CountAbove(s, m) + (if x > m then 1 else 0)
  {
    if s == [] || x <= s[0] {
      assert ([x] + s)[1..] == s;
    } else {
      CountInsert(x, s[1..], m);
      assert ([s[0]] + Insert(x, s[1..]))[1..] == Insert(x, s[1..]);
    }
  }

  /** Sorting does not change the counts. */
  lemma {:induction false} CountSorted(s: seq<real>, m: real)
    ensures CountBelow(SortedCopy(s), m) == CountBelow(s, m)
    ensures CountAbove(SortedCopy(s), m) == CountAbove(s, m)
  {
    if s != [] {
      CountSorted(s[1..], m);
      CountInsert(s[0], SortedCopy(s[1..]), m);
    }
  }

  /** No element of s lies below its least bound nor above its greatest. */
  lemma {:induction false} CountBounded(s: seq<real>, m: real)
    ensures (forall i :: 0 <= i < |s| ==> m <= s[i]) ==> CountBelow(s, m) == 0
    ensures (forall i :: 0 <= i < |s| ==> s[i] <= m) ==> CountAbove(s, m) == 0
  {
    if s != [] {
      CountBounded(s[1..], m);
    }
  }

  /** If nothing from index k on lies below m, at most k elements do. */
  lemma {:induction false} CountBelowPrefix(t: seq<real>, k: nat, m: real)
    requires k <= |t| && forall i :: k <= i < |t| ==> m <= t[i]
    ensures CountBelow(t, m) <= k
  {
    if k == 0 {
      CountBounded(t, m);
    } else {
      CountBelowPrefix(t[1..], k - 1, m);
    }
  }

  /** If nothing up to index k lies above m, at most the elements after k do. */
  lemma {:induction false} CountAboveSuffix(t: seq<real>, k: nat, m: real)
    requires k < |t| && forall i :: 0 <= i <= k ==> t[i] <= m
    ensures CountAbove(t, m) <= |t| - 1 - k
  {
    if k > 0 {
      CountAboveSuffix(t[1..], k - 1, m);
    }
  }

  /** In ascending order, only the elements before index k can lie below t[k], and only those after it above. */
  lemma SortedIndexCounts(t: seq<real>, k: nat)
    requires Sorted(t) && k < |t|
    ensures CountBelow(t, t[k]) <= k
    ensures CountAbove(t, t[k]) <= |t| - 1 - k
  {
    CountBelowPrefix(t, k, t[k]);
    CountAboveSuffix(t, k, t[k]);
  }

  /**
   * The upper median is a median: at most half of the samples (rounded
   * down) lie strictly below it, and at most the rest less one lie
   * strictly above it.
   */
  lemma MedianSplitsSamples(s: seq<real>)
    requires s != []
    ensures CountBelow(s, UpperMedian(s)) <= |s| / 2
    ensures CountAbove(s, UpperMedian(s)) <= |s| - 1 - |s| / 2
  {
    var t := SortedCopy(s);
    SortedCopySorts(s);
    CountSorted(s, t[|s| / 2]);
    SortedIndexCounts(t, |s| / 2);
  }
}
