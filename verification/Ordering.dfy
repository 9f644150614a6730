/** Lexicographic order on strings. */
module Lexicographic {

  predicate Less(a: string, b: string) {
    |b| > 0 && (|a| == 0 || a[0] < b[0] || (a[0] == b[0] && Less(a[1..], b[1..])))
  }

  /** a is a proper prefix of b at k, or the first difference is at k and a has the smaller character there. */
  ghost predicate LessAt(a: string, b: string, k: nat) {
    && k <= |a| && k < |b| && a[..k] == b[..k]
    && (k == |a| || a[k] < b[k])
  }

  lemma SharedFirst(a: string, b: string, k: nat)
    requires LessAt(a, b, k)
    ensures k > 0 ==> a[0] == b[0]
  {
    if k > 0 {
      assert a[0] == a[..k][0] == b[..k][0] == b[0];
    }
  }

  lemma TailsLessAt(a: string, b: string, k: nat)
    requires a != "" && b != "" && a[0] == b[0]
    ensures LessAt(a[1..], b[1..], k) <==> LessAt(a, b, k + 1)
  {
    if k + 1 <= |a| && k + 1 <= |b| {
      assert a[..k + 1] == [a[0]] + a[1..][..k] && b[..k + 1] == [b[0]] + b[1..][..k];
      assert a[..k + 1][1..] == a[1..][..k] && b[..k + 1][1..] == b[1..][..k];
    }
  }

  /** Smaller means a proper prefix, or a smaller character at the first difference. */
  lemma {:induction false} LessIff(a: string, b: string)
    ensures Less(a, b) <==> exists k: nat :: LessAt(a, b, k)
  {
    if a != "" && b != "" && a[0] == b[0] {
      LessIff(a[1..], b[1..]);
      if k: nat :| LessAt(a[1..], b[1..], k) {
        TailsLessAt(a, b, k);
        assert LessAt(a, b, k + 1);
      }
      if k: nat :| LessAt(a, b, k) {
        TailsLessAt(a, b, k - 1);
        assert LessAt(a[1..], b[1..], k - 1);
      }
    } else {
      assert Less(a, b) ==> LessAt(a, b, 0);
      forall k: nat | LessAt(a, b, k)
        ensures Less(a, b)
      {
        SharedFirst(a, b, k);
      }
    }
  }

  lemma {:induction false} Irreflexive(a: string)
    ensures !Less(a, a)
  {
    if |a| > 0 {
      Irreflexive(a[1..]);
    }
  }

  lemma {:induction false} Transitive(a: string, b: string, c: string)
    requires Less(a, b) && Less(b, c)
    ensures Less(a, c)
  {
    if |a| > 0 && a[0] == b[0] == c[0] {
      Transitive(a[1..], b[1..], c[1..]);
    }
  }

  lemma {:induction false} LongerIsNotLess(a: string, b: string)
    ensures !Less(a + b, a)
  {
    if |a| > 0 {
      LongerIsNotLess(a[1..], b);
      assert (a + b)[1..] == a[1..] + b;
    }
  }

  lemma {:induction false} Total(a: string, b: string)
    ensures a == b || Less(a, b) || Less(b, a)
  {
    if |a| > 0 && |b| > 0 && a[0] == b[0] {
      Total(a[1..], b[1..]);
      assert a == [a[0]] + a[1..] && b == [b[0]] + b[1..];
    }
  }
}

/** Insertion sort by a strict order, and what it needs of the order. */
module InsertionSort {

  ghost predicate Transitive<T(!new)>(less: (T, T) -> bool) {
    forall a, b, c | less(a, b) && less(b, c) :: less(a, c)
  }

  /** Any two of the elements are ordered one way or the other. */
  ghost predicate Comparable<T>(less: (T, T) -> bool, s: seq<T>) {
    forall i, j | 0 <= i < j < |s| :: less(s[i], s[j]) || less(s[j], s[i])
  }

  ghost predicate InOrder<T>(less: (T, T) -> bool, s: seq<T>) {
    forall i, j | 0 <= i < j < |s| :: less(s[i], s[j])
  }

  /** x before the last n elements that are not below it. */
  function Insert<T>(less: (T, T) -> bool, s: seq<T>, n: nat, x: T): seq<T>
    requires n <= |s|
  {
    if n == 0 || less(s[n - 1], x) then s[..n] + [x] + s[n..] else Insert(less, s, n - 1, x)
  }

  /** The first n elements, sorted. */
  function Sort<T>(less: (T, T) -> bool, s: seq<T>, n: nat): seq<T>
    requires n <= |s|
  {
    if n == 0 then [] else
    var sorted := Sort(less, s, n - 1);
    Insert(less, sorted, |sorted|, s[n - 1])
  }

  lemma {:induction false} InsertMembers<T>(less: (T, T) -> bool, s: seq<T>, n: nat, x: T)
    requires n <= |s|
    ensures |Insert(less, s, n, x)| == |s| + 1 && multiset(Insert(less, s, n, x)) == multiset(s) + multiset{x}
  {
    if n == 0 || less(s[n - 1], x) {
      assert s == s[..n] + s[n..];
    } else {
      InsertMembers(less, s, n - 1, x);
    }
  }

  lemma {:induction false} InsertInOrder<T(!new)>(less: (T, T) -> bool, s: seq<T>, n: nat, x: T)
    requires Transitive(less) && n <= |s| && InOrder(less, s) && forall i | 0 <= i < |s| :: less(s[i], x) || less(x, s[i])
    requires forall i | n <= i < |s| :: less(x, s[i])
    ensures InOrder(less, Insert(less, s, n, x))
  {
    if n > 0 && !less(s[n - 1], x) {
      InsertInOrder(less, s, n - 1, x);
    }
  }

  /** Sorting permutes. */
  lemma {:induction false} SortMembers<T>(less: (T, T) -> bool, s: seq<T>, n: nat)
    requires n <= |s|
    ensures |Sort(less, s, n)| == n && multiset(Sort(less, s, n)) == multiset(s[..n])
    ensures forall x :: x in Sort(less, s, n) <==> x in s[..n]
  {
    hide Insert;
    if n > 0 {
      SortMembers(less, s, n - 1);
      InsertMembers(less, Sort(less, s, n - 1), n - 1, s[n - 1]);
      assert s[..n] == s[..n - 1] + [s[n - 1]];
    }
    assert forall x :: x in Sort(less, s, n) <==> x in multiset(Sort(less, s, n));
  }

  /** Sorting sorts. */
  lemma {:induction false} SortSorts<T(!new)>(less: (T, T) -> bool, s: seq<T>, n: nat)
    requires Transitive(less) && Comparable(less, s) && n <= |s|
    ensures InOrder(less, Sort(less, s, n))
  {
    hide Insert;
    if n > 0 {
      SortSorts(less, s, n - 1);
      SortMembers(less, s, n - 1);
      var sorted := Sort(less, s, n - 1);
      forall i | 0 <= i < |sorted|
        ensures less(sorted[i], s[n - 1]) || less(s[n - 1], sorted[i])
      {
        assert sorted[i] in s[..n - 1];
      }
      InsertInOrder(less, sorted, |sorted|, s[n - 1]);
    }
  }

  /** What is in order stays as it is. */
  lemma {:induction false} SortKeeps<T>(less: (T, T) -> bool, s: seq<T>, n: nat)
    requires n <= |s| && InOrder(less, s)
    ensures Sort(less, s, n) == s[..n]
  {
    if n > 0 {
      SortKeeps(less, s, n - 1);
      assert s[..n] == s[..n - 1] + [s[n - 1]];
    }
  }
}
