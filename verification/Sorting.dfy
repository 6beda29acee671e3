/** Sorting by a strict order on pairwise distinct keys, where the sorted list is unique. */
module Sorting {
  predicate Increasing<T>(s: seq<T>, less: (T, T) -> bool) {
    forall i, j {:trigger less(s[i], s[j])} :: 0 <= i < j < |s| ==> less(s[i], s[j])
  }

  ghost predicate StrictOrder<T(!new)>(less: (T, T) -> bool) {
    && (forall x: T :: !less(x, x))
    && (forall x: T, y: T, z: T :: less(x, y) && less(y, z) ==> less(x, z))
  }

  /** Distinct positions hold comparable elements: what the duplicate checks establish. */
  predicate Comparable<T>(s: seq<T>, less: (T, T) -> bool) {
    forall i, j :: 0 <= i < j < |s| ==> less(s[i], s[j]) || less(s[j], s[i])
  }

  function Insert<T>(x: T, s: seq<T>, less: (T, T) -> bool): seq<T> {
    if s == [] || less(x, s[0]) then [x] + s else [s[0]] + Insert(x, s[1..], less)
  }

  function Sort<T>(s: seq<T>, less: (T, T) -> bool): seq<T> {
    if s == [] then [] else Insert(s[0], Sort(s[1..], less), less)
  }

  lemma {:induction false} InsertKeeps<T>(x: T, s: seq<T>, less: (T, T) -> bool)
    ensures multiset(Insert(x, s, less)) == multiset{x} + multiset(s)
  {
    if s == [] || less(x, s[0]) {
    } else {
      InsertKeeps(x, s[1..], less);
      assert s == [s[0]] + s[1..];
    }
  }

  lemma {:induction false} SortKeeps<T>(s: seq<T>, less: (T, T) -> bool)
    ensures multiset(Sort(s, less)) == multiset(s)
    ensures |Sort(s, less)| == |s|
    ensures forall x :: x in Sort(s, less) <==> x in s
  {
    if s == [] {
    } else {
      SortKeeps(s[1..], less);
      InsertKeeps(s[0], Sort(s[1..], less), less);
      assert s == [s[0]] + s[1..];
    }
    assert |multiset(Sort(s, less))| == |Sort(s, less)|;
    assert |multiset(s)| == |s|;
    forall x ensures x in Sort(s, less) <==> x in s {
      assert x in Sort(s, less) <==> x in multiset(Sort(s, less));
      assert x in s <==> x in multiset(s);
    }
  }

  lemma {:induction false} InsertIncreasing<T(!new)>(x: T, s: seq<T>, less: (T, T) -> bool)
    requires StrictOrder(less) && Increasing(s, less)
    requires forall y :: y in s ==> less(x, y) || less(y, x)
    ensures Increasing(Insert(x, s, less), less)
  {
    if s == [] || less(x, s[0]) {
      assert forall j :: 0 < j < |s| ==> less(s[0], s[j]);
    } else {
      InsertIncreasing(x, s[1..], less);
      var rest := Insert(x, s[1..], less);
      InsertKeeps(x, s[1..], less);
      forall y | y in rest ensures less(s[0], y) {
        assert y in multiset(rest);
        assert y == x || y in s[1..];
        assert s[0] in s;
      }
    }
  }

  /** Sorting distinct keys gives an increasing list. */
  lemma {:induction false} SortIncreasing<T(!new)>(s: seq<T>, less: (T, T) -> bool)
    requires StrictOrder(less) && Comparable(s, less)
    ensures Increasing(Sort(s, less), less)
  {
    if s == [] {
    } else {
      SortIncreasing(s[1..], less);
      SortKeeps(s[1..], less);
      forall y | y in Sort(s[1..], less) ensures less(s[0], y) || less(y, s[0]) {
        assert y in s[1..];
        var k :| 0 <= k < |s[1..]| && s[1..][k] == y;
        assert s[k + 1] == y;
      }
      InsertIncreasing(s[0], Sort(s[1..], less), less);
    }
  }

  /** An increasing list is its own sorted form. */
  lemma {:induction false} SortFixed<T>(s: seq<T>, less: (T, T) -> bool)
    requires Increasing(s, less)
    ensures Sort(s, less) == s
  {
    if s == [] {
    } else {
      assert Increasing(s[1..], less);
      SortFixed(s[1..], less);
      assert s == [s[0]] + s[1..];
    }
  }

  /** Go's string order: bytewise lexicographic. */
  predicate TextLess(a: string, b: string) {
    b != [] && (a == [] || a[0] < b[0] || (a[0] == b[0] && TextLess(a[1..], b[1..])))
  }

  /** One text is before another exactly when it is a proper prefix of it or smaller where they first differ. */
  lemma {:induction false} TextLessIff(a: string, b: string)
    ensures TextLess(a, b) <==>
      exists k :: 0 <= k <= |a| && k < |b| && a[..k] == b[..k] && (k == |a| || a[k] < b[k])
  {
    if a == [] || b == [] || a[0] != b[0] {
      if a == [] && b != [] { assert a[..0] == b[..0]; }
      if TextLess(a, b) && a != [] { assert a[..0] == b[..0]; }
      forall k | 0 <= k <= |a| && k < |b| && a[..k] == b[..k] ensures k == 0 {
        if k != 0 { SameStart(a, b, k); }
      }
    } else {
      TextLessIff(a[1..], b[1..]);
      FirstDifference(a, b);
    }
  }

  lemma SameStart(a: string, b: string, k: nat)
    requires 0 < k <= |a| && k <= |b| && a[..k] == b[..k]
    ensures a[0] == b[0]
  {
    assert a[..k][0] == a[0] && b[..k][0] == b[0];
  }

  lemma FirstDifference(a: string, b: string)
    requires a != [] && b != [] && a[0] == b[0]
    ensures (exists k :: 0 <= k <= |a| && k < |b| && a[..k] == b[..k] && (k == |a| || a[k] < b[k])) <==>
      exists k :: 0 <= k <= |a[1..]| && k < |b[1..]| && a[1..][..k] == b[1..][..k]
                  && (k == |a[1..]| || a[1..][k] < b[1..][k])
  {
    if k :| 0 <= k <= |a| && k < |b| && a[..k] == b[..k] && (k == |a| || a[k] < b[k]) {
      assert k > 0;
      assert a[1..][..k - 1] == a[..k][1..] && b[1..][..k - 1] == b[..k][1..];
    }
    if k :| 0 <= k <= |a[1..]| && k < |b[1..]| && a[1..][..k] == b[1..][..k]
            && (k == |a[1..]| || a[1..][k] < b[1..][k]) {
      assert a[..k + 1] == [a[0]] + a[1..][..k] && b[..k + 1] == [b[0]] + b[1..][..k];
    }
  }

  lemma {:induction false} TextLessIrreflexive(a: string)
    ensures !TextLess(a, a)
  {
    if a == [] {
    } else {
      TextLessIrreflexive(a[1..]);
    }
  }

  lemma {:induction false} TextLessTransitive(a: string, b: string, c: string)
    requires TextLess(a, b) && TextLess(b, c)
    ensures TextLess(a, c)
  {
    if a == [] || a[0] < b[0] || b[0] < c[0] {
    } else {
      TextLessTransitive(a[1..], b[1..], c[1..]);
    }
  }

  lemma {:induction false} TextLessTotal(a: string, b: string)
    ensures a == b || TextLess(a, b) || TextLess(b, a)
  {
    if a == [] || b == [] || a[0] != b[0] {
    } else {
      TextLessTotal(a[1..], b[1..]);
      assert a == [a[0]] + a[1..] && b == [b[0]] + b[1..];
    }
  }
}
