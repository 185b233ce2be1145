/** Python's `sorted(s, key=...)`: stable and ascending. A descending sort, which keeps
    ties in their order too, is this sort on the negated key. */
module Sorting {

  predicate Sorted<T>(s: seq<T>, key: T -> real) {
    forall i, j :: 0 <= i < j < |s| ==> key(s[i]) <= key(s[j])
  }

  /** x after everything that is not above it. */
  function Insert<T>(x: T, s: seq<T>, key: T -> real): seq<T> {
    if s != [] && key(s[|s| - 1]) > key(x) then Insert(x, s[..|s| - 1], key) + [s[|s| - 1]] else s + [x]
  }

  function SortBy<T>(s: seq<T>, key: T -> real): seq<T> {
    if s == [] then [] else Insert(s[|s| - 1], SortBy(s[..|s| - 1], key), key)
  }

  predicate Below<T>(s: seq<T>, key: T -> real, bound: real) {
    forall i :: 0 <= i < |s| ==> key(s[i]) <= bound
  }

  lemma Append<T>(s: seq<T>, x: T, key: T -> real, bound: real)
    ensures Below(s, key, bound) && key(x) <= bound ==> Below(s + [x], key, bound)
    ensures Sorted(s, key) && Below(s, key, key(x)) ==> Sorted(s + [x], key)
  {}

  lemma {:induction false} InsertStaysBelow<T>(x: T, s: seq<T>, key: T -> real, bound: real)
    requires key(x) <= bound && Below(s, key, bound)
    ensures Below(Insert(x, s, key), key, bound)
  {
    if s != [] && key(s[|s| - 1]) > key(x) {
      InsertStaysBelow(x, s[..|s| - 1], key, bound);
      Append(Insert(x, s[..|s| - 1], key), s[|s| - 1], key, bound);
    } else {
      Append(s, x, key, bound);
    }
  }

  lemma {:induction false} InsertIsSorted<T>(x: T, s: seq<T>, key: T -> real)
    requires Sorted(s, key)
    ensures Sorted(Insert(x, s, key), key)
  {
    if s != [] && key(s[|s| - 1]) > key(x) {
      var front, last := s[..|s| - 1], s[|s| - 1];
      InsertIsSorted(x, front, key);
      InsertStaysBelow(x, front, key, key(last));
      Append(Insert(x, front, key), last, key, key(last));
    } else {
      Append(s, x, key, key(x));
    }
  }

  lemma {:induction false} InsertAdds<T>(x: T, s: seq<T>, key: T -> real)
    ensures multiset(Insert(x, s, key)) == multiset(s) + multiset{x}
  {
    if s == [] || key(s[|s| - 1]) <= key(x) {
    } else {
      InsertAdds(x, s[..|s| - 1], key);
      assert s == s[..|s| - 1] + [s[|s| - 1]];
    }
  }

  lemma {:induction false} SortByAscends<T>(s: seq<T>, key: T -> real)
    ensures Sorted(SortBy(s, key), key)
  {
    if s == [] {
    } else {
      SortByAscends(s[..|s| - 1], key);
      InsertIsSorted(s[|s| - 1], SortBy(s[..|s| - 1], key), key);
    }
  }

  lemma {:induction false} SortByKeepsAll<T>(s: seq<T>, key: T -> real)
    ensures multiset(SortBy(s, key)) == multiset(s)
  {
    if s == [] {
    } else {
      SortByKeepsAll(s[..|s| - 1], key);
      InsertAdds(s[|s| - 1], SortBy(s[..|s| - 1], key), key);
      assert s == s[..|s| - 1] + [s[|s| - 1]];
    }
  }

  /** The result ascends and is a permutation. */
  lemma SortByIsSorted<T>(s: seq<T>, key: T -> real)
    ensures Sorted(SortBy(s, key), key) && multiset(SortBy(s, key)) == multiset(s)
  {
    SortByAscends(s, key);
    SortByKeepsAll(s, key);
  }

  function WithKey<T>(s: seq<T>, key: T -> real, k: real): seq<T> {
    if s == [] then []
    else WithKey(s[..|s| - 1], key, k) + (if key(s[|s| - 1]) == k then [s[|s| - 1]] else [])
  }

  lemma {:induction false} InsertIsStable<T>(x: T, s: seq<T>, key: T -> real, k: real)
    ensures WithKey(Insert(x, s, key), key, k) == WithKey(s + [x], key, k)
  {
    assert (s + [x])[..|s|] == s;
    if s == [] || key(s[|s| - 1]) <= key(x) {
    } else {
      var front, last := s[..|s| - 1], s[|s| - 1];
      InsertIsStable(x, front, key, k);
      assert (front + [x])[..|front|] == front;
      assert (Insert(x, front, key) + [last])[..|Insert(x, front, key)|] == Insert(x, front, key);
    }
  }

  /** Elements of equal keys keep their order. */
  lemma {:induction false} SortByIsStable<T>(s: seq<T>, key: T -> real, k: real)
    ensures WithKey(SortBy(s, key), key, k) == WithKey(s, key, k)
  {
    if s == [] {
    } else {
      var front, last := s[..|s| - 1], s[|s| - 1];
      var sorted := SortBy(front, key);
      SortByIsStable(front, key, k);
      InsertIsStable(last, sorted, key, k);
      assert (sorted + [last])[..|sorted|] == sorted;
    }
  }

  lemma {:induction false} SortBySorted<T>(s: seq<T>, key: T -> real)
    requires Sorted(s, key)
    ensures SortBy(s, key) == s
  {
    if s == [] {
    } else {
      SortBySorted(s[..|s| - 1], key);
      assert s == s[..|s| - 1] + [s[|s| - 1]];
    }
  }

  /** The sort has the same elements, each as often. */
  lemma SameElements<T>(s: seq<T>, key: T -> real)
    ensures |SortBy(s, key)| == |s| && forall x :: x in SortBy(s, key) <==> x in s
  {
    SortByIsSorted(s, key);
    assert |multiset(SortBy(s, key))| == |SortBy(s, key)| && |multiset(s)| == |s|;
    assert forall x :: x in SortBy(s, key) <==> x in multiset(SortBy(s, key));
  }

  ghost predicate Distinct<T>(s: seq<T>) {
    forall i, j :: 0 <= i < j < |s| ==> s[i] != s[j]
  }

  lemma {:induction false} InsertElements<T>(x: T, s: seq<T>, key: T -> real)
    ensures forall y :: y in Insert(x, s, key) <==> y in s || y == x
  {
    if s == [] || key(s[|s| - 1]) <= key(x) {
    } else {
      InsertElements(x, s[..|s| - 1], key);
      assert s == s[..|s| - 1] + [s[|s| - 1]];
    }
  }

  lemma {:induction false} InsertIsDistinct<T>(x: T, s: seq<T>, key: T -> real)
    requires Distinct(s) && x !in s
    ensures Distinct(Insert(x, s, key))
  {
    if s == [] || key(s[|s| - 1]) <= key(x) {
    } else {
      var front, last := s[..|s| - 1], s[|s| - 1];
      InsertIsDistinct(x, front, key);
      InsertElements(x, front, key);
      var r := Insert(x, front, key);
      assert last !in front && last !in r;
      assert forall i :: 0 <= i < |r| ==> r[i] in r;
    }
  }

  lemma {:induction false} SortByIsDistinct<T>(s: seq<T>, key: T -> real)
    requires Distinct(s)
    ensures Distinct(SortBy(s, key))
  {
    if s == [] {
    } else {
      var front, last := s[..|s| - 1], s[|s| - 1];
      SortByIsDistinct(front, key);
      SameElements(front, key);
      InsertIsDistinct(last, SortBy(front, key), key);
    }
  }
}
