/**
 * Python's `list.sort` as a stable insertion sort by a "not greater than" relation: an
 * element is inserted after every element not greater than it, so equal elements keep
 * their order.
 */
module Sorting {
  ghost predicate Total<T(!new)>(le: (T, T) -> bool) {
    forall a, b :: le(a, b) || le(b, a)
  }

  ghost predicate Transitive<T(!new)>(le: (T, T) -> bool) {
    forall a, b, c :: le(a, b) && le(b, c) ==> le(a, c)
  }

  ghost predicate Antisymmetric<T(!new)>(le: (T, T) -> bool) {
    forall a, b :: le(a, b) && le(b, a) ==> a == b
  }

  predicate SortedBy<T>(le: (T, T) -> bool, s: seq<T>) {
    forall i :: 0 <= i < |s| - 1 ==> le(s[i], s[i + 1])
  }

  /** Insert `x` after the leading elements that are not greater than it. */
  function InsertBy<T>(le: (T, T) -> bool, x: T, s: seq<T>): (r: seq<T>)
    ensures multiset(r) == multiset(s) + multiset{x}
    ensures |r| > 0 && (r[0] == x || (s != [] && r[0] == s[0]))
  {
    if s == [] then [x]
    else if !le(s[0], x) then [x] + s
    else
      assert s == [s[0]] + s[1..];
      [s[0]] + InsertBy(le, x, s[1..])
  }

  lemma {:induction false} InsertKeepsSorted<T(!new)>(le: (T, T) -> bool, x: T, s: seq<T>)
    requires Total(le) && SortedBy(le, s)
    ensures SortedBy(le, InsertBy(le, x, s))
    decreases |s|
  {
    if s != [] && le(s[0], x) {
      var rest := s[1..];
      assert SortedBy(le, rest) by {
        assert forall i :: 0 <= i < |rest| ==> rest[i] == s[i + 1];
      }
      InsertKeepsSorted(le, x, rest);
      var ins := InsertBy(le, x, rest);
      if rest != [] {
        assert le(s[0], rest[0]);
      }
      assert le(s[0], ins[0]);
      assert InsertBy(le, x, s) == [s[0]] + ins;
    } else if s != [] {
      assert le(s[0], x) || le(x, s[0]);
    }
  }

  /** The list sorted by insertion, last element inserted last. */
  function SortBy<T>(le: (T, T) -> bool, s: seq<T>): seq<T> {
    if s == [] then [] else InsertBy(le, s[|s| - 1], SortBy(le, s[..|s| - 1]))
  }

  /** Sorting orders the list and keeps exactly its elements. */
  lemma SortByCorrect<T(!new)>(le: (T, T) -> bool, s: seq<T>)
    requires Total(le)
    ensures SortedBy(le, SortBy(le, s))
    ensures multiset(SortBy(le, s)) == multiset(s)
  {
    SortBySorted(le, s);
    SortByPermutes(le, s);
  }

  lemma {:induction false} SortBySorted<T(!new)>(le: (T, T) -> bool, s: seq<T>)
    requires Total(le)
    ensures SortedBy(le, SortBy(le, s))
    decreases |s|
  {
    if s != [] {
      var front := s[..|s| - 1];
      SortBySorted(le, front);
      InsertKeepsSorted(le, s[|s| - 1], SortBy(le, front));
    }
  }

  lemma {:induction false} SortByPermutes<T>(le: (T, T) -> bool, s: seq<T>)
    ensures multiset(SortBy(le, s)) == multiset(s)
    decreases |s|
  {
    if s != [] {
      var front, x := s[..|s| - 1], s[|s| - 1];
      SortByPermutes(le, front);
      assert s == front + [x];
      assert multiset(s) == multiset(front) + multiset{x};
    }
  }

  /** In a sorted list the first element is not greater than any other. */
  lemma {:induction false} SortedHeadLeast<T(!new)>(le: (T, T) -> bool, s: seq<T>, j: int)
    requires Transitive(le) && SortedBy(le, s) && 0 <= j < |s|
    ensures le(s[0], s[j]) || j == 0
    decreases j
  {
    if j > 1 {
      SortedHeadLeast(le, s, j - 1);
      assert le(s[j - 1], s[j]);
    }
  }

  /** Two lists with the same elements and the same head have the same elements after it. */
  lemma MultisetTail<T>(a: seq<T>, b: seq<T>)
    requires a != [] && b != [] && a[0] == b[0] && multiset(a) == multiset(b)
    ensures multiset(a[1..]) == multiset(b[1..])
  {
    assert a == [a[0]] + a[1..];
    assert b == [b[0]] + b[1..];
    assert multiset(a) == multiset([a[0]]) + multiset(a[1..]);
    assert multiset(b) == multiset([b[0]]) + multiset(b[1..]);
    assert multiset(a[1..]) == multiset(a) - multiset([a[0]]);
    assert multiset(b[1..]) == multiset(b) - multiset([b[0]]);
  }

  /** The tail of a sorted list is sorted. */
  lemma SortedTail<T>(le: (T, T) -> bool, s: seq<T>)
    requires s != [] && SortedBy(le, s)
    ensures SortedBy(le, s[1..])
  {
    assert forall k :: 0 <= k < |s| - 1 ==> s[1..][k] == s[k + 1];
  }

  /** Two sorted lists with the same elements start with the same element. */
  lemma SortedSameHead<T(!new)>(le: (T, T) -> bool, a: seq<T>, b: seq<T>)
    requires Transitive(le) && Antisymmetric(le)
    requires a != [] && SortedBy(le, a) && SortedBy(le, b) && multiset(a) == multiset(b)
    ensures b != [] && a[0] == b[0]
  {
    assert a[0] in multiset(b);
    var i :| 0 <= i < |b| && b[i] == a[0];
    assert b[0] in multiset(a);
    var j :| 0 <= j < |a| && a[j] == b[0];
    SortedHeadLeast(le, b, i);
    SortedHeadLeast(le, a, j);
  }

  /**
   * Under a total, transitive and antisymmetric order, a sorted list is determined by its
   * elements: two sorted lists with the same elements are equal.
   */
  lemma {:induction false} SortedUnique<T(!new)>(le: (T, T) -> bool, a: seq<T>, b: seq<T>)
    requires Transitive(le) && Antisymmetric(le)
    requires SortedBy(le, a) && SortedBy(le, b) && multiset(a) == multiset(b)
    ensures a == b
    decreases |a|
  {
    if a != [] {
      SortedSameHead(le, a, b);
      MultisetTail(a, b);
      SortedTail(le, a);
      SortedTail(le, b);
      SortedUnique(le, a[1..], b[1..]);
      assert a == [a[0]] + a[1..];
      assert b == [b[0]] + b[1..];
    } else {
      assert |multiset(b)| == 0;
    }
  }

  /**
   * Comparing sorted copies is comparing the elements with their multiplicities: under such
   * an order, the sorted lists are equal exactly when the lists are permutations of each other.
   */
  lemma SortedEqualIffPermutation<T(!new)>(le: (T, T) -> bool, a: seq<T>, b: seq<T>)
    requires Total(le) && Transitive(le) && Antisymmetric(le)
    ensures SortBy(le, a) == SortBy(le, b) <==> multiset(a) == multiset(b)
  {
    SortByCorrect(le, a);
    SortByCorrect(le, b);
    if multiset(a) == multiset(b) {
      SortedUnique(le, SortBy(le, a), SortBy(le, b));
    }
  }
}
