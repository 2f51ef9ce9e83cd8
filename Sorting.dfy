/**
 * Python's `list.sort(key=...)` and `sorted(..., key=..., reverse=True)` on
 * integer keys. The sort inserts each element after every element whose key
 * is not larger; a descending sort is the ascending sort on the negated key.
 * What is proved is that the result is ordered and a permutation.
 */
module Sorting {

  predicate SortedBy<T>(s: seq<T>, key: T -> int) {
    forall i, j :: 0 <= i < j < |s| ==> key(s[i]) <= key(s[j])
  }

  /** `x` placed after the last element whose key is at most its own. */
  function Insert<T>(s: seq<T>, x: T, key: T -> int): (r: seq<T>)
    ensures |r| == |s| + 1
  {
    if s == [] then [x]
    else if key(s[|s| - 1]) <= key(x) then s + [x]
    else Insert(s[..|s| - 1], x, key) + [s[|s| - 1]]
  }

  /** Inserting adds exactly `x`. */
  lemma {:induction false} InsertPermutes<T>(s: seq<T>, x: T, key: T -> int)
    ensures multiset(Insert(s, x, key)) == multiset(s) + multiset{x}
  {
    if s != [] && key(s[|s| - 1]) > key(x) {
      var init := s[..|s| - 1];
      InsertPermutes(init, x, key);
      assert s == init + [s[|s| - 1]];
    }
  }

  /** Inserting into a sorted list keeps it sorted. */
  lemma {:induction false} InsertSorted<T>(s: seq<T>, x: T, key: T -> int)
    requires SortedBy(s, key)
    ensures SortedBy(Insert(s, x, key), key)
  {
    if s != [] {
      var last := s[|s| - 1];
      var init := s[..|s| - 1];
      SortedPrefixBelow(s, key);
      if key(last) <= key(x) {
        AppendLargest(s, x, key);
      } else {
        var front := Insert(init, x, key);
        InsertSorted(init, x, key);
        InsertPermutes(init, x, key);
        BoundByMultiset(front, init, x, key, key(last));
        AppendLargest(front, last, key);
      }
    }
  }

  /** An element whose key bounds all the others goes at the end. */
  lemma InsertLargest<T>(s: seq<T>, x: T, key: T -> int)
    requires forall y :: y in s ==> key(y) <= key(x)
    ensures Insert(s, x, key) == s + [x]
  {
    if s != [] {
      assert s[|s| - 1] in s;
    }
  }

  /** In a sorted list every element but the last has a key at most the last one's. */
  lemma SortedPrefixBelow<T>(s: seq<T>, key: T -> int)
    requires SortedBy(s, key) && s != []
    ensures SortedBy(s[..|s| - 1], key)
    ensures forall y :: y in s[..|s| - 1] ==> key(y) <= key(s[|s| - 1])
  {
    forall y | y in s[..|s| - 1] ensures key(y) <= key(s[|s| - 1]) {
      var k :| 0 <= k < |s| - 1 && s[..|s| - 1][k] == y;
      assert s[k] == y;
    }
  }

  /** A bound on the keys of `s` and of `x` bounds every element of a list with their elements. */
  lemma BoundByMultiset<T>(r: seq<T>, s: seq<T>, x: T, key: T -> int, b: int)
    requires multiset(r) == multiset(s) + multiset{x}
    requires forall y :: y in s ==> key(y) <= b
    requires key(x) <= b
    ensures forall y :: y in r ==> key(y) <= b
  {
    forall y | y in r ensures key(y) <= b {
      assert y in multiset(r);
      if y != x {
        assert y in multiset(s);
      }
    }
  }

  /** Appending an element whose key bounds all the others keeps a list sorted. */
  lemma AppendLargest<T>(s: seq<T>, x: T, key: T -> int)
    requires SortedBy(s, key)
    requires forall y :: y in s ==> key(y) <= key(x)
    ensures SortedBy(s + [x], key)
  {
    assert forall i :: 0 <= i < |s| ==> s[i] in s;
  }

  /** The sorted permutation of `s` by `key`. */
  function SortBy<T>(s: seq<T>, key: T -> int): (r: seq<T>)
    ensures |r| == |s|
    ensures multiset(r) == multiset(s)
    ensures SortedBy(r, key)
  {
    if s == [] then []
    else
      var front := s[..|s| - 1];
      var sorted := SortBy(front, key);
      assert s == front + [s[|s| - 1]];
      InsertPermutes(sorted, s[|s| - 1], key);
      InsertSorted(sorted, s[|s| - 1], key);
      Insert(sorted, s[|s| - 1], key)
  }

  /** One step of the sort: the last element is inserted into the sorted rest. */
  lemma SortByStep<T>(s: seq<T>, key: T -> int)
    requires s != []
    ensures SortBy(s, key) == Insert(SortBy(s[..|s| - 1], key), s[|s| - 1], key)
  {
  }

  /** Sorting a list that is already in order returns it unchanged. */
  lemma {:induction false} SortOfSorted<T>(s: seq<T>, key: T -> int)
    requires SortedBy(s, key)
    ensures SortBy(s, key) == s
  {
    if s != [] {
      var front := s[..|s| - 1];
      var last := s[|s| - 1];
      SortedPrefixBelow(s, key);
      SortOfSorted(front, key);
      AppendLargestKeepsSort(front, last, key);
      assert front + [last] == s;
    }
  }

  /** Appending an element with the largest key to a list the sort leaves alone gives a list it leaves alone too. */
  lemma AppendLargestKeepsSort<T>(front: seq<T>, last: T, key: T -> int)
    requires SortBy(front, key) == front
    requires forall y :: y in front ==> key(y) <= key(last)
    ensures SortBy(front + [last], key) == front + [last]
  {
    var s := front + [last];
    assert s[..|s| - 1] == front;
    SortByStep(s, key);
    InsertLargest(front, last, key);
  }

  /** Sorting is idempotent. */
  lemma SortTwice<T>(s: seq<T>, key: T -> int)
    ensures SortBy(SortBy(s, key), key) == SortBy(s, key)
  {
    SortOfSorted(SortBy(s, key), key);
  }
}
