/**
 * The "seen set" de-duplication loops of the scrapers: walk a list, keep an
 * element only when its key has not been seen, and remember the key. The
 * result keeps the first element for every key, in input order.
 */
module Dedup {

  /** The set of keys of the elements of `s`. */
  function Keys<T, K>(s: seq<T>, key: T -> K): (r: set<K>)
    ensures forall i :: 0 <= i < |s| ==> key(s[i]) in r
  {
    if s == [] then {} else Keys(s[..|s| - 1], key) + {key(s[|s| - 1])}
  }

  /** A key no element carries is not in `Keys(s, key)`. */
  lemma {:induction false} KeyAbsent<T, K>(s: seq<T>, key: T -> K, k: K)
    requires forall i :: 0 <= i < |s| ==> key(s[i]) != k
    ensures k !in Keys(s, key)
  {
    if s != [] {
      var front := s[..|s| - 1];
      assert forall i :: 0 <= i < |front| ==> front[i] == s[i];
      KeyAbsent(front, key, k);
    }
  }

  /** No two elements share a key. */
  predicate DistinctKeys<T, K(==)>(s: seq<T>, key: T -> K) {
    forall i, j :: 0 <= i < j < |s| ==> key(s[i]) != key(s[j])
  }

  /** Keep an element when no earlier kept element has its key. */
  function DedupBy<T, K(==)>(s: seq<T>, key: T -> K): (r: seq<T>)
    ensures |r| <= |s|
    ensures forall x :: x in r ==> x in s
  {
    if s == [] then []
    else
      var front := s[..|s| - 1];
      var p := DedupBy(front, key);
      var x := s[|s| - 1];
      assert forall y :: y in front ==> y in s;
      if key(x) in Keys(p, key) then p else p + [x]
  }

  /** De-duplication loses no key. */
  lemma {:induction false} DedupKeys<T, K>(s: seq<T>, key: T -> K)
    ensures Keys(DedupBy(s, key), key) == Keys(s, key)
  {
    if s != [] {
      var front := s[..|s| - 1];
      var p := DedupBy(front, key);
      var x := s[|s| - 1];
      DedupKeys(front, key);
      if key(x) !in Keys(p, key) {
        assert (p + [x])[..|p|] == p;
      }
    }
  }

  /** No two kept elements share a key. */
  lemma {:induction false} DedupDistinct<T, K>(s: seq<T>, key: T -> K)
    ensures DistinctKeys(DedupBy(s, key), key)
  {
    if s != [] {
      var front := s[..|s| - 1];
      DedupDistinct(front, key);
    }
  }

  /** The first element carrying a key is the one kept. */
  lemma {:induction false} DedupKeepsFirst<T, K>(s: seq<T>, key: T -> K, i: int)
    requires 0 <= i < |s|
    requires forall j :: 0 <= j < i ==> key(s[j]) != key(s[i])
    ensures s[i] in DedupBy(s, key)
  {
    var front := s[..|s| - 1];
    var p := DedupBy(front, key);
    if i == |s| - 1 {
      DedupKeys(front, key);
      assert forall j :: 0 <= j < |front| ==> front[j] == s[j];
      KeyAbsent(front, key, key(s[i]));
    } else {
      assert front[i] == s[i];
      DedupKeepsFirst(front, key, i);
    }
  }

  /** A list without repeated keys is its own de-duplication. */
  lemma {:induction false} DedupOfDistinct<T, K>(s: seq<T>, key: T -> K)
    requires DistinctKeys(s, key)
    ensures DedupBy(s, key) == s
  {
    if s != [] {
      var front := s[..|s| - 1];
      var x := s[|s| - 1];
      DedupOfDistinct(front, key);
      assert forall j :: 0 <= j < |front| ==> front[j] == s[j];
      KeyAbsent(front, key, key(x));
      assert s == front + [x];
    }
  }

  /** Running the de-duplication again changes nothing. */
  lemma DedupIdempotent<T, K>(s: seq<T>, key: T -> K)
    ensures DedupBy(DedupBy(s, key), key) == DedupBy(s, key)
  {
    DedupDistinct(s, key);
    DedupOfDistinct(DedupBy(s, key), key);
  }

  /** The loop with a set of keys already seen. */
  method DedupLoop<T, K(==)>(s: seq<T>, key: T -> K) returns (r: seq<T>)
    ensures r == DedupBy(s, key)
  {
    r := [];
    var seen: set<K> := {};
    var i := 0;
    while i < |s|
      invariant 0 <= i <= |s|
      invariant r == DedupBy(s[..i], key)
      invariant seen == Keys(r, key)
    {
      assert s[..i + 1][..i] == s[..i];
      if key(s[i]) !in seen {
        assert (r + [s[i]])[..|r|] == r;
        r := r + [s[i]];
        seen := seen + {key(s[i])};
      }
      i := i + 1;
    }
    assert s[..i] == s;
  }
}
