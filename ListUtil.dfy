/**
 * Python list slicing (`s[:n]`, `s[n:]`, negative bounds counting from the
 * end), reversal (`s[::-1]`) and the list-comprehension filter
 * `[x for x in s if p(x)]`, which the scrapers use to limit and select
 * rows, and the left fold that specifies a loop over a list.
 */
module ListUtil {

  /** The index a Python slice bound `n` denotes in a list of length `len`. */
  function SliceIndex(n: int, len: nat): (r: nat)
    ensures r <= len
    ensures 0 <= n <= len ==> r == n
    ensures n > len ==> r == len
    ensures n < 0 && -n <= len ==> r == len + n
    ensures n < 0 && -n > len ==> r == 0
  {
    if n >= 0 then (if n <= len then n else len)
    else if len + n >= 0 then len + n else 0
  }

  /** `s[:n]` */
  function SliceTo<T>(s: seq<T>, n: int): (r: seq<T>)
    ensures |r| <= |s| && r == s[..|r|]
  {
    s[..SliceIndex(n, |s|)]
  }

  /** `s[n:]` */
  function SliceFrom<T>(s: seq<T>, n: int): (r: seq<T>)
    ensures |r| <= |s| && r == s[|s| - |r|..]
  {
    s[SliceIndex(n, |s|)..]
  }

  /** `s[::-1]` */
  function Reverse<T>(s: seq<T>): (r: seq<T>)
    ensures |r| == |s|
    ensures forall i :: 0 <= i < |s| ==> r[i] == s[|s| - 1 - i]
  {
    if s == [] then [] else [s[|s| - 1]] + Reverse(s[..|s| - 1])
  }

  /** Reversing twice gives the list back. */
  lemma ReverseReverse<T>(s: seq<T>)
    ensures Reverse(Reverse(s)) == s
  {
    var r := Reverse(Reverse(s));
    assert forall i :: 0 <= i < |s| ==> r[i] == s[i];
  }

  /** `[x for x in s if p(x)]` */
  function Filter<T>(s: seq<T>, p: T -> bool): (r: seq<T>)
    ensures |r| <= |s|
    ensures forall i :: 0 <= i < |r| ==> r[i] in s && p(r[i])
    ensures forall i :: 0 <= i < |s| && p(s[i]) ==> s[i] in r
  {
    if s == [] then []
    else
      var front := Filter(s[..|s| - 1], p);
      assert forall i :: 0 <= i < |s| - 1 ==> s[..|s| - 1][i] == s[i];
      if p(s[|s| - 1]) then front + [s[|s| - 1]] else front
  }

  /** A list all of whose elements pass is kept whole. */
  lemma {:induction false} FilterAll<T>(s: seq<T>, p: T -> bool)
    requires forall i :: 0 <= i < |s| ==> p(s[i])
    ensures Filter(s, p) == s
  {
    if s != [] {
      FilterAll(s[..|s| - 1], p);
    }
  }

  /** Filtering by a weaker test first changes nothing. */
  lemma {:induction false} FilterFilter<T>(s: seq<T>, p: T -> bool, q: T -> bool)
    requires forall x :: q(x) ==> p(x)
    ensures Filter(Filter(s, p), q) == Filter(s, q)
  {
    if s != [] {
      FilterFilter(s[..|s| - 1], p, q);
    }
  }

  /** Filtering a concatenation filters each part. */
  lemma {:induction false} FilterAppend<T>(s: seq<T>, t: seq<T>, p: T -> bool)
    ensures Filter(s + t, p) == Filter(s, p) + Filter(t, p)
    decreases |t|
  {
    if t == [] {
      assert s + t == s;
    } else {
      var t' := t[..|t| - 1];
      assert (s + t)[..|s + t| - 1] == s + t';
      assert (s + t)[|s + t| - 1] == t[|t| - 1];
      FilterAppend(s, t', p);
    }
  }

  /** Filtering keeps the relative order: the kept elements form a subsequence at increasing positions. */
  lemma {:induction false} FilterOrder<T>(s: seq<T>, p: T -> bool, i: nat, j: nat)
    requires i < j < |Filter(s, p)|
    ensures exists a, b :: 0 <= a < b < |s| && s[a] == Filter(s, p)[i] && s[b] == Filter(s, p)[j]
    decreases |s|
  {
    var front := s[..|s| - 1];
    var f := Filter(front, p);
    if j < |f| {
      FilterOrder(front, p, i, j);
      var a, b :| 0 <= a < b < |front| && front[a] == f[i] && front[b] == f[j];
      assert s[a] == front[a] && s[b] == front[b];
    } else {
      assert Filter(s, p)[i] == f[i] && f[i] in f;
      var a :| 0 <= a < |front| && front[a] == f[i];
      assert s[a] == front[a];
      assert s[|s| - 1] == Filter(s, p)[j];
    }
  }

  /** The accumulator after a loop that applies `f` to each element in turn. */
  function FoldLeft<A, T>(acc: A, xs: seq<T>, f: (A, T) -> A): A {
    if xs == [] then acc else f(FoldLeft(acc, xs[..|xs| - 1], f), xs[|xs| - 1])
  }

  /** A property every step keeps holds after the whole loop. */
  lemma {:induction false} FoldInvariant<A, T>(acc: A, xs: seq<T>, f: (A, T) -> A, inv: A -> bool)
    requires inv(acc)
    requires forall a, x :: inv(a) ==> inv(f(a, x))
    ensures inv(FoldLeft(acc, xs, f))
  {
    if xs != [] {
      FoldInvariant(acc, xs[..|xs| - 1], f, inv);
    }
  }
}
