/**
 * The list operations the JavaScript code spells with array methods:
 * `filter`, `slice(0, n)` and `[...new Set(xs)]`.
 */
module Lists {

  /** `xs.filter(p)`: the elements that satisfy `p`, in their order. */
  function Filter<T(!new)>(xs: seq<T>, p: T -> bool): (r: seq<T>)
    ensures |r| <= |xs|
    ensures forall x :: x in r <==> x in xs && p(x)
    ensures forall i :: 0 <= i < |r| ==> p(r[i])
    decreases |xs|
  {
    if xs == [] then []
    else if p(xs[|xs| - 1]) then Filter(xs[..|xs| - 1], p) + [xs[|xs| - 1]]
    else Filter(xs[..|xs| - 1], p)
  }

  /** What `filter` keeps and what the opposite filter keeps add up to the list. */
  lemma {:induction false} FilterPartition<T(!new)>(xs: seq<T>, p: T -> bool, q: T -> bool)
    requires forall x :: q(x) <==> !p(x)
    ensures |Filter(xs, p)| + |Filter(xs, q)| == |xs|
    decreases |xs|
  {
    if xs != [] {
      FilterPartition(xs[..|xs| - 1], p, q);
    }
  }

  /** A filter that no element passes keeps nothing. */
  lemma {:induction false} FilterNone<T(!new)>(xs: seq<T>, p: T -> bool)
    requires forall x :: x in xs ==> !p(x)
    ensures Filter(xs, p) == []
    decreases |xs|
  {
    if xs != [] {
      assert forall x :: x in xs[..|xs| - 1] ==> x in xs;
      FilterNone(xs[..|xs| - 1], p);
    }
  }

  /** The first `n` elements hold nothing the list does not. */
  lemma TakeMembers<T>(xs: seq<T>, n: nat)
    ensures forall x :: x in Take(xs, n) ==> x in xs
  {
    forall x | x in Take(xs, n)
      ensures x in xs
    {
      var i :| 0 <= i < |Take(xs, n)| && Take(xs, n)[i] == x;
      assert xs[i] == x;
    }
  }

  /** Filtering a list without repeats gives a list without repeats. */
  lemma {:induction false} FilterDistinct<T(!new)>(xs: seq<T>, p: T -> bool)
    requires Distinct(xs)
    ensures Distinct(Filter(xs, p))
    decreases |xs|
  {
    if xs != [] {
      var n := |xs| - 1;
      FilterDistinct(xs[..n], p);
      assert xs[n] !in xs[..n];
    }
  }

  /** `xs.slice(0, n)`. */
  function Take<T>(xs: seq<T>, n: nat): (r: seq<T>)
    ensures |r| == if |xs| <= n then |xs| else n
    ensures r == xs[..|r|]
  {
    if |xs| <= n then xs else xs[..n]
  }

  /** Whether `xs` has no element twice. */
  predicate Distinct<T(==)>(xs: seq<T>) {
    forall i, j :: 0 <= i < j < |xs| ==> xs[i] != xs[j]
  }

  /** Index of the first `x` in `xs`. */
  function FirstIndex<T(==)>(xs: seq<T>, x: T): (k: nat)
    requires x in xs
    ensures k < |xs| && xs[k] == x && x !in xs[..k]
    decreases |xs|
  {
    if xs[0] == x then 0 else 1 + FirstIndex(xs[1..], x)
  }

  /** `xs.indexOf(x)`: the first index of `x`, or -1 when it is absent. */
  function IndexOf<T(==)>(xs: seq<T>, x: T): (k: int)
    ensures k == -1 <==> x !in xs
    ensures x in xs ==> 0 <= k < |xs| && xs[k] == x && x !in xs[..k]
  {
    if x in xs then FirstIndex(xs, x) else -1
  }

  /**
   * `[...new Set(xs)]`: every element once, in the order of first occurrence
   * (a `Set` iterates in insertion order, and re-adding an element does not
   * move it).
   */
  function Dedup<T(==,!new)>(xs: seq<T>): (r: seq<T>)
    ensures Distinct(r) && forall x :: x in r <==> x in xs
    decreases |xs|
  {
    if xs == [] then []
    else
      var d := Dedup(xs[..|xs| - 1]);
      if xs[|xs| - 1] in d then d else d + [xs[|xs| - 1]]
  }

  /** Elements keep the order in which they first appear. */
  lemma {:induction false} DedupOrder<T(!new)>(xs: seq<T>)
    ensures forall i, j :: 0 <= i < j < |Dedup(xs)| ==> FirstIndex(xs, Dedup(xs)[i]) < FirstIndex(xs, Dedup(xs)[j])
    decreases |xs|
  {
    if xs != [] {
      var n := |xs| - 1;
      var prefix := xs[..n];
      DedupOrder(prefix);
      var d, r := Dedup(prefix), Dedup(xs);
      forall x | x in prefix
        ensures FirstIndex(xs, x) == FirstIndex(prefix, x)
      {
        FirstIndexPrefix(xs, n, x);
      }
      if xs[n] !in d {
        assert xs[n] !in prefix;
        assert FirstIndex(xs, xs[n]) == n by {
          assert xs[..n] == prefix;
        }
      }
    }
  }

  lemma {:induction false} FirstIndexPrefix<T>(xs: seq<T>, n: nat, x: T)
    requires n <= |xs| && x in xs[..n]
    ensures FirstIndex(xs, x) == FirstIndex(xs[..n], x)
    decreases n
  {
    if xs[0] != x {
      assert xs[..n][1..] == xs[1..][..n - 1];
      FirstIndexPrefix(xs[1..], n - 1, x);
    }
  }


  /** `xs.map(f).reverse()`: the images of `xs`, last element first. */
  function MapReversed<T, U>(xs: seq<T>, f: T -> U): (r: seq<U>)
    ensures |r| == |xs|
    decreases |xs|
  {
    if xs == [] then [] else [f(xs[|xs| - 1])] + MapReversed(xs[..|xs| - 1], f)
  }

  /** Position `i` holds the image of the `i`-th element from the end. */
  lemma {:induction false} MapReversedAt<T, U>(xs: seq<T>, f: T -> U)
    ensures forall i :: 0 <= i < |xs| ==> MapReversed(xs, f)[i] == f(xs[|xs| - 1 - i])
    decreases |xs|
  {
    if xs != [] {
      var n := |xs| - 1;
      MapReversedAt(xs[..n], f);
      assert forall i :: 1 <= i <= n ==> MapReversed(xs, f)[i] == MapReversed(xs[..n], f)[i - 1];
    }
  }

  /** `a` sits inside `b` in order: element `k` of `a` is element `idx[k]` of `b`, with `idx` increasing. */
  predicate EmbedsBy<T(==)>(a: seq<T>, b: seq<T>, idx: seq<nat>) {
    && |idx| == |a|
    && (forall k :: 0 <= k < |a| ==> idx[k] < |b| && a[k] == b[idx[k]])
    && (forall k, l :: 0 <= k < l < |a| ==> idx[k] < idx[l])
  }

  /** `filter` keeps the order of what it keeps: its result is a sub-list of its input. */
  lemma {:induction false} FilterEmbeds<T(!new)>(xs: seq<T>, p: T -> bool) returns (idx: seq<nat>)
    ensures EmbedsBy(Filter(xs, p), xs, idx)
    decreases |xs|
  {
    if xs == [] {
      idx := [];
    } else {
      var n := |xs| - 1;
      var prev := FilterEmbeds(xs[..n], p);
      if p(xs[n]) {
        idx := prev + [n];
      } else {
        idx := prev;
      }
    }
  }

  /** Filtering twice is filtering once by both conditions. */
  lemma {:induction false} FilterFilter<T(!new)>(xs: seq<T>, p: T -> bool, q: T -> bool, both: T -> bool)
    requires forall x :: both(x) == (p(x) && q(x))
    ensures Filter(Filter(xs, p), q) == Filter(xs, both)
    decreases |xs|
  {
    if xs != [] {
      var n := |xs| - 1;
      FilterFilter(xs[..n], p, q, both);
      if p(xs[n]) {
        var f := Filter(xs[..n], p);
        assert (f + [xs[n]])[..|f|] == f;
      }
    }
  }

  /** Filters that agree on every element keep the same elements. */
  lemma {:induction false} FilterSame<T(!new)>(xs: seq<T>, p: T -> bool, q: T -> bool)
    requires forall x :: p(x) == q(x)
    ensures Filter(xs, p) == Filter(xs, q)
    decreases |xs|
  {
    if xs != [] {
      FilterSame(xs[..|xs| - 1], p, q);
    }
  }

  /** A filter that every element passes keeps the whole list. */
  lemma {:induction false} FilterAll<T(!new)>(xs: seq<T>, p: T -> bool)
    requires forall x :: x in xs ==> p(x)
    ensures Filter(xs, p) == xs
    decreases |xs|
  {
    if xs != [] {
      var n := |xs| - 1;
      assert forall x :: x in xs[..n] ==> x in xs;
      FilterAll(xs[..n], p);
      assert xs == xs[..n] + [xs[n]];
    }
  }
}
