/**
 * `Array.prototype.filter`: the order-preserving selection that the home page
 * uses to narrow the listings and the profile page uses to drop a wishlist
 * entry or a deleted service from its local copy.
 */
module Seqs {

  /** `xs.filter(keep)` */
  function Filter<T>(xs: seq<T>, keep: T -> bool): (r: seq<T>)
    ensures |r| <= |xs|
    ensures forall k :: 0 <= k < |r| ==> keep(r[k])
  {
    if xs == [] then []
    else if keep(xs[0]) then [xs[0]] + Filter(xs[1..], keep)
    else Filter(xs[1..], keep)
  }

  /** `sub` is obtained from `xs` by deleting elements: nothing added, relative order kept. */
  ghost predicate IsSubsequence<T>(sub: seq<T>, xs: seq<T>)
    decreases |xs|
  {
    if sub == [] then true
    else if xs == [] then false
    else if sub[0] == xs[0] then IsSubsequence(sub[1..], xs[1..])
    else IsSubsequence(sub, xs[1..])
  }

  /** The filter result is a subsequence of its input. */
  lemma {:induction false} FilterIsSubsequence<T>(xs: seq<T>, keep: T -> bool)
    ensures IsSubsequence(Filter(xs, keep), xs)
  {
    if xs != [] {
      FilterIsSubsequence(xs[1..], keep);
      var r := Filter(xs, keep);
      if keep(xs[0]) {
        assert r[0] == xs[0] && r[1..] == Filter(xs[1..], keep);
      } else if r != [] && r[0] == xs[0] {
        // the kept tail already starts with xs[0]; skipping xs[0] is still a deletion
        SubsequenceOfTail(r, xs);
      }
    }
  }

  /** A subsequence of the tail is a subsequence of the whole. */
  lemma {:induction false} SubsequenceOfTail<T>(sub: seq<T>, xs: seq<T>)
    requires xs != [] && IsSubsequence(sub, xs[1..])
    ensures IsSubsequence(sub, xs)
    decreases |xs|, 1
  {
    if sub != [] && sub[0] == xs[0] {
      SubsequenceTailOf(sub, xs[1..]);
    }
  }

  /** Dropping the first element of a subsequence leaves a subsequence. */
  lemma {:induction false} SubsequenceTailOf<T>(sub: seq<T>, xs: seq<T>)
    requires sub != [] && IsSubsequence(sub, xs)
    ensures IsSubsequence(sub[1..], xs)
    decreases |xs|, 2
  {
    if sub[0] == xs[0] {
      SubsequenceOfTail(sub[1..], xs);
    } else {
      SubsequenceTailOf(sub, xs[1..]);
      SubsequenceOfTail(sub[1..], xs);
    }
  }

  /** An element is in the result exactly when it is in the input and passes the test. */
  lemma {:induction false} FilterMembership<T>(xs: seq<T>, keep: T -> bool, x: T)
    ensures x in Filter(xs, keep) <==> x in xs && keep(x)
  {
    if xs != [] {
      FilterMembership(xs[1..], keep, x);
      assert xs == [xs[0]] + xs[1..];
    }
  }

  /** When every element passes, the filter returns its input unchanged. */
  lemma {:induction false} FilterAllKept<T>(xs: seq<T>, keep: T -> bool)
    requires forall k :: 0 <= k < |xs| ==> keep(xs[k])
    ensures Filter(xs, keep) == xs
  {
    if xs != [] {
      FilterAllKept(xs[1..], keep);
      assert [xs[0]] + xs[1..] == xs;
    }
  }

  /** Two tests that agree on every element select the same elements. */
  lemma {:induction false} FilterCongruent<T>(xs: seq<T>, f: T -> bool, g: T -> bool)
    requires forall k :: 0 <= k < |xs| ==> f(xs[k]) == g(xs[k])
    ensures Filter(xs, f) == Filter(xs, g)
  {
    if xs != [] {
      FilterCongruent(xs[1..], f, g);
    }
  }
}
