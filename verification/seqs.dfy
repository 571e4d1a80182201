/**
 * `Array.prototype.filter` over immutable sequences, the subsequence relation
 * it establishes, and the counting facts (`filter(...).length`) the statistics
 * rely on.
 */
module Seqs {

  /** `a` is obtained from `b` by deleting elements, keeping the rest in order:
      either `b`'s head is kept as `a`'s head, or it is dropped. */
  ghost predicate IsSubseq<T>(a: seq<T>, b: seq<T>)
    decreases |b|
  {
    |a| == 0
    || (|b| > 0 && ((a[0] == b[0] && IsSubseq(a[1..], b[1..])) || IsSubseq(a, b[1..])))
  }

  /** `xs.filter(p)`: the elements satisfying `p`, in their original order. */
  function Filter<T(!new)>(xs: seq<T>, p: T -> bool): (r: seq<T>)
    ensures |r| <= |xs|
    ensures forall x :: x in r <==> x in xs && p(x)
    ensures IsSubseq(r, xs)
  {
    if |xs| == 0 then []
    else if p(xs[0]) then [xs[0]] + Filter(xs[1..], p)
    else Filter(xs[1..], p)
  }

  /** `xs.splice(i, 1)` on a copy: the sequence without position `i`. */
  function RemoveAt<T>(xs: seq<T>, i: nat): (r: seq<T>)
    requires i < |xs|
    ensures |r| == |xs| - 1
    ensures forall a :: 0 <= a < i ==> r[a] == xs[a]
    ensures forall a :: i <= a < |r| ==> r[a] == xs[a + 1]
  {
    xs[..i] + xs[i + 1..]
  }

  /** Filtering out the one element that fails the test removes exactly its position. */
  lemma {:induction false} FilterRemovesOnlyFailing<T(!new)>(xs: seq<T>, i: nat, p: T -> bool)
    requires i < |xs| && !p(xs[i])
    requires forall j :: 0 <= j < |xs| && j != i ==> p(xs[j])
    ensures Filter(xs, p) == RemoveAt(xs, i)
  {
    var tail := xs[1..];
    forall j | 0 <= j < |tail| && j + 1 != i
      ensures p(tail[j])
    {
      assert tail[j] == xs[j + 1];
    }
    if i == 0 {
      FilterKeepsAll(tail, p);
      assert Filter(xs, p) == Filter(tail, p);
      assert RemoveAt(xs, i) == tail;
    } else {
      FilterRemovesOnlyFailing(tail, i - 1, p);
      assert Filter(xs, p) == [xs[0]] + Filter(tail, p);
      assert RemoveAt(xs, i) == [xs[0]] + RemoveAt(tail, i - 1);
    }
  }

  /** `xs.filter(p).length`. */
  function Count<T(!new)>(xs: seq<T>, p: T -> bool): nat
  {
    |Filter(xs, p)|
  }

  /** Filtering with a predicate every element satisfies returns the sequence itself. */
  lemma {:induction false} FilterKeepsAll<T(!new)>(xs: seq<T>, p: T -> bool)
    requires forall i :: 0 <= i < |xs| ==> p(xs[i])
    ensures Filter(xs, p) == xs
  {
    if |xs| > 0 {
      FilterKeepsAll(xs[1..], p);
    }
  }

  /** Filtering a sequence with one element in front. */
  lemma FilterCons<T(!new)>(x: T, xs: seq<T>, p: T -> bool)
    ensures Filter([x] + xs, p) == (if p(x) then [x] else []) + Filter(xs, p)
  {
    assert ([x] + xs)[1..] == xs;
  }

  /** Filtering keeps every copy of an element that passes and no copy of one that fails. */
  lemma {:induction false} FilterMultiplicity<T(!new)>(xs: seq<T>, p: T -> bool)
    ensures forall x :: multiset(Filter(xs, p))[x] == if p(x) then multiset(xs)[x] else 0
  {
    if |xs| > 0 {
      FilterMultiplicity(xs[1..], p);
      assert xs == [xs[0]] + xs[1..];
      assert multiset(xs) == multiset{xs[0]} + multiset(xs[1..]);
    }
  }

  /** Two predicates no element satisfies together count at most the whole sequence. */
  lemma {:induction false} DisjointCountsBounded<T(!new)>(xs: seq<T>, p: T -> bool, q: T -> bool)
    requires forall i :: 0 <= i < |xs| ==> !(p(xs[i]) && q(xs[i]))
    ensures Count(xs, p) + Count(xs, q) <= |xs|
  {
    if |xs| > 0 {
      DisjointCountsBounded(xs[1..], p, q);
    }
  }
}
