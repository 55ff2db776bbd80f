/** Sequence helpers that mirror the Python iteration idioms used by the rule loops. */
module Seqs {

  /** The indices 0, 1, ..., n-1 in increasing order, as Python's `range(n)` yields them. */
  function Range(n: nat): (r: seq<nat>)
    ensures |r| == n
    ensures forall i :: 0 <= i < n ==> r[i] == i
    ensures forall i: nat :: i in r <==> i < n
  {
    if n == 0 then [] else Range(n - 1) + [n - 1]
  }

  /** Python's slice `s[:-1]`: every element but the last, and empty when `s` is empty. */
  function DropLast<T>(s: seq<T>): (r: seq<T>)
    ensures |s| == 0 ==> r == []
    ensures |s| > 0 ==> r + [s[|s| - 1]] == s
  {
    if |s| == 0 then [] else s[..|s| - 1]
  }

  /** `turns[:-1]` over `range(T)` holds exactly the turns that have a successor turn. */
  lemma DropLastRange(turns: nat)
    ensures forall t: nat :: t in DropLast(Range(turns)) <==> t + 1 < turns
  {
    if turns > 0 {
      assert DropLast(Range(turns)) == Range(turns - 1);
    }
  }

  /** The concatenation of `f(x)` for every `x` of `xs`, in order: a nested `for` loop that emits lists. */
  function FlatMap<A, B>(xs: seq<A>, f: A -> seq<B>): seq<B>
  {
    if |xs| == 0 then [] else f(xs[0]) + FlatMap(xs[1..], f)
  }

  /** An item is emitted exactly when some iteration emits it. */
  lemma {:induction false} FlatMapMembers<A, B>(xs: seq<A>, f: A -> seq<B>, y: B)
    ensures y in FlatMap(xs, f) <==> exists x :: x in xs && y in f(x)
  {
    if |xs| > 0 {
      FlatMapMembers(xs[1..], f, y);
      assert forall x :: x in xs <==> x == xs[0] || x in xs[1..];
    }
  }

  /** A loop whose every iteration emits exactly `k` items emits `|xs| * k` items. */
  lemma {:induction false} FlatMapConstLength<A, B>(xs: seq<A>, f: A -> seq<B>, k: nat)
    requires forall i :: 0 <= i < |xs| ==> |f(xs[i])| == k
    ensures |FlatMap(xs, f)| == |xs| * k
  {
    if |xs| > 0 {
      assert forall i :: 0 <= i < |xs| - 1 ==> xs[1..][i] == xs[i + 1];
      FlatMapConstLength(xs[1..], f, k);
    }
  }

  /** Looping over two lists one after the other emits the two outputs one after the other. */
  lemma {:induction false} FlatMapConcat<A, B>(xs: seq<A>, ys: seq<A>, f: A -> seq<B>)
    ensures FlatMap(xs + ys, f) == FlatMap(xs, f) + FlatMap(ys, f)
  {
    if |xs| == 0 {
      assert xs + ys == ys;
    } else {
      assert (xs + ys)[0] == xs[0];
      assert (xs + ys)[1..] == xs[1..] + ys;
      FlatMapConcat(xs[1..], ys, f);
    }
  }

  /** Flattening a nested loop into one loop over the inner items emits the same items in the same order. */
  lemma {:induction false} FlatMapFlatMap<A, B, C>(xs: seq<A>, g: A -> seq<B>, f: B -> seq<C>, h: A -> seq<C>)
    requires forall x :: h(x) == FlatMap(g(x), f)
    ensures FlatMap(FlatMap(xs, g), f) == FlatMap(xs, h)
  {
    if |xs| > 0 {
      FlatMapConcat(g(xs[0]), FlatMap(xs[1..], g), f);
      FlatMapFlatMap(xs[1..], g, f, h);
    }
  }
}
