/**
 * The array operations the dashboard's components use on fetched data:
 * `filter`, `slice(0, n)`, a `map` whose callback may throw (fail-fast),
 * and `reduce` with `+` starting from 0.
 */
module Lists {
  import opened Wrappers

  function Min(a: int, b: int): int {
    if a <= b then a else b
  }

  function Max(a: int, b: int): int {
    if a >= b then a else b
  }

  /** `xs` can be obtained from `ys` by deleting elements: nothing added, order kept. */
  predicate IsSubsequence<T(==)>(xs: seq<T>, ys: seq<T>)
    decreases |ys|
  {
    if xs == [] then true
    else if ys == [] then false
    else if xs[0] == ys[0] then IsSubsequence(xs[1..], ys[1..])
    else IsSubsequence(xs, ys[1..])
  }

  /** JavaScript's `Array.prototype.filter`. */
  function Filter<T>(xs: seq<T>, p: T -> bool): seq<T> {
    if xs == [] then [] else (if p(xs[0]) then [xs[0]] else []) + Filter(xs[1..], p)
  }

  /** JavaScript's `xs.slice(0, n)`: the first `min(n, |xs|)` elements. */
  function Take<T>(xs: seq<T>, n: nat): seq<T> {
    xs[..Min(n, |xs|)]
  }

  /**
   * `xs.map(f)` where `f` throws on some elements: the first throw aborts the whole batch,
   * so either every element maps (one output per input, in order) or there is no result.
   */
  function MapAll<T, U>(xs: seq<T>, f: T -> Option<U>): (r: Option<seq<U>>)
    ensures r.Some? <==> forall i :: 0 <= i < |xs| ==> f(xs[i]).Some?
    ensures r.Some? ==> |r.value| == |xs|
    ensures r.Some? ==> forall i :: 0 <= i < |xs| ==> r.value[i] == f(xs[i]).value
  {
    if xs == [] then Some([])
    else
      match f(xs[0])
      case None => None
      case Some(u) =>
        match MapAll(xs[1..], f)
        case None =>
          assert forall i :: 0 <= i < |xs| - 1 ==> xs[1..][i] == xs[i + 1];
          None
        case Some(us) =>
          assert forall i :: 1 <= i < |xs| ==> xs[i] == xs[1..][i - 1];
          Some([u] + us)
  }

  /** Reference definition of the sum of a list. */
  function Sum(xs: seq<real>): real {
    if xs == [] then 0.0 else xs[0] + Sum(xs[1..])
  }

  /** `xs.reduce((sum, x) => sum + x, acc)`: a left fold. */
  function Reduce(acc: real, xs: seq<real>): real
    decreases |xs|
  {
    if xs == [] then acc else Reduce(acc + xs[0], xs[1..])
  }

  lemma {:induction false} FilterIsSubsequence<T>(xs: seq<T>, p: T -> bool)
    ensures IsSubsequence(Filter(xs, p), xs)
  {
    if xs != [] {
      FilterIsSubsequence(xs[1..], p);
      if p(xs[0]) {
        assert Filter(xs, p) == [xs[0]] + Filter(xs[1..], p);
        assert Filter(xs, p)[1..] == Filter(xs[1..], p);
      } else {
        assert Filter(xs, p) == Filter(xs[1..], p);
        SubsequenceDropHead(Filter(xs, p), xs);
      }
    }
  }

  /** Skipping the head of `ys` keeps every subsequence of its tail a subsequence. */
  lemma {:induction false} SubsequenceDropHead<T>(xs: seq<T>, ys: seq<T>)
    requires ys != [] && IsSubsequence(xs, ys[1..])
    ensures IsSubsequence(xs, ys)
    decreases |ys|, |xs|
  {
    if xs != [] && xs[0] == ys[0] {
      // greedy matching takes ys[0]; the rest of xs is still a subsequence of ys[1..]
      SubsequenceTail(xs, ys[1..]);
    }
  }

  /** Dropping the head of a subsequence keeps it a subsequence. */
  lemma {:induction false} SubsequenceTail<T>(xs: seq<T>, ys: seq<T>)
    requires xs != [] && IsSubsequence(xs, ys)
    ensures IsSubsequence(xs[1..], ys)
    decreases |ys|, |xs|
  {
    assert ys != [];
    if xs[0] == ys[0] {
      if xs[1..] != [] {
        SubsequenceDropHead(xs[1..], ys);
      }
    } else {
      SubsequenceTail(xs, ys[1..]);
      if xs[1..] != [] {
        SubsequenceDropHead(xs[1..], ys);
      }
    }
  }

  /** An element survives `filter` exactly when it was in the input and passes the predicate. */
  lemma {:induction false} FilterMembers<T>(xs: seq<T>, p: T -> bool, x: T)
    ensures x in Filter(xs, p) <==> x in xs && p(x)
  {
    if xs != [] {
      FilterMembers(xs[1..], p, x);
      assert xs == [xs[0]] + xs[1..];
    }
  }

  /** A predicate true of every element keeps the whole list. */
  lemma {:induction false} FilterKeepsAll<T>(xs: seq<T>, p: T -> bool)
    requires forall i :: 0 <= i < |xs| ==> p(xs[i])
    ensures Filter(xs, p) == xs
  {
    if xs != [] {
      FilterKeepsAll(xs[1..], p);
      assert xs == [xs[0]] + xs[1..];
    }
  }

  /** Filtering by a stronger predicate after a weaker one is filtering by the stronger one alone. */
  lemma {:induction false} FilterNarrows<T>(xs: seq<T>, p: T -> bool, q: T -> bool)
    requires forall x :: p(x) ==> q(x)
    ensures Filter(Filter(xs, q), p) == Filter(xs, p)
  {
    if xs != [] {
      FilterNarrows(xs[1..], p, q);
      var fq := Filter(xs, q);
      if q(xs[0]) {
        assert fq == [xs[0]] + Filter(xs[1..], q);
        assert fq[1..] == Filter(xs[1..], q);
        assert Filter(fq, p) == (if p(xs[0]) then [xs[0]] else []) + Filter(fq[1..], p);
      } else {
        assert fq == Filter(xs[1..], q);
      }
    }
  }

  /** `slice(0, n)` keeps the leading elements in order and never more than `n` of them. */
  lemma TakeIsPrefix<T>(xs: seq<T>, n: nat)
    ensures |Take(xs, n)| == Min(n, |xs|) && |Take(xs, n)| <= n
    ensures forall i :: 0 <= i < |Take(xs, n)| ==> Take(xs, n)[i] == xs[i]
    ensures n >= |xs| ==> Take(xs, n) == xs
  {
  }

  /** The left fold computed by `reduce` agrees with the reference sum. */
  lemma {:induction false} ReduceIsSum(acc: real, xs: seq<real>)
    ensures Reduce(acc, xs) == acc + Sum(xs)
    decreases |xs|
  {
    if xs != [] {
      ReduceIsSum(acc + xs[0], xs[1..]);
    }
  }

  lemma {:induction false} SumAppend(xs: seq<real>, ys: seq<real>)
    ensures Sum(xs + ys) == Sum(xs) + Sum(ys)
  {
    if xs != [] {
      assert (xs + ys)[1..] == xs[1..] + ys;
      SumAppend(xs[1..], ys);
    } else {
      assert xs + ys == ys;
    }
  }

  lemma {:induction false} SumNonNegative(xs: seq<real>)
    requires forall i :: 0 <= i < |xs| ==> xs[i] >= 0.0
    ensures Sum(xs) >= 0.0
  {
    if xs != [] {
      SumNonNegative(xs[1..]);
    }
  }
}
