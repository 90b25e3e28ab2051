/** Sums of a weight over the elements of a sequence: how the thread machines count threads and work. */
module Sums {

  function Flag(b: bool): int { if b then 1 else 0 }

  function Sum<T>(xs: seq<T>, weight: T -> int): int {
    if xs == [] then 0 else weight(xs[0]) + Sum(xs[1..], weight)
  }

  /** Changing one element changes the sum by the difference of the two weights. */
  lemma {:induction false} SumUpdate<T>(xs: seq<T>, i: nat, x: T, weight: T -> int)
    requires i < |xs|
    ensures Sum(xs[i := x], weight) == Sum(xs, weight) - weight(xs[i]) + weight(x)
  {
    if i == 0 {
      assert xs[0 := x][1..] == xs[1..];
    } else {
      assert xs[i := x][1..] == xs[1..][i - 1 := x];
      SumUpdate(xs[1..], i - 1, x, weight);
    }
  }

  /** A sum of non-negative weights bounds each of its terms. */
  lemma {:induction false} SumBounds<T>(xs: seq<T>, weight: T -> int)
    requires forall i | 0 <= i < |xs| :: weight(xs[i]) >= 0
    ensures forall i | 0 <= i < |xs| :: weight(xs[i]) <= Sum(xs, weight)
    ensures Sum(xs, weight) >= 0
  {
    if xs != [] {
      assert forall i | 0 <= i < |xs| - 1 :: xs[1..][i] == xs[i + 1];
      SumBounds(xs[1..], weight);
      assert forall i | 1 <= i < |xs| :: xs[i] == xs[1..][i - 1];
    }
  }

  /** Terms of at most `bound` add up to at most that much each. */
  lemma {:induction false} SumAtMost<T>(xs: seq<T>, weight: T -> int, bound: int)
    requires forall i | 0 <= i < |xs| :: weight(xs[i]) <= bound
    ensures Sum(xs, weight) <= |xs| * bound
  {
    if xs != [] {
      assert forall i | 0 <= i < |xs| - 1 :: xs[1..][i] == xs[i + 1];
      SumAtMost(xs[1..], weight, bound);
      assert |xs| * bound == |xs[1..]| * bound + bound;
    }
  }

  /** A positive sum has a positive term. */
  lemma {:induction false} SumWitness<T>(xs: seq<T>, weight: T -> int) returns (i: nat)
    requires Sum(xs, weight) > 0
    ensures i < |xs| && weight(xs[i]) > 0
  {
    if weight(xs[0]) > 0 {
      i := 0;
    } else {
      var j := SumWitness(xs[1..], weight);
      i := j + 1;
    }
  }

  /** Pointwise comparison of two weights carries over to the sums. */
  lemma {:induction false} SumMonotone<T>(xs: seq<T>, f: T -> int, g: T -> int)
    requires forall i | 0 <= i < |xs| :: f(xs[i]) <= g(xs[i])
    ensures Sum(xs, f) <= Sum(xs, g)
  {
    if xs != [] {
      assert forall i | 0 <= i < |xs| - 1 :: xs[1..][i] == xs[i + 1];
      SumMonotone(xs[1..], f, g);
    }
  }

  lemma {:induction false} SumSame<S>(xs: seq<S>, ys: seq<S>, weight: S -> int)
    requires |xs| == |ys| && forall i | 0 <= i < |xs| :: weight(xs[i]) == weight(ys[i])
    ensures Sum(xs, weight) == Sum(ys, weight)
  {
    if xs != [] {
      assert forall i | 0 <= i < |xs| - 1 :: xs[1..][i] == xs[i + 1] && ys[1..][i] == ys[i + 1];
      SumSame(xs[1..], ys[1..], weight);
    }
  }

  /** If no term of the larger sum exceeds its counterpart, equal sums force equal terms. */
  lemma {:induction false} SumTight<T>(xs: seq<T>, f: T -> int, g: T -> int)
    requires forall i | 0 <= i < |xs| :: f(xs[i]) <= g(xs[i])
    requires Sum(xs, f) >= Sum(xs, g)
    ensures forall i | 0 <= i < |xs| :: f(xs[i]) == g(xs[i])
  {
    if xs != [] {
      assert forall i | 0 <= i < |xs| - 1 :: xs[1..][i] == xs[i + 1];
      SumMonotone(xs[1..], f, g);
      SumTight(xs[1..], f, g);
      assert forall i | 1 <= i < |xs| :: xs[i] == xs[1..][i - 1];
    }
  }

  lemma {:induction false} SumConcat<T>(xs: seq<T>, ys: seq<T>, weight: T -> int)
    ensures Sum(xs + ys, weight) == Sum(xs, weight) + Sum(ys, weight)
  {
    if xs == [] {
      assert xs + ys == ys;
    } else {
      assert (xs + ys)[1..] == xs[1..] + ys;
      SumConcat(xs[1..], ys, weight);
    }
  }

  /** `n` copies of one element. */
  lemma {:induction false} SumCopies<T>(n: nat, x: T, weight: T -> int)
    ensures Sum(seq(n, _ => x), weight) == n * weight(x)
  {
    if n > 0 {
      assert seq(n, _ => x)[1..] == seq(n - 1, _ => x);
      SumCopies(n - 1, x, weight);
    }
  }

  /** The order of the elements does not matter. */
  lemma {:induction false} SumPermuted<T>(xs: seq<T>, ys: seq<T>, weight: T -> int)
    requires multiset(xs) == multiset(ys)
    ensures Sum(xs, weight) == Sum(ys, weight)
  {
    if xs == [] {
      assert |ys| == |multiset(ys)|;
    } else {
      assert xs == [xs[0]] + xs[1..];
      assert xs[0] in multiset(ys);
      var i :| 0 <= i < |ys| && ys[i] == xs[0];
      assert ys == ys[..i] + ([ys[i]] + ys[i + 1..]);
      SumConcat(ys[..i], [ys[i]] + ys[i + 1..], weight);
      SumConcat(ys[..i], ys[i + 1..], weight);
      assert ([ys[i]] + ys[i + 1..])[1..] == ys[i + 1..];
      assert multiset(ys[..i] + ys[i + 1..]) == multiset(ys) - multiset{ys[i]};
      SumPermuted(xs[1..], ys[..i] + ys[i + 1..], weight);
    }
  }
}
