/** Statistics of a sequence of reals (sum, mean, maximum, population variance)
    and the element-wise maps the scaling functions apply, with the algebra that
    relates them. */
module Numeric {

  /** The sum of the elements, taken as the first element plus the sum of the
      rest. Python's `sum` adds from the left instead; over exact reals the two
      agree (SumIsLeftFold). */
  function Sum(s: seq<real>): real
  {
    if s == [] then 0.0 else s[0] + Sum(s[1..])
  }

  /** Python's `sum` as it runs: start at 0 and add the elements in order. */
  function SumFromLeft(s: seq<real>): real
  {
    if s == [] then 0.0 else SumFromLeft(s[..|s| - 1]) + s[|s| - 1]
  }

  lemma {:induction false} SumIsLeftFold(s: seq<real>)
    ensures Sum(s) == SumFromLeft(s)
  {
    if s != [] {
      SumIsLeftFold(s[..|s| - 1]);
      SumOfSnoc(s[..|s| - 1], s[|s| - 1]);
      assert s[..|s| - 1] + [s[|s| - 1]] == s;
    }
  }

  /** Appending an element adds it to the sum. */
  lemma {:induction false} SumOfSnoc(s: seq<real>, x: real)
    ensures Sum(s + [x]) == Sum(s) + x
  {
    if s != [] {
      assert (s + [x])[1..] == s[1..] + [x];
      SumOfSnoc(s[1..], x);
    }
  }

  /** numpy's `average` of a non-empty sequence: the sum divided by N. */
  function Mean(s: seq<real>): real
    requires |s| > 0
  {
    Sum(s) / (|s| as real)
  }

  /** The mean is at most the maximum. */
  lemma MeanAtMostMax(s: seq<real>)
    requires |s| > 0
    ensures Mean(s) <= MaxOf(s)
  {
    MeanAtMost(s, MaxOf(s));
  }

  /** An upper bound of every element bounds the mean. */
  lemma MeanAtMost(s: seq<real>, m: real)
    requires |s| > 0 && forall i :: 0 <= i < |s| ==> s[i] <= m
    ensures Mean(s) <= m
  {
    SumAtMost(s, m);
    QuotientAtMost(Sum(s), m, |s|);
  }

  /** A lower bound of every element bounds the mean. */
  lemma MeanAtLeast(s: seq<real>, m: real)
    requires |s| > 0 && forall i :: 0 <= i < |s| ==> m <= s[i]
    ensures m <= Mean(s)
  {
    SumAtLeast(s, m);
    QuotientAtLeast(Sum(s), m, |s|);
  }

  lemma {:induction false} SumAtLeast(s: seq<real>, m: real)
    requires forall i :: 0 <= i < |s| ==> m <= s[i]
    ensures m * (|s| as real) <= Sum(s)
  {
    if s != [] {
      assert forall i :: 0 <= i < |s[1..]| ==> s[1..][i] == s[i + 1];
      SumAtLeast(s[1..], m);
    }
  }

  lemma QuotientAtLeast(t: real, y: real, k: int)
    requires k > 0 && y * (k as real) <= t
    ensures y <= t / (k as real)
  {
  }

  /** The mean of N copies of one value is that value. */
  lemma MeanOfConstant(s: seq<real>, c: real)
    requires |s| > 0 && forall i :: 0 <= i < |s| ==> s[i] == c
    ensures Mean(s) == c
  {
    MeanAtMost(s, c);
    MeanAtLeast(s, c);
  }

  /** A sum of N elements, each at most m, is at most N * m. */
  lemma {:induction false} SumAtMost(s: seq<real>, m: real)
    requires forall i :: 0 <= i < |s| ==> s[i] <= m
    ensures Sum(s) <= m * (|s| as real)
  {
    if s != [] {
      assert forall i :: 0 <= i < |s[1..]| ==> s[1..][i] == s[i + 1];
      SumAtMost(s[1..], m);
    }
  }

  lemma QuotientAtMost(t: real, y: real, k: int)
    requires k > 0 && t <= y * (k as real)
    ensures t / (k as real) <= y
  {
  }

  /** Python's `max` of a non-empty sequence: an element no element exceeds. */
  function MaxOf(s: seq<real>): (r: real)
    requires |s| > 0
    ensures exists i :: 0 <= i < |s| && s[i] == r
    ensures forall i :: 0 <= i < |s| ==> s[i] <= r
  {
    if |s| == 1 then s[0]
    else
      var rest := MaxOf(s[1..]);
      assert forall i :: 1 <= i < |s| ==> s[i] == s[1..][i - 1];
      if s[0] >= rest then s[0] else rest
  }

  function Square(x: real): real
  {
    x * x
  }

  lemma SquarePositive(x: real)
    requires x > 0.0
    ensures Square(x) > 0.0
  {
    assert x * x / x == x;
  }

  /** The squared deviations of the elements from `c`. */
  function Squares(s: seq<real>, c: real): (r: seq<real>)
    ensures |r| == |s| && forall i :: 0 <= i < |s| ==> r[i] == Square(s[i] - c)
  {
    if s == [] then [] else [Square(s[0] - c)] + Squares(s[1..], c)
  }

  /** The population variance (divisor N, as numpy's `std` uses); 0 for the
      empty sequence, where numpy gives no number at all. */
  function PopulationVariance(s: seq<real>): (r: real)
    ensures r >= 0.0
  {
    if s == [] then 0.0
    else
      SquaresNonNegative(s, Mean(s));
      SumNonNegative(Squares(s, Mean(s)));
      Sum(Squares(s, Mean(s))) / (|s| as real)
  }

  lemma SquareNonNegative(x: real)
    ensures Square(x) >= 0.0
  {
    if x > 0.0 {
      SquarePositive(x);
    } else if x < 0.0 {
      SquarePositive(-x);
      assert Square(-x) == Square(x);
    }
  }

  lemma SquaresNonNegative(s: seq<real>, c: real)
    ensures forall i :: 0 <= i < |s| ==> Squares(s, c)[i] >= 0.0
  {
    forall i | 0 <= i < |s|
      ensures Squares(s, c)[i] >= 0.0
    {
      SquareNonNegative(s[i] - c);
    }
  }

  /** A sum of non-negative elements is non-negative. */
  lemma {:induction false} SumNonNegative(s: seq<real>)
    requires forall i :: 0 <= i < |s| ==> s[i] >= 0.0
    ensures Sum(s) >= 0.0
  {
    if s != [] {
      assert forall i :: 0 <= i < |s[1..]| ==> s[1..][i] == s[i + 1];
      SumNonNegative(s[1..]);
    }
  }

  /** `std` is numpy's `std` of `s`: the non-negative square root of the
      population variance. */
  predicate IsPopulationStd(s: seq<real>, std: real)
  {
    std >= 0.0 && Square(std) == PopulationVariance(s)
  }

  /** A sequence has at most one population standard deviation. */
  lemma PopulationStdUnique(s: seq<real>, a: real, b: real)
    requires IsPopulationStd(s, a) && IsPopulationStd(s, b)
    ensures a == b
  {
    SquareDifference(a, b);
    if a != b {
      ZeroProduct(a - b, a + b);
    }
  }

  lemma SquareDifference(a: real, b: real)
    ensures Square(a) - Square(b) == (a - b) * (a + b)
  {
  }

  // ---------------------------------------------------------------------------
  // Element-wise relations: what each scaled sequence is, element by element.

  /** `ys` is `xs` divided element-wise by `f`. */
  predicate IsQuotient(ys: seq<real>, xs: seq<real>, f: real)
  {
    |ys| == |xs| && forall i :: 0 <= i < |xs| ==> f != 0.0 && ys[i] == xs[i] / f
  }

  /** `ys` is `xs` multiplied element-wise by `f`. */
  predicate IsProduct(ys: seq<real>, xs: seq<real>, f: real)
  {
    |ys| == |xs| && forall i :: 0 <= i < |xs| ==> ys[i] == xs[i] * f
  }

  /** `ys` is `xs` z-scored with centre `a` and spread `d`. */
  predicate IsZScoreOf(ys: seq<real>, xs: seq<real>, a: real, d: real)
  {
    |ys| == |xs| && forall i :: 0 <= i < |xs| ==> d != 0.0 && ys[i] == (xs[i] - a) / d
  }

  /** `ys` is `xs` scaled by `d` and shifted by `a`, element-wise. */
  predicate IsAffineOf(ys: seq<real>, xs: seq<real>, d: real, a: real)
  {
    |ys| == |xs| && forall i :: 0 <= i < |xs| ==> ys[i] == xs[i] * d + a
  }

  // ---------------------------------------------------------------------------
  // The element-wise maps themselves (`v / f`, `v * f`, `(v - a) / d`, `v * d + a`).

  function DivideAll(s: seq<real>, f: real): (r: seq<real>)
    requires f != 0.0
    ensures IsQuotient(r, s, f)
  {
    if s == [] then [] else [s[0] / f] + DivideAll(s[1..], f)
  }

  function MultiplyAll(s: seq<real>, f: real): (r: seq<real>)
    ensures IsProduct(r, s, f)
  {
    if s == [] then [] else [s[0] * f] + MultiplyAll(s[1..], f)
  }

  function ZScores(s: seq<real>, a: real, d: real): (r: seq<real>)
    requires d != 0.0
    ensures IsZScoreOf(r, s, a, d)
  {
    if s == [] then [] else [(s[0] - a) / d] + ZScores(s[1..], a, d)
  }

  function AffineAll(s: seq<real>, d: real, a: real): (r: seq<real>)
    ensures IsAffineOf(r, s, d, a)
  {
    if s == [] then [] else [s[0] * d + a] + AffineAll(s[1..], d, a)
  }

  // ---------------------------------------------------------------------------
  // Algebra of the maps.

  /** Multiplying a quotient by its divisor gives the dividend back. */
  lemma {:induction false} ProductOfQuotient(ys: seq<real>, xs: seq<real>, f: real)
    requires IsQuotient(ys, xs, f)
    ensures IsProduct(xs, ys, f)
  {
    forall i | 0 <= i < |xs|
      ensures xs[i] == ys[i] * f
    {
      assert f != 0.0 && ys[i] == xs[i] / f;
    }
  }

  /** Scaling and shifting a z-score by its spread and centre gives the value back. */
  lemma {:induction false} AffineOfZScore(ys: seq<real>, xs: seq<real>, a: real, d: real)
    requires IsZScoreOf(ys, xs, a, d)
    ensures IsAffineOf(xs, ys, d, a)
  {
    forall i | 0 <= i < |xs|
      ensures xs[i] == ys[i] * d + a
    {
      assert d != 0.0 && ys[i] == (xs[i] - a) / d;
    }
  }

  /** A product or affine image is determined by its input and constants. */
  lemma ProductUnique(ys: seq<real>, zs: seq<real>, xs: seq<real>, f: real)
    requires IsProduct(ys, xs, f) && IsProduct(zs, xs, f)
    ensures ys == zs
  {
  }

  lemma AffineUnique(ys: seq<real>, zs: seq<real>, xs: seq<real>, d: real, a: real)
    requires IsAffineOf(ys, xs, d, a) && IsAffineOf(zs, xs, d, a)
    ensures ys == zs
  {
  }

  /** The sum of a quotient is the quotient of the sum. */
  lemma {:induction false} SumOfQuotient(ys: seq<real>, xs: seq<real>, f: real)
    requires IsQuotient(ys, xs, f) && f != 0.0
    ensures Sum(ys) == Sum(xs) / f
  {
    if xs != [] {
      assert IsQuotient(ys[1..], xs[1..], f);
      SumOfQuotient(ys[1..], xs[1..], f);
      assert ys[0] == xs[0] / f;
    }
  }

  /** The z-scores around `a` sum to (sum - N*a) / d. */
  lemma {:induction false} SumOfZScores(ys: seq<real>, xs: seq<real>, a: real, d: real)
    requires IsZScoreOf(ys, xs, a, d) && d != 0.0
    ensures Sum(ys) * d == Sum(xs) - (|xs| as real) * a
  {
    if xs != [] {
      assert IsZScoreOf(ys[1..], xs[1..], a, d);
      SumOfZScores(ys[1..], xs[1..], a, d);
      assert ys[0] * d == xs[0] - a;
      calc {
        Sum(ys) * d;
        ys[0] * d + Sum(ys[1..]) * d;
        (xs[0] - a) + (Sum(xs[1..]) - (|xs[1..]| as real) * a);
        Sum(xs) - (|xs| as real) * a;
      }
    }
  }

  /** The squared z-scores around 0 are the squared deviations from the
      centre divided by d². */
  lemma SquaresOfZScores(ys: seq<real>, xs: seq<real>, a: real, d: real)
    requires IsZScoreOf(ys, xs, a, d) && d > 0.0
    ensures IsQuotient(Squares(ys, 0.0), Squares(xs, a), Square(d))
  {
    forall i | 0 <= i < |xs|
      ensures Square(d) != 0.0 && Squares(ys, 0.0)[i] == Squares(xs, a)[i] / Square(d)
    {
      assert ys[i] == (xs[i] - a) / d;
      SquaredZScore(xs[i], a, d, ys[i]);
    }
  }

  lemma SquaredZScore(x: real, a: real, d: real, y: real)
    requires d > 0.0 && y == (x - a) / d
    ensures Square(d) > 0.0 && Square(y) == Square(x - a) / Square(d)
  {
    var u := x - a;
    assert y * d == u;
    assert Square(y) * Square(d) == Square(u) by { assert (y * y) * (d * d) == (y * d) * (y * d); }
    SquarePositive(d);
    QuotientOfProduct(Square(y), Square(d), Square(u));
  }

  lemma QuotientOfProduct(p: real, q: real, r: real)
    requires q != 0.0 && p * q == r
    ensures p == r / q
  {
  }

  /** The mean of the sequence, taken as centre, makes the deviations sum to zero. */
  lemma MeanCentres(xs: seq<real>)
    requires |xs| > 0
    ensures Sum(xs) - (|xs| as real) * Mean(xs) == 0.0
  {
  }

  /** Dividing by the mean gives a sequence of mean 1. */
  lemma QuotientByMean(ys: seq<real>, xs: seq<real>)
    requires |xs| > 0 && Mean(xs) != 0.0 && IsQuotient(ys, xs, Mean(xs))
    ensures |ys| > 0 && Mean(ys) == 1.0
  {
    var n := |xs| as real;
    var m := Mean(xs);
    SumOfQuotient(ys, xs, m);
    assert Sum(xs) == m * n;
    assert Sum(ys) == (m * n) / m;
    CancelFactor(n, m);
    assert |ys| == |xs|;
    assert Mean(ys) == n / n;
  }

  /** Z-scoring around the mean with the population standard deviation gives a
      sequence of mean 0 and population variance 1. */
  lemma ZScoresByMeanAndStd(ys: seq<real>, xs: seq<real>, d: real)
    requires |xs| > 0 && IsPopulationStd(xs, d) && d != 0.0 && IsZScoreOf(ys, xs, Mean(xs), d)
    ensures |ys| > 0 && Mean(ys) == 0.0 && PopulationVariance(ys) == 1.0
  {
    ZScoresHaveMeanZero(ys, xs, d);
    ZScoresHaveVarianceOne(ys, xs, d);
  }

  lemma ZScoresHaveMeanZero(ys: seq<real>, xs: seq<real>, d: real)
    requires |xs| > 0 && d != 0.0 && IsZScoreOf(ys, xs, Mean(xs), d)
    ensures |ys| > 0 && Mean(ys) == 0.0
  {
    SumOfZScores(ys, xs, Mean(xs), d);
    MeanCentres(xs);
    ZeroProduct(Sum(ys), d);
  }

  lemma ZScoresHaveVarianceOne(ys: seq<real>, xs: seq<real>, d: real)
    requires |xs| > 0 && IsPopulationStd(xs, d) && d != 0.0 && IsZScoreOf(ys, xs, Mean(xs), d)
    ensures PopulationVariance(ys) == 1.0
  {
    ZScoresHaveMeanZero(ys, xs, d);
    var n := |xs| as real;
    SquaresOfZScores(ys, xs, Mean(xs), d);
    SumOfQuotient(Squares(ys, 0.0), Squares(xs, Mean(xs)), Square(d));
    SquarePositive(d);
    VarianceRatio(Sum(Squares(xs, Mean(xs))), Square(d), n);
  }

  /** With v = S / n > 0, (S / v) / n = 1. */
  lemma VarianceRatio(ss: real, v: real, n: real)
    requires n > 0.0 && v > 0.0 && v == ss / n
    ensures (ss / v) / n == 1.0
  {
    QuotientTimesDivisor(ss, n, v);
  }

  lemma QuotientTimesDivisor(p: real, n: real, r: real)
    requires n != 0.0 && r == p / n
    ensures p == r * n
  {
  }

  lemma CancelFactor(n: real, m: real)
    requires m != 0.0
    ensures (m * n) / m == n
  {
  }

  lemma ZeroProduct(x: real, d: real)
    requires x * d == 0.0 && d != 0.0
    ensures x == 0.0
  {
  }

}
