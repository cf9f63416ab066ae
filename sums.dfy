/** Sums over a window of integer samples, shared by both statistics queues. */
module Sums {

  /** The sum of all samples. */
  function Sum(s: seq<int>): int
  {
    if s == [] then 0 else s[0] + Sum(s[1..])
  }

  /** A sample multiplied by itself. */
  function Square(x: int): int
  {
    x * x
  }

  /** The sum of the squares of all samples. */
  function SumOfSquares(s: seq<int>): int
  {
    if s == [] then 0 else Square(s[0]) + SumOfSquares(s[1..])
  }

  /** Both sums split off the last sample, which is the one a bounded window evicts. */
  lemma {:induction false} SumsDropLast(s: seq<int>)
    requires s != []
    ensures Sum(s) == Sum(s[..|s| - 1]) + s[|s| - 1]
    ensures SumOfSquares(s) == SumOfSquares(s[..|s| - 1]) + Square(s[|s| - 1])
  {
    if |s| > 1 {
      SumsDropLast(s[1..]);
      assert s[1..][..|s| - 2] == s[..|s| - 1][1..];
    }
  }

  /** Both sums extend by the sample appended at the end. */
  lemma SumsAppend(s: seq<int>, x: int)
    ensures Sum(s + [x]) == Sum(s) + x
    ensures SumOfSquares(s + [x]) == SumOfSquares(s) + Square(x)
  {
    SumsDropLast(s + [x]);
    assert (s + [x])[..|s|] == s;
  }

  /** The sum of squared deviations of the samples from `mu`. */
  function SquaredDeviations(s: seq<int>, mu: real): real
  {
    if s == [] then 0.0 else (s[0] as real - mu) * (s[0] as real - mu) + SquaredDeviations(s[1..], mu)
  }

  /** The sum of the samples, each scaled by `c`. */
  function ScaledSum(s: seq<int>, c: real): real
  {
    if s == [] then 0.0 else c * s[0] as real + ScaledSum(s[1..], c)
  }

  /** Scaling every sample scales the sum. */
  lemma {:induction false} ScaledSumFactors(s: seq<int>, c: real)
    ensures ScaledSum(s, c) == c * Sum(s) as real
  {
    if s != [] {
      ScaledSumFactors(s[1..], c);
      Distribute(c, s[0] as real, Sum(s[1..]) as real);
    }
  }

  lemma Distribute(c: real, x: real, y: real)
    ensures c * x + c * y == c * (x + y)
  {}

  /** The squared deviations split sample by sample into squares, scaled samples and
      copies of `m2`, the square of `mu`. */
  lemma {:induction false} DeviationsSplit(s: seq<int>, mu: real, m2: real)
    requires m2 == mu * mu
    ensures SquaredDeviations(s, mu) == SumOfSquares(s) as real - 2.0 * ScaledSum(s, mu) + |s| as real * m2
  {
    if s != [] {
      DeviationsSplit(s[1..], mu, m2);
      SquareOfDifference(s[0], mu, m2);
      Distribute(m2, |s[1..]| as real, 1.0);
    }
  }

  lemma SquareOfDifference(x: int, mu: real, m2: real)
    requires m2 == mu * mu
    ensures (x as real - mu) * (x as real - mu) == Square(x) as real - 2.0 * (mu * x as real) + m2
  {}

  /** The sum of squared deviations from `mu` of `n` samples whose sum is `m`
      and whose sum of squares is `q`, once the square is expanded. */
  function Expanded(q: real, m: real, n: real, mu: real): real
  {
    q - 2.0 * mu * m + n * mu * mu
  }

  /** Expanding the square: the sum of squared deviations is determined by the two running sums. */
  lemma SquaredDeviationsExpand(s: seq<int>, mu: real)
    ensures SquaredDeviations(s, mu) == Expanded(SumOfSquares(s) as real, Sum(s) as real, |s| as real, mu)
  {
    DeviationsSplit(s, mu, mu * mu);
    ScaledSumFactors(s, mu);
  }

  /** The arithmetic mean of a non-empty window. */
  function Mean(s: seq<int>): real
    requires s != []
  {
    Sum(s) as real / |s| as real
  }

  /** The population variance of a non-empty window: the mean squared
      deviation from the mean. */
  function Variance(s: seq<int>): real
    requires s != []
  {
    SquaredDeviations(s, Mean(s)) / |s| as real
  }

  /** The running-sums formula for the variance (mean of the squares minus the
      square of the mean) is the population variance. */
  lemma RunningVarianceIsPopulationVariance(s: seq<int>, mean: real)
    requires s != [] && mean == Mean(s)
    ensures SumOfSquares(s) as real / |s| as real - mean * mean == Variance(s)
  {
    SquaredDeviationsExpand(s, mean);
    VarianceStep(SumOfSquares(s) as real, Sum(s) as real, |s| as real, mean, SquaredDeviations(s, mean));
  }

  /** The last step of RunningVarianceIsPopulationVariance, as plain real arithmetic. */
  lemma VarianceStep(q: real, m: real, n: real, mean: real, d: real)
    requires n > 0.0 && mean == m / n
    requires d == Expanded(q, m, n, mean)
    ensures q / n - mean * mean == d / n
  {
    assert m == n * mean;
    assert 2.0 * mean * m == 2.0 * n * mean * mean;
    assert d == q - n * mean * mean;
    assert (n * mean * mean) / n == mean * mean;
  }

  /** Multiplying by the inverse of the size, as both statistics queues do, is division. */
  lemma ScaleByInverse(x: real, n: real)
    requires n > 0.0
    ensures x * (1.0 / n) == x / n
  {}

  /** The statistics arithmetic of both queues (scale the sum and the sum of
      squares by the inverse size, subtract the squared average), applied to
      exact sums, yields the window's mean and its population variance. */
  lemma RunningMoments(w: seq<int>, sum: int, sumSquared: int, invSize: real, average: real, variance: real)
    requires w != [] && sum == Sum(w) && sumSquared == SumOfSquares(w)
    requires invSize == 1.0 / |w| as real
    requires average == sum as real * invSize
    requires variance == sumSquared as real * invSize - average * average
    ensures average == Mean(w) && variance == Variance(w)
  {
    ScaleByInverse(sum as real, |w| as real);
    ScaleByInverse(sumSquared as real, |w| as real);
    RunningVarianceIsPopulationVariance(w, average);
  }
}
