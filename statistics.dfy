/** The statistics behind the tier cuts: the population mean and the
    population variance of the scores, computed exactly over the reals,
    and the four thresholds at mean ± 0.5·std and mean ± 1.5·std. There is
    no square root here: the standard deviation is any non-negative real
    whose square is the variance, which pins it down uniquely. */
module Statistics {

  function Sum(xs: seq<int>): int
  {
    if xs == [] then 0 else xs[0] + Sum(xs[1..])
  }

  /** `np.mean`: the sum divided by the number of scores. */
  function Mean(xs: seq<int>): real
    requires |xs| > 0
  {
    Sum(xs) as real / |xs| as real
  }

  /** The sum of the squared distances of the scores from m. */
  function SquaredDeviations(xs: seq<int>, m: real): (r: real)
    ensures r >= 0.0
  {
    if xs == [] then 0.0
    else (xs[0] as real - m) * (xs[0] as real - m) + SquaredDeviations(xs[1..], m)
  }

  /** The population variance: divided by the number of scores, not by one
      less (the default of `np.std`). */
  function Variance(xs: seq<int>): (r: real)
    requires |xs| > 0
    ensures r >= 0.0
  {
    SquaredDeviations(xs, Mean(xs)) / |xs| as real
  }

  /** `np.std` of xs, as a constraint rather than a computation. */
  predicate IsPopulationStd(xs: seq<int>, std: real)
  {
    |xs| > 0 && std >= 0.0 && std * std == Variance(xs)
  }

  /** The four cuts: threshold_S, threshold_A, threshold_B_lower, threshold_C. */
  datatype Thresholds = Thresholds(s: real, a: real, bLower: real, c: real)

  /** The cuts never cross: S above A above B_lower above C. */
  predicate Descending(th: Thresholds)
  {
    th.s >= th.a >= th.bLower >= th.c
  }

  function ThresholdsFrom(mean: real, std: real): (th: Thresholds)
    ensures std >= 0.0 ==> Descending(th)
    ensures std == 0.0 ==> th.s == th.a == th.bLower == th.c == mean
    ensures th.s - th.a == th.bLower - th.c == th.a - th.bLower == std
    ensures th.s - mean == mean - th.c && th.a - mean == mean - th.bLower
  {
    Thresholds(mean + 1.5 * std, mean + 0.5 * std, mean - 0.5 * std, mean - 1.5 * std)
  }

  /** The non-negative square root is unique: two candidates for `np.std`
      of the same scores are equal. */
  lemma StdUnique(xs: seq<int>, std1: real, std2: real)
    requires IsPopulationStd(xs, std1) && IsPopulationStd(xs, std2)
    ensures std1 == std2
  {
    CompareBySquares(std1, std2);
    CompareBySquares(std2, std1);
  }

  /** Squaring is strictly increasing on the non-negative reals. */
  lemma SquareGrows(u: real, w: real)
    requires 0.0 <= u < w
    ensures u * u < w * w
  {
    var e := w - u;
    assert w * w == (u + e) * (u + e) == u * u + 2.0 * u * e + e * e;
    assert u * e >= 0.0;
    assert e * e > 0.0;
  }

  /** For non-negative reals, comparing them is comparing their squares. */
  lemma CompareBySquares(u: real, w: real)
    requires u >= 0.0 && w >= 0.0
    ensures u >= w <==> u * u >= w * w
  {
    if u < w {
      SquareGrows(u, w);
    } else if w < u {
      SquareGrows(w, u);
    }
  }

  lemma {:induction false} SumOfConstant(xs: seq<int>, v: int)
    requires forall i :: 0 <= i < |xs| ==> xs[i] == v
    ensures Sum(xs) == |xs| * v
  {
    if xs != [] {
      SumOfConstant(xs[1..], v);
    }
  }

  lemma {:induction false} DeviationsFromConstant(xs: seq<int>, v: int)
    requires forall i :: 0 <= i < |xs| ==> xs[i] == v
    ensures SquaredDeviations(xs, v as real) == 0.0
  {
    if xs != [] {
      DeviationsFromConstant(xs[1..], v);
    }
  }

  /** When every score is v, the mean is v and the variance is 0, so the
      standard deviation is 0. */
  lemma UniformPopulation(xs: seq<int>, v: int, std: real)
    requires |xs| > 0 && forall i :: 0 <= i < |xs| ==> xs[i] == v
    requires IsPopulationStd(xs, std)
    ensures Mean(xs) == v as real
    ensures Variance(xs) == 0.0
    ensures std == 0.0
  {
    SumOfConstant(xs, v);
    var n := |xs| as real;
    assert Sum(xs) as real == n * v as real;
    assert Mean(xs) == (n * v as real) / n;
    DeviationsFromConstant(xs, v);
    assert Variance(xs) == 0.0 / n;
    CompareBySquares(0.0, std);
  }

  lemma {:induction false} NoDeviation(xs: seq<int>, m: real)
    requires SquaredDeviations(xs, m) == 0.0
    ensures forall i :: 0 <= i < |xs| ==> xs[i] as real == m
  {
    if xs != [] {
      var d := xs[0] as real - m;
      var rest := SquaredDeviations(xs[1..], m);
      assert d * d + rest == 0.0;
      assert d * d == 0.0;
      var size := if d >= 0.0 then d else -d;
      assert size * size == d * d;
      CompareBySquares(0.0, size);
      assert xs[0] as real == m;
      NoDeviation(xs[1..], m);
      forall i | 1 <= i < |xs|
        ensures xs[i] as real == m
      {
        assert xs[i] == xs[1..][i - 1];
      }
    }
  }

  /** Conversely, a variance of 0 means every score equals the mean. */
  lemma ZeroVarianceIsUniform(xs: seq<int>)
    requires |xs| > 0 && Variance(xs) == 0.0
    ensures forall i :: 0 <= i < |xs| ==> xs[i] as real == Mean(xs)
  {
    var n := |xs| as real;
    assert SquaredDeviations(xs, Mean(xs)) == Variance(xs) * n;
    NoDeviation(xs, Mean(xs));
  }

  lemma {:induction false} SumBelow(xs: seq<int>, m: real)
    requires |xs| > 0
    requires forall i :: 0 <= i < |xs| ==> (xs[i] as real) < m
    ensures (Sum(xs) as real) < (|xs| as real) * m
  {
    if |xs| > 1 {
      SumBelow(xs[1..], m);
    }
  }

  lemma {:induction false} SumAbove(xs: seq<int>, m: real)
    requires |xs| > 0
    requires forall i :: 0 <= i < |xs| ==> (xs[i] as real) > m
    ensures (Sum(xs) as real) > (|xs| as real) * m
  {
    if |xs| > 1 {
      SumAbove(xs[1..], m);
    }
  }

  /** Some score is at least the mean and some score is at most the mean. */
  lemma MeanIsAttained(xs: seq<int>)
    requires |xs| > 0
    ensures exists i :: 0 <= i < |xs| && xs[i] as real >= Mean(xs)
    ensures exists i :: 0 <= i < |xs| && xs[i] as real <= Mean(xs)
  {
    var n := |xs| as real;
    assert Sum(xs) as real == n * Mean(xs);
    if forall i :: 0 <= i < |xs| ==> (xs[i] as real) < Mean(xs) {
      SumBelow(xs, Mean(xs));
    }
    if forall i :: 0 <= i < |xs| ==> (xs[i] as real) > Mean(xs) {
      SumAbove(xs, Mean(xs));
    }
  }

  /** Scaling every score by k scales the sum by k. */
  lemma {:induction false} SumScaled(xs: seq<int>, ys: seq<int>, k: int)
    requires |ys| == |xs| && forall i :: 0 <= i < |xs| ==> ys[i] == k * xs[i]
    ensures Sum(ys) == k * Sum(xs)
  {
    if xs != [] {
      SumScaled(xs[1..], ys[1..], k);
    }
  }

  /** Scaling every score and the centre by k scales the squared
      deviations by k·k. */
  lemma {:induction false} DeviationsScaled(xs: seq<int>, ys: seq<int>, k: int, m: real, m': real)
    requires |ys| == |xs| && forall i :: 0 <= i < |xs| ==> ys[i] == k * xs[i]
    requires m' == k as real * m
    ensures SquaredDeviations(ys, m') == (k * k) as real * SquaredDeviations(xs, m)
  {
    if xs != [] {
      DeviationsScaled(xs[1..], ys[1..], k, m, m');
      var d := xs[0] as real - m;
      assert ys[0] as real - m' == k as real * d;
      assert (k as real * d) * (k as real * d) == (k * k) as real * (d * d);
    }
  }

  /** a·q / n is a·(q / n). */
  lemma DivideScaled(a: real, q: real, n: real)
    requires n > 0.0
    ensures (a * q) / n == a * (q / n)
  {
    var r := q / n;
    assert q == r * n;
    assert a * q == (a * r) * n;
  }

  lemma MeanScaled(xs: seq<int>, ys: seq<int>, k: int)
    requires |xs| > 0
    requires |ys| == |xs| && forall i :: 0 <= i < |xs| ==> ys[i] == k * xs[i]
    ensures Mean(ys) == k as real * Mean(xs)
  {
    SumScaled(xs, ys, k);
    assert Sum(ys) as real == k as real * Sum(xs) as real;
    DivideScaled(k as real, Sum(xs) as real, |xs| as real);
  }

  lemma VarianceScaled(xs: seq<int>, ys: seq<int>, k: int)
    requires |xs| > 0
    requires |ys| == |xs| && forall i :: 0 <= i < |xs| ==> ys[i] == k * xs[i]
    ensures Variance(ys) == (k * k) as real * Variance(xs)
  {
    MeanScaled(xs, ys, k);
    DeviationsScaled(xs, ys, k, Mean(xs), Mean(ys));
    QuotientScaled(SquaredDeviations(ys, Mean(ys)), SquaredDeviations(xs, Mean(xs)),
                   (k * k) as real, |xs| as real);
  }

  /** If q is kk·p, then q / n is kk·(p / n). */
  lemma QuotientScaled(q: real, p: real, kk: real, n: real)
    requires n > 0.0 && q == kk * p
    ensures q / n == kk * (p / n)
  {
    DivideScaled(kk, p, n);
  }

  /** Scaling every score by k > 0 scales the mean by k, the variance by
      k·k and the standard deviation by k. */
  lemma ScaledPopulation(xs: seq<int>, ys: seq<int>, k: int, std: real, std': real)
    requires k > 0 && |xs| > 0
    requires |ys| == |xs| && forall i :: 0 <= i < |xs| ==> ys[i] == k * xs[i]
    requires IsPopulationStd(xs, std) && IsPopulationStd(ys, std')
    ensures Mean(ys) == k as real * Mean(xs)
    ensures Variance(ys) == (k * k) as real * Variance(xs)
    ensures std' == k as real * std
  {
    MeanScaled(xs, ys, k);
    VarianceScaled(xs, ys, k);
    var ks := k as real * std;
    assert ks * ks == (k * k) as real * (std * std);
    assert IsPopulationStd(ys, ks);
    StdUnique(ys, std', ks);
  }

  /** How many scores lie at squared distance at least bound from m. */
  function FarCount(xs: seq<int>, m: real, bound: real): nat
  {
    if xs == [] then 0
    else (if (xs[0] as real - m) * (xs[0] as real - m) >= bound then 1 else 0)
         + FarCount(xs[1..], m, bound)
  }

  lemma {:induction false} FarCountAppend(xs: seq<int>, x: int, m: real, bound: real)
    ensures FarCount(xs + [x], m, bound)
         == FarCount(xs, m, bound) + (if (x as real - m) * (x as real - m) >= bound then 1 else 0)
  {
    if xs == [] {
      assert xs + [x] == [x];
    } else {
      FarCountAppend(xs[1..], x, m, bound);
      assert (xs + [x])[1..] == xs[1..] + [x];
    }
  }

  /** Every far score contributes at least bound to the squared deviations
      (the counting step of Chebyshev's inequality). */
  lemma {:induction false} FarCountBound(xs: seq<int>, m: real, bound: real)
    requires bound >= 0.0
    ensures SquaredDeviations(xs, m) >= bound * FarCount(xs, m, bound) as real
  {
    if xs != [] {
      var d := xs[0] as real - m;
      var c := if d * d >= bound then 1 else 0;
      var rest := FarCount(xs[1..], m, bound);
      var sq, restSq := d * d, SquaredDeviations(xs[1..], m);
      assert SquaredDeviations(xs, m) == sq + restSq;
      assert FarCount(xs, m, bound) == c + rest;
      FarCountBound(xs[1..], m, bound);
      assert bound * (c + rest) as real == bound * c as real + bound * rest as real;
      assert sq >= bound * c as real;
    }
  }

  /** The arithmetic step of Chebyshev's inequality: if the squared
      deviations, n·v in all, hold f far terms worth 2.25·v each, and
      v > 0, then 9·f <= 4·n. */
  lemma FarAtMostFourNinths(f: nat, n: nat, v: real, bound: real, total: real)
    requires v > 0.0 && bound == 2.25 * v
    requires total == v * n as real && total >= bound * f as real
    ensures 9 * f <= 4 * n
  {
    assert (n as real - 2.25 * f as real) * v >= 0.0;
  }

  /** The squared deviations from the mean add up to n times the variance. */
  lemma DeviationsAreNTimesVariance(xs: seq<int>)
    requires |xs| > 0
    ensures SquaredDeviations(xs, Mean(xs)) == Variance(xs) * |xs| as real
  {
    var n := |xs| as real;
    DivideScaled(n, SquaredDeviations(xs, Mean(xs)), n);
  }

  /** Chebyshev's inequality at 1.5 standard deviations, for any centre m
      whose squared deviations add up to n·v with v > 0: at most 4/9 of the
      values lie at squared distance 2.25·v or more from m. */
  lemma FewFarFrom(xs: seq<int>, m: real, v: real)
    requires v > 0.0 && SquaredDeviations(xs, m) == v * |xs| as real
    ensures 9 * FarCount(xs, m, 2.25 * v) <= 4 * |xs|
  {
    var bound := 2.25 * v;
    FarCountBound(xs, m, bound);
    FarAtMostFourNinths(FarCount(xs, m, bound), |xs|, v, bound, SquaredDeviations(xs, m));
  }

  /** Chebyshev's inequality at 1.5 standard deviations: unless every value
      is equal, at most 4/9 of the values lie that far from the mean. */
  lemma FewFarFromTheMean(xs: seq<int>)
    requires |xs| > 0 && Variance(xs) > 0.0
    ensures 9 * FarCount(xs, Mean(xs), 2.25 * Variance(xs)) <= 4 * |xs|
  {
    DeviationsAreNTimesVariance(xs);
    FewFarFrom(xs, Mean(xs), Variance(xs));
  }
}
