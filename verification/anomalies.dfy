/** Sales anomaly detection: a row is an outlier when the z-score of its sales
    value, taken against the mean and the sample standard deviation of the
    view's sales, exceeds 2 in absolute value. */
module Anomalies {
  import opened Records
  import opened Series
  import opened Subsequences

  /** The sales column of a view, in row order. */
  function SalesColumn(view: seq<Record>): (xs: seq<real>)
    ensures |xs| == |view|
    ensures forall i :: 0 <= i < |view| ==> xs[i] == view[i].sales
  {
    seq(|view|, i requires 0 <= i < |view| => view[i].sales)
  }

  /** The arithmetic mean of a non-empty series. */
  function Mean(xs: seq<real>): real
    requires |xs| > 0
  {
    SumSeq(xs) / |xs| as real
  }

  /** Each value minus `m`. */
  function Deviations(xs: seq<real>, m: real): (ds: seq<real>)
    ensures |ds| == |xs|
    ensures forall i :: 0 <= i < |xs| ==> ds[i] == xs[i] - m
  {
    seq(|xs|, i requires 0 <= i < |xs| => xs[i] - m)
  }

  /** Each value squared. */
  function Squares(xs: seq<real>): (sq: seq<real>)
    ensures |sq| == |xs|
    ensures forall i :: 0 <= i < |xs| ==> sq[i] == xs[i] * xs[i]
  {
    seq(|xs|, i requires 0 <= i < |xs| => xs[i] * xs[i])
  }

  /** The sample variance (divisor n - 1) of a series of at least two values:
      the square of the standard deviation the z-scores divide by. */
  function Variance(xs: seq<real>): (v: real)
    requires |xs| >= 2
    ensures v >= 0.0
  {
    SquaresNonNegative(Deviations(xs, Mean(xs)));
    SumSeq(Squares(Deviations(xs, Mean(xs)))) / (|xs| - 1) as real
  }

  /** `|x - mean| / sd > 2` for the standard deviation `sd = sqrt(variance)`,
      written without the square root. A zero deviation makes every z-score
      undefined, and an undefined z-score flags nothing. */
  predicate Outlier(x: real, mean: real, variance: real)
    ensures Outlier(x, mean, variance) ==> variance > 0.0 && x != mean
  {
    variance > 0.0 && (x - mean) * (x - mean) > 4.0 * variance
  }

  /** Whether a row of the view is flagged. With fewer than two rows the
      standard deviation is undefined and nothing is flagged. */
  function Flagged(view: seq<Record>): (flagged: Record -> bool)
    ensures |view| < 2 ==> forall r :: !flagged(r)
    ensures |view| >= 2 ==> forall r ::
              flagged(r) == Outlier(r.sales, Mean(SalesColumn(view)), Variance(SalesColumn(view)))
  {
    var xs := SalesColumn(view);
    if |xs| < 2 then (r: Record) => false
    else
      var m, v := Mean(xs), Variance(xs);
      (r: Record) => Outlier(r.sales, m, v)
  }

  /** The flagged rows, in view order. */
  function DetectAnomalies(view: seq<Record>): (a: seq<Record>)
    ensures |a| <= |view|
    ensures |view| < 2 ==> a == []
    ensures |view| >= 2 ==> forall r :: r in a <==>
              r in view && Outlier(r.sales, Mean(SalesColumn(view)), Variance(SalesColumn(view)))
  {
    Where(view, Flagged(view))
  }

  /** The anomaly list is the in-order subsequence of the flagged rows. */
  lemma AnomaliesInOrder(view: seq<Record>)
    ensures var ix := Positions(view, Flagged(view));
            && |DetectAnomalies(view)| == |ix|
            && forall k :: 0 <= k < |ix| ==> DetectAnomalies(view)[k] == view[ix[k]]
  {
    WhereAtPositions(view, Flagged(view));
  }

  /** The squared-deviation test agrees with the z-score test: for a positive
      standard deviation `sd` whose square is the variance, `|x - mean| / sd`
      exceeds 2 exactly when the squared deviation exceeds four variances. */
  lemma ZScoreAgreement(x: real, mean: real, variance: real, sd: real)
    requires sd > 0.0 && sd * sd == variance
    ensures (Abs(x - mean) / sd > 2.0) <==> Outlier(x, mean, variance)
  {
    var d := Abs(x - mean);
    assert d * d == (x - mean) * (x - mean);
    assert (2.0 * sd) * (2.0 * sd) == 4.0 * variance;
    var q := d / sd;
    assert d == q * sd;
    if q > 2.0 {
      assert q * sd > 2.0 * sd;
      SquareMonotone(2.0 * sd, d);
    } else {
      assert q * sd <= 2.0 * sd;
      SquareMonotoneWeak(d, 2.0 * sd);
    }
  }

  function Abs(x: real): real { if x < 0.0 then -x else x }

  lemma SquareMonotone(a: real, b: real)
    requires 0.0 <= a < b
    ensures a * a < b * b
  {
    var aa, ab, bb := a * a, a * b, b * b;
    assert aa <= ab by { assert a * (b - a) >= 0.0; }
    assert ab < bb by { assert (b - a) * b > 0.0; }
  }

  lemma SquareMonotoneWeak(a: real, b: real)
    requires 0.0 <= a <= b
    ensures a * a <= b * b
  {
    var aa, ab, bb := a * a, a * b, b * b;
    assert aa <= ab by { assert a * (b - a) >= 0.0; }
    assert ab <= bb by { assert (b - a) * b >= 0.0; }
  }

  /** A view whose sales are all equal has zero variance and flags nothing. */
  lemma ConstantSalesNoAnomalies(view: seq<Record>, c: real)
    requires forall i :: 0 <= i < |view| ==> view[i].sales == c
    ensures DetectAnomalies(view) == []
  {
    var xs := SalesColumn(view);
    if |xs| >= 2 {
      ConstantSum(xs, c);
      var m := Mean(xs);
      assert m == c;
      var sq := Squares(Deviations(xs, m));
      ConstantSum(sq, 0.0);
      assert Variance(xs) == 0.0;
      WhereEmpty(view, Flagged(view));
    }
  }

  /** A series of `n` copies of `c` sums to `n * c`. */
  lemma {:induction false} ConstantSum(xs: seq<real>, c: real)
    requires forall i :: 0 <= i < |xs| ==> xs[i] == c
    ensures SumSeq(xs) == |xs| as real * c
  {
    if |xs| > 0 {
      ConstantSum(xs[..|xs| - 1], c);
    }
  }

  /** Deviations from `m` sum to the series' sum minus `n * m`. */
  lemma {:induction false} DeviationsSum(xs: seq<real>, m: real)
    ensures SumSeq(Deviations(xs, m)) == SumSeq(xs) - |xs| as real * m
  {
    if |xs| > 0 {
      var n := |xs| - 1;
      DeviationsSum(xs[..n], m);
      assert Deviations(xs, m)[..n] == Deviations(xs[..n], m);
    }
  }

  /** Deviations from the mean sum to zero. */
  lemma DeviationsFromMean(xs: seq<real>)
    requires |xs| > 0
    ensures SumSeq(Deviations(xs, Mean(xs))) == 0.0
  {
    DeviationsSum(xs, Mean(xs));
  }

  /** A sum of squares is never negative. */
  lemma {:induction false} SquaresNonNegative(ys: seq<real>)
    ensures SumSeq(Squares(ys)) >= 0.0
  {
    if |ys| > 0 {
      var n := |ys| - 1;
      SquaresNonNegative(ys[..n]);
      SquaresPrefix(ys, n);
      SquareNonNegative(ys[n]);
    }
  }

  lemma SquareNonNegative(x: real)
    ensures x * x >= 0.0
  {
    if x < 0.0 {
      assert x * x == (-x) * (-x);
    }
  }

  /** Squaring commutes with taking a prefix. */
  lemma SquaresPrefix(ys: seq<real>, n: nat)
    requires n <= |ys|
    ensures Squares(ys)[..n] == Squares(ys[..n])
  {
    forall i | 0 <= i < n ensures Squares(ys)[..n][i] == Squares(ys[..n])[i] {
      assert ys[..n][i] == ys[i];
    }
  }

  /** Squaring commutes with removing one term. */
  lemma SquaresRemove(ys: seq<real>, k: nat)
    requires k < |ys|
    ensures Squares(ys[..k] + ys[k + 1..]) == Squares(ys)[..k] + Squares(ys)[k + 1..]
  {
    var l, r := ys[..k] + ys[k + 1..], Squares(ys)[..k] + Squares(ys)[k + 1..];
    forall i | 0 <= i < |l| ensures Squares(l)[i] == r[i] {
      if i < k {
        assert l[i] == ys[i] && r[i] == Squares(ys)[i];
      } else {
        assert l[i] == ys[i + 1] && r[i] == Squares(ys)[i + 1];
      }
    }
  }

  /** One step of the Cauchy-Schwarz induction, as plain arithmetic. */
  lemma CauchySchwarzStep(A: real, Q: real, m: real, a: real)
    requires Q >= 0.0 && A * A <= m * Q
    requires m > 0.0 || (m == 0.0 && A == 0.0)
    ensures (A + a) * (A + a) <= (m + 1.0) * (Q + a * a)
  {
    if m > 0.0 {
      SquareNonNegative(A - m * a);
      assert 2.0 * m * A * a <= A * A + m * m * a * a;
      assert m * (2.0 * A * a) <= m * (Q + m * a * a);
      assert 2.0 * A * a <= Q + m * a * a;
    }
  }

  /** The square of a sum is at most the count times the sum of squares. */
  lemma {:induction false} CauchySchwarz(ys: seq<real>)
    ensures SumSeq(ys) * SumSeq(ys) <= |ys| as real * SumSeq(Squares(ys))
  {
    if |ys| > 0 {
      var n := |ys| - 1;
      CauchySchwarz(ys[..n]);
      SquaresNonNegative(ys[..n]);
      SquaresPrefix(ys, n);
      CauchySchwarzStep(SumSeq(ys[..n]), SumSeq(Squares(ys[..n])), n as real, ys[n]);
    }
  }

  /** Samuelson's inequality: no value lies further from the mean than
      `(n - 1) / sqrt(n)` sample standard deviations, that is, its squared
      deviation is at most `(n - 1)^2 / n` variances. */
  lemma Samuelson(xs: seq<real>, k: int)
    requires |xs| >= 2 && 0 <= k < |xs|
    ensures var d := xs[k] - Mean(xs);
            |xs| as real * (d * d) <= (|xs| - 1) as real * (|xs| - 1) as real * Variance(xs)
  {
    var ds := Deviations(xs, Mean(xs));
    DeviationsFromMean(xs);
    var m, r, rq := OtherDeviations(ds, k);
    SamuelsonArithmetic(|xs| as real, m, (|xs| - 1) as real, ds[k], SumSeq(Squares(ds)), r, rq, Variance(xs));
  }

  /** The deviations other than the `k`-th: there are `m = n - 1` of them,
      their sum `r` is minus the `k`-th, their squares add up to `rq`, the
      total less its square, and Cauchy-Schwarz bounds `r^2` by `m * rq`. */
  lemma OtherDeviations(ds: seq<real>, k: int) returns (m: real, r: real, rq: real)
    requires 0 <= k < |ds| && SumSeq(ds) == 0.0
    ensures m + 1.0 == |ds| as real
    ensures r == -ds[k] && SumSeq(Squares(ds)) == rq + ds[k] * ds[k]
    ensures r * r <= m * rq
  {
    var rest := ds[..k] + ds[k + 1..];
    RestSums(ds, k);
    CauchySchwarz(rest);
    m, r, rq := |rest| as real, SumSeq(rest), SumSeq(Squares(rest));
  }

  /** With one deviation taken out, the others sum to minus it, and their
      squares to the total less its square. */
  lemma RestSums(ds: seq<real>, k: int)
    requires 0 <= k < |ds| && SumSeq(ds) == 0.0
    ensures SumSeq(ds[..k] + ds[k + 1..]) == -ds[k]
    ensures SumSeq(Squares(ds)) == SumSeq(Squares(ds[..k] + ds[k + 1..])) + ds[k] * ds[k]
  {
    var sq := Squares(ds);
    SumSeqRemove(ds, k);
    SquaresRemove(ds, k);
    SumSeqRemove(sq, k);
  }

  /** The arithmetic behind Samuelson's inequality: the other `m = n - 1`
      deviations sum to `-d` and their squares to `Q - d^2`, so Cauchy-Schwarz
      over them gives `d^2 <= m (Q - d^2)`, that is `n d^2 <= (n - 1) Q`, and
      `Q` is `n - 1` variances. */
  lemma SamuelsonArithmetic(n: real, m: real, m': real, d: real, Q: real, R: real, RQ: real, V: real)
    requires n == m + 1.0 && m' == m && m >= 1.0
    requires R == -d && Q == RQ + d * d
    requires R * R <= m * RQ
    requires V == Q / m'
    ensures n * (d * d) <= m' * m' * V
  {
    assert d * d <= m * (Q - d * d);
    assert n * (d * d) <= m * Q;
    assert V * m == Q;
  }

  /** With at most five rows no z-score can exceed 2, so nothing is ever
      flagged: a view needs six rows before it can show an anomaly. */
  lemma SmallViewsNoAnomalies(view: seq<Record>)
    requires |view| <= 5
    ensures DetectAnomalies(view) == []
  {
    var xs := SalesColumn(view);
    if |xs| >= 2 {
      var m, v := Mean(xs), Variance(xs);
      forall i | 0 <= i < |view|
        ensures !Flagged(view)(view[i])
      {
        Samuelson(xs, i);
        var d := xs[i] - m;
        var n := |xs| as real;
        assert n * (d * d) <= (n - 1.0) * (n - 1.0) * v;
        assert (n - 1.0) * (n - 1.0) <= 4.0 * n;
        if v > 0.0 {
          assert (n - 1.0) * (n - 1.0) * v <= 4.0 * n * v;
          assert n * (d * d) <= n * (4.0 * v);
          assert d * d <= 4.0 * v;
        }
      }
      WhereEmpty(view, Flagged(view));
    }
  }
}
