/** The three-month forecast: a 3-month moving average over the monthly
    revenue series, whose last value is grown by 2, 4 and 6 percent. */
module Forecast {
  import opened Optional
  import opened Records
  import opened GroupBy
  import opened Series
  import opened Monthly

  /** Width of the moving-average window. */
  const Window: nat := 3

  /** The mean of each window of three consecutive values, in order; the
      first two positions, whose window is incomplete, are dropped. */
  function Rolling(xs: seq<real>): (ms: seq<real>)
    ensures |ms| == if |xs| < Window then 0 else |xs| - (Window - 1)
    ensures forall j :: 0 <= j < |ms| ==> ms[j] == SumSeq(xs[j..j + Window]) / Window as real
  {
    if |xs| < Window then []
    else
      var ms := seq(|xs| - 2, j requires 0 <= j < |xs| - 2 => (xs[j] + xs[j + 1] + xs[j + 2]) / 3.0);
      assert forall j :: 0 <= j < |ms| ==> SumSeq(xs[j..j + Window]) == xs[j] + xs[j + 1] + xs[j + 2] by {
        forall j | 0 <= j < |ms| ensures SumSeq(xs[j..j + Window]) == xs[j] + xs[j + 1] + xs[j + 2] {
          WindowSum(xs, j);
        }
      }
      ms
  }

  /** A window of three sums its three values. */
  lemma WindowSum(xs: seq<real>, j: nat)
    requires j + Window <= |xs|
    ensures SumSeq(xs[j..j + Window]) == xs[j] + xs[j + 1] + xs[j + 2]
  {
    var w := xs[j..j + Window];
    assert w[..2][..1] == w[..1];
    assert SumSeq(w[..1]) == SumSeq(w[..0]) + w[0];
    assert SumSeq(w[..2]) == SumSeq(w[..1]) + w[1];
    assert SumSeq(w) == SumSeq(w[..2]) + w[2];
  }

  /** The moving averages computed as a running window sum: each step adds
      the value entering the window and subtracts the one leaving it. */
  method RollingMeans(xs: seq<real>) returns (ms: seq<real>)
    ensures ms == Rolling(xs)
  {
    ms := [];
    if |xs| < Window {
      return;
    }
    var sum := xs[0] + xs[1] + xs[2];
    ms := [sum / 3.0];
    var j := 1;
    while j + 2 < |xs|
      invariant 1 <= j <= |xs| - 2
      invariant |ms| == j
      invariant sum == xs[j - 1] + xs[j] + xs[j + 1]
      invariant forall k :: 0 <= k < j ==> ms[k] == (xs[k] + xs[k + 1] + xs[k + 2]) / 3.0
      decreases |xs| - j
    {
      sum := sum - xs[j - 1] + xs[j + 2];
      ms := ms + [sum / 3.0];
      j := j + 1;
    }
    RollingClosedForm(xs, ms);
  }

  /** A sequence of three-term means of the right length is the rolling mean. */
  lemma RollingClosedForm(xs: seq<real>, ms: seq<real>)
    requires |xs| >= Window && |ms| == |xs| - 2
    requires forall k :: 0 <= k < |ms| ==> ms[k] == (xs[k] + xs[k + 1] + xs[k + 2]) / 3.0
    ensures ms == Rolling(xs)
  {
    var r := Rolling(xs);
    forall k | 0 <= k < |ms|
      ensures ms[k] == r[k]
    {
      WindowSum(xs, k);
    }
  }

  /** The three projected months. */
  datatype Projection = Projection(nextMonth: real, monthPlus2: real, monthPlus3: real)

  /** The growth factors applied to the last moving average. */
  const NextGrowth: real := 1.02
  const Plus2Growth: real := 1.04
  const Plus3Growth: real := 1.06

  function Grow(base: real): Projection {
    Projection(base * NextGrowth, base * Plus2Growth, base * Plus3Growth)
  }

  /** The forecast from a monthly series: none when the series is shorter
      than the window (the last moving average does not exist and reading it
      fails), otherwise the last moving average grown by each factor. */
  function Forecast(xs: seq<real>): (p: Option<Projection>)
    ensures p.None? <==> |xs| < Window
    ensures p.Some? ==> p.value == Grow(SumSeq(xs[|xs| - Window..]) / Window as real)
  {
    var ms := Rolling(xs);
    if |ms| == 0 then None
    else
      assert xs[|xs| - Window..] == xs[|ms| - 1..|ms| - 1 + Window];
      Some(Grow(ms[|ms| - 1]))
  }

  /** Only the last three months matter. */
  lemma ForecastUsesLastWindow(xs: seq<real>, ys: seq<real>)
    requires |xs| >= Window && |ys| >= Window
    requires xs[|xs| - Window..] == ys[|ys| - Window..]
    ensures Forecast(xs) == Forecast(ys)
  {
  }

  /** The three projections are the last three months' mean times 1.02, 1.04
      and 1.06: they rise month over month when that mean is positive, and
      each lies between the smallest and largest of the last three months
      scaled by its factor. */
  lemma ForecastShape(xs: seq<real>, lo: real, hi: real)
    requires |xs| >= Window
    requires forall j :: |xs| - Window <= j < |xs| ==> lo <= xs[j] <= hi
    ensures var p := Forecast(xs).value;
      && lo * NextGrowth <= p.nextMonth <= hi * NextGrowth
      && lo * Plus2Growth <= p.monthPlus2 <= hi * Plus2Growth
      && lo * Plus3Growth <= p.monthPlus3 <= hi * Plus3Growth
      && (lo > 0.0 ==> p.nextMonth < p.monthPlus2 < p.monthPlus3)
  {
    var n := |xs|;
    WindowSum(xs, n - Window);
    var a, b, c := xs[n - 3], xs[n - 2], xs[n - 1];
    assert lo <= a <= hi && lo <= b <= hi && lo <= c <= hi;
    assert xs[n - Window..] == xs[n - Window..n - Window + Window];
    var base := SumSeq(xs[n - Window..]) / 3.0;
    assert base == (a + b + c) / 3.0;
    assert lo <= base <= hi;
  }

  /** Five months of 100 to 500 forecast 408, 416 and 424. */
  lemma ForecastExample()
    ensures Forecast([100.0, 200.0, 300.0, 400.0, 500.0]) == Some(Projection(408.0, 416.0, 424.0))
  {
    var xs := [100.0, 200.0, 300.0, 400.0, 500.0];
    WindowSum(xs, 2);
  }

  /** The monthly revenue series in calendar order. */
  function MonthlySeries(view: seq<Record>): (xs: seq<real>)
    ensures |xs| == |MonthlyRevenue(view)|
    ensures forall i :: 0 <= i < |xs| ==> xs[i] == MonthlyRevenue(view)[i].total
  {
    var t := MonthlyRevenue(view);
    seq(|t|, i requires 0 <= i < |t| => t[i].total)
  }

  /** The dashboard's forecast for a view. */
  function ViewForecast(view: seq<Record>): (p: Option<Projection>)
    ensures p.None? <==> |MonthlyRevenue(view)| < Window
    ensures p.Some? ==> var xs := MonthlySeries(view);
              p.value == Grow(SumSeq(xs[|xs| - Window..]) / Window as real)
  {
    Forecast(MonthlySeries(view))
  }

  /** A view forecasts exactly when it covers at least three distinct months,
      from the revenue of the last three of them in calendar order. */
  lemma ViewForecastDefined(view: seq<Record>)
    ensures ViewForecast(view).Some? <==> |Present(view, ByMonthName)| >= Window
  {
    MonthlyRevenueRows(view);
    DistinctTable(MonthlyRevenue(view));
  }
}
