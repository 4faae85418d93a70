/** The last two sections of the page, in the order the script runs them: the
    forecast reads the last window mean, which raises when the view covers
    fewer than three months, and the raise ends the run before the anomaly
    list is computed or shown. */
module Dashboard {
  import opened Optional
  import opened Records
  import opened GroupBy
  import opened Monthly
  import opened Forecast
  import opened Anomalies

  /** What the closing sections show: the three projections, then the
      anomaly list. */
  datatype Closing = Closing(projection: Projection, anomalies: seq<Record>)

  /** The forecast and anomaly sections of one run; none when the forecast
      raises, since the script stops there. */
  function ClosingSections(view: seq<Record>): (c: Option<Closing>)
    ensures c.None? <==> |Present(view, ByMonthName)| < Window
    ensures c.Some? <==> ViewForecast(view).Some?
    ensures c.Some? ==> c.value.projection == ViewForecast(view).value
    ensures c.Some? ==> c.value.anomalies == DetectAnomalies(view)
  {
    var f := ViewForecast(view);
    ViewForecastDefined(view);
    if f.None? then None else Some(Closing(f.value, DetectAnomalies(view)))
  }

  /** The empty view, left by clearing any selection, stops the run at the
      forecast: neither a forecast nor an anomaly list is shown. */
  lemma EmptyViewStopsAtForecast()
    ensures ClosingSections([]) == None
  {
    assert Present([], ByMonthName) == {};
  }
}
