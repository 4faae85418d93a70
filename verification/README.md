# Amazon Diwali Sales 2025 dashboard — data pipeline model

A Dafny model of the data pipeline behind the Streamlit dashboard
`streamlit_app.py`: loading and enriching the sales records, the sidebar
filter, the three headline metrics, the grouped revenue and rating tables
(by category, payment method, month and quarter), the state-by-category
pivot, the three-month moving-average forecast and the z-score anomaly list.
Every figure is a pure function of the filtered view, and the contracts and
lemmas state what each table means in terms of the records it comes from.
One figure can fail: reading the last moving average raises when the view
covers fewer than three months, and the raise ends the run, so the forecast
and the anomaly list that follows it are then not shown (`Dashboard`).

Numbers are exact `real`s: pandas' floating point, NaN and string formatting
are not modelled (see "Left out"). Where pandas yields NaN or raises, the
model returns `None` from an `Option`.

Modules, one per file:

- `Records` (`records.dfy`): the raw `Sale` and the enriched `Record` with
  its month name, quarter, delivered flag and satisfied flag; `MonthOrder`,
  `MonthRank` (the categorical order, unknown names last), `Enrich`,
  `LoadData`, and `WellFormed`, the consistency of derived and raw columns.
- `Subsequences`: `Where`, the boolean-mask selection `frame[mask]`, and
  `Positions`, the indices it keeps.
- `Filtering`: the three multi-selects and their conjunction.
- `Totals`: column sums, means, total revenue, the delivery success rate.
- `Orders`: Python's string order (code-point lexicographic), integer and
  pair orders, each proved a strict total order.
- `GroupBy`: `groupby(key)[col].sum()` built in one pass as a sorted
  association list, with its reference definition `SumKey`.
- `Views`: revenue per category, per payment method and per quarter; mean
  rating per payment method.
- `RankSort`, `Monthly`: the monthly table put into calendar order.
- `Series`, `Pivot`: the state-by-category pivot with fill value 0.
- `Forecast`: the rolling 3-month mean and the grown projections.
- `Anomalies`: the z-score outlier rule, without square roots.
- `Display`: the unit chosen for the headline revenue figure.
- `Dashboard`: the forecast and anomaly sections in run order, stopped by the
  forecast's error on views of fewer than three months.

## Model

| member | source | states |
|---|---|---|
| Records.MonthName | streamlit_app.py:14 | a month's abbreviation is one of the twelve, and its categorical rank is the month number minus one |
| Records.MonthNameInjective | streamlit_app.py:14 | two months have the same abbreviation exactly when they are the same month |
| Records.MonthRank | streamlit_app.py:147-148 | a rank is at most 12; it is below 12 exactly for the twelve abbreviations, and then it is the name's position in the calendar order |
| Records.QuarterOf | streamlit_app.py:15 | the quarter is between 1 and 4 and is the one whose three months contain the month |
| Records.DeliveredFlag | streamlit_app.py:16 | the flag is 0 or 1, and 1 exactly when the status is "Delivered" |
| Records.SatisfiedFlag | streamlit_app.py:17 | the flag is 0 or 1, and 1 exactly when the rating is at least 4 |
| Records.Enrich | streamlit_app.py:13-17 | enrichment keeps every raw column and yields a record whose derived columns agree with them |
| Records.WellFormedIsEnriched | streamlit_app.py:13-17 | the derived columns are determined by the raw ones: every consistent record is the enrichment of its raw part |
| Records.LoadData | streamlit_app.py:10-19 | one enriched record per input row, in input order, each keeping its raw values |
| Filtering.Values | streamlit_app.py:26-27 | a column's distinct values are exactly the values some row carries in it |
| Filtering.Observed | streamlit_app.py:24-38 | the default selections are exactly the category, state and payment values present in the data, so they select every row |
| Filtering.ApplyFilter | streamlit_app.py:40-43 | a row is in the view exactly when it is in the data and its category, state and payment method are all selected |
| Filtering.FilterIsOrderedSubsequence | streamlit_app.py:40-43 | the view is the kept rows in their original order, the k-th view row being the data row at the k-th kept position |
| Filtering.EmptySelectionEmptiesView | streamlit_app.py:40-43 | clearing any one of the three selections empties the view |
| Filtering.FullSelectionKeepsAll | streamlit_app.py:40-43 | the view is the whole data exactly when every row's values are selected |
| Filtering.DefaultSelectionIsIdentity | streamlit_app.py:25-43 | with the default selections the view is the data, unchanged and in order |
| Totals.TotalRevenue | streamlit_app.py:60 | the total revenue of an empty view is 0, and it is never negative when no sale is |
| Totals.SumOfPermutation | streamlit_app.py:60 | a column sum does not depend on the order of the rows |
| Totals.MeanOf | streamlit_app.py:62 | the mean exists exactly for a non-empty view, and times the row count it gives the column sum |
| Totals.MeanOfBounds | streamlit_app.py:62 | the mean of a column lies within the column's bounds |
| Totals.DeliveredCount | streamlit_app.py:63 | the delivered flags add up to between 0 and the row count, reaching the row count exactly when every row was delivered and 0 exactly when none was |
| Totals.DeliveryRate | streamlit_app.py:63 | the rate exists exactly for a non-empty view, and times the row count it gives 100 times the number of delivered rows |
| Totals.DeliveryRateRange | streamlit_app.py:63 | for a loaded view the rate lies in [0, 100], is 100 exactly when all rows were delivered and 0 exactly when none was |
| Display.UnitFor | streamlit_app.py:48-56 | the unit is the largest of billion, million and thousand that the number reaches, or none below a thousand |
| Display.FormatLarge | streamlit_app.py:48-56 | the scaled figure times the unit's size is the number, with the unit's suffix |
| Display.ScaledRange | streamlit_app.py:48-56 | a figure in thousands or millions lies in [1, 1000), one in billions is at least 1, a plain figure is below 1000 and unscaled |
| Display.UnitMonotone | streamlit_app.py:48-56 | a larger number is never shown in a smaller unit |
| Orders.LexLessStrictTotal | streamlit_app.py:70-73 | the string order used to sort keys is irreflexive, transitive and total |
| GroupBy.GroupSum | streamlit_app.py:70-73 | the grouped table's keys are the key values present and its totals add up to the column's sum |
| GroupBy.GroupSumSpec | streamlit_app.py:70-73 | the grouped table has strictly ascending keys, one row per key present, each the sum over that key's rows, and an absent key sums to 0 |
| GroupBy.GroupSumLookup | streamlit_app.py:70-73 | looking up any key in the grouped table gives that key's sum over the rows |
| GroupBy.SortedTableUnique | streamlit_app.py:70-73 | two ascending tables with the same keys and lookups are equal, so the grouped table is determined by its sums |
| GroupBy.GroupSumPermutation | streamlit_app.py:70-73 | the grouped table does not depend on the order of the view's rows |
| Views.CategoryRevenue | streamlit_app.py:70-73 | revenue per category is the grouped sum over categories, and adds up to the total revenue |
| Views.PaymentRevenue | streamlit_app.py:105-108 | revenue per payment method is the grouped sum over payment methods, and adds up to the total revenue |
| Views.GroupMean | streamlit_app.py:121-124 | one row per key present, keys ascending, each holding its group's sum divided by its group's (positive) count |
| Views.PaymentRating | streamlit_app.py:121-124 | the mean rating per payment method, keys ascending, one per method present |
| Views.PaymentRatingBounds | streamlit_app.py:121-124 | each payment method's mean rating lies within the bounds of the ratings |
| Views.QuarterRevenue | streamlit_app.py:162-165 | revenue per quarter is the grouped sum over quarters, quarters ascending, adding up to the total revenue |
| Views.QuarterRevenueKeys | streamlit_app.py:162-165 | only quarters 1 to 4 occur in the quarterly table of a loaded view |
| RankSort.SortByRank | streamlit_app.py:149 | sorting by rank is a permutation of its input |
| RankSort.SortByRankSorted | streamlit_app.py:149 | sorting by rank leaves ranks non-decreasing |
| Monthly.MonthlyRevenue | streamlit_app.py:142-149 | the monthly table is a rearrangement of the grouped sums by month name, in calendar order |
| Monthly.MonthlyRevenueRows | streamlit_app.py:142-145 | one row per month name present, each carrying that month's revenue, adding up to the total revenue |
| Monthly.MonthlyRevenueOrder | streamlit_app.py:147-149 | for a loaded view only real months occur and they strictly increase in calendar order |
| Monthly.MonthNameMatchesNumber | streamlit_app.py:13-14 | the revenue under a month's abbreviation is the revenue of the records of that month number |
| Monthly.MonthlyRevenueOrderFree | streamlit_app.py:142-149 | the monthly table does not depend on the order of the view's rows |
| Pivot.PivotTable | streamlit_app.py:221-226 | the matrix is rectangular, one cell per (row label, column label); what the labels and cells are is stated by Pivot.PivotSpec |
| Pivot.StateCategoryPivot | streamlit_app.py:221-226 | rows are the states present and columns the categories present, both ascending, and each cell is the revenue of its (state, category) pair |
| Pivot.PivotSpec | streamlit_app.py:221-226 | rows and columns are the states and categories present, ascending; each cell is the revenue of its (state, category) pair |
| Pivot.PivotFill | streamlit_app.py:226 | a (state, category) pair that no record carries shows 0 |
| Pivot.PivotRowTotals | streamlit_app.py:221-226 | each pivot row adds up to that state's revenue |
| Pivot.PivotColumnTotals | streamlit_app.py:221-226 | each pivot column adds up to that category's revenue |
| Forecast.Rolling | streamlit_app.py:243 | the window means drop the first two positions and are each the mean of three consecutive values |
| Forecast.RollingMeans | streamlit_app.py:243 | a running window sum (add the entering value, subtract the leaving one) computes the same window means |
| Forecast.Forecast | streamlit_app.py:243-249 | no forecast below three months; otherwise the mean of the last three months grown by 1.02, 1.04 and 1.06 |
| Forecast.ForecastUsesLastWindow | streamlit_app.py:243-244 | two series ending in the same three months forecast the same |
| Forecast.ForecastShape | streamlit_app.py:246-249 | each projection lies between the smallest and largest of the last three months scaled by its factor, and the projections rise when those months are positive |
| Forecast.ForecastExample | streamlit_app.py:243-249 | monthly revenue 100, 200, 300, 400, 500 forecasts 408, 416, 424 |
| Forecast.MonthlySeries | streamlit_app.py:241-243 | the series is the monthly table's revenue column, one value per month present, in calendar order |
| Forecast.ViewForecast | streamlit_app.py:241-249 | a view's forecast exists exactly when its monthly table has at least three rows, and is the mean of its last three monthly revenues grown by 1.02, 1.04 and 1.06 |
| Forecast.ViewForecastDefined | streamlit_app.py:241-244 | a view has a forecast exactly when it covers at least three distinct months |
| Anomalies.Variance | streamlit_app.py:266 | the sample variance (divisor n - 1) is never negative |
| Anomalies.Outlier | streamlit_app.py:268 | an outlier needs a positive variance and a value away from the mean |
| Anomalies.Flagged | streamlit_app.py:266-268 | nothing is flagged below two rows; otherwise a row is flagged exactly when its squared deviation from the mean exceeds four sample variances |
| Anomalies.DetectAnomalies | streamlit_app.py:265-268 | nothing is flagged below two rows; otherwise a row is listed exactly when it is in the view and its squared deviation exceeds four sample variances |
| Anomalies.AnomaliesInOrder | streamlit_app.py:268 | the anomaly list is the flagged rows in view order |
| Anomalies.ZScoreAgreement | streamlit_app.py:266-268 | with a positive standard deviation, the absolute z-score exceeds 2 exactly when the squared deviation exceeds four variances |
| Anomalies.ConstantSalesNoAnomalies | streamlit_app.py:266-268 | a view whose sales are all equal flags nothing |
| Anomalies.Samuelson | streamlit_app.py:266 | no value's squared deviation exceeds (n-1)^2/n sample variances |
| Anomalies.SmallViewsNoAnomalies | streamlit_app.py:265-268 | a view of at most five rows flags nothing |
| Dashboard.ClosingSections | streamlit_app.py:243-271 | the forecast and anomaly sections are shown exactly when the view covers at least three months, with the view's forecast and anomaly list; otherwise the run stops at the forecast |
| Dashboard.EmptyViewStopsAtForecast | streamlit_app.py:243-244 | the empty view left by clearing a selection shows neither a forecast nor an anomaly list |

## Left out

- The user interface: Streamlit widgets, headers, Plotly charts and their
  styling, and `st.cache_data` caching; the selections reach the model as a
  `Selection` value.
- Reading the CSV file and parsing dates: a `Sale` carries its month number
  (1 to 12) directly, and the year plays no part in any figure.
- `Log_Total_Sales`, the correlation heatmap, the scatter matrix with OLS
  trend lines and the box plot of ratings by delivery status: they rest on
  logarithms, floating-point statistics and plotting libraries and feed no
  other figure.
- Floating point: all arithmetic is exact over `real`, so rounding error in
  sums, means, the running window sum and the growth factors 1.02, 1.04 and
  1.06 is not modelled; nor are NaN values in the data.
- Display.FormatLarge: returns the scaled number and its suffix; the
  rounding to two decimals and the thousands separators of the text are not
  modelled.
- Anomalies.DetectAnomalies: compares the squared deviation with four
  variances instead of dividing by a square root; `Anomalies.ZScoreAgreement`
  proves the two tests agree whenever the standard deviation is positive, and
  a zero standard deviation flags nothing in both.
- Records.MonthRank: pandas turns a name outside the twelve abbreviations into
  a missing category, sorted last; the model keeps the name and ranks it 12,
  also last. Loaded records never carry such a name.
- Sorting of the monthly table: pandas' default sort is not stable; the model
  inserts in a fixed order. The keys being distinct, the order of the result
  is the same.
- Forecast.Forecast: the labels "Next_Month", "Month+2" and "Month+3" become
  the three fields of `Projection`; a series shorter than three months, where
  reading the last window mean raises an error, gives `None`. That error ends
  the dashboard's run: for such views, the empty view included, no forecast and
  no anomaly list appear, which `Dashboard.ClosingSections` models; the error
  message Streamlit shows in their place is not modelled.
