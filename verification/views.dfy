/** The aggregation tables the dashboard charts: revenue by category, by
    payment method and by quarter, the mean rating by payment method, and the
    state-by-category revenue pivot. */
module Views {
  import opened Records
  import opened Totals
  import opened Orders
  import opened GroupBy

  function ByCategory(r: Record): string { r.category }
  function ByPayment(r: Record): string { r.payment }
  function ByState(r: Record): string { r.state }
  function ByQuarter(r: Record): int { r.quarter }

  /** Every row counts 1. */
  function One(r: Record): real { 1.0 }

  /** Revenue per product category. */
  function CategoryRevenue(view: seq<Record>): (t: seq<Row<string>>)
    ensures IsGroupedSum(t, view, ByCategory, Sales, LexLess)
    ensures TableTotal(t) == TotalRevenue(view)
  {
    LexLessStrictTotal();
    GroupSumSpec(view, ByCategory, Sales, LexLess);
    GroupSum(view, ByCategory, Sales, LexLess)
  }

  /** Revenue per payment method. */
  function PaymentRevenue(view: seq<Record>): (t: seq<Row<string>>)
    ensures IsGroupedSum(t, view, ByPayment, Sales, LexLess)
    ensures TableTotal(t) == TotalRevenue(view)
  {
    LexLessStrictTotal();
    GroupSumSpec(view, ByPayment, Sales, LexLess);
    GroupSum(view, ByPayment, Sales, LexLess)
  }

  /** Revenue per quarter, quarters ascending. */
  function QuarterRevenue(view: seq<Record>): (t: seq<Row<int>>)
    ensures IsGroupedSum(t, view, ByQuarter, Sales, IntLess)
    ensures TableTotal(t) == TotalRevenue(view)
  {
    IntLessStrictTotal();
    GroupSumSpec(view, ByQuarter, Sales, IntLess);
    GroupSum(view, ByQuarter, Sales, IntLess)
  }

  /** Only quarters 1 to 4 occur in the quarterly table of a loaded view. */
  lemma QuarterRevenueKeys(view: seq<Record>)
    requires AllWellFormed(view)
    ensures forall i :: 0 <= i < |QuarterRevenue(view)| ==> 1 <= QuarterRevenue(view)[i].key <= 4
  {
    var t := QuarterRevenue(view);
    forall i | 0 <= i < |t|
      ensures 1 <= t[i].key <= 4
    {
      assert t[i].key in KeySet(t);
      var j :| 0 <= j < |view| && ByQuarter(view[j]) == t[i].key;
      assert WellFormed(view[j]);
    }
  }

  /** The number of rows whose key is `k`. */
  function Count<K(==)>(rows: seq<Record>, key: Record -> K, k: K): real {
    SumKey(rows, key, One, k)
  }

  /** A group's count is at least 1 when its key is present. */
  lemma {:induction false} CountPositive<K>(rows: seq<Record>, key: Record -> K, k: K)
    ensures 0.0 <= Count(rows, key, k)
    ensures k in Present(rows, key) ==> Count(rows, key, k) >= 1.0
  {
    if |rows| > 0 {
      var init := rows[..|rows| - 1];
      CountPositive(init, key, k);
      PresentSnoc(rows, key);
      assert Count(rows, key, k) == Count(init, key, k) + Masked(key, One, k)(rows[|rows| - 1]);
    }
  }

  /** A group's sum of a column lies within the column's bounds times the
      group's count. */
  lemma {:induction false} GroupSumBounds<K>(rows: seq<Record>, key: Record -> K, val: Record -> real,
                                             k: K, lo: real, hi: real)
    requires forall i :: 0 <= i < |rows| ==> lo <= val(rows[i]) <= hi
    ensures lo * Count(rows, key, k) <= SumKey(rows, key, val, k) <= hi * Count(rows, key, k)
  {
    if |rows| > 0 {
      var init := rows[..|rows| - 1];
      GroupSumBounds(init, key, val, k, lo, hi);
      assert SumKey(rows, key, val, k) == SumKey(init, key, val, k) + Masked(key, val, k)(rows[|rows| - 1]);
      assert Count(rows, key, k) == Count(init, key, k) + Masked(key, One, k)(rows[|rows| - 1]);
    }
  }

  /** The mean of `val` per key: the group's sum divided by its count. */
  function GroupMean<K(==,!new)>(view: seq<Record>, key: Record -> K, val: Record -> real,
                                 less: (K, K) -> bool): (t: seq<Row<K>>)
    requires StrictTotalOrder(less)
    ensures Sorted(t, less)
    ensures KeySet(t) == Present(view, key)
    ensures |t| == |Present(view, key)|
    ensures forall i :: 0 <= i < |t| ==> Count(view, key, t[i].key) >= 1.0
    ensures forall i :: 0 <= i < |t| ==> IsMean(t[i].total, SumKey(view, key, val, t[i].key), Count(view, key, t[i].key))
  {
    var sums := GroupSum(view, key, val, less);
    GroupMeanSpec(view, key, val, less, sums);
    MeanRows(view, key, sums)
  }

  /** Divides each group's sum by the group's count. */
  function MeanRows<K(==)>(view: seq<Record>, key: Record -> K, sums: seq<Row<K>>): (t: seq<Row<K>>)
    requires forall i :: 0 <= i < |sums| ==> Count(view, key, sums[i].key) >= 1.0
    ensures |t| == |sums|
    ensures forall i :: 0 <= i < |t| ==> t[i].key == sums[i].key
  {
    seq(|sums|, i requires 0 <= i < |sums| => Row(sums[i].key, sums[i].total / Count(view, key, sums[i].key)))
  }

  /** The facts about the grouped sums that make their quotients the means. */
  lemma GroupMeanSpec<K(!new)>(view: seq<Record>, key: Record -> K, val: Record -> real,
                               less: (K, K) -> bool, sums: seq<Row<K>>)
    requires StrictTotalOrder(less)
    requires sums == GroupSum(view, key, val, less)
    ensures forall i :: 0 <= i < |sums| ==> Count(view, key, sums[i].key) >= 1.0
    ensures Sorted(MeanRows(view, key, sums), less)
    ensures KeySet(MeanRows(view, key, sums)) == Present(view, key)
    ensures |MeanRows(view, key, sums)| == |Present(view, key)|
    ensures forall i :: 0 <= i < |MeanRows(view, key, sums)| ==>
              IsMean(MeanRows(view, key, sums)[i].total, SumKey(view, key, val, MeanRows(view, key, sums)[i].key),
                     Count(view, key, MeanRows(view, key, sums)[i].key))
  {
    GroupSumSpec(view, key, val, less);
    PresentKeysCount(view, key, sums);
    var t := MeanRows(view, key, sums);
    QuotientsAreMeans(view, key, val, sums, t);
    assert Sorted(t, less) by {
      forall i, j | 0 <= i < j < |t| ensures less(t[i].key, t[j].key) {
        assert less(sums[i].key, sums[j].key);
      }
    }
  }

  /** Every key of a grouped table over the view has a positive count. */
  lemma PresentKeysCount<K>(view: seq<Record>, key: Record -> K, sums: seq<Row<K>>)
    requires KeySet(sums) == Present(view, key)
    ensures forall i :: 0 <= i < |sums| ==> Count(view, key, sums[i].key) >= 1.0
  {
    forall i | 0 <= i < |sums|
      ensures Count(view, key, sums[i].key) >= 1.0
    {
      assert sums[i].key in KeySet(sums);
      CountPositive(view, key, sums[i].key);
    }
  }

  /** Dividing each group's sum by its count gives the group's mean. */
  lemma QuotientsAreMeans<K>(view: seq<Record>, key: Record -> K, val: Record -> real,
                             sums: seq<Row<K>>, t: seq<Row<K>>)
    requires forall i :: 0 <= i < |sums| ==> sums[i].total == SumKey(view, key, val, sums[i].key)
    requires forall i :: 0 <= i < |sums| ==> Count(view, key, sums[i].key) >= 1.0
    requires |t| == |sums|
    requires forall i :: 0 <= i < |t| ==> t[i] == Row(sums[i].key, sums[i].total / Count(view, key, sums[i].key))
    ensures KeySet(t) == KeySet(sums)
    ensures forall i :: 0 <= i < |t| ==> IsMean(t[i].total, SumKey(view, key, val, t[i].key), Count(view, key, t[i].key))
  {
    assert forall i :: 0 <= i < |t| ==> t[i].key == sums[i].key;
    forall i | 0 <= i < |t|
      ensures IsMean(t[i].total, SumKey(view, key, val, t[i].key), Count(view, key, t[i].key))
    {
      QuotientIsMean(t[i].total, sums[i].total, Count(view, key, sums[i].key));
    }
  }

  /** Mean review rating per payment method. */
  function PaymentRating(view: seq<Record>): (t: seq<Row<string>>)
    ensures Sorted(t, LexLess)
    ensures KeySet(t) == Present(view, ByPayment)
    ensures forall i :: 0 <= i < |t| ==>
              IsMean(t[i].total, SumKey(view, ByPayment, Rating, t[i].key), Count(view, ByPayment, t[i].key))
  {
    LexLessStrictTotal();
    GroupMean(view, ByPayment, Rating, LexLess)
  }

  /** A group's mean lies within the bounds of the column it averages. */
  lemma GroupMeanWithin<K>(view: seq<Record>, key: Record -> K, val: Record -> real, k: K,
                           m: real, lo: real, hi: real)
    requires forall j :: 0 <= j < |view| ==> lo <= val(view[j]) <= hi
    requires IsMean(m, SumKey(view, key, val, k), Count(view, key, k))
    ensures lo <= m <= hi
  {
    GroupSumBounds(view, key, val, k, lo, hi);
    MeanWithin(m, Count(view, key, k), SumKey(view, key, val, k), lo, hi);
  }

  /** When every rating lies in [lo, hi], so does every payment method's mean. */
  lemma PaymentRatingBounds(view: seq<Record>, lo: real, hi: real)
    requires forall i :: 0 <= i < |view| ==> lo <= view[i].rating <= hi
    ensures forall i :: 0 <= i < |PaymentRating(view)| ==> lo <= PaymentRating(view)[i].total <= hi
  {
    var t := PaymentRating(view);
    assert forall j :: 0 <= j < |view| ==> lo <= Rating(view[j]) <= hi;
    forall i | 0 <= i < |t|
      ensures lo <= t[i].total <= hi
    {
      GroupMeanWithin(view, ByPayment, Rating, t[i].key, t[i].total, lo, hi);
    }
  }
}
