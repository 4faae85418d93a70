/** The monthly revenue trend: revenue grouped by month name, then put into
    calendar order by treating the month name as a categorical over the
    twelve abbreviations. */
module Monthly {
  import opened Records
  import opened Totals
  import opened Orders
  import opened GroupBy
  import opened RankSort

  function ByMonthName(r: Record): string { r.monthName }
  function ByMonth(r: Record): int { r.month }

  /** A row's position in the calendar; a name that is not a month goes last. */
  function CalendarRank(row: Row<string>): nat { MonthRank(row.key) }

  /** Revenue per month name, in calendar order. */
  function MonthlyRevenue(view: seq<Record>): (t: seq<Row<string>>)
    ensures multiset(t) == multiset(GroupSum(view, ByMonthName, Sales, LexLess))
    ensures RankSorted(t, CalendarRank)
  {
    SortByRankSorted(GroupSum(view, ByMonthName, Sales, LexLess), CalendarRank);
    SortByRank(GroupSum(view, ByMonthName, Sales, LexLess), CalendarRank)
  }

  /** Removing one row removes exactly its total from a table's total. */
  lemma {:induction false} TableTotalRemove<K>(t: seq<Row<K>>, j: int)
    requires 0 <= j < |t|
    ensures TableTotal(t) == TableTotal(t[..j] + t[j + 1..]) + t[j].total
  {
    if j > 0 {
      TableTotalRemove(t[1..], j - 1);
      assert t[..j] + t[j + 1..] == [t[0]] + (t[1..][..j - 1] + t[1..][j..]);
    } else {
      assert t[..j] + t[j + 1..] == t[1..];
    }
  }

  /** A table's total does not depend on the order of its rows. */
  lemma {:induction false} TableTotalPermutation<K>(a: seq<Row<K>>, b: seq<Row<K>>)
    requires multiset(a) == multiset(b)
    ensures TableTotal(a) == TableTotal(b)
    decreases |a|
  {
    if |a| > 0 {
      var x := a[0];
      assert a == [x] + a[1..];
      assert x in multiset(b);
      var j :| 0 <= j < |b| && b[j] == x;
      var b' := b[..j] + b[j + 1..];
      assert b == b[..j] + [x] + b[j + 1..];
      assert multiset(b) == multiset(b[..j]) + multiset{x} + multiset(b[j + 1..]);
      assert multiset(b') == multiset(b[..j]) + multiset(b[j + 1..]);
      assert multiset(a[1..]) == multiset(a) - multiset{x};
      assert multiset(b') == multiset(b) - multiset{x};
      TableTotalPermutation(a[1..], b');
      TableTotalRemove(b, j);
    } else {
      assert b == [];
    }
  }

  /** Reordering a table keeps its keys, its rows and its total. */
  lemma PermutedTable<K>(a: seq<Row<K>>, b: seq<Row<K>>)
    requires multiset(a) == multiset(b)
    ensures KeySet(a) == KeySet(b)
    ensures forall i :: 0 <= i < |a| ==> a[i] in b
    ensures TableTotal(a) == TableTotal(b)
  {
    TableTotalPermutation(a, b);
    forall i | 0 <= i < |a|
      ensures a[i] in b
    {
      assert a[i] in multiset(b);
    }
    forall k | k in KeySet(b)
      ensures k in KeySet(a)
    {
      var j :| 0 <= j < |b| && b[j].key == k;
      assert b[j] in multiset(a);
      var i :| 0 <= i < |a| && a[i] == b[j];
    }
  }

  /** Every month name of a loaded view is one of the twelve abbreviations. */
  lemma KnownMonths(view: seq<Record>)
    requires AllWellFormed(view)
    ensures forall k :: k in Present(view, ByMonthName) ==> MonthRank(k) < 12
  {
    forall k | k in Present(view, ByMonthName)
      ensures MonthRank(k) < 12
    {
      var j :| 0 <= j < |view| && ByMonthName(view[j]) == k;
      assert WellFormed(view[j]);
      assert k == MonthName(view[j].month);
    }
  }

  /** A sorted table rearranged keeps its keys pairwise distinct. */
  lemma PermutedKeysDistinct(a: seq<Row<string>>, b: seq<Row<string>>)
    requires multiset(a) == multiset(b)
    requires Distinct(a)
    requires DistinctKeys(b)
    ensures DistinctKeys(a)
  {
    forall i, j | 0 <= i < j < |a|
      ensures a[i].key != a[j].key
    {
      assert a[i] in multiset(b) && a[j] in multiset(b);
      var p :| 0 <= p < |b| && b[p] == a[i];
      var q :| 0 <= q < |b| && b[q] == a[j];
      assert p != q;
    }
  }

  /** The rows of a key-distinct table are distinct. */
  lemma DistinctRows(t: seq<Row<string>>)
    requires DistinctKeys(t)
    ensures Distinct(t)
  {
    forall i, j | 0 <= i < j < |t|
      ensures t[i] != t[j]
    {
      assert t[i].key != t[j].key;
    }
  }

  /** The monthly table holds one row per month name present, each carrying
      that month's revenue, with no revenue lost. */
  lemma MonthlyRevenueRows(view: seq<Record>)
    ensures DistinctKeys(MonthlyRevenue(view))
    ensures KeySet(MonthlyRevenue(view)) == Present(view, ByMonthName)
    ensures forall i :: 0 <= i < |MonthlyRevenue(view)| ==>
              MonthlyRevenue(view)[i].total == SumKey(view, ByMonthName, Sales, MonthlyRevenue(view)[i].key)
    ensures TableTotal(MonthlyRevenue(view)) == TotalRevenue(view)
  {
    var sums := GroupSum(view, ByMonthName, Sales, LexLess);
    var t := MonthlyRevenue(view);
    LexLessStrictTotal();
    GroupSumSpec(view, ByMonthName, Sales, LexLess);
    SortedIsDistinct(sums, LexLess);
    DistinctRows(sums);
    SortByRankDistinct(sums, CalendarRank);
    PermutedKeysDistinct(t, sums);
    PermutedTable(t, sums);
    forall i | 0 <= i < |t|
      ensures t[i].total == SumKey(view, ByMonthName, Sales, t[i].key)
    {
      var p :| 0 <= p < |sums| && sums[p] == t[i];
    }
  }

  /** A table sorted by a rank that tells distinct keys apart has strictly
      increasing ranks. */
  lemma StrictlyRanked(t: seq<Row<string>>, rank: Row<string> -> nat, names: seq<string>)
    requires RankSorted(t, rank)
    requires DistinctKeys(t)
    requires forall i :: 0 <= i < |t| ==> rank(t[i]) < |names| && names[rank(t[i])] == t[i].key
    ensures forall i, j :: 0 <= i < j < |t| ==> rank(t[i]) < rank(t[j])
  {
    forall i, j | 0 <= i < j < |t|
      ensures rank(t[i]) < rank(t[j])
    {
      assert t[i].key != t[j].key;
    }
  }

  /** The monthly table of a loaded view lists real months only, in strictly
      increasing calendar order. */
  lemma MonthlyRevenueOrder(view: seq<Record>)
    requires AllWellFormed(view)
    ensures forall i :: 0 <= i < |MonthlyRevenue(view)| ==> MonthlyRevenue(view)[i].key in MonthOrder
    ensures forall i, j :: 0 <= i < j < |MonthlyRevenue(view)| ==>
              MonthRank(MonthlyRevenue(view)[i].key) < MonthRank(MonthlyRevenue(view)[j].key)
  {
    var t := MonthlyRevenue(view);
    MonthlyRevenueRows(view);
    KnownMonths(view);
    forall i | 0 <= i < |t|
      ensures CalendarRank(t[i]) < 12 && MonthOrder[CalendarRank(t[i])] == t[i].key
    {
      assert t[i].key in KeySet(t);
    }
    StrictlyRanked(t, CalendarRank, MonthOrder);
  }

  /** Grouping by month name agrees with grouping by month number: the revenue
      under a month's abbreviation is the revenue of the records of that month. */
  lemma MonthNameMatchesNumber(view: seq<Record>, m: MonthNumber)
    requires AllWellFormed(view)
    ensures SumKey(view, ByMonthName, Sales, MonthName(m)) == SumKey(view, ByMonth, Sales, m)
  {
    forall i | 0 <= i < |view|
      ensures Masked(ByMonthName, Sales, MonthName(m))(view[i]) == Masked(ByMonth, Sales, m)(view[i])
    {
      var r := view[i];
      assert WellFormed(r);
      assert ByMonthName(r) == MonthName(r.month);
      MonthNameInjective(r.month, m);
      assert ByMonthName(r) == MonthName(m) <==> ByMonth(r) == m;
    }
    SumOfCongruent(view, Masked(ByMonthName, Sales, MonthName(m)), Masked(ByMonth, Sales, m));
  }

  /** The monthly table does not depend on the order of the view's rows. */
  lemma MonthlyRevenueOrderFree(v1: seq<Record>, v2: seq<Record>)
    requires multiset(v1) == multiset(v2)
    ensures MonthlyRevenue(v1) == MonthlyRevenue(v2)
  {
    LexLessStrictTotal();
    GroupSumPermutation(v1, v2, ByMonthName, Sales, LexLess);
  }
}
