/** `pivot_table(values=sales, index=row key, columns=column key,
    aggfunc=sum, fill_value=0)`: a matrix with one row per row-key value
    present, one column per column-key value present, both in ascending order,
    and in each cell the revenue of the records carrying that pair of values,
    0 where there are none. The dashboard draws it for state by category. */
module Pivot {
  import opened Records
  import opened Totals
  import opened Orders
  import opened GroupBy
  import opened Series
  import opened Views

  datatype Matrix = Matrix(rows: seq<string>, cols: seq<string>, cells: seq<seq<real>>)

  /** A record's (row key, column key) pair. */
  function PairKey(rowKey: Record -> string, colKey: Record -> string): Record -> (string, string) {
    r => (rowKey(r), colKey(r))
  }

  /** The revenue of each (row, column) pair present, keyed by the pair. */
  function PairTotals(view: seq<Record>, rowKey: Record -> string, colKey: Record -> string): seq<Row<(string, string)>> {
    GroupSum(view, PairKey(rowKey, colKey), Sales, PairLess)
  }

  /** The pivot table, cells read from the pair totals with 0 for a pair that
      never occurs. */
  function PivotTable(view: seq<Record>, rowKey: Record -> string, colKey: Record -> string): (m: Matrix)
    ensures |m.cells| == |m.rows|
    ensures forall i :: 0 <= i < |m.cells| ==> |m.cells[i]| == |m.cols|
  {
    var rows := Keys(GroupSum(view, rowKey, Sales, LexLess));
    var cols := Keys(GroupSum(view, colKey, Sales, LexLess));
    var pairs := PairTotals(view, rowKey, colKey);
    Matrix(rows, cols,
           seq(|rows|, i requires 0 <= i < |rows| =>
             seq(|cols|, j requires 0 <= j < |cols| => Lookup(pairs, (rows[i], cols[j])))))
  }

  /** The state-by-category revenue matrix. */
  function StateCategoryPivot(view: seq<Record>): (m: Matrix)
    ensures Axis(m.rows, view, ByState) && Axis(m.cols, view, ByCategory)
    ensures |m.cells| == |m.rows|
    ensures forall i :: 0 <= i < |m.cells| ==> |m.cells[i]| == |m.cols|
    ensures forall i, j :: 0 <= i < |m.rows| && 0 <= j < |m.cols| ==>
              m.cells[i][j] == SumKey(view, PairKey(ByState, ByCategory), Sales, (m.rows[i], m.cols[j]))
  {
    PivotSpec(view, ByState, ByCategory);
    PivotTable(view, ByState, ByCategory)
  }

  /** The labels along one side of the pivot: strictly ascending, and exactly
      the values present in the view. */
  ghost predicate Axis(labels: seq<string>, view: seq<Record>, key: Record -> string) {
    && (forall i, j :: 0 <= i < j < |labels| ==> LexLess(labels[i], labels[j]))
    && (forall x :: x in labels <==> x in Present(view, key))
  }

  /** The keys of a grouped table form an axis. */
  lemma KeysAreAxis(view: seq<Record>, key: Record -> string)
    ensures Axis(Keys(GroupSum(view, key, Sales, LexLess)), view, key)
  {
    LexLessStrictTotal();
    GroupSumSpec(view, key, Sales, LexLess);
    var t := GroupSum(view, key, Sales, LexLess);
    assert Sorted(t, LexLess) && KeySet(t) == Present(view, key);
    KeysOfSorted(t, LexLess);
  }

  /** The keys of a table ascend as its rows do, and are its key set. */
  lemma KeysOfSorted(t: seq<Row<string>>, less: (string, string) -> bool)
    requires Sorted(t, less)
    ensures forall i, j :: 0 <= i < j < |Keys(t)| ==> less(Keys(t)[i], Keys(t)[j])
    ensures forall x :: x in Keys(t) <==> x in KeySet(t)
  {
    var ks := Keys(t);
    forall x | x in KeySet(t)
      ensures x in ks
    {
      var i :| 0 <= i < |t| && t[i].key == x;
      assert ks[i] == x;
    }
  }

  /** The pivot's axes are the sorted values present, and each cell is the
      revenue of its (row, column) pair: 0 when the pair never occurs. */
  lemma PivotSpec(view: seq<Record>, rowKey: Record -> string, colKey: Record -> string)
    ensures Axis(PivotTable(view, rowKey, colKey).rows, view, rowKey)
    ensures Axis(PivotTable(view, rowKey, colKey).cols, view, colKey)
    ensures forall i, j :: 0 <= i < |PivotTable(view, rowKey, colKey).rows| && 0 <= j < |PivotTable(view, rowKey, colKey).cols| ==>
              PivotTable(view, rowKey, colKey).cells[i][j]
                == SumKey(view, PairKey(rowKey, colKey), Sales,
                          (PivotTable(view, rowKey, colKey).rows[i], PivotTable(view, rowKey, colKey).cols[j]))
  {
    var m := PivotTable(view, rowKey, colKey);
    KeysAreAxis(view, rowKey);
    KeysAreAxis(view, colKey);
    PairLessStrictTotal();
    forall i, j | 0 <= i < |m.rows| && 0 <= j < |m.cols|
      ensures m.cells[i][j] == SumKey(view, PairKey(rowKey, colKey), Sales, (m.rows[i], m.cols[j]))
    {
      GroupSumLookup(view, PairKey(rowKey, colKey), Sales, PairLess, (m.rows[i], m.cols[j]));
    }
  }

  /** A pair that no record carries shows 0, the fill value. */
  lemma PivotFill(view: seq<Record>, rowKey: Record -> string, colKey: Record -> string, i: int, j: int)
    requires 0 <= i < |PivotTable(view, rowKey, colKey).rows| && 0 <= j < |PivotTable(view, rowKey, colKey).cols|
    requires (PivotTable(view, rowKey, colKey).rows[i], PivotTable(view, rowKey, colKey).cols[j])
               !in Present(view, PairKey(rowKey, colKey))
    ensures PivotTable(view, rowKey, colKey).cells[i][j] == 0.0
  {
    PivotSpec(view, rowKey, colKey);
    PairLessStrictTotal();
    GroupSumSpec(view, PairKey(rowKey, colKey), Sales, PairLess);
  }

  /** The cells of row `s`, one per column label. */
  function RowCells(view: seq<Record>, rowKey: Record -> string, colKey: Record -> string,
                    s: string, cols: seq<string>): (xs: seq<real>)
    ensures |xs| == |cols|
  {
    seq(|cols|, j requires 0 <= j < |cols| => SumKey(view, PairKey(rowKey, colKey), Sales, (s, cols[j])))
  }

  /** The cells of column `c`, one per row label. */
  function ColumnCells(view: seq<Record>, rowKey: Record -> string, colKey: Record -> string,
                       c: string, rows: seq<string>): (xs: seq<real>)
    ensures |xs| == |rows|
  {
    seq(|rows|, i requires 0 <= i < |rows| => SumKey(view, PairKey(rowKey, colKey), Sales, (rows[i], c)))
  }

  /** Summing a row's cells over distinct column labels that cover every
      column value in the view gives the row value's revenue. */
  lemma {:induction false} RowMargin(view: seq<Record>, rowKey: Record -> string, colKey: Record -> string,
                                     s: string, cols: seq<string>)
    requires forall i, j :: 0 <= i < j < |cols| ==> cols[i] != cols[j]
    requires forall r :: r in view ==> colKey(r) in cols
    ensures SumSeq(RowCells(view, rowKey, colKey, s, cols)) == SumKey(view, rowKey, Sales, s)
  {
    if |view| > 0 {
      var init, last := view[..|view| - 1], view[|view| - 1];
      RowMargin(init, rowKey, colKey, s, cols);
      var before := RowCells(init, rowKey, colKey, s, cols);
      var step := seq(|cols|, j requires 0 <= j < |cols| =>
                        Masked(PairKey(rowKey, colKey), Sales, (s, cols[j]))(last));
      var after := RowCells(view, rowKey, colKey, s, cols);
      forall j | 0 <= j < |cols|
        ensures after[j] == before[j] + step[j]
      {
      }
      SumSeqAdd(before, step, after);
      if rowKey(last) == s {
        SumSeqIndicator(cols, colKey(last), last.sales, step);
      } else {
        SumSeqIndicator(cols, colKey(last), 0.0, step);
      }
    } else {
      SumSeqIndicator(cols, s, 0.0, RowCells(view, rowKey, colKey, s, cols));
    }
  }

  /** Summing a column's cells over distinct row labels that cover every row
      value in the view gives the column value's revenue. */
  lemma {:induction false} ColumnMargin(view: seq<Record>, rowKey: Record -> string, colKey: Record -> string,
                                        c: string, rows: seq<string>)
    requires forall i, j :: 0 <= i < j < |rows| ==> rows[i] != rows[j]
    requires forall r :: r in view ==> rowKey(r) in rows
    ensures SumSeq(ColumnCells(view, rowKey, colKey, c, rows)) == SumKey(view, colKey, Sales, c)
  {
    if |view| > 0 {
      var init, last := view[..|view| - 1], view[|view| - 1];
      ColumnMargin(init, rowKey, colKey, c, rows);
      var before := ColumnCells(init, rowKey, colKey, c, rows);
      var step := seq(|rows|, i requires 0 <= i < |rows| =>
                        Masked(PairKey(rowKey, colKey), Sales, (rows[i], c))(last));
      var after := ColumnCells(view, rowKey, colKey, c, rows);
      forall i | 0 <= i < |rows|
        ensures after[i] == before[i] + step[i]
      {
      }
      SumSeqAdd(before, step, after);
      if colKey(last) == c {
        SumSeqIndicator(rows, rowKey(last), last.sales, step);
      } else {
        SumSeqIndicator(rows, rowKey(last), 0.0, step);
      }
    } else {
      SumSeqIndicator(rows, c, 0.0, ColumnCells(view, rowKey, colKey, c, rows));
    }
  }

  /** Labels of an axis are pairwise distinct and cover every record. */
  lemma AxisLabels(labels: seq<string>, view: seq<Record>, key: Record -> string)
    requires Axis(labels, view, key)
    ensures forall i, j :: 0 <= i < j < |labels| ==> labels[i] != labels[j]
    ensures forall r :: r in view ==> key(r) in labels
  {
    LexLessStrictTotal();
    forall i, j | 0 <= i < j < |labels| ensures labels[i] != labels[j] {
      assert LexLess(labels[i], labels[j]);
    }
    forall r | r in view ensures key(r) in labels {
      var k :| 0 <= k < |view| && view[k] == r;
      assert key(r) in Present(view, key);
    }
  }

  /** Each row of the pivot adds up to that row value's revenue. */
  lemma PivotRowTotals(view: seq<Record>, rowKey: Record -> string, colKey: Record -> string)
    ensures forall i :: 0 <= i < |PivotTable(view, rowKey, colKey).rows| ==>
              SumSeq(PivotTable(view, rowKey, colKey).cells[i])
                == SumKey(view, rowKey, Sales, PivotTable(view, rowKey, colKey).rows[i])
  {
    var m := PivotTable(view, rowKey, colKey);
    PivotSpec(view, rowKey, colKey);
    AxisLabels(m.cols, view, colKey);
    forall i | 0 <= i < |m.rows|
      ensures SumSeq(m.cells[i]) == SumKey(view, rowKey, Sales, m.rows[i])
    {
      RowMargin(view, rowKey, colKey, m.rows[i], m.cols);
      RowIsCells(view, rowKey, colKey, i);
    }
  }

  /** Row `i` of the pivot holds the pair revenues of its row label. */
  lemma RowIsCells(view: seq<Record>, rowKey: Record -> string, colKey: Record -> string, i: int)
    requires 0 <= i < |PivotTable(view, rowKey, colKey).rows|
    ensures var m := PivotTable(view, rowKey, colKey);
            m.cells[i] == RowCells(view, rowKey, colKey, m.rows[i], m.cols)
  {
    var m := PivotTable(view, rowKey, colKey);
    PivotSpec(view, rowKey, colKey);
    var l, r := m.cells[i], RowCells(view, rowKey, colKey, m.rows[i], m.cols);
    forall j | 0 <= j < |l| ensures l[j] == r[j] {
    }
  }

  /** Each column of the pivot adds up to that column value's revenue. */
  lemma PivotColumnTotals(view: seq<Record>, rowKey: Record -> string, colKey: Record -> string)
    ensures forall j :: 0 <= j < |PivotTable(view, rowKey, colKey).cols| ==>
              SumSeq(ColumnOf(PivotTable(view, rowKey, colKey), j))
                == SumKey(view, colKey, Sales, PivotTable(view, rowKey, colKey).cols[j])
  {
    var m := PivotTable(view, rowKey, colKey);
    PivotSpec(view, rowKey, colKey);
    AxisLabels(m.rows, view, rowKey);
    forall j | 0 <= j < |m.cols|
      ensures SumSeq(ColumnOf(m, j)) == SumKey(view, colKey, Sales, m.cols[j])
    {
      ColumnMargin(view, rowKey, colKey, m.cols[j], m.rows);
      ColumnIsCells(view, rowKey, colKey, j);
    }
  }

  /** Column `j` of the pivot holds the pair revenues of its column label. */
  lemma ColumnIsCells(view: seq<Record>, rowKey: Record -> string, colKey: Record -> string, j: int)
    requires 0 <= j < |PivotTable(view, rowKey, colKey).cols|
    ensures var m := PivotTable(view, rowKey, colKey);
            ColumnOf(m, j) == ColumnCells(view, rowKey, colKey, m.cols[j], m.rows)
  {
    var m := PivotTable(view, rowKey, colKey);
    PivotSpec(view, rowKey, colKey);
    var l, r := ColumnOf(m, j), ColumnCells(view, rowKey, colKey, m.cols[j], m.rows);
    forall i | 0 <= i < |l| ensures l[i] == r[i] {
      assert l[i] == m.cells[i][j];
    }
  }

  /** Column `j` of a matrix, top to bottom. */
  function ColumnOf(m: Matrix, j: int): (xs: seq<real>)
    requires 0 <= j < |m.cols|
    requires |m.cells| == |m.rows|
    requires forall i :: 0 <= i < |m.cells| ==> |m.cells[i]| == |m.cols|
    ensures |xs| == |m.rows|
  {
    seq(|m.cells|, i requires 0 <= i < |m.cells| => m.cells[i][j])
  }
}
