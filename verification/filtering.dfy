/** The sidebar filter: three multi-select controls whose selections are
    combined with a logical AND. */
module Filtering {
  import opened Records
  import opened Subsequences

  /** The chosen categories, states and payment methods. */
  datatype Selection = Selection(categories: set<string>, states: set<string>, payments: set<string>)

  /** The membership test of one row: all three of its columns are selected. */
  predicate Keep(sel: Selection, r: Record) {
    && r.category in sel.categories
    && r.state in sel.states
    && r.payment in sel.payments
  }

  /** The distinct values a column takes over the rows, as `unique()` lists them. */
  function Values(rows: seq<Record>, column: Record -> string): (vs: set<string>)
    ensures forall r :: r in rows ==> column(r) in vs
    ensures forall v :: v in vs ==> exists r :: r in rows && column(r) == v
  {
    set r | r in rows :: column(r)
  }

  /** The distinct values of each filter column in the data: the options, and
      the default selection, of the three controls. */
  function Observed(rows: seq<Record>): (sel: Selection)
    ensures forall r :: r in rows ==> Keep(sel, r)
    ensures forall c :: c in sel.categories ==> exists r :: r in rows && r.category == c
    ensures forall s :: s in sel.states ==> exists r :: r in rows && r.state == s
    ensures forall p :: p in sel.payments ==> exists r :: r in rows && r.payment == p
  {
    Selection(
      Values(rows, (r: Record) => r.category),
      Values(rows, (r: Record) => r.state),
      Values(rows, (r: Record) => r.payment))
  }

  /** The filtered view: the rows the selection keeps. */
  function ApplyFilter(rows: seq<Record>, sel: Selection): (view: seq<Record>)
    ensures |view| <= |rows|
    ensures forall r :: r in view <==> r in rows && Keep(sel, r)
  {
    Where(rows, r => Keep(sel, r))
  }

  /** The view is the in-order subsequence of exactly the kept rows: its k-th row
      is the row at the k-th kept position of the data. */
  lemma FilterIsOrderedSubsequence(rows: seq<Record>, sel: Selection)
    ensures var ix := Positions(rows, r => Keep(sel, r));
            && |ApplyFilter(rows, sel)| == |ix|
            && (forall k :: 0 <= k < |ix| ==> ApplyFilter(rows, sel)[k] == rows[ix[k]])
            && (forall k, l :: 0 <= k < l < |ix| ==> ix[k] < ix[l])
            && (forall i :: 0 <= i < |rows| ==> (i in ix <==> Keep(sel, rows[i])))
  {
    WhereAtPositions(rows, r => Keep(sel, r));
  }

  /** Deselecting every value of any one control empties the view. */
  lemma EmptySelectionEmptiesView(rows: seq<Record>, sel: Selection)
    requires sel.categories == {} || sel.states == {} || sel.payments == {}
    ensures ApplyFilter(rows, sel) == []
  {
    WhereEmpty(rows, r => Keep(sel, r));
  }

  /** A selection keeps every row exactly when it covers every observed value;
      in particular the default selection returns the data unchanged. */
  lemma FullSelectionKeepsAll(rows: seq<Record>, sel: Selection)
    ensures ApplyFilter(rows, sel) == rows <==>
            && Observed(rows).categories <= sel.categories
            && Observed(rows).states <= sel.states
            && Observed(rows).payments <= sel.payments
  {
    var obs := Observed(rows);
    WhereKeepsAll(rows, r => Keep(sel, r));
    if obs.categories <= sel.categories && obs.states <= sel.states && obs.payments <= sel.payments {
      forall i | 0 <= i < |rows|
        ensures Keep(sel, rows[i])
      {
        assert Keep(obs, rows[i]);
      }
    }
  }

  /** The default selection keeps the data as it is, in content and order. */
  lemma DefaultSelectionIsIdentity(rows: seq<Record>)
    ensures ApplyFilter(rows, Observed(rows)) == rows
  {
    FullSelectionKeepsAll(rows, Observed(rows));
  }
}
