/** Sale records of the dashboard's dataset and the columns derived from them
    once, at load time, by `load_data`. */
module Records {

  /** A calendar month number, as the month accessor of a parsed date yields it. */
  type MonthNumber = m: int | 1 <= m <= 12 witness 1

  /** The canonical month abbreviations in calendar order; this is both the `%b`
      rendering of a date and the fixed category order of the monthly table. */
  const MonthOrder: seq<string> :=
    ["Jan", "Feb", "Mar", "Apr", "May", "Jun", "Jul", "Aug", "Sep", "Oct", "Nov", "Dec"]

  /** The status value that sets the delivered flag. */
  const DeliveredStatus: string := "Delivered"

  /** The lowest review rating that counts as satisfied. */
  const SatisfiedRating: real := 4.0

  /** One row of the input file, with its date already reduced to a month number. */
  datatype Sale = Sale(
    month: MonthNumber,
    category: string,
    state: string,
    payment: string,
    sales: real,
    rating: real,
    status: string)

  /** One row after enrichment: the raw columns plus the derived ones. */
  datatype Record = Record(
    month: MonthNumber,
    category: string,
    state: string,
    payment: string,
    sales: real,
    rating: real,
    status: string,
    monthName: string,
    quarter: int,
    deliveredFlag: int,
    satisfied: int)

  /** Position of the first occurrence of `x` in `s`, or `|s|` when it does not occur. */
  function IndexOf(s: seq<string>, x: string): (i: nat)
    ensures i <= |s|
    ensures i < |s| ==> s[i] == x
    ensures forall j :: 0 <= j < i ==> s[j] != x
  {
    if |s| == 0 then 0
    else if s[0] == x then 0
    else 1 + IndexOf(s[1..], x)
  }

  /** The rank of a month name in the calendar order; any other string ranks
      12, after every month, as a value outside a categorical's categories does
      when the table is sorted by it. */
  function MonthRank(name: string): (rank: nat)
    ensures rank <= 12
    ensures rank < 12 <==> name in MonthOrder
    ensures rank < 12 ==> MonthOrder[rank] == name
  {
    IndexOf(MonthOrder, name)
  }

  /** No abbreviation occurs twice in the calendar order. */
  lemma MonthOrderDistinct()
    ensures forall i, j :: 0 <= i < j < |MonthOrder| ==> MonthOrder[i] != MonthOrder[j]
  {
    forall i, j | 0 <= i < j < |MonthOrder|
      ensures MonthOrder[i] != MonthOrder[j]
    {
      assert || MonthOrder[i][0] != MonthOrder[j][0]
             || MonthOrder[i][1] != MonthOrder[j][1]
             || MonthOrder[i][2] != MonthOrder[j][2];
    }
  }

  /** The three-letter abbreviation of a month. */
  function MonthName(m: MonthNumber): (name: string)
    ensures name in MonthOrder
    ensures MonthRank(name) == m - 1
  {
    MonthOrderDistinct();
    MonthOrder[m - 1]
  }

  /** Different months have different abbreviations. */
  lemma MonthNameInjective(a: MonthNumber, b: MonthNumber)
    ensures MonthName(a) == MonthName(b) <==> a == b
  {
    MonthOrderDistinct();
    if a < b {
      assert MonthOrder[a - 1] != MonthOrder[b - 1];
    } else if b < a {
      assert MonthOrder[b - 1] != MonthOrder[a - 1];
    }
  }

  /** The quarter a month falls in. */
  function QuarterOf(m: MonthNumber): (q: int)
    ensures 1 <= q <= 4
    ensures 3 * q - 2 <= m <= 3 * q
  {
    (m - 1) / 3 + 1
  }

  /** 1 when the delivery status is exactly "Delivered", 0 for any other string. */
  function DeliveredFlag(status: string): (flag: int)
    ensures flag == 0 || flag == 1
    ensures flag == 1 <==> status == DeliveredStatus
  {
    if status == DeliveredStatus then 1 else 0
  }

  /** 1 when the rating is at least 4, 0 otherwise (out-of-range ratings included). */
  function SatisfiedFlag(rating: real): (flag: int)
    ensures flag == 0 || flag == 1
    ensures flag == 1 <==> rating >= SatisfiedRating
  {
    if rating >= SatisfiedRating then 1 else 0
  }

  /** The raw columns of an enriched record. */
  function Raw(r: Record): Sale {
    Sale(r.month, r.category, r.state, r.payment, r.sales, r.rating, r.status)
  }

  /** A record whose derived columns agree with its raw ones: the month name is
      the month's abbreviation, the quarter is the one containing the month,
      and each flag is 0 or 1 and is 1 exactly when its condition holds. */
  predicate WellFormed(r: Record) {
    && r.monthName == MonthOrder[r.month - 1]
    && 3 * r.quarter - 2 <= r.month <= 3 * r.quarter
    && (r.deliveredFlag == 0 || r.deliveredFlag == 1)
    && (r.deliveredFlag == 1 <==> r.status == DeliveredStatus)
    && (r.satisfied == 0 || r.satisfied == 1)
    && (r.satisfied == 1 <==> r.rating >= SatisfiedRating)
  }

  /** Derives the month name, quarter and the two flags of one row. */
  function Enrich(s: Sale): (r: Record)
    ensures Raw(r) == s
    ensures WellFormed(r)
  {
    Record(s.month, s.category, s.state, s.payment, s.sales, s.rating, s.status,
           MonthName(s.month), QuarterOf(s.month),
           DeliveredFlag(s.status), SatisfiedFlag(s.rating))
  }

  /** A well-formed record is the enrichment of its own raw columns: the derived
      columns have no way to drift from the raw ones. */
  lemma WellFormedIsEnriched(r: Record)
    requires WellFormed(r)
    ensures r == Enrich(Raw(r))
  {
    var e := Enrich(Raw(r));
    assert e.monthName == MonthOrder[r.month - 1] == r.monthName;
    assert e.quarter == r.quarter by {
      assert 3 * e.quarter - 2 <= r.month <= 3 * e.quarter;
    }
    assert e.deliveredFlag == r.deliveredFlag;
    assert e.satisfied == r.satisfied;
  }

  /** The enrichment pass over the whole file: same rows, same order. */
  function LoadData(sales: seq<Sale>): (rows: seq<Record>)
    ensures |rows| == |sales|
    ensures forall i :: 0 <= i < |rows| ==> Raw(rows[i]) == sales[i] && WellFormed(rows[i])
  {
    seq(|sales|, i requires 0 <= i < |sales| => Enrich(sales[i]))
  }

  /** Every record of a view is well-formed. */
  ghost predicate AllWellFormed(rows: seq<Record>) {
    forall i :: 0 <= i < |rows| ==> WellFormed(rows[i])
  }
}
