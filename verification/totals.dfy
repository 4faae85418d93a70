/** Column sums and means over a view, and the headline metrics shown above the
    charts (total revenue, average rating, delivery success rate). */
module Totals {
  import opened Optional
  import opened Records

  /** The sum of `f` over the rows, accumulated front to back. */
  function SumOf(rows: seq<Record>, f: Record -> real): real {
    if |rows| == 0 then 0.0
    else SumOf(rows[..|rows| - 1], f) + f(rows[|rows| - 1])
  }

  /** The sales column of a row. */
  function Sales(r: Record): real { r.sales }

  /** The rating column of a row. */
  function Rating(r: Record): real { r.rating }

  /** The delivered flag of a row, as a number. */
  function Delivered(r: Record): real { r.deliveredFlag as real }

  /** A sum over a concatenation is the sum of the parts. */
  lemma {:induction false} SumOfAppend(a: seq<Record>, b: seq<Record>, f: Record -> real)
    ensures SumOf(a + b, f) == SumOf(a, f) + SumOf(b, f)
  {
    if |b| > 0 {
      var b' := b[..|b| - 1];
      assert (a + b)[..|a + b| - 1] == a + b';
      SumOfAppend(a, b', f);
    } else {
      assert a + b == a;
    }
  }

  /** Removing one row removes exactly its term from the sum. */
  lemma SumOfRemove(s: seq<Record>, j: int, f: Record -> real)
    requires 0 <= j < |s|
    ensures SumOf(s, f) == SumOf(s[..j] + s[j + 1..], f) + f(s[j])
  {
    var a, c := s[..j], s[j..];
    assert s == a + c;
    SumOfAppend(a, c, f);
    var b := s[j + 1..];
    assert c == [s[j]] + b;
    SumOfAppend([s[j]], b, f);
    assert SumOf([s[j]], f) == f(s[j]) by {
      assert [s[j]][..0] == [];
    }
    SumOfAppend(a, b, f);
  }

  /** A sum does not depend on the order of the rows. */
  lemma {:induction false} SumOfPermutation(a: seq<Record>, b: seq<Record>, f: Record -> real)
    requires multiset(a) == multiset(b)
    ensures SumOf(a, f) == SumOf(b, f)
    decreases |a|
  {
    if |a| > 0 {
      var x := a[|a| - 1];
      var a' := a[..|a| - 1];
      assert a == a' + [x];
      assert x in multiset(b);
      var j :| 0 <= j < |b| && b[j] == x;
      var b' := b[..j] + b[j + 1..];
      assert b == b[..j] + [x] + b[j + 1..];
      assert multiset(b) == multiset(b[..j]) + multiset{x} + multiset(b[j + 1..]);
      assert multiset(b') == multiset(b[..j]) + multiset(b[j + 1..]);
      assert multiset(a) == multiset(a') + multiset{x};
      assert multiset(a') == multiset(a) - multiset{x};
      assert multiset(b') == multiset(b) - multiset{x};
      SumOfPermutation(a', b', f);
      SumOfRemove(b, j, f);
    } else {
      assert b == [];
    }
  }

  /** Two columns that agree on every row have the same sum. */
  lemma {:induction false} SumOfCongruent(rows: seq<Record>, f: Record -> real, g: Record -> real)
    requires forall i :: 0 <= i < |rows| ==> f(rows[i]) == g(rows[i])
    ensures SumOf(rows, f) == SumOf(rows, g)
  {
    if |rows| > 0 {
      SumOfCongruent(rows[..|rows| - 1], f, g);
    }
  }

  /** A sum of terms that lie within [lo, hi] lies within |rows| * lo and |rows| * hi. */
  lemma {:induction false} SumOfBounds(rows: seq<Record>, f: Record -> real, lo: real, hi: real)
    requires forall i :: 0 <= i < |rows| ==> lo <= f(rows[i]) <= hi
    ensures |rows| as real * lo <= SumOf(rows, f) <= |rows| as real * hi
  {
    if |rows| > 0 {
      SumOfBounds(rows[..|rows| - 1], f, lo, hi);
      assert f(rows[|rows| - 1]) <= hi;
    }
  }

  /** Mean of `f` over the view; none for an empty view, where pandas yields
      not-a-number. */
  function MeanOf(view: seq<Record>, f: Record -> real): (m: Option<real>)
    ensures m.Some? <==> |view| > 0
    ensures m.Some? ==> m.value * |view| as real == SumOf(view, f)
  {
    if |view| == 0 then None else Some(SumOf(view, f) / |view| as real)
  }

  /** Total revenue of the view. */
  function TotalRevenue(view: seq<Record>): (total: real)
    ensures |view| == 0 ==> total == 0.0
    ensures (forall i :: 0 <= i < |view| ==> view[i].sales >= 0.0) ==> total >= 0.0
  {
    if forall i :: 0 <= i < |view| ==> view[i].sales >= 0.0 then
      SumOfNonNegative(view, Sales);
      SumOf(view, Sales)
    else SumOf(view, Sales)
  }

  /** A sum of terms that are never negative is never negative. */
  lemma {:induction false} SumOfNonNegative(rows: seq<Record>, f: Record -> real)
    requires forall i :: 0 <= i < |rows| ==> f(rows[i]) >= 0.0
    ensures SumOf(rows, f) >= 0.0
  {
    if |rows| > 0 {
      SumOfNonNegative(rows[..|rows| - 1], f);
      assert f(rows[|rows| - 1]) >= 0.0;
    }
  }

  /** A ratio of a part to a positive whole lies in [0, 1], reaching 1 only at
      the whole and 0 only at nothing. */
  lemma RatioBounds(x: real, n: real)
    requires n > 0.0 && 0.0 <= x <= n
    ensures 0.0 <= x / n <= 1.0
    ensures x / n == 1.0 <==> x == n
    ensures x / n == 0.0 <==> x == 0.0
  {
    var q := x / n;
    assert q * n == x;
  }

  /** `m` is the mean of `count` terms summing to `total`. */
  predicate IsMean(m: real, total: real, count: real) {
    count > 0.0 && m * count == total
  }

  /** A positive count's quotient is a mean. */
  lemma QuotientIsMean(m: real, total: real, count: real)
    requires count > 0.0 && m == total / count
    ensures IsMean(m, total, count)
  {
  }

  /** A mean `m` of a count `c` of terms summing to `s` lies within the bounds
      of the terms. */
  lemma MeanWithin(m: real, c: real, s: real, lo: real, hi: real)
    requires IsMean(m, s, c) && lo * c <= s <= hi * c
    ensures lo <= m <= hi
  {
    assert (m - lo) * c >= 0.0;
    assert (hi - m) * c >= 0.0;
  }

  /** A mean lies within the bounds of the terms it averages: the average
      rating of a view of ratings between 1 and 5 is between 1 and 5. */
  lemma MeanOfBounds(view: seq<Record>, f: Record -> real, lo: real, hi: real)
    requires |view| > 0
    requires forall i :: 0 <= i < |view| ==> lo <= f(view[i]) <= hi
    ensures lo <= MeanOf(view, f).value <= hi
  {
    var n := |view| as real;
    SumOfBounds(view, f, lo, hi);
    assert IsMean(MeanOf(view, f).value, SumOf(view, f), n);
    MeanWithin(MeanOf(view, f).value, n, SumOf(view, f), lo, hi);
  }

  /** Every row of the view was delivered. */
  predicate AllDelivered(view: seq<Record>) {
    forall i :: 0 <= i < |view| ==> view[i].status == DeliveredStatus
  }

  /** No row of the view was delivered. */
  predicate NoneDelivered(view: seq<Record>) {
    forall i :: 0 <= i < |view| ==> view[i].status != DeliveredStatus
  }

  /** The delivered flags of a well-formed view add up to at most the number of
      rows; they reach it exactly when every row was delivered, and 0 exactly
      when none was. */
  lemma {:induction false} DeliveredCount(view: seq<Record>)
    requires AllWellFormed(view)
    ensures 0.0 <= SumOf(view, Delivered) <= |view| as real
    ensures SumOf(view, Delivered) == |view| as real <==> AllDelivered(view)
    ensures SumOf(view, Delivered) == 0.0 <==> NoneDelivered(view)
  {
    if |view| > 0 {
      var init, last := view[..|view| - 1], view[|view| - 1];
      assert AllWellFormed(init) by {
        forall i | 0 <= i < |init| ensures WellFormed(init[i]) {
          assert init[i] == view[i];
        }
      }
      DeliveredCount(init);
      assert WellFormed(last);
      assert SumOf(view, Delivered) == SumOf(init, Delivered) + Delivered(last);
      assert AllDelivered(view) <==> AllDelivered(init) && last.status == DeliveredStatus by {
        assert forall i :: 0 <= i < |init| ==> init[i] == view[i];
      }
      assert NoneDelivered(view) <==> NoneDelivered(init) && last.status != DeliveredStatus by {
        assert forall i :: 0 <= i < |init| ==> init[i] == view[i];
      }
    }
  }

  /** The delivery success rate in percent: the mean delivered flag times
      100; none for an empty view. */
  function DeliveryRate(view: seq<Record>): (rate: Option<real>)
    ensures rate.Some? <==> |view| > 0
    ensures rate.Some? ==> rate.value * |view| as real == 100.0 * SumOf(view, Delivered)
  {
    if |view| == 0 then None
    else Some(SumOf(view, Delivered) / |view| as real * 100.0)
  }

  /** For a loaded view the rate is a percentage: it lies in [0, 100], is 100
      exactly when every row was delivered, and 0 exactly when none was. */
  lemma DeliveryRateRange(view: seq<Record>)
    requires AllWellFormed(view)
    requires |view| > 0
    ensures 0.0 <= DeliveryRate(view).value <= 100.0
    ensures DeliveryRate(view).value == 100.0 <==> AllDelivered(view)
    ensures DeliveryRate(view).value == 0.0 <==> NoneDelivered(view)
  {
    DeliveredCount(view);
    RatioBounds(SumOf(view, Delivered), |view| as real);
  }
}
