/** Sums over sequences of numbers: the chart series the dashboard derives
    from its tables. */
module Series {
  /** The sum of a series, accumulated front to back. */
  function SumSeq(xs: seq<real>): real {
    if |xs| == 0 then 0.0 else SumSeq(xs[..|xs| - 1]) + xs[|xs| - 1]
  }

  /** A sum over a concatenation is the sum of the parts. */
  lemma {:induction false} SumSeqAppend(a: seq<real>, b: seq<real>)
    ensures SumSeq(a + b) == SumSeq(a) + SumSeq(b)
  {
    if |b| > 0 {
      assert (a + b)[..|a + b| - 1] == a + b[..|b| - 1];
      SumSeqAppend(a, b[..|b| - 1]);
    } else {
      assert a + b == a;
    }
  }

  /** Removing one term of a series removes exactly that term from its sum. */
  lemma SumSeqRemove(xs: seq<real>, k: int)
    requires 0 <= k < |xs|
    ensures SumSeq(xs) == SumSeq(xs[..k] + xs[k + 1..]) + xs[k]
  {
    var a, c := xs[..k], xs[k..];
    assert xs == a + c;
    SumSeqAppend(a, c);
    var b := xs[k + 1..];
    assert c == [xs[k]] + b;
    SumSeqAppend([xs[k]], b);
    SumSeqSingleton(xs[k]);
    SumSeqAppend(a, b);
  }

  /** A one-term series sums to its term. */
  lemma SumSeqSingleton(x: real)
    ensures SumSeq([x]) == x
  {
    assert [x][..0] == [];
  }

  /** Summing two series term by term sums their sums. */
  lemma {:induction false} SumSeqAdd(a: seq<real>, b: seq<real>, c: seq<real>)
    requires |a| == |b| == |c|
    requires forall j :: 0 <= j < |c| ==> c[j] == a[j] + b[j]
    ensures SumSeq(c) == SumSeq(a) + SumSeq(b)
  {
    if |c| > 0 {
      var n := |c| - 1;
      SumSeqAdd(a[..n], b[..n], c[..n]);
    }
  }

  /** A series that is `v` at the one position where `ks` holds `k`, and 0
      elsewhere, sums to `v`; to 0 when `k` does not occur. */
  lemma {:induction false} SumSeqIndicator<K>(ks: seq<K>, k: K, v: real, xs: seq<real>)
    requires |xs| == |ks|
    requires forall i, j :: 0 <= i < j < |ks| ==> ks[i] != ks[j]
    requires forall j :: 0 <= j < |xs| ==> xs[j] == if ks[j] == k then v else 0.0
    ensures SumSeq(xs) == if k in ks then v else 0.0
  {
    if |xs| > 0 {
      var n := |xs| - 1;
      SumSeqIndicator(ks[..n], k, v, xs[..n]);
      assert ks == ks[..n] + [ks[n]];
      if ks[n] == k {
        forall j | 0 <= j < n ensures ks[..n][j] != k {
          assert ks[j] != ks[n];
        }
      }
    }
  }
}
