/** Sorting by a natural-number rank, the way the monthly table is put into
    calendar order: each element is placed after every element of no greater
    rank. */
module RankSort {
  /** Ranks never decrease from left to right. */
  ghost predicate RankSorted<T>(s: seq<T>, rank: T -> nat) {
    forall i, j :: 0 <= i < j < |s| ==> rank(s[i]) <= rank(s[j])
  }

  /** No element occurs twice. */
  ghost predicate Distinct<T>(s: seq<T>) {
    forall i, j :: 0 <= i < j < |s| ==> s[i] != s[j]
  }

  /** Inserts `x` before the first element of strictly greater rank. */
  function InsertByRank<T>(x: T, s: seq<T>, rank: T -> nat): (r: seq<T>)
    ensures multiset(r) == multiset(s) + multiset{x}
  {
    if |s| == 0 then [x]
    else if rank(x) < rank(s[0]) then [x] + s
    else
      assert s == [s[0]] + s[1..];
      [s[0]] + InsertByRank(x, s[1..], rank)
  }

  /** Sorts `s` by rank, inserting its elements one by one. */
  function SortByRank<T>(s: seq<T>, rank: T -> nat): (r: seq<T>)
    ensures multiset(r) == multiset(s)
  {
    if |s| == 0 then []
    else
      assert s == s[..|s| - 1] + [s[|s| - 1]];
      InsertByRank(s[|s| - 1], SortByRank(s[..|s| - 1], rank), rank)
  }

  /** Inserting into a rank-sorted sequence keeps it rank-sorted. */
  lemma {:induction false} InsertByRankSorted<T>(x: T, s: seq<T>, rank: T -> nat)
    requires RankSorted(s, rank)
    ensures RankSorted(InsertByRank(x, s, rank), rank)
  {
    if |s| > 0 && rank(x) >= rank(s[0]) {
      var tail := s[1..];
      var r' := InsertByRank(x, tail, rank);
      assert RankSorted(tail, rank);
      InsertByRankSorted(x, tail, rank);
      HeadBelowInserted(x, s, rank);
      var r := [s[0]] + r';
      forall i, j | 0 <= i < j < |r|
        ensures rank(r[i]) <= rank(r[j])
      {
        if i > 0 {
          assert r[i] == r'[i - 1] && r[j] == r'[j - 1];
        } else {
          assert r[j] == r'[j - 1];
        }
      }
    }
  }

  /** When `x` does not go first, the head of `s` ranks no higher than
      anything in the rest of the insertion. */
  lemma HeadBelowInserted<T>(x: T, s: seq<T>, rank: T -> nat)
    requires RankSorted(s, rank)
    requires |s| > 0 && rank(x) >= rank(s[0])
    ensures forall k :: 0 <= k < |InsertByRank(x, s[1..], rank)| ==>
              rank(s[0]) <= rank(InsertByRank(x, s[1..], rank)[k])
  {
    var tail := s[1..];
    var r' := InsertByRank(x, tail, rank);
    forall k | 0 <= k < |r'|
      ensures rank(s[0]) <= rank(r'[k])
    {
      var y := r'[k];
      assert y in multiset(r');
      if y != x {
        assert y in multiset(tail);
        var m :| 0 <= m < |tail| && tail[m] == y;
        assert y == s[m + 1];
      }
    }
  }

  /** The result of sorting is rank-sorted. */
  lemma {:induction false} SortByRankSorted<T>(s: seq<T>, rank: T -> nat)
    ensures RankSorted(SortByRank(s, rank), rank)
  {
    if |s| > 0 {
      SortByRankSorted(s[..|s| - 1], rank);
      InsertByRankSorted(s[|s| - 1], SortByRank(s[..|s| - 1], rank), rank);
    }
  }

  /** Two indices holding equal values give that value a count of at least 2. */
  lemma TwiceCounted<T>(s: seq<T>, i: int, j: int)
    requires 0 <= i < j < |s| && s[i] == s[j]
    ensures multiset(s)[s[i]] >= 2
  {
    assert s == s[..j] + [s[j]] + s[j + 1..];
    assert s[i] in multiset(s[..j]) by { assert s[..j][i] == s[i]; }
    calc {
      multiset(s)[s[i]];
      == { assert multiset(s) == multiset(s[..j]) + multiset{s[j]} + multiset(s[j + 1..]); }
      multiset(s[..j])[s[i]] + 1 + multiset(s[j + 1..])[s[i]];
      >= 2;
    }
  }

  /** A value that occurs once in a duplicate-free sequence is counted once. */
  lemma {:induction false} DistinctCounts<T>(s: seq<T>, x: T)
    requires Distinct(s)
    ensures multiset(s)[x] <= 1
  {
    if |s| > 0 {
      var init := s[..|s| - 1];
      assert s == init + [s[|s| - 1]];
      assert Distinct(init) by {
        forall i, j | 0 <= i < j < |init| ensures init[i] != init[j] {
          assert init[i] == s[i] && init[j] == s[j];
        }
      }
      DistinctCounts(init, x);
      if x == s[|s| - 1] {
        forall i | 0 <= i < |init| ensures init[i] != x {
          assert init[i] == s[i];
        }
        assert x !in multiset(init);
      }
    }
  }

  /** Sorting a duplicate-free sequence leaves it duplicate-free. */
  lemma SortByRankDistinct<T>(s: seq<T>, rank: T -> nat)
    requires Distinct(s)
    ensures Distinct(SortByRank(s, rank))
  {
    var r := SortByRank(s, rank);
    forall i, j | 0 <= i < j < |r|
      ensures r[i] != r[j]
    {
      if r[i] == r[j] {
        TwiceCounted(r, i, j);
        DistinctCounts(s, r[i]);
        assert false;
      }
    }
  }
}
