/** `groupby(key)[column].sum()`: one row per distinct key present in the view,
    carrying the sum of the column over that key's rows, keys in ascending
    order. The table is built in one pass over the view by inserting each row
    into a sorted association list. */
module GroupBy {
  import opened Optional
  import opened Records
  import opened Totals
  import opened Orders

  /** One output row of a grouped sum. */
  datatype Row<K> = Row(key: K, total: real)

  /** The keys of a table, as a set. */
  function KeySet<K>(t: seq<Row<K>>): set<K> {
    set i | 0 <= i < |t| :: t[i].key
  }

  /** The keys of a table, in table order. */
  function Keys<K>(t: seq<Row<K>>): (ks: seq<K>)
    ensures |ks| == |t|
    ensures forall i :: 0 <= i < |t| ==> ks[i] == t[i].key
  {
    seq(|t|, i requires 0 <= i < |t| => t[i].key)
  }

  /** The sum of a table's totals. */
  function TableTotal<K>(t: seq<Row<K>>): real {
    if |t| == 0 then 0.0 else t[0].total + TableTotal(t[1..])
  }

  /** The total of the first row with key `k`, if there is one. */
  function Find<K(==)>(t: seq<Row<K>>, k: K): (o: Option<real>)
    ensures o.Some? <==> k in KeySet(t)
  {
    if |t| == 0 then None
    else
      KeySetCons(t);
      if t[0].key == k then Some(t[0].total) else Find(t[1..], k)
  }

  /** The total for `k`, reading an absent key as 0 (the pivot's fill value). */
  function Lookup<K(==)>(t: seq<Row<K>>, k: K): real {
    match Find(t, k)
    case Some(total) => total
    case None => 0.0
  }

  /** Keys strictly increase down the table. */
  ghost predicate Sorted<K>(t: seq<Row<K>>, less: (K, K) -> bool) {
    forall i, j :: 0 <= i < j < |t| ==> less(t[i].key, t[j].key)
  }

  /** No key occurs twice. */
  ghost predicate DistinctKeys<K>(t: seq<Row<K>>) {
    forall i, j :: 0 <= i < j < |t| ==> t[i].key != t[j].key
  }

  /** The distinct values of `key` over the rows. */
  function Present<K>(rows: seq<Record>, key: Record -> K): set<K> {
    set i | 0 <= i < |rows| :: key(rows[i])
  }

  /** `val` on the rows whose key is `k`, 0 on the others. */
  function Masked<K(==)>(key: Record -> K, val: Record -> real, k: K): Record -> real {
    r => if key(r) == k then val(r) else 0.0
  }

  /** The reference definition of one group's sum: `val` summed over the rows
      whose key is `k`. */
  function SumKey<K(==)>(rows: seq<Record>, key: Record -> K, val: Record -> real, k: K): real {
    SumOf(rows, Masked(key, val, k))
  }

  lemma KeySetCons<K>(t: seq<Row<K>>)
    requires |t| > 0
    ensures KeySet(t) == {t[0].key} + KeySet(t[1..])
  {
    forall x | x in KeySet(t)
      ensures x in {t[0].key} + KeySet(t[1..])
    {
      var i :| 0 <= i < |t| && t[i].key == x;
      if i > 0 {
        assert t[1..][i - 1].key == x;
      }
    }
    forall x | x in KeySet(t[1..])
      ensures x in KeySet(t)
    {
      var i :| 0 <= i < |t[1..]| && t[1..][i].key == x;
      assert t[i + 1].key == x;
    }
  }

  lemma PresentSnoc<K>(rows: seq<Record>, key: Record -> K)
    requires |rows| > 0
    ensures Present(rows, key) == Present(rows[..|rows| - 1], key) + {key(rows[|rows| - 1])}
  {
    var init := rows[..|rows| - 1];
    forall x | x in Present(rows, key)
      ensures x in Present(init, key) + {key(rows[|rows| - 1])}
    {
      var i :| 0 <= i < |rows| && key(rows[i]) == x;
      if i < |init| {
        assert key(init[i]) == x;
      }
    }
    forall x | x in Present(init, key)
      ensures x in Present(rows, key)
    {
      var i :| 0 <= i < |init| && key(init[i]) == x;
      assert key(rows[i]) == x;
    }
  }

  /** Adds `v` to the row of key `k`, creating the row at its place in key
      order when `k` is new. */
  function Insert<K(==)>(t: seq<Row<K>>, k: K, v: real, less: (K, K) -> bool): (t': seq<Row<K>>)
    ensures KeySet(t') == KeySet(t) + {k}
    ensures TableTotal(t') == TableTotal(t) + v
    ensures |t| <= |t'| <= |t| + 1
  {
    if |t| == 0 then
      var t' := [Row(k, v)];
      assert t'[0].key == k;
      t'
    else
      KeySetCons(t);
      if t[0].key == k then
        var t' := [Row(k, t[0].total + v)] + t[1..];
        KeySetCons(t');
        assert t'[1..] == t[1..];
        t'
      else if less(k, t[0].key) then
        var t' := [Row(k, v)] + t;
        KeySetCons(t');
        assert t'[1..] == t;
        t'
      else
        var t' := [t[0]] + Insert(t[1..], k, v, less);
        KeySetCons(t');
        assert t'[1..] == Insert(t[1..], k, v, less);
        t'
  }

  /** The grouped sum of `val` by `key`, built by inserting the rows in order. */
  function GroupSum<K(==)>(rows: seq<Record>, key: Record -> K, val: Record -> real,
                           less: (K, K) -> bool): (t: seq<Row<K>>)
    ensures KeySet(t) == Present(rows, key)
    ensures TableTotal(t) == SumOf(rows, val)
  {
    if |rows| == 0 then []
    else
      var init, last := rows[..|rows| - 1], rows[|rows| - 1];
      PresentSnoc(rows, key);
      Insert(GroupSum(init, key, val, less), key(last), val(last), less)
  }

  lemma SortedTail<K(!new)>(t: seq<Row<K>>, less: (K, K) -> bool)
    requires |t| > 0 && Sorted(t, less)
    ensures Sorted(t[1..], less)
    ensures forall x :: x in KeySet(t[1..]) ==> less(t[0].key, x)
  {
    forall x | x in KeySet(t[1..])
      ensures less(t[0].key, x)
    {
      var i :| 0 <= i < |t[1..]| && t[1..][i].key == x;
      assert t[i + 1].key == x;
    }
  }

  /** In a sorted table, a key below the first key occurs nowhere. */
  lemma BelowHeadAbsent<K(!new)>(t: seq<Row<K>>, k: K, less: (K, K) -> bool)
    requires StrictTotalOrder(less)
    requires |t| > 0 && Sorted(t, less) && less(k, t[0].key)
    ensures k !in KeySet(t)
  {
    forall i | 0 <= i < |t|
      ensures t[i].key != k
    {
      if i > 0 {
        assert less(t[0].key, t[i].key);
      }
    }
  }

  lemma SortedIsDistinct<K(!new)>(t: seq<Row<K>>, less: (K, K) -> bool)
    requires StrictTotalOrder(less) && Sorted(t, less)
    ensures DistinctKeys(t)
  {
    forall i, j | 0 <= i < j < |t|
      ensures t[i].key != t[j].key
    {
      assert less(t[i].key, t[j].key);
    }
  }

  /** Inserting into a sorted table keeps it sorted. */
  lemma {:induction false} InsertSorted<K(!new)>(t: seq<Row<K>>, k: K, v: real, less: (K, K) -> bool)
    requires StrictTotalOrder(less) && Sorted(t, less)
    ensures Sorted(Insert(t, k, v, less), less)
  {
    if |t| > 0 {
      var t' := Insert(t, k, v, less);
      if t[0].key == k {
        assert forall i :: 0 <= i < |t| ==> t'[i].key == t[i].key;
      } else if less(k, t[0].key) {
        forall i, j | 0 <= i < j < |t'|
          ensures less(t'[i].key, t'[j].key)
        {
          if i > 0 {
            assert t'[i] == t[i - 1] && t'[j] == t[j - 1];
          } else if j > 1 {
            assert less(t[0].key, t[j - 1].key);
          }
        }
      } else {
        SortedTail(t, less);
        InsertSorted(t[1..], k, v, less);
        var rest := Insert(t[1..], k, v, less);
        assert less(t[0].key, k);
        forall i, j | 0 <= i < j < |t'|
          ensures less(t'[i].key, t'[j].key)
        {
          if i > 0 {
            assert t'[i] == rest[i - 1] && t'[j] == rest[j - 1];
          } else {
            assert t'[j].key == rest[j - 1].key;
            assert rest[j - 1].key in KeySet(rest);
          }
        }
      }
    }
  }

  /** Inserting adds `v` to the total read for `k` and changes no other key's. */
  lemma {:induction false} InsertLookup<K(!new)>(t: seq<Row<K>>, k: K, v: real, less: (K, K) -> bool, k': K)
    requires StrictTotalOrder(less) && Sorted(t, less)
    ensures Lookup(Insert(t, k, v, less), k') == Lookup(t, k') + (if k' == k then v else 0.0)
  {
    if |t| > 0 {
      var t' := Insert(t, k, v, less);
      if t[0].key == k {
        assert t'[1..] == t[1..];
      } else if less(k, t[0].key) {
        assert t'[1..] == t;
        if k' == k {
          BelowHeadAbsent(t, k, less);
        }
      } else {
        SortedTail(t, less);
        InsertLookup(t[1..], k, v, less, k');
        assert t'[1..] == Insert(t[1..], k, v, less);
      }
    }
  }

  /** The grouped table is sorted by key. */
  lemma {:induction false} GroupSumSorted<K(!new)>(rows: seq<Record>, key: Record -> K, val: Record -> real,
                                                   less: (K, K) -> bool)
    requires StrictTotalOrder(less)
    ensures Sorted(GroupSum(rows, key, val, less), less)
  {
    if |rows| > 0 {
      var init, last := rows[..|rows| - 1], rows[|rows| - 1];
      GroupSumSorted(init, key, val, less);
      InsertSorted(GroupSum(init, key, val, less), key(last), val(last), less);
    }
  }

  /** Each key's total in the grouped table is that key's sum over the rows. */
  lemma {:induction false} GroupSumLookup<K(!new)>(rows: seq<Record>, key: Record -> K, val: Record -> real,
                                                   less: (K, K) -> bool, k: K)
    requires StrictTotalOrder(less)
    ensures Lookup(GroupSum(rows, key, val, less), k) == SumKey(rows, key, val, k)
  {
    if |rows| > 0 {
      var init, last := rows[..|rows| - 1], rows[|rows| - 1];
      GroupSumLookup(init, key, val, less, k);
      GroupSumSorted(init, key, val, less);
      InsertLookup(GroupSum(init, key, val, less), key(last), val(last), less, k);
    }
  }

  /** A table without repeated keys has one row per key, and each row's total is
      what `Lookup` reads for its key. */
  lemma {:induction false} DistinctTable<K>(t: seq<Row<K>>)
    requires DistinctKeys(t)
    ensures |KeySet(t)| == |t|
    ensures forall i :: 0 <= i < |t| ==> Lookup(t, t[i].key) == t[i].total
  {
    if |t| > 0 {
      KeySetCons(t);
      DistinctTable(t[1..]);
      assert t[0].key !in KeySet(t[1..]) by {
        forall i | 0 <= i < |t[1..]|
          ensures t[1..][i].key != t[0].key
        {
          assert t[1..][i] == t[i + 1];
        }
      }
      forall i | 0 < i < |t|
        ensures Lookup(t, t[i].key) == t[i].total
      {
        assert t[i] == t[1..][i - 1];
      }
    }
  }

  /** `t` is the grouped sum of `val` by `key` over `rows`: keys ascending, one
      row per distinct key present, each row the sum of its key's rows, and the
      rows adding up to the column's total. */
  ghost predicate IsGroupedSum<K(!new)>(t: seq<Row<K>>, rows: seq<Record>, key: Record -> K,
                                        val: Record -> real, less: (K, K) -> bool) {
    && Sorted(t, less)
    && KeySet(t) == Present(rows, key)
    && |t| == |Present(rows, key)|
    && (forall i :: 0 <= i < |t| ==> t[i].total == SumKey(rows, key, val, t[i].key))
    && TableTotal(t) == SumOf(rows, val)
  }

  /** The one-pass table is the grouped sum, and a key that is not present in
      the rows sums to 0. */
  lemma GroupSumSpec<K(!new)>(rows: seq<Record>, key: Record -> K, val: Record -> real,
                              less: (K, K) -> bool)
    requires StrictTotalOrder(less)
    ensures IsGroupedSum(GroupSum(rows, key, val, less), rows, key, val, less)
    ensures forall k :: k !in Present(rows, key) ==> SumKey(rows, key, val, k) == 0.0
  {
    var t := GroupSum(rows, key, val, less);
    GroupSumSorted(rows, key, val, less);
    SortedIsDistinct(t, less);
    DistinctTable(t);
    forall i | 0 <= i < |t|
      ensures t[i].total == SumKey(rows, key, val, t[i].key)
    {
      GroupSumLookup(rows, key, val, less, t[i].key);
    }
    forall k | k !in Present(rows, key)
      ensures SumKey(rows, key, val, k) == 0.0
    {
      GroupSumLookup(rows, key, val, less, k);
    }
  }

  /** The first key of a sorted table is below every other key. */
  lemma HeadIsLeast<K(!new)>(t: seq<Row<K>>, less: (K, K) -> bool)
    requires |t| > 0 && Sorted(t, less)
    ensures forall x :: x in KeySet(t) ==> x == t[0].key || less(t[0].key, x)
  {
    forall x | x in KeySet(t)
      ensures x == t[0].key || less(t[0].key, x)
    {
      var i :| 0 <= i < |t| && t[i].key == x;
      if i > 0 {
        assert less(t[0].key, t[i].key);
      }
    }
  }

  /** Dropping the first row of a table without repeated keys drops exactly its
      key, and leaves every other key's total as it was. */
  lemma DropHead<K(!new)>(t: seq<Row<K>>)
    requires |t| > 0 && DistinctKeys(t)
    ensures KeySet(t[1..]) == KeySet(t) - {t[0].key}
    ensures Lookup(t, t[0].key) == t[0].total
    ensures Lookup(t[1..], t[0].key) == 0.0
    ensures forall k :: k != t[0].key ==> Lookup(t[1..], k) == Lookup(t, k)
  {
    KeySetCons(t);
    assert t[0].key !in KeySet(t[1..]) by {
      forall i | 0 <= i < |t[1..]|
        ensures t[1..][i].key != t[0].key
      {
        assert t[1..][i] == t[i + 1];
      }
    }
  }

  /** A sorted table is determined by its keys and the totals it reads for them. */
  lemma {:induction false} SortedTableUnique<K(!new)>(t1: seq<Row<K>>, t2: seq<Row<K>>, less: (K, K) -> bool)
    requires StrictTotalOrder(less) && Sorted(t1, less) && Sorted(t2, less)
    requires KeySet(t1) == KeySet(t2)
    requires forall k :: Lookup(t1, k) == Lookup(t2, k)
    ensures t1 == t2
    decreases |t1|
  {
    SortedIsDistinct(t1, less);
    SortedIsDistinct(t2, less);
    DistinctTable(t1);
    DistinctTable(t2);
    if |t1| > 0 {
      var h1, h2 := t1[0].key, t2[0].key;
      HeadIsLeast(t1, less);
      HeadIsLeast(t2, less);
      assert h2 in KeySet(t1) && h1 in KeySet(t2);
      assert h1 == h2;
      DropHead(t1);
      DropHead(t2);
      SortedTail(t1, less);
      SortedTail(t2, less);
      forall k
        ensures Lookup(t1[1..], k) == Lookup(t2[1..], k)
      {
      }
      SortedTableUnique(t1[1..], t2[1..], less);
      assert t1 == [t1[0]] + t1[1..] && t2 == [t2[0]] + t2[1..];
    }
  }

  /** Rows with the same multiset have the same keys. */
  lemma PresentPermutation<K>(v1: seq<Record>, v2: seq<Record>, key: Record -> K)
    requires multiset(v1) == multiset(v2)
    ensures Present(v1, key) == Present(v2, key)
  {
    forall x | x in Present(v1, key)
      ensures x in Present(v2, key)
    {
      var i :| 0 <= i < |v1| && key(v1[i]) == x;
      assert v1[i] in multiset(v2);
      var j :| 0 <= j < |v2| && v2[j] == v1[i];
    }
    forall x | x in Present(v2, key)
      ensures x in Present(v1, key)
    {
      var j :| 0 <= j < |v2| && key(v2[j]) == x;
      assert v2[j] in multiset(v1);
      var i :| 0 <= i < |v1| && v1[i] == v2[j];
    }
  }

  /** A grouped sum does not depend on the order of the view's rows. */
  lemma GroupSumPermutation<K(!new)>(v1: seq<Record>, v2: seq<Record>, key: Record -> K,
                                     val: Record -> real, less: (K, K) -> bool)
    requires StrictTotalOrder(less)
    requires multiset(v1) == multiset(v2)
    ensures GroupSum(v1, key, val, less) == GroupSum(v2, key, val, less)
  {
    var t1, t2 := GroupSum(v1, key, val, less), GroupSum(v2, key, val, less);
    GroupSumSorted(v1, key, val, less);
    GroupSumSorted(v2, key, val, less);
    PresentPermutation(v1, v2, key);
    forall k
      ensures Lookup(t1, k) == Lookup(t2, k)
    {
      GroupSumLookup(v1, key, val, less, k);
      GroupSumLookup(v2, key, val, less, k);
      SumOfPermutation(v1, v2, Masked(key, val, k));
    }
    SortedTableUnique(t1, t2, less);
  }
}
