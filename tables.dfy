/**
 * The query shapes the endpoints build with SQLAlchemy: filtering a table, ordering by a
 * timestamp newest first, `.offset(skip).limit(limit)` and counting. A table is a map from
 * primary key to row; the order in which the database hands out rows is not specified, so
 * it enters as a `scan` that enumerates the table's keys.
 */
module Tables {
  import opened Common

  /** `scan` lists every key of `table` exactly once. */
  predicate IsScanOf<K, V>(scan: seq<K>, table: map<K, V>)
  {
    (forall i :: 0 <= i < |scan| ==> scan[i] in table)
    && (forall k :: k in table ==> k in scan)
    && (forall i, j :: 0 <= i < j < |scan| ==> scan[i] != scan[j])
  }

  /** The rows of `table` in the order `scan` visits them. */
  function RowsOf<K, V>(scan: seq<K>, table: map<K, V>): (rows: seq<V>)
    requires forall i :: 0 <= i < |scan| ==> scan[i] in table
    ensures |rows| == |scan| && forall i :: 0 <= i < |scan| ==> rows[i] == table[scan[i]]
  {
    if |scan| == 0 then [] else [table[scan[0]]] + RowsOf(scan[1..], table)
  }

  /** Every row of the table is visited by a scan of it. */
  lemma RowsOfScanComplete<K, V>(scan: seq<K>, table: map<K, V>, k: K)
    requires IsScanOf(scan, table)
    requires k in table
    ensures table[k] in RowsOf(scan, table)
  {
    var i :| 0 <= i < |scan| && scan[i] == k;
    assert RowsOf(scan, table)[i] == table[k];
  }

  /** Filtering a full scan of a table keeps exactly the table's rows that pass. */
  lemma FilterScan<K, V(!new)>(scan: seq<K>, table: map<K, V>, keep: V -> bool)
    requires IsScanOf(scan, table)
    ensures forall v :: v in Filter(RowsOf(scan, table), keep) <==> v in table.Values && keep(v)
  {
    var rows := RowsOf(scan, table);
    forall v | v in table.Values
      ensures v in rows
    {
      var k :| k in table && table[k] == v;
      RowsOfScanComplete(scan, table, k);
    }
  }

  /** `query.filter(keep).first()`: the first key of the scan whose row passes, if any. */
  function FirstMatch<K, V>(scan: seq<K>, table: map<K, V>, keep: V -> bool): (r: Option<K>)
    requires forall i :: 0 <= i < |scan| ==> scan[i] in table
    ensures r.Some? ==> r.value in table && keep(table[r.value])
    ensures r.None? <==> forall i :: 0 <= i < |scan| ==> !keep(table[scan[i]])
  {
    if |scan| == 0 then None
    else if keep(table[scan[0]]) then Some(scan[0])
    else FirstMatch(scan[1..], table, keep)
  }

  /** Writing a key twice keeps only the second write. */
  lemma UpdateTwice<K, V>(m: map<K, V>, k: K, a: V, b: V)
    ensures m[k := a][k := b] == m[k := b]
  {
  }

  /** `[x for x in rows if keep(x)]`: the rows that pass, in their original order. */
  function Filter<V(!new)>(rows: seq<V>, keep: V -> bool): (r: seq<V>)
    ensures forall x :: x in r <==> x in rows && keep(x)
    ensures |r| <= |rows|
  {
    if |rows| == 0 then []
    else if keep(rows[0]) then [rows[0]] + Filter(rows[1..], keep)
    else Filter(rows[1..], keep)
  }

  /**
   * Filtering keeps the order of the rows: the result takes its rows from strictly increasing
   * positions `idx` of `rows`.
   */
  lemma {:induction false} FilterKeepsOrder<V(!new)>(rows: seq<V>, keep: V -> bool) returns (idx: seq<int>)
    ensures |idx| == |Filter(rows, keep)|
    ensures forall j :: 0 <= j < |idx| ==> 0 <= idx[j] < |rows| && rows[idx[j]] == Filter(rows, keep)[j]
    ensures forall j, k :: 0 <= j < k < |idx| ==> idx[j] < idx[k]
  {
    if |rows| == 0 {
      idx := [];
    } else {
      var tail := FilterKeepsOrder(rows[1..], keep);
      var shifted := seq(|tail|, j requires 0 <= j < |tail| => tail[j] + 1);
      if keep(rows[0]) {
        idx := [0] + shifted;
      } else {
        idx := shifted;
      }
    }
  }

  /** Filtering keeps exactly the multiplicities of the rows that pass. */
  lemma {:induction false} FilterMultiset<V(!new)>(rows: seq<V>, keep: V -> bool, x: V)
    ensures multiset(Filter(rows, keep))[x] == if keep(x) then multiset(rows)[x] else 0
  {
    if |rows| > 0 {
      FilterMultiset(rows[1..], keep, x);
      assert rows == [rows[0]] + rows[1..];
    }
  }

  /** `query.count()` for a filter: how many rows pass. */
  function Count<V>(rows: seq<V>, keep: V -> bool): (n: nat)
    ensures n <= |rows|
  {
    if |rows| == 0 then 0 else (if keep(rows[0]) then 1 else 0) + Count(rows[1..], keep)
  }

  /** The count is the length of the filtered list. */
  lemma {:induction false} CountIsFilterLength<V(!new)>(rows: seq<V>, keep: V -> bool)
    ensures Count(rows, keep) == |Filter(rows, keep)|
  {
    if |rows| > 0 {
      CountIsFilterLength(rows[1..], keep);
    }
  }

  /** Counting by one of two exclusive conditions adds the two counts. */
  lemma {:induction false} CountSplit<V(!new)>(rows: seq<V>, a: V -> bool, b: V -> bool, ab: V -> bool)
    requires forall x :: ab(x) <==> a(x) || b(x)
    requires forall x :: !(a(x) && b(x))
    ensures Count(rows, ab) == Count(rows, a) + Count(rows, b)
  {
    if |rows| > 0 {
      CountSplit(rows[1..], a, b, ab);
    }
  }

  /** Newest first: the keys never increase along the sequence. */
  predicate SortedDesc<V>(rows: seq<V>, key: V -> int)
  {
    forall i, j :: 0 <= i < j < |rows| ==> key(rows[i]) >= key(rows[j])
  }

  /** Places `x` before the first element whose key does not exceed its own. */
  function InsertDesc<V>(x: V, rows: seq<V>, key: V -> int): (r: seq<V>)
    requires SortedDesc(rows, key)
    ensures SortedDesc(r, key)
    ensures multiset(r) == multiset(rows) + multiset{x}
    ensures |r| == |rows| + 1 && (r[0] == x || (|rows| > 0 && r[0] == rows[0]))
  {
    if |rows| == 0 || key(rows[0]) <= key(x) then [x] + rows
    else
      var tail := InsertDesc(x, rows[1..], key);
      assert rows == [rows[0]] + rows[1..];
      assert key(tail[0]) <= key(rows[0]);
      assert forall j :: 0 <= j < |tail| ==> key(tail[j]) <= key(tail[0]);
      [rows[0]] + tail
  }

  /**
   * `ORDER BY created_at DESC`: the rows newest first. The order among equal timestamps is
   * the order of the input, which the database does not specify.
   */
  function SortDesc<V>(rows: seq<V>, key: V -> int): (r: seq<V>)
    ensures SortedDesc(r, key)
    ensures multiset(r) == multiset(rows)
  {
    if |rows| == 0 then []
    else
      assert rows == [rows[0]] + rows[1..];
      InsertDesc(rows[0], SortDesc(rows[1..], key), key)
  }

  /** `.offset(skip).limit(limit)`: at most `limit` rows, starting at position `skip`. */
  function Page<V>(rows: seq<V>, skip: nat, limit: nat): (r: seq<V>)
    ensures |r| <= limit
    ensures skip >= |rows| ==> r == []
    ensures forall i :: 0 <= i < |r| ==> skip + i < |rows| && r[i] == rows[skip + i]
  {
    if skip >= |rows| then []
    else if skip + limit >= |rows| then rows[skip..]
    else rows[skip..skip + limit]
  }

  /** A page is the whole window of the list it asks for: nothing is dropped inside it. */
  lemma PageLength<V>(rows: seq<V>, skip: nat, limit: nat)
    ensures |Page(rows, skip, limit)| == if skip >= |rows| then 0 else Min(limit, |rows| - skip)
  {
  }

  function Min(a: int, b: int): int
  {
    if a <= b then a else b
  }

  /** Every element of a page comes from the list. */
  lemma PageSubset<V>(rows: seq<V>, skip: nat, limit: nat, x: V)
    requires x in Page(rows, skip, limit)
    ensures x in rows
  {
    var r := Page(rows, skip, limit);
    var i :| 0 <= i < |r| && r[i] == x;
    assert rows[skip + i] == x;
  }

  /**
   * `query.filter(keep).order_by(key.desc()).limit(limit)`: the newest `limit` rows that
   * pass, newest first; when fewer than `limit` pass, all of them. Every passing row newer
   * than the last one kept is kept.
   */
  function Latest<V(!new)>(rows: seq<V>, keep: V -> bool, key: V -> int, limit: nat): (r: seq<V>)
    ensures |r| == Min(limit, Count(rows, keep))
    ensures SortedDesc(r, key)
    ensures forall x :: x in r ==> x in rows && keep(x)
    ensures multiset(r) <= multiset(Filter(rows, keep))
    ensures |r| < limit ==> forall x :: x in rows && keep(x) ==> x in r
    ensures |r| > 0 ==> forall x {:trigger keep(x), key(x)} :: x in rows && keep(x) && key(x) > key(r[|r| - 1]) ==> x in r
  {
    FirstPageOfSorted(rows, keep, key, SortDesc(Filter(rows, keep), key), limit);
    Page(SortDesc(Filter(rows, keep), key), 0, limit)
  }

  /** Everything `Latest` promises, for the first page of any newest-first reordering of the passing rows. */
  lemma FirstPageOfSorted<V(!new)>(rows: seq<V>, keep: V -> bool, key: V -> int, sorted: seq<V>, limit: nat)
    requires multiset(sorted) == multiset(Filter(rows, keep))
    requires SortedDesc(sorted, key)
    ensures var r := Page(sorted, 0, limit);
      && |r| == Min(limit, Count(rows, keep))
      && SortedDesc(r, key)
      && (forall x :: x in r ==> x in rows && keep(x))
      && multiset(r) <= multiset(Filter(rows, keep))
      && (|r| < limit ==> forall x :: x in rows && keep(x) ==> x in r)
      && (|r| > 0 ==> forall x {:trigger keep(x), key(x)} :: x in rows && keep(x) && key(x) > key(r[|r| - 1]) ==> x in r)
  {
    LatestPage(rows, keep, sorted, limit);
    PageSorted(sorted, key, limit);
    PageSubMultiset(rows, keep, sorted, limit);
    LatestNewest(rows, keep, key, sorted, limit);
  }

  /** The first page of a reordering of the filtered rows holds each row at most as often as it passes. */
  lemma PageSubMultiset<V(!new)>(rows: seq<V>, keep: V -> bool, sorted: seq<V>, limit: nat)
    requires multiset(sorted) == multiset(Filter(rows, keep))
    ensures multiset(Page(sorted, 0, limit)) <= multiset(Filter(rows, keep))
  {
    var r := Page(sorted, 0, limit);
    assert r == sorted[..|r|];
    assert sorted == r + sorted[|r|..];
    assert multiset(sorted) == multiset(r) + multiset(sorted[|r|..]);
  }

  /** In a newest-first list, a row newer than the one at `j` comes before it. */
  lemma NewerComesFirst<V>(rows: seq<V>, key: V -> int, i: nat, j: nat)
    requires SortedDesc(rows, key)
    requires i < |rows| && j < |rows| && key(rows[i]) > key(rows[j])
    ensures i < j
  {
  }

  /** A page of a newest-first list is newest first. */
  lemma PageSorted<V>(sorted: seq<V>, key: V -> int, limit: nat)
    requires SortedDesc(sorted, key)
    ensures SortedDesc(Page(sorted, 0, limit), key)
  {
    var r := Page(sorted, 0, limit);
    assert forall i :: 0 <= i < |r| ==> r[i] == sorted[i];
  }

  /** The first page of a newest-first reordering of the filtered rows holds the newest of them. */
  lemma LatestNewest<V(!new)>(rows: seq<V>, keep: V -> bool, key: V -> int, sorted: seq<V>, limit: nat)
    requires multiset(sorted) == multiset(Filter(rows, keep))
    requires SortedDesc(sorted, key)
    ensures var r := Page(sorted, 0, limit);
      |r| > 0 ==> forall x {:trigger keep(x), key(x)} :: x in rows && keep(x) && key(x) > key(r[|r| - 1]) ==> x in r
  {
    var r := Page(sorted, 0, limit);
    if |r| > 0 {
      forall x | x in rows && keep(x) && key(x) > key(r[|r| - 1])
        ensures x in r
      {
        NewerPassingRowKept(rows, keep, key, sorted, limit, x);
      }
    }
  }

  /** One passing row newer than the last row of the first page is on that page. */
  lemma NewerPassingRowKept<V(!new)>(rows: seq<V>, keep: V -> bool, key: V -> int, sorted: seq<V>, limit: nat, x: V)
    requires multiset(sorted) == multiset(Filter(rows, keep))
    requires SortedDesc(sorted, key)
    requires var r := Page(sorted, 0, limit); |r| > 0 && x in rows && keep(x) && key(x) > key(r[|r| - 1])
    ensures x in Page(sorted, 0, limit)
  {
    var r := Page(sorted, 0, limit);
    var n := |r|;
    var i := PassingRowIndex(rows, keep, sorted, x);
    assert r[n - 1] == sorted[n - 1];
    NewerComesFirst(sorted, key, i, n - 1);
    assert r[i] == x;
  }

  /** A passing row has a place in any reordering of the filtered rows. */
  lemma PassingRowIndex<V(!new)>(rows: seq<V>, keep: V -> bool, sorted: seq<V>, x: V) returns (i: nat)
    requires multiset(sorted) == multiset(Filter(rows, keep))
    requires x in rows && keep(x)
    ensures i < |sorted| && sorted[i] == x
  {
    assert x in multiset(Filter(rows, keep));
    assert x in sorted;
    i :| 0 <= i < |sorted| && sorted[i] == x;
  }

  /** No passing row that `Latest` leaves out is newer than any row it keeps. */
  lemma LatestLeavesOutOnlyOlder<V(!new)>(rows: seq<V>, keep: V -> bool, key: V -> int, limit: nat, x: V, y: V)
    requires x in rows && keep(x)
    requires x !in Latest(rows, keep, key, limit)
    requires y in Latest(rows, keep, key, limit)
    ensures key(y) >= key(x)
  {
    var r := Latest(rows, keep, key, limit);
    var j :| 0 <= j < |r| && r[j] == y;
    assert key(r[j]) >= key(r[|r| - 1]);
  }

  /** The first page of a reordering of the filtered rows. */
  lemma LatestPage<V(!new)>(rows: seq<V>, keep: V -> bool, sorted: seq<V>, limit: nat)
    requires multiset(sorted) == multiset(Filter(rows, keep))
    ensures var r := Page(sorted, 0, limit);
      && |r| == Min(limit, Count(rows, keep))
      && (forall x :: x in r ==> x in rows && keep(x))
      && (|r| < limit ==> forall x :: x in rows && keep(x) ==> x in r)
  {
    var kept := Filter(rows, keep);
    CountIsFilterLength(rows, keep);
    assert |sorted| == |multiset(sorted)| == |multiset(kept)| == |kept|;
    var r := Page(sorted, 0, limit);
    assert forall i :: 0 <= i < |r| ==> r[i] == sorted[i];
    forall x | x in r
      ensures x in kept
    {
      assert x in multiset(sorted);
    }
    if |r| < limit {
      assert r == sorted;
      forall x | x in rows && keep(x)
        ensures x in r
      {
        assert x in multiset(kept);
      }
    }
  }
}
