/** Tables with a UNIQUE key, in insertion order, under INSERT OR IGNORE. */
module Tables {
  import opened Seqs

  predicate Has<R, K(==)>(table: seq<R>, key: R -> K, k: K) {
    exists i :: 0 <= i < |table| && key(table[i]) == k
  }

  ghost predicate Distinct<R, K>(table: seq<R>, key: R -> K) {
    forall i, j :: 0 <= i < j < |table| ==> key(table[i]) != key(table[j])
  }

  /** The first row with key `k`. */
  function Find<R, K(==)>(table: seq<R>, key: R -> K, k: K): (found: Option<R>)
    ensures found.Some? <==> Has(table, key, k)
    ensures found.Some? ==> found.value in table && key(found.value) == k
  {
    if |table| == 0 then None
    else
      var earlier := Find(table[..|table| - 1], key, k);
      if earlier.Some? || key(table[|table| - 1]) != k then earlier else Some(table[|table| - 1])
  }

  function Insert<R, K(==)>(table: seq<R>, key: R -> K, row: R): seq<R> {
    if Has(table, key, key(row)) then table else table + [row]
  }

  /** The rows that are not ignored when `rows` are inserted one by one. */
  function Kept<R, K(==)>(table: seq<R>, key: R -> K, rows: seq<R>): (kept: seq<R>)
    ensures |kept| <= |rows|
  {
    if |rows| == 0 then []
    else
      var kept, row := Kept(table, key, rows[..|rows| - 1]), rows[|rows| - 1];
      if Has(table + kept, key, key(row)) then kept else kept + [row]
  }

  function InsertAll<R, K(==)>(table: seq<R>, key: R -> K, rows: seq<R>): seq<R> {
    table + Kept(table, key, rows)
  }

  /** Keys that are new to the table and pairwise different. */
  ghost predicate Fresh<R, K>(table: seq<R>, key: R -> K, rows: seq<R>) {
    && Distinct(rows, key)
    && forall i, j :: 0 <= i < |table| && 0 <= j < |rows| ==> key(table[i]) != key(rows[j])
  }

  lemma InsertOneMore<R, K>(table: seq<R>, key: R -> K, rows: seq<R>, row: R)
    ensures InsertAll(table, key, rows + [row]) == Insert(InsertAll(table, key, rows), key, row)
    ensures InsertAll(table, key, []) == table
  {
  }

  lemma {:induction false} InsertAllDistinct<R, K>(table: seq<R>, key: R -> K, rows: seq<R>)
    requires Distinct(table, key)
    ensures Distinct(InsertAll(table, key, rows), key)
  {
    if |rows| > 0 {
      var init, row := rows[..|rows| - 1], rows[|rows| - 1];
      InsertAllDistinct(table, key, init);
      assert rows == init + [row];
      InsertOneMore(table, key, init, row);
    }
  }

  lemma FindLast<R, K>(table: seq<R>, row: R, key: R -> K, k: K)
    ensures Find(table + [row], key, k)
         == if Has(table, key, k) then Find(table, key, k) else if key(row) == k then Some(row) else None
  {
  }

  /** First write wins: old rows stay, and of the offered rows each key's first one counts. */
  lemma {:induction false} FindInsertAll<R, K>(table: seq<R>, key: R -> K, rows: seq<R>, k: K)
    ensures Find(InsertAll(table, key, rows), key, k)
         == if Has(table, key, k) then Find(table, key, k) else Find(rows, key, k)
  {
    if |rows| > 0 {
      var init, row := rows[..|rows| - 1], rows[|rows| - 1];
      FindInsertAll(table, key, init, k);
      assert rows == init + [row];
      FindLast(init, row, key, k);
      FindLast(InsertAll(table, key, init), row, key, k);
      InsertOneMore(table, key, init, row);
    } else {
      assert InsertAll(table, key, rows) == table;
    }
  }

  lemma FreshOneMore<R, K>(table: seq<R>, key: R -> K, init: seq<R>, row: R)
    ensures Fresh(table, key, init + [row]) <==>
      Fresh(table, key, init) && !Has(table, key, key(row)) && !Has(init, key, key(row))
  {
    var rows := init + [row];
    assert rows[|init|] == row;
    assert forall i :: 0 <= i < |init| ==> rows[i] == init[i];
    if Has(table, key, key(row)) {
      var i :| 0 <= i < |table| && key(table[i]) == key(row);
      assert key(table[i]) == key(rows[|init|]);
    }
    if Has(init, key, key(row)) {
      var i :| 0 <= i < |init| && key(init[i]) == key(row);
      assert key(rows[i]) == key(rows[|init|]);
    }
  }

  /** An offered key is in the table afterwards, whether its row was ignored or not. */
  lemma FirstKeyIsThere<R, K>(table: seq<R>, key: R -> K, rows: seq<R>)
    requires rows != []
    ensures Has(InsertAll(table, key, rows), key, key(rows[0]))
  {
    FindInsertAll(table, key, rows, key(rows[0]));
    assert Has(rows, key, key(rows[0]));
  }

  lemma HasConcat<R, K>(a: seq<R>, b: seq<R>, key: R -> K, k: K)
    ensures Has(a + b, key, k) <==> Has(a, key, k) || Has(b, key, k)
  {
    if Has(a, key, k) {
      var i :| 0 <= i < |a| && key(a[i]) == k;
      assert key((a + b)[i]) == k;
    }
    if Has(b, key, k) {
      var i :| 0 <= i < |b| && key(b[i]) == k;
      assert key((a + b)[|a| + i]) == k;
    }
  }

  /** Nothing is ignored exactly when every key is fresh. */
  lemma {:induction false} AllKeptIffFresh<R, K>(table: seq<R>, key: R -> K, rows: seq<R>)
    ensures |Kept(table, key, rows)| == |rows| <==> Fresh(table, key, rows)
    ensures Fresh(table, key, rows) ==> Kept(table, key, rows) == rows
  {
    if |rows| > 0 {
      hide Fresh, Has;
      var init, row := rows[..|rows| - 1], rows[|rows| - 1];
      assert rows == init + [row];
      AllKeptIffFresh(table, key, init);
      FreshOneMore(table, key, init, row);
      HasConcat(table, Kept(table, key, init), key, key(row));
    }
  }

  lemma {:induction false} CountByKey<R, K>(table: seq<R>, key: R -> K, r: R)
    requires Distinct(table, key)
    ensures multiset(table)[r] == if Find(table, key, key(r)) == Some(r) then 1 else 0
  {
    if |table| > 0 {
      var init, last := table[..|table| - 1], table[|table| - 1];
      assert table == init + [last];
      CountByKey(init, key, r);
      if last == r {
        assert !Has(init, key, key(r));
      }
    }
  }

  /** Two tables that answer every key alike hold the same rows. */
  lemma SameAnswersSameRows<R, K(!new)>(a: seq<R>, b: seq<R>, key: R -> K)
    requires Distinct(a, key) && Distinct(b, key)
    requires forall k :: Find(a, key, k) == Find(b, key, k)
    ensures multiset(a) == multiset(b)
  {
    forall r ensures multiset(a)[r] == multiset(b)[r] {
      CountByKey(a, key, r);
      CountByKey(b, key, r);
    }
  }
}
