/**
 * `find(filter).sort(key)`: the rows of a table that satisfy a filter, each
 * once, ordered by a sort key. Rows with equal keys may come in any order.
 */
module Listing {
  import opened ObjectIds

  /** `before` is a total preorder: any two rows compare, and comparison chains. */
  ghost predicate TotalPreorder<T(!new)>(before: (T, T) -> bool)
  {
    (forall a, b :: before(a, b) || before(b, a))
    && (forall a, b, c :: before(a, b) && before(b, c) ==> before(a, c))
  }

  predicate SortedBy<T>(rows: seq<(Oid, T)>, before: (T, T) -> bool)
  {
    forall i, j :: 0 <= i < j < |rows| ==> before(rows[i].1, rows[j].1)
  }

  predicate DistinctIds<T>(rows: seq<(Oid, T)>)
  {
    forall i, j :: 0 <= i < j < |rows| ==> rows[i].0 != rows[j].0
  }

  /** The rows are exactly the records of `table` that `keep` accepts, each with its id. */
  predicate Selects<T(==)>(rows: seq<(Oid, T)>, table: map<Oid, T>, keep: T -> bool)
  {
    (forall i :: 0 <= i < |rows| ==> rows[i].0 in table && table[rows[i].0] == rows[i].1 && keep(rows[i].1))
    && (forall k :: k in table && keep(table[k]) ==> (k, table[k]) in rows)
  }

  /** Places `x` before the first row it sorts before. */
  function Insert<T(==,!new)>(rows: seq<(Oid, T)>, x: (Oid, T), before: (T, T) -> bool): (r: seq<(Oid, T)>)
    ensures |r| == |rows| + 1
    ensures forall y :: y in r <==> y in rows || y == x
  {
    if rows == [] then [x]
    else if before(x.1, rows[0].1) then [x] + rows
    else
      assert rows == [rows[0]] + rows[1..];
      [rows[0]] + Insert(rows[1..], x, before)
  }

  /** A selection depends on the filter only through its verdict on each record. */
  lemma SelectsSameFilter<T>(rows: seq<(Oid, T)>, table: map<Oid, T>, keep: T -> bool, keep': T -> bool)
    requires forall k :: k in table ==> keep(table[k]) == keep'(table[k])
    requires Selects(rows, table, keep)
    ensures Selects(rows, table, keep')
  {
  }

  lemma {:induction false} InsertSorted<T(!new)>(rows: seq<(Oid, T)>, x: (Oid, T), before: (T, T) -> bool)
    requires TotalPreorder(before) && SortedBy(rows, before)
    ensures SortedBy(Insert(rows, x, before), before)
  {
    if rows != [] && !before(x.1, rows[0].1) {
      InsertSorted(rows[1..], x, before);
      var tail := Insert(rows[1..], x, before);
      assert before(rows[0].1, x.1);
      forall y | y in tail ensures before(rows[0].1, y.1) {
        if y != x {
          var i :| 0 <= i < |rows[1..]| && rows[1..][i] == y;
          assert rows[1 + i] == y;
        }
      }
      var r := [rows[0]] + tail;
      forall i, j | 0 <= i < j < |r| ensures before(r[i].1, r[j].1) {
        if i > 0 {
          assert r[i] == tail[i - 1] && r[j] == tail[j - 1];
        } else {
          assert r[j] == tail[j - 1];
          assert r[j] in tail;
        }
      }
    }
  }

  /** A row whose id no row has can go in front of distinct rows. */
  lemma ConsDistinct<T>(y: (Oid, T), rows: seq<(Oid, T)>)
    requires DistinctIds(rows)
    requires forall z :: z in rows ==> z.0 != y.0
    ensures DistinctIds([y] + rows)
  {
    var r := [y] + rows;
    forall i, j | 0 <= i < j < |r| ensures r[i].0 != r[j].0 {
      assert r[j] == rows[j - 1];
      if i > 0 {
        assert r[i] == rows[i - 1];
      } else {
        assert r[j] in rows;
      }
    }
  }

  lemma {:induction false} InsertDistinct<T(!new)>(rows: seq<(Oid, T)>, x: (Oid, T), before: (T, T) -> bool)
    requires DistinctIds(rows)
    requires forall y :: y in rows ==> y.0 != x.0
    ensures DistinctIds(Insert(rows, x, before))
  {
    if rows == [] {
    } else if before(x.1, rows[0].1) {
      ConsDistinct(x, rows);
    } else {
      assert DistinctIds(rows[1..]) by {
        forall i, j | 0 <= i < j < |rows[1..]| ensures rows[1..][i].0 != rows[1..][j].0 {
          assert rows[1..][i] == rows[i + 1] && rows[1..][j] == rows[j + 1];
        }
      }
      forall y | y in rows[1..] ensures y in rows {
      }
      InsertDistinct(rows[1..], x, before);
      var tail := Insert(rows[1..], x, before);
      forall y | y in tail ensures y.0 != rows[0].0 {
        if y != x {
          var m :| 0 <= m < |rows[1..]| && rows[1..][m] == y;
          assert rows[m + 1] == y;
        } else {
          assert rows[0] in rows;
        }
      }
      ConsDistinct(rows[0], tail);
    }
  }

  /** The matching rows of `table`, each once, sorted by `before`. */
  method SelectSorted<T(==,!new)>(table: map<Oid, T>, keep: T -> bool, before: (T, T) -> bool)
    returns (rows: seq<(Oid, T)>)
    requires TotalPreorder(before)
    ensures Selects(rows, table, keep)
    ensures DistinctIds(rows) && SortedBy(rows, before)
  {
    rows := [];
    var todo := table.Keys;
    while todo != {}
      invariant todo <= table.Keys
      invariant forall y :: y in rows ==> y.0 in table && y.0 !in todo && table[y.0] == y.1 && keep(y.1)
      invariant forall k :: k in table && k !in todo && keep(table[k]) ==> (k, table[k]) in rows
      invariant DistinctIds(rows) && SortedBy(rows, before)
      decreases todo
    {
      var k :| k in todo;
      if keep(table[k]) {
        InsertSorted(rows, (k, table[k]), before);
        InsertDistinct(rows, (k, table[k]), before);
        rows := Insert(rows, (k, table[k]), before);
      }
      todo := todo - {k};
    }
    assert forall i :: 0 <= i < |rows| ==> rows[i] in rows;
  }
}
