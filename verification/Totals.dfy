// Sums over the rows of a table, and how one update moves them.

module Totals {
  import opened Records

  type Weight = Row -> int

  ghost function Total(rows: Rows, w: Weight): int
    decreases |rows|
  {
    if rows == map[] then 0
    else
      var id :| id in rows;
      Smaller(rows, id);
      w(rows[id]) + Total(rows - {id}, w)
  }

  lemma Smaller(rows: Rows, id: Id)
    requires id in rows
    ensures |rows - {id}| == |rows| - 1
  {
    assert (rows - {id}).Keys == rows.Keys - {id};
    assert |rows.Keys| == |rows| && |(rows - {id}).Keys| == |rows - {id}|;
  }

  // The order in which rows are visited does not matter.
  lemma {:induction false} TotalSplit(rows: Rows, id: Id, w: Weight)
    requires id in rows
    ensures Total(rows, w) == w(rows[id]) + Total(rows - {id}, w)
    decreases |rows|
  {
    var pick :| pick in rows && Total(rows, w) == w(rows[pick]) + Total(rows - {pick}, w);
    if pick != id {
      Smaller(rows, pick);
      Smaller(rows, id);
      TotalSplit(rows - {pick}, id, w);
      TotalSplit(rows - {id}, pick, w);
      assert (rows - {pick}) - {id} == (rows - {id}) - {pick};
    }
  }

  lemma TotalInsert(rows: Rows, id: Id, row: Row, w: Weight)
    requires id !in rows
    ensures Total(rows[id := row], w) == Total(rows, w) + w(row)
  {
    TotalSplit(rows[id := row], id, w);
    assert rows[id := row] - {id} == rows;
  }

  lemma TotalUpdate(rows: Rows, id: Id, row: Row, w: Weight)
    requires id in rows
    ensures Total(rows[id := row], w) == Total(rows, w) - w(rows[id]) + w(row)
    ensures rows[id := row] - {id} == rows - {id}
  {
    TotalSplit(rows, id, w);
    TotalSplit(rows[id := row], id, w);
    assert rows[id := row] - {id} == rows - {id};
  }

  lemma {:induction false} TotalMonotone(rows: Rows, rows': Rows, w: Weight)
    requires rows.Keys == rows'.Keys
    requires forall id :: id in rows ==> w(rows'[id]) <= w(rows[id])
    ensures Total(rows', w) <= Total(rows, w)
    decreases |rows|
  {
    if rows == map[] {
      assert rows' == map[];
    } else {
      var id :| id in rows;
      Smaller(rows, id);
      TotalSplit(rows, id, w);
      TotalSplit(rows', id, w);
      TotalMonotone(rows - {id}, rows' - {id}, w);
    }
  }

  lemma {:induction false} TotalBetween(rows: Rows, w: Weight, w': Weight)
    requires forall id :: id in rows ==> w(rows[id]) <= w'(rows[id])
    ensures Total(rows, w) <= Total(rows, w')
    decreases |rows|
  {
    if rows != map[] {
      var id :| id in rows;
      Smaller(rows, id);
      TotalSplit(rows, id, w);
      TotalSplit(rows, id, w');
      TotalBetween(rows - {id}, w, w');
    }
  }

  lemma TotalEqual(rows: Rows, rows': Rows, w: Weight)
    requires rows.Keys == rows'.Keys
    requires forall id :: id in rows ==> w(rows'[id]) == w(rows[id])
    ensures Total(rows', w) == Total(rows, w)
  {
    TotalMonotone(rows, rows', w);
    TotalMonotone(rows', rows, w);
  }

  lemma {:induction false} TotalNonNegative(rows: Rows, w: Weight)
    requires forall id :: id in rows ==> w(rows[id]) >= 0
    ensures Total(rows, w) >= 0
    ensures forall id :: id in rows ==> w(rows[id]) <= Total(rows, w)
    decreases |rows|
  {
    forall id | id in rows
      ensures w(rows[id]) <= Total(rows, w) && Total(rows, w) >= 0
    {
      Smaller(rows, id);
      TotalSplit(rows, id, w);
      TotalNonNegative(rows - {id}, w);
    }
  }

  lemma TotalZero(rows: Rows, w: Weight)
    requires forall id :: id in rows ==> w(rows[id]) == 0
    ensures Total(rows, w) == 0
  {
    if rows != map[] {
      var id :| id in rows;
      Smaller(rows, id);
      TotalSplit(rows, id, w);
      TotalZero(rows - {id}, w);
    }
  }
}
