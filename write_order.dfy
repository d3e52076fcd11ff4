/**
 * The order in which the nested fill loops write the cells of a
 * `(rows, cols)` table: row by row, and within a row column by column.
 */
module WriteOrder {

  /** A cell `(t, i)`: time step `t`, section `i`. */
  type Cell = (nat, nat)

  /** `a` is written before `b` in row-major order. */
  predicate Precedes(a: Cell, b: Cell) {
    a.0 < b.0 || (a.0 == b.0 && a.1 < b.1)
  }

  /** The cells `(t, 0), …, (t, cols - 1)` that one pass of the inner loop writes. */
  function RowCells(t: nat, cols: nat): (cells: seq<Cell>)
    ensures |cells| == cols
    ensures forall b :: 0 <= b < cols ==> cells[b] == (t, b)
  {
    seq(cols, b requires 0 <= b => (t, b))
  }

  /** The inner loop's log grows by one cell per pass. */
  lemma RowCellsGrow(t: nat, cols: nat)
    ensures RowCells(t, cols + 1) == RowCells(t, cols) + [(t, cols)]
  {
    assert forall b :: 0 <= b < cols + 1 ==> RowCells(t, cols + 1)[b] == (RowCells(t, cols) + [(t, cols)])[b];
  }

  /** The cells of rows `0 .. rows - 1`, in the order the nested loops write them. */
  function CellsBefore(rows: nat, cols: nat): seq<Cell> {
    if rows == 0 then [] else CellsBefore(rows - 1, cols) + RowCells(rows - 1, cols)
  }

  /**
   * The nested loops write exactly the cells of the table: a cell is written
   * iff it lies inside the table, and the sequence of writes is strictly
   * increasing in row-major order, so no cell is written twice.
   */
  lemma {:induction false} CellsBeforeEnumerates(rows: nat, cols: nat)
    ensures |CellsBefore(rows, cols)| == rows * cols
    ensures forall c: Cell :: c in CellsBefore(rows, cols) <==> c.0 < rows && c.1 < cols
    ensures forall j, k :: 0 <= j < k < |CellsBefore(rows, cols)| ==>
              Precedes(CellsBefore(rows, cols)[j], CellsBefore(rows, cols)[k])
  {
    if rows > 0 {
      CellsBeforeEnumerates(rows - 1, cols);
      var front, row := CellsBefore(rows - 1, cols), RowCells(rows - 1, cols);
      assert CellsBefore(rows, cols) == front + row;
      assert |front + row| == (rows - 1) * cols + cols == rows * cols;
      forall c: Cell ensures c in front + row <==> c.0 < rows && c.1 < cols {
        if c.0 == rows - 1 && c.1 < cols {
          assert row[c.1] == c;
        }
      }
      forall j, k | 0 <= j < k < |front + row|
        ensures Precedes((front + row)[j], (front + row)[k])
      {
        if k < |front| {
        } else if j < |front| {
          assert front[j] in front;
        } else {
          assert (front + row)[j] == row[j - |front|];
        }
      }
    }
  }

  /** A cell inside the table is written exactly once. */
  lemma WrittenOnce(rows: nat, cols: nat, j: nat, k: nat)
    requires j < k < |CellsBefore(rows, cols)|
    ensures CellsBefore(rows, cols)[j] != CellsBefore(rows, cols)[k]
  {
    CellsBeforeEnumerates(rows, cols);
    assert Precedes(CellsBefore(rows, cols)[j], CellsBefore(rows, cols)[k]);
  }
}
