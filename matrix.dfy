/**
 * The fixed-size Matrix template: ROWS x COLUMNS cells kept in one flat
 * array, row after row. get(row, column) aborts the program when either
 * index is too large and otherwise yields a reference to the cell, through
 * which the caller may read or write it.
 */
module Matrices {
  import opened Wrappers

  /** The flat position of (row, column) in a matrix with the given number of columns, row-major. */
  function CellIndex(columns: nat, row: nat, column: nat): (i: nat) {
    row * columns + column
  }

  /** Row-major positions are in range and decode back to their row and column. */
  lemma CellIndexInRange(rows: nat, columns: nat, row: nat, column: nat)
    requires row < rows && column < columns
    ensures CellIndex(columns, row, column) < (row + 1) * columns <= rows * columns
    ensures CellIndex(columns, row, column) / columns == row
    ensures CellIndex(columns, row, column) % columns == column
  {
    assert row * columns + column < (row + 1) * columns <= rows * columns by {
      assert (row + 1) * columns == row * columns + columns;
      MultiplyMonotone(row + 1, rows, columns);
    }
    DivModUnique(row * columns + column, columns, row, column);
  }

  /** Distinct cells have distinct positions. */
  lemma CellIndexInjective(rows: nat, columns: nat, r1: nat, c1: nat, r2: nat, c2: nat)
    requires r1 < rows && c1 < columns && r2 < rows && c2 < columns
    requires (r1, c1) != (r2, c2)
    ensures CellIndex(columns, r1, c1) != CellIndex(columns, r2, c2)
  {
    CellIndexInRange(rows, columns, r1, c1);
    CellIndexInRange(rows, columns, r2, c2);
  }

  lemma MultiplyMonotone(a: nat, b: nat, c: nat)
    requires a <= b
    ensures a * c <= b * c
  {
  }

  /** Two quotient-remainder decompositions by the same divisor agree. */
  lemma QuotientUnique(d: nat, q1: nat, r1: nat, q2: nat, r2: nat)
    requires r1 < d && r2 < d && q1 * d + r1 == q2 * d + r2
    ensures q1 == q2 && r1 == r2
  {
    if q1 < q2 {
      assert (q1 + 1) * d == q1 * d + d;
      MultiplyMonotone(q1 + 1, q2, d);
    } else if q2 < q1 {
      assert (q2 + 1) * d == q2 * d + d;
      MultiplyMonotone(q2 + 1, q1, d);
    }
  }

  lemma DivModUnique(n: nat, d: nat, q: nat, r: nat)
    requires r < d && n == q * d + r
    ensures n / d == q && n % d == r
  {
    var q', r' := n / d, n % d;
    assert n == q' * d + r' && 0 <= r' < d;
    QuotientUnique(d, q, r, q', r');
  }

  class Matrix<T> {
    const rows: nat
    const columns: nat
    const data: array<T>

    ghost predicate Valid()
      reads this
    {
      data.Length == rows * columns
    }

    /** The value in (row, column): entry column of the row-th block of COLUMNS stored cells. */
    function Cell(row: nat, column: nat): (value: T)
      requires Valid() && row < rows && column < columns
      reads this, data
      ensures row * columns + columns <= data.Length
      ensures value == data[..][row * columns..row * columns + columns][column]
    {
      CellIndexInRange(rows, columns, row, column);
      data[CellIndex(columns, row, column)]
    }

    /** Matrix(): every cell holds the value-initialised T, given here as blank. */
    constructor Blank(rows: nat, columns: nat, blank: T)
      ensures Valid() && this.rows == rows && this.columns == columns && fresh(data)
      ensures forall i :: 0 <= i < data.Length ==> data[i] == blank
    {
      this.rows := rows;
      this.columns := columns;
      this.data := new T[rows * columns](_ => blank);
    }

    /** Matrix(initialData): the cells are a copy of initialData, row after row. */
    constructor FromArray(rows: nat, columns: nat, initialData: seq<T>)
      requires |initialData| == rows * columns
      ensures Valid() && this.rows == rows && this.columns == columns && fresh(data)
      ensures data[..] == initialData
    {
      this.rows := rows;
      this.columns := columns;
      this.data := new T[|initialData|](i requires 0 <= i < |initialData| => initialData[i]);
    }

    /**
     * get(row, column): None stands for the abort on a row or column that is
     * too large; otherwise the result is the flat position the returned
     * reference designates. Negative indices are not checked by the
     * template, and are excluded here.
     */
    method Get(row: int, column: int) returns (cell: Option<nat>)
      requires Valid() && row >= 0 && column >= 0
      ensures cell.None? <==> row >= rows || column >= columns
      ensures cell.Some? ==> cell.value < data.Length && data[cell.value] == Cell(row, column)
      ensures cell.Some? ==> cell.value / columns == row && cell.value % columns == column
    {
      if row >= rows || column >= columns {
        return None;
      }
      CellIndexInRange(rows, columns, row, column);
      return Some(row * columns + column);
    }

    /**
     * get(row, column) = value: the write through the returned reference.
     * On the abort nothing is written; otherwise exactly cell (row, column)
     * changes.
     */
    method SetThroughGet(row: int, column: int, value: T) returns (aborted: bool)
      requires Valid() && row >= 0 && column >= 0
      modifies data
      ensures aborted <==> row >= rows || column >= columns
      ensures aborted ==> data[..] == old(data[..])
      ensures !aborted ==> Cell(row, column) == value
      ensures !aborted ==> forall r, c :: 0 <= r < rows && 0 <= c < columns && (r, c) != (row, column) ==>
                             Cell(r, c) == old(Cell(r, c))
    {
      var cell := Get(row, column);
      if cell.None? {
        return true;
      }
      data[cell.value] := value;
      forall r, c | 0 <= r < rows && 0 <= c < columns && (r, c) != (row, column)
        ensures Cell(r, c) == old(Cell(r, c))
      {
        var i := CellIndex(columns, r, c);
        CellIndexInRange(rows, columns, r, c);
        CellIndexInjective(rows, columns, r, c, row, column);
        assert data[i] == old(data[i]);
      }
      return false;
    }
  }
}
