/**
 * `WrapGridView` (View/WrapGridView.swift): lays `count` items out row by row
 * in `numberOfColumns` columns; slot (row, column) shows item
 * `row * numberOfColumns + column` when that index exists and a spacer otherwise.
 */
module WrapGrid {
  import opened Outcomes

  /** Integer division bounds: `n / c` is the number of whole `c`-blocks in `n`. */
  lemma DivBounds(n: nat, c: nat)
    requires c > 0
    ensures (n / c) * c <= n < (n / c + 1) * c
  {
  }

  /** Euclidean division splits `n` into whole `c`-blocks and a remainder below `c`. */
  lemma DivMod(n: nat, c: nat)
    requires c > 0
    ensures n == (n / c) * c + n % c && n % c < c
  {
  }

  /** Multiplying by a natural number keeps the order. */
  lemma MulMonotone(a: nat, b: nat, c: nat)
    requires a <= b
    ensures a * c <= b * c
  {
  }

  /** A slot in an earlier row has a smaller index than any slot of a later row. */
  lemma EarlierRowSmallerIndex(columns: nat, r1: nat, c1: nat, r2: nat, c2: nat)
    requires c1 < columns
    ensures r1 < r2 ==> r1 * columns + c1 < r2 * columns + c2
  {
    if r1 < r2 {
      MulMonotone(r1 + 1, r2, columns);
    }
  }

  /** Rows of equal width can only hold the same index in the same row and column. */
  lemma SlotInjective(columns: nat, r1: nat, c1: nat, r2: nat, c2: nat)
    requires c1 < columns && c2 < columns
    requires r1 * columns + c1 == r2 * columns + c2
    ensures r1 == r2 && c1 == c2
  {
    EarlierRowSmallerIndex(columns, r1, c1, r2, c2);
    EarlierRowSmallerIndex(columns, r2, c2, r1, c1);
  }

  /** `numberOfRows`: `(count + columns - 1) / columns`, the ceiling of count over columns. */
  function NumberOfRows(count: nat, columns: nat): (rows: nat)
    requires columns > 0
    ensures count == 0 ==> rows == 0
    ensures count > 0 ==> (rows - 1) * columns < count <= rows * columns
  {
    DivBounds(count + columns - 1, columns);
    (count + columns - 1) / columns
  }

  /** What slot (row, column) shows: the item's index, or `None` for a spacer. */
  function SlotItem(count: nat, columns: nat, row: nat, column: nat): Option<nat>
  {
    var index := row * columns + column;
    if index < count then Some(index) else None
  }

  /** Item `i` is shown in exactly one slot of the grid: row `i / columns`, column `i % columns`. */
  lemma EachItemOnce(count: nat, columns: nat, i: nat)
    requires columns > 0 && i < count
    ensures i / columns < NumberOfRows(count, columns)
    ensures SlotItem(count, columns, i / columns, i % columns) == Some(i)
    ensures forall r: nat, c: nat :: c < columns && SlotItem(count, columns, r, c) == Some(i) ==>
              r == i / columns && c == i % columns
  {
    var rows := NumberOfRows(count, columns);
    var row, column := i / columns, i % columns;
    DivMod(i, columns);
    assert SlotItem(count, columns, row, column) == Some(i);
    EarlierRowSmallerIndex(columns, rows, 0, row, column);
    forall r: nat, c: nat | c < columns && SlotItem(count, columns, r, c) == Some(i)
      ensures r == row && c == column
    {
      SlotInjective(columns, r, c, row, column);
    }
  }

  /** Spacers fill out only the last row: every earlier row is full. */
  lemma SpacersOnlyInLastRow(count: nat, columns: nat, row: nat, column: nat)
    requires columns > 0 && column < columns
    requires row < NumberOfRows(count, columns)
    requires SlotItem(count, columns, row, column) == None
    ensures row == NumberOfRows(count, columns) - 1
  {
    var rows := NumberOfRows(count, columns);
    EarlierRowSmallerIndex(columns, row, column, rows - 1, 0);
  }
}
