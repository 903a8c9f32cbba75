/**
 * The tiling view: a read-only grid that repeats a borrowed base grid,
 * reading through a modulo remap of each coordinate. The view is a value
 * over the base's contents, so reading through it cannot change the base.
 */
module Tiled {
  import opened Grids
  import opened Wrappers

  newtype u8 = x: int | 0 <= x < 256

  datatype Unsupported = Unsupported(message: string)

  datatype TiledGrid = TiledGrid(grid: GridView, repeatX: u8, repeatY: u8)
  {
    /** `to_base` divides by the base dimensions, so it needs them nonzero. */
    predicate Readable()
    {
      grid.Valid() && grid.rows > 0 && grid.cols > 0
    }

    /** `repeatX` scales the row count and `repeatY` the column count. */
    function NumRows(): (n: nat)
      ensures grid.rows > 0 ==> n % grid.rows == 0 && n / grid.rows == repeatX as nat
    {
      var n := repeatX as nat * grid.rows;
      if grid.rows > 0 then DivModUnique(n, grid.rows, repeatX as nat, 0); n else n
    }

    function NumCols(): (n: nat)
      ensures grid.cols > 0 ==> n % grid.cols == 0 && n / grid.cols == repeatY as nat
    {
      var n := repeatY as nat * grid.cols;
      if grid.cols > 0 then DivModUnique(n, grid.cols, repeatY as nat, 0); n else n
    }

    function ToBase(row: nat, col: nat): (base: (nat, nat))
      requires Readable()
      ensures grid.InBounds(base.0, base.1)
      ensures base.0 == row - (row / grid.rows) * grid.rows
      ensures base.1 == col - (col / grid.cols) * grid.cols
    {
      (row % grid.rows, col % grid.cols)
    }

    /** Any coordinate is read, with no check against the view's own size; the view shows only base cells. */
    function Cell(row: nat, col: nat): (v: Color)
      requires Readable()
      ensures exists r, c :: grid.InBounds(r, c) && v == grid.Cell(r, c)
    {
      var base := ToBase(row, col);
      grid.Cell(base.0, base.1)
    }

    function SetCell(row: nat, col: nat, value: Color): (r: Result<TiledGrid, Unsupported>)
      ensures r.Failure?
    {
      Failure(Unsupported("TiledGrid is not mutable"))
    }

    function Clear(): (r: Result<TiledGrid, Unsupported>)
      ensures r.Failure?
    {
      Failure(Unsupported("TiledGrid is not mutable"))
    }
  }

  function New(grid: GridView): (t: TiledGrid)
    ensures t.grid == grid
    ensures t.NumRows() == 3 * grid.rows && t.NumCols() == 3 * grid.cols
  {
    TiledGrid(grid, 3, 3)
  }

  lemma ModShift(x: nat, n: nat)
    requires n > 0
    ensures (x + n) % n == x % n
  {
    var q, r := x / n, x % n;
    assert x + n == (q + 1) * n + r;
    DivModUnique(x + n, n, q + 1, r);
  }

  /** Within the first tile the view reads the base unchanged. */
  lemma CellInFirstTile(t: TiledGrid, row: nat, col: nat)
    requires t.Readable() && t.grid.InBounds(row, col)
    ensures t.Cell(row, col) == t.grid.Cell(row, col)
  {
    DivModUnique(row, t.grid.rows, 0, row);
    DivModUnique(col, t.grid.cols, 0, col);
  }

  /** Moving one base height down reads the same cell. */
  lemma {:induction false} CellPeriodicInRows(t: TiledGrid, row: nat, col: nat)
    requires t.Readable()
    ensures t.Cell(row + t.grid.rows, col) == t.Cell(row, col)
  {
    ModShift(row, t.grid.rows);
  }

  /** Moving one base width right reads the same cell. */
  lemma {:induction false} CellPeriodicInCols(t: TiledGrid, row: nat, col: nat)
    requires t.Readable()
    ensures t.Cell(row, col + t.grid.cols) == t.Cell(row, col)
  {
    ModShift(col, t.grid.cols);
  }

  /** Moving any whole number of tiles in either direction reads the same cell. */
  lemma {:induction false} CellPeriodic(t: TiledGrid, row: nat, col: nat, i: nat, j: nat)
    requires t.Readable()
    ensures t.Cell(row + i * t.grid.rows, col + j * t.grid.cols) == t.Cell(row, col)
  {
    if i > 0 {
      CellPeriodic(t, row, col, i - 1, j);
      CellPeriodicInRows(t, row + (i - 1) * t.grid.rows, col + j * t.grid.cols);
      assert row + (i - 1) * t.grid.rows + t.grid.rows == row + i * t.grid.rows;
    } else if j > 0 {
      CellPeriodic(t, row, col, 0, j - 1);
      CellPeriodicInCols(t, row, col + (j - 1) * t.grid.cols);
      assert col + (j - 1) * t.grid.cols + t.grid.cols == col + j * t.grid.cols;
    }
  }

  /**
   * Over a 3x3 base, the view `New` builds is 9x9 and reads base (1, 1) at
   * (4, 1). The same remap with both factors 2, which `New` never builds,
   * gives a 6x6 view with the same read.
   */
  lemma TilingOfThreeByThree(base: GridView)
    requires base.Valid() && base.rows == 3 && base.cols == 3
    ensures New(base).NumRows() == 9 && New(base).NumCols() == 9
    ensures New(base).Cell(4, 1) == base.Cell(1, 1)
    ensures TiledGrid(base, 2, 2).NumRows() == 6 && TiledGrid(base, 2, 2).NumCols() == 6
    ensures TiledGrid(base, 2, 2).Cell(4, 1) == base.Cell(1, 1)
  {
    CellPeriodicInRows(New(base), 1, 1);
    CellPeriodicInRows(TiledGrid(base, 2, 2), 1, 1);
  }
}
