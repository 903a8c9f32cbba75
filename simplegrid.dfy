/**
 * The dense grid: a row-major store of exactly `height * width` cells with
 * stride `width`, whose reads and writes fail fast outside the grid.
 */
module SimpleGrids {
  import opened Grids

  class SimpleGrid {
    // The identifier, the dimensions and the store itself are never
    // reassigned after construction; only the store's slots change.
    const id: GridId
    const height: nat
    const width: nat
    const cells: array<Color>

    predicate Valid()
    {
      cells.Length == height * width
    }

    constructor (id: GridId, height: nat, width: nat)
      ensures Valid() && fresh(cells)
      ensures GridIdent() == id && NumRows() == height && NumCols() == width
      ensures Contents() == BlankCells(height * width)
      ensures forall r, c :: InBounds(r, c) ==> Cell(r, c) == DefaultColor()
    {
      this.id := id;
      this.height := height;
      this.width := width;
      cells := new Color[height * width](_ => DefaultColor());
      new;
      forall r, c | InBounds(r, c) ensures Cell(r, c) == DefaultColor() {
        RowMajorInRange(r, c, width, height);
      }
    }

    /** `bounds_check` passes exactly for these coordinates; it panics for all others. */
    function InBounds(row: nat, col: nat): (ok: bool)
      ensures !ok <==> row >= height || col >= width
    {
      row < NumRows() && col < NumCols()
    }

    function CoordsToIndex(row: nat, col: nat): (index: nat)
      requires Valid() && InBounds(row, col)
      ensures index < cells.Length
      ensures forall r, c :: InBounds(r, c) && RowMajor(r, c, width) == index ==> r == row && c == col
    {
      RowMajorInRange(row, col, width, height);
      forall r, c | InBounds(r, c) && RowMajor(r, c, width) == RowMajor(row, col, width)
        ensures r == row && c == col
      {
        RowMajorInjective(r, c, row, col, width);
      }
      RowMajor(row, col, width)
    }

    /** The identifier given at construction; `id` is never reassigned. */
    function GridIdent(): (gridId: GridId)
      ensures gridId == id
    {
      id
    }

    /** The row count; rows of `width` cells fill the store exactly. */
    function NumRows(): (n: nat)
      ensures Valid() ==> n * width == cells.Length
    {
      height
    }

    /** The column count, the stride between rows; `height` rows of it fill the store exactly. */
    function NumCols(): (n: nat)
      ensures Valid() ==> height * n == cells.Length
    {
      width
    }

    function Contents(): seq<Color>
      reads cells
    {
      cells[..]
    }

    function Cell(row: nat, col: nat): (v: Color)
      requires Valid() && InBounds(row, col)
      reads cells
      ensures v == View().Cell(row, col)
    {
      cells[CoordsToIndex(row, col)]
    }

    /** The grid as its readers see it. */
    function View(): (v: GridView)
      requires Valid()
      reads cells
      ensures v.Valid() && v.rows == NumRows() && v.cols == NumCols()
    {
      GridView(height, width, cells[..])
    }

    method SetCell(row: nat, col: nat, value: Color)
      requires Valid() && InBounds(row, col)
      modifies cells
      ensures View() == old(View()).Set(row, col, value)
      ensures Cell(row, col) == value
      ensures forall r, c :: InBounds(r, c) && (r != row || c != col) ==> Cell(r, c) == old(Cell(r, c))
    {
      var index := CoordsToIndex(row, col);
      cells[index] := value;
    }

    method Clear()
      requires Valid()
      modifies cells
      ensures View() == old(View()).Cleared()
      ensures forall r, c :: InBounds(r, c) ==> Cell(r, c) == DefaultColor()
    {
      for index := 0 to cells.Length
        invariant forall k :: 0 <= k < index ==> cells[k] == DefaultColor()
      {
        cells[index] := DefaultColor();
      }
      assert cells[..] == BlankCells(cells.Length);
    }
  }
}
