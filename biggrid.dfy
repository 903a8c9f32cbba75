/**
 * The fixed-capacity grid: a store sized for the largest supported grid,
 * addressed with the maximum width as its stride, so that a cell keeps its
 * slot whatever the logical height and width are.
 */
module BigGrids {
  import opened Grids

  /** The largest supported grid; the values are fixed elsewhere and not part of this model. */
  const MaxGridWidth: nat
  const MaxGridHeight: nat

  function Capacity(): nat
  {
    MaxGridWidth * MaxGridHeight
  }

  /** The backing slot of `(row, col)`: independent of any logical size. */
  function Slot(row: nat, col: nat): (slot: nat)
    ensures col < MaxGridWidth ==> slot / MaxGridWidth == row && slot % MaxGridWidth == col
  {
    var slot := RowMajor(row, col, MaxGridWidth);
    if col < MaxGridWidth then DivModUnique(slot, MaxGridWidth, row, col); slot else slot
  }

  class BigGrid {
    const height: nat
    const width: nat
    const cells: array<Color>

    predicate Valid()
    {
      cells.Length == Capacity()
    }

    constructor (height: nat, width: nat)
      ensures Valid() && fresh(cells)
      ensures NumRows() == height && NumCols() == width
      ensures Contents() == BlankCells(Capacity())
    {
      this.height := height;
      this.width := width;
      cells := new Color[Capacity()](_ => DefaultColor());
    }

    /** The logical height, fixed at construction whatever is written or cleared. */
    function NumRows(): (n: nat)
      ensures n == height
    {
      height
    }

    /** The logical width, fixed at construction whatever is written or cleared. */
    function NumCols(): (n: nat)
      ensures n == width
    {
      width
    }

    /**
     * No logical-window check is made: the only failure is a slot past the
     * end of the store.
     */
    predicate Addressable(row: nat, col: nat)
    {
      Slot(row, col) < cells.Length
    }

    function Contents(): seq<Color>
      reads cells
    {
      cells[..]
    }

    /** Reads the slot of `(row, col)`, never consulting the logical height or width. */
    function Cell(row: nat, col: nat): (v: Color)
      requires Addressable(row, col)
      reads cells
      ensures v == Contents()[Slot(row, col)]
    {
      cells[Slot(row, col)]
    }

    method SetCell(row: nat, col: nat, value: Color)
      requires Addressable(row, col)
      modifies cells
      ensures Contents() == old(Contents())[Slot(row, col) := value]
      ensures Cell(row, col) == value
    {
      var index := Slot(row, col);
      cells[index] := value;
    }

    /** Resets every slot of the store, including those outside the logical window. */
    method Clear()
      modifies cells
      ensures Contents() == BlankCells(cells.Length)
    {
      for index := 0 to cells.Length
        invariant forall k :: 0 <= k < index ==> cells[k] == DefaultColor()
      {
        cells[index] := DefaultColor();
      }
    }
  }

  /**
   * Every in-window coordinate of a grid up to the maximum size has a slot of
   * its own, so a write at one coordinate is read back at no other.
   */
  lemma SlotsDistinct(r1: nat, c1: nat, r2: nat, c2: nat)
    requires r1 < MaxGridHeight && c1 < MaxGridWidth
    requires r2 < MaxGridHeight && c2 < MaxGridWidth
    requires r1 != r2 || c1 != c2
    ensures Slot(r1, c1) != Slot(r2, c2)
    ensures Slot(r1, c1) < Capacity()
  {
    RowMajorInRange(r1, c1, MaxGridWidth, MaxGridHeight);
    if Slot(r1, c1) == Slot(r2, c2) {
      RowMajorInjective(r1, c1, r2, c2, MaxGridWidth);
    }
  }

  /**
   * A stored value is read back at the same coordinates from a grid of any
   * logical size that holds the same store.
   */
  lemma ReadIgnoresLogicalSize(a: BigGrid, b: BigGrid, row: nat, col: nat)
    requires a.Valid() && b.Valid() && a.Contents() == b.Contents()
    requires a.Addressable(row, col)
    ensures b.Addressable(row, col) && b.Cell(row, col) == a.Cell(row, col)
  {
    assert a.Cell(row, col) == a.Contents()[Slot(row, col)];
  }

  /**
   * Because the column is not checked against the width, a column past the
   * maximum width reaches the first slots of the next row.
   */
  lemma ColumnOverflowAliasesNextRow(row: nat, col: nat)
    ensures Slot(row, MaxGridWidth + col) == Slot(row + 1, col)
  {
  }
}
