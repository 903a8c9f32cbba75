/**
 * The vocabulary shared by every grid of the chart editor: the cell value
 * (`Color`), the opaque grid identifier, row-major addressing, and
 * `GridView`, the contents of a grid as its readers see it through the grid
 * interface (row count, column count, cell at a coordinate).
 */
module Grids {

  /** A cell mark: a two-valued palette with a default and a toggle (`!`). */
  datatype Color = Blank | Filled

  /** `Default::default()` for a cell. */
  function DefaultColor(): Color { Blank }

  /** The complementary mark of the two-mark palette (the `!` operator). */
  function Toggle(c: Color): (t: Color)
    ensures t != c
  {
    if c == Blank then Filled else Blank
  }

  lemma ToggleInvolutive(c: Color)
    ensures Toggle(Toggle(c)) == c
  {
  }

  /** The identifier a grid carries; its representation is not part of this model. */
  type GridId(==)

  /** Row-major storage index of `(row, col)` for a store whose rows are `stride` slots apart. */
  function RowMajor(row: nat, col: nat, stride: nat): nat
  {
    row * stride + col
  }

  /** In-bounds coordinates land inside a `rows * stride` store. */
  lemma RowMajorInRange(row: nat, col: nat, stride: nat, rows: nat)
    requires row < rows && col < stride
    ensures RowMajor(row, col, stride) < rows * stride
  {
    assert row + 1 <= rows;
    assert (row + 1) * stride <= rows * stride by {
      MulMonotone(row + 1, rows, stride);
    }
  }

  lemma MulMonotone(a: nat, b: nat, k: nat)
    requires a <= b
    ensures a * k <= b * k
  {
  }

  /** Quotient and remainder are determined by `x == q * n + r` with `r < n`. */
  lemma DivModUnique(x: nat, n: nat, q: nat, r: nat)
    requires n > 0 && r < n && x == q * n + r
    ensures x / n == q && x % n == r
  {
    var q', r' := x / n, x % n;
    assert x == q' * n + r';
    if q < q' {
      MulMonotone(q + 1, q', n);
      assert false;
    } else if q' < q {
      MulMonotone(q' + 1, q, n);
      assert false;
    }
  }

  /** Distinct in-bounds coordinates never share a storage slot. */
  lemma RowMajorInjective(r1: nat, c1: nat, r2: nat, c2: nat, stride: nat)
    requires c1 < stride && c2 < stride
    requires RowMajor(r1, c1, stride) == RowMajor(r2, c2, stride)
    ensures r1 == r2 && c1 == c2
  {
    if r1 < r2 {
      MulMonotone(r1 + 1, r2, stride);
      assert false;
    } else if r2 < r1 {
      MulMonotone(r2 + 1, r1, stride);
      assert false;
    }
  }

  /** A store of `n` default cells. */
  function BlankCells(n: nat): (s: seq<Color>)
    ensures |s| == n
    ensures forall i :: 0 <= i < n ==> s[i] == DefaultColor()
  {
    seq(n, _ => DefaultColor())
  }

  /**
   * The contents of a grid as seen through the grid interface: its
   * dimensions and its cells in row-major order with stride `cols`.
   */
  datatype GridView = GridView(rows: nat, cols: nat, cells: seq<Color>)
  {
    predicate Valid()
    {
      |cells| == rows * cols
    }

    /** The coordinates a bounds-checked read or write accepts. */
    predicate InBounds(row: nat, col: nat)
    {
      row < rows && col < cols
    }

    function Cell(row: nat, col: nat): Color
      requires Valid() && InBounds(row, col)
    {
      RowMajorInRange(row, col, cols, rows);
      cells[RowMajor(row, col, cols)]
    }

    /** The grid after writing `value` at `(row, col)`. */
    function Set(row: nat, col: nat, value: Color): (g: GridView)
      requires Valid() && InBounds(row, col)
      ensures g.Valid() && g.rows == rows && g.cols == cols
      ensures g.Cell(row, col) == value
      ensures forall r, c :: InBounds(r, c) && (r != row || c != col) ==> g.Cell(r, c) == Cell(r, c)
    {
      RowMajorInRange(row, col, cols, rows);
      var g := GridView(rows, cols, cells[RowMajor(row, col, cols) := value]);
      forall r, c | InBounds(r, c) && (r != row || c != col)
        ensures g.Cell(r, c) == Cell(r, c)
      {
        RowMajorInRange(r, c, cols, rows);
        if RowMajor(r, c, cols) == RowMajor(row, col, cols) {
          RowMajorInjective(r, c, row, col, cols);
        }
      }
      g
    }

    /** The grid after every cell is reset to the default. */
    function Cleared(): (g: GridView)
      requires Valid()
      ensures g.Valid() && g.rows == rows && g.cols == cols
      ensures forall r, c :: InBounds(r, c) ==> g.Cell(r, c) == DefaultColor()
    {
      var g := GridView(rows, cols, BlankCells(|cells|));
      forall r, c | InBounds(r, c) ensures g.Cell(r, c) == DefaultColor() {
        RowMajorInRange(r, c, cols, rows);
      }
      g
    }
  }

  /** Clearing twice is the same as clearing once. */
  lemma ClearedIdempotent(g: GridView)
    requires g.Valid()
    ensures g.Cleared().Cleared() == g.Cleared()
  {
  }
}
