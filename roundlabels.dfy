/**
 * Round (circular) label numbering: an empty left gutter, the right gutter
 * numbered by distance from the bottom row and a footer numbered by distance
 * from the right column, both 1-indexed, with no class tokens anywhere.
 */
module RoundLabels {
  import opened Grids
  import opened Wrappers
  import opened Decimal

  /** Label text and its class tokens. */
  type SideLabel = (string, seq<string>)

  /** Label text, column span and class tokens. */
  type BottomLabel = (string, nat, seq<string>)

  function Left(grid: GridView, row: nat): (gutter: Option<SideLabel>)
    ensures gutter.Some? && gutter.value.0 == "" && gutter.value.1 == []
  {
    Some(("", []))
  }

  /** The unsigned subtraction needs the row not to pass the row count. */
  function Right(grid: GridView, row: nat): (gutter: Option<SideLabel>)
    requires row <= grid.rows
    ensures gutter.Some? && gutter.value.1 == []
    ensures 1 <= |gutter.value.0| && (1 < |gutter.value.0| ==> gutter.value.0[0] != '0')
    ensures forall i :: 0 <= i < |gutter.value.0| ==> IsDigit(gutter.value.0[i])
    ensures ParseDecimal(gutter.value.0) == grid.rows - row
  {
    var number := grid.rows - row;
    ParseNatToString(number);
    Some((NatToString(number), []))
  }

  function HasBot(): (present: bool)
    ensures present
  {
    true
  }

  /** The unsigned subtraction needs the column not to pass the column count. */
  function Bot(grid: GridView, col: nat): (footer: Option<BottomLabel>)
    requires col <= grid.cols
    ensures footer.Some? && footer.value.1 == 1 && footer.value.2 == []
    ensures 1 <= |footer.value.0| && (1 < |footer.value.0| ==> footer.value.0[0] != '0')
    ensures forall i :: 0 <= i < |footer.value.0| ==> IsDigit(footer.value.0[i])
    ensures ParseDecimal(footer.value.0) == grid.cols - col
  {
    var number := grid.cols - col;
    ParseNatToString(number);
    Some((NatToString(number), 1, []))
  }

  /** The right label is exactly the decimal text `to_string` gives for `num_rows - row`. */
  lemma RightLabelIsDecimalText(grid: GridView, row: nat)
    requires row <= grid.rows
    ensures Right(grid, row).value.0 == NatToString(grid.rows - row)
  {
    CanonicalSpellingUnique(Right(grid, row).value.0);
  }

  /** The bottom label is exactly the decimal text `to_string` gives for `num_cols - col`. */
  lemma BottomLabelIsDecimalText(grid: GridView, col: nat)
    requires col <= grid.cols
    ensures Bot(grid, col).value.0 == NatToString(grid.cols - col)
  {
    CanonicalSpellingUnique(Bot(grid, col).value.0);
  }

  /** Every row of the grid is numbered within 1..num_rows; the top row gets num_rows. */
  lemma RightLabelsInRange(grid: GridView, row: nat)
    requires row < grid.rows
    ensures 1 <= ParseDecimal(Right(grid, row).value.0) <= grid.rows
    ensures row == 0 ==> Right(grid, row).value.0 == NatToString(grid.rows)
  {
  }

  /** Right labels strictly decrease down the grid, so no two rows share one. */
  lemma RightLabelsDecrease(grid: GridView, r1: nat, r2: nat)
    requires r1 < r2 <= grid.rows
    ensures ParseDecimal(Right(grid, r1).value.0) > ParseDecimal(Right(grid, r2).value.0)
    ensures Right(grid, r1).value.0 != Right(grid, r2).value.0
  {
  }

  /** Bottom labels strictly decrease to the right, so no two columns share one. */
  lemma BottomLabelsDecrease(grid: GridView, c1: nat, c2: nat)
    requires c1 < c2 <= grid.cols
    ensures ParseDecimal(Bot(grid, c1).value.0) > ParseDecimal(Bot(grid, c2).value.0)
    ensures Bot(grid, c1).value.0 != Bot(grid, c2).value.0
  {
  }

  /** On a 15x15 grid the top row and the leftmost column are both labelled "15". */
  lemma LabelsOnFifteenByFifteen(grid: GridView)
    requires grid.rows == 15 && grid.cols == 15
    ensures Right(grid, 0).value.0 == "15"
    ensures Bot(grid, 0).value.0 == "15"
  {
    assert NatToString(1) == "1";
    assert NatToString(15) == NatToString(1) + [DigitChar(5)];
  }
}
