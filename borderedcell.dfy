/**
 * The two grid-paper class decorators. `cell_class` of each is a pure
 * function of the grid's dimensions and the position; `register` inserts the
 * decorator's stylesheet rules behind a one-shot guard per decorator kind,
 * shared by every instance of that kind.
 */
module BorderedCell {
  import opened Grids

  const BorderedCellRule := ".bdrcell { border: 1px solid black }"

  const ThickBorderRules := [
    "td.tckleft { border-left: 3px solid black}",
    "td.tcktop { border-top: 3px solid black}",
    "td.tckright { border-right: 3px solid black}",
    "td.tckbottom { border-bottom: 3px solid black}"
  ]

  /** The stylesheet sink: an append-only log of inserted rules. */
  class CssMunger {
    var rules: seq<string>

    constructor ()
      ensures rules == []
    {
      rules := [];
    }

    method InsertRule(rule: string)
      modifies this
      ensures rules == old(rules) + [rule]
    {
      rules := rules + [rule];
    }
  }

  /**
   * The process-wide one-shot guards, one per decorator kind; each is unset
   * until its decorator first registers and set for good afterwards.
   */
  class RegistrationGuards {
    var borderedCellDone: bool
    var thickBordersDone: bool

    constructor ()
      ensures !borderedCellDone && !thickBordersDone
    {
      borderedCellDone, thickBordersDone := false, false;
    }
  }

  /** Inserts the thin-border rule the first time any instance registers. */
  method RegisterBorderedCell(guards: RegistrationGuards, munger: CssMunger)
    modifies guards`borderedCellDone, munger
    ensures guards.borderedCellDone
    ensures munger.rules == old(munger.rules) + (if old(guards.borderedCellDone) then [] else [BorderedCellRule])
  {
    if !guards.borderedCellDone {
      munger.InsertRule(BorderedCellRule);
      guards.borderedCellDone := true;
    }
  }

  /** Inserts the four thick-border rules, left, top, right, bottom, the first time any instance registers. */
  method RegisterThickBorders(guards: RegistrationGuards, munger: CssMunger)
    modifies guards`thickBordersDone, munger
    ensures guards.thickBordersDone
    ensures munger.rules == old(munger.rules) + (if old(guards.thickBordersDone) then [] else ThickBorderRules)
  {
    if !guards.thickBordersDone {
      munger.InsertRule("td.tckleft { border-left: 3px solid black}");
      munger.InsertRule("td.tcktop { border-top: 3px solid black}");
      munger.InsertRule("td.tckright { border-right: 3px solid black}");
      munger.InsertRule("td.tckbottom { border-bottom: 3px solid black}");
      guards.thickBordersDone := true;
    }
  }

  /**
   * However many render passes register both decorators, each kind's rules
   * reach the sink once, and the one guard does not suppress the other.
   */
  method RegisterOnEveryRender(guards: RegistrationGuards, munger: CssMunger, passes: nat)
    requires !guards.borderedCellDone && !guards.thickBordersDone
    modifies guards, munger
    ensures munger.rules == old(munger.rules) + (if passes == 0 then [] else [BorderedCellRule] + ThickBorderRules)
  {
    for pass := 0 to passes
      invariant pass == 0 ==> munger.rules == old(munger.rules) && !guards.borderedCellDone && !guards.thickBordersDone
      invariant pass > 0 ==> guards.borderedCellDone && guards.thickBordersDone
      invariant pass > 0 ==> munger.rules == old(munger.rules) + [BorderedCellRule] + ThickBorderRules
    {
      RegisterBorderedCell(guards, munger);
      RegisterThickBorders(guards, munger);
    }
  }

  /** `BorderedCellDecorator::cell_class`: the thin-border class on every cell. */
  function BorderedCellClass(grid: GridView, row: nat, col: nat, contents: Color): (classes: seq<string>)
    ensures classes == ["bdrcell"]
  {
    ["bdrcell"]
  }

  /**
   * `ThickBorders::cell_class`: with distances counted 1-indexed from the
   * bottom-right corner, a thick top on every fifth row and a thick left on
   * every fifth column. The subtractions are unsigned, so the position may
   * not pass the grid's size.
   */
  function ThickBordersClass(grid: GridView, row: nat, col: nat, contents: Color): (classes: seq<string>)
    requires row <= grid.rows && col <= grid.cols
    ensures "tcktop" in classes <==> (grid.rows - row) % 5 == 0
    ensures "tckleft" in classes <==> (grid.cols - col) % 5 == 0
    ensures forall i :: 0 <= i < |classes| ==> classes[i] == "tcktop" || classes[i] == "tckleft"
    ensures |classes| <= 2 && (|classes| == 2 ==> classes == ["tcktop", "tckleft"])
  {
    var rowP := grid.rows - row;
    var colP := grid.cols - col;
    var top := if rowP % 5 == 0 then ["tcktop"] else [];
    if colP % 5 == 0 then top + ["tckleft"] else top
  }

  /** The thick-border classes depend on the dimensions and the position only. */
  lemma ThickBordersIgnoresContents(a: GridView, b: GridView, row: nat, col: nat, x: Color, y: Color)
    requires a.rows == b.rows && a.cols == b.cols
    requires row <= a.rows && col <= a.cols
    ensures ThickBordersClass(a, row, col, x) == ThickBordersClass(b, row, col, y)
  {
  }

  /** On a 15x15 grid, (10, 10) and (0, 0) get both thick classes and (1, 1) neither. */
  lemma ThickBordersOnFifteenByFifteen(grid: GridView, x: Color)
    requires grid.rows == 15 && grid.cols == 15
    ensures ThickBordersClass(grid, 10, 10, x) == ["tcktop", "tckleft"]
    ensures ThickBordersClass(grid, 0, 0, x) == ["tcktop", "tckleft"]
    ensures ThickBordersClass(grid, 1, 1, x) == []
  {
  }
}
