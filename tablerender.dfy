/**
 * Table composition: a table whose rows are, in ascending row order, the
 * renderer's left cell, data row and right cell, followed by its footer row.
 * The rendered markup is an opaque tree; the renderer is the record of its
 * answers to the table-renderer interface.
 */
module TableRender {
  import opened Wrappers

  /** Rendered markup: an element with its classes and children, or text. */
  datatype Html = Element(tag: string, classes: seq<string>, children: seq<Html>) | Text(text: string)

  /** The renderer interface, as the answers it gives. */
  datatype TableRenderer = TableRenderer(
    numDataRows: nat,
    numDataCols: nat,
    renderDataRow: nat -> Html,
    renderDataCell: (nat, nat) -> Html,
    renderLeftCell: nat -> Html,
    renderRightCell: nat -> Html,
    renderFooterRow: Html,
    renderFooterCell: nat -> Html)

  /** The no-selection class, then the caller's class if one is given. */
  function TableClasses(extraClass: Option<string>): (classes: seq<string>)
    ensures |classes| >= 1 && classes[0] == "user-select-none"
    ensures extraClass.None? ==> |classes| == 1
    ensures extraClass.Some? ==> |classes| == 2 && classes[1] == extraClass.value
  {
    var classes := ["user-select-none"];
    if extraClass.Some? then classes + [extraClass.value] else classes
  }

  function RenderRow(renderer: TableRenderer, rowNum: nat): (row: Html)
    ensures row.Element? && row.tag == "tr" && row.classes == []
    ensures row.children == [renderer.renderLeftCell(rowNum), renderer.renderDataRow(rowNum), renderer.renderRightCell(rowNum)]
  {
    Element("tr", [], [renderer.renderLeftCell(rowNum), renderer.renderDataRow(rowNum), renderer.renderRightCell(rowNum)])
  }

  function RenderFullRow(renderer: TableRenderer, rowNum: nat): (row: Html)
    ensures row == RenderRow(renderer, rowNum)
  {
    RenderRow(renderer, rowNum)
  }

  /** The rows `RenderFullRow(rn)` for `rn` in `0..n`, in ascending order. */
  function RenderRows(renderer: TableRenderer, n: nat): (rows: seq<Html>)
    ensures |rows| == n
    ensures forall rn :: 0 <= rn < n ==> rows[rn] == RenderFullRow(renderer, rn)
  {
    if n == 0 then [] else RenderRows(renderer, n - 1) + [RenderFullRow(renderer, n - 1)]
  }

  function RenderTable(renderer: TableRenderer, extraClass: Option<string>): (table: Html)
    ensures table.Element? && table.tag == "table" && table.classes == TableClasses(extraClass)
    ensures |table.children| == renderer.numDataRows + 1
    ensures forall rn :: 0 <= rn < renderer.numDataRows ==> table.children[rn] == RenderFullRow(renderer, rn)
    ensures table.children[renderer.numDataRows] == renderer.renderFooterRow
  {
    Element("table", TableClasses(extraClass), RenderRows(renderer, renderer.numDataRows) + [renderer.renderFooterRow])
  }

  /** Each table row holds the left cell, data row and right cell of one row number, in that order. */
  lemma RowCellsInOrder(renderer: TableRenderer, extraClass: Option<string>, rn: nat)
    requires rn < renderer.numDataRows
    ensures RenderTable(renderer, extraClass).children[rn].children
         == [renderer.renderLeftCell(rn), renderer.renderDataRow(rn), renderer.renderRightCell(rn)]
  {
  }

  /**
   * The table depends only on the row count and the answers for the rows it
   * asks about and the footer: two renderers that agree on those give the
   * same table, whatever else they answer.
   */
  lemma {:induction false} RenderTableDependsOnAnswersOnly(a: TableRenderer, b: TableRenderer, extraClass: Option<string>)
    requires a.numDataRows == b.numDataRows && a.renderFooterRow == b.renderFooterRow
    requires forall rn :: 0 <= rn < a.numDataRows ==> a.renderLeftCell(rn) == b.renderLeftCell(rn)
    requires forall rn :: 0 <= rn < a.numDataRows ==> a.renderDataRow(rn) == b.renderDataRow(rn)
    requires forall rn :: 0 <= rn < a.numDataRows ==> a.renderRightCell(rn) == b.renderRightCell(rn)
    ensures RenderTable(a, extraClass) == RenderTable(b, extraClass)
  {
    var ra, rb := RenderRows(a, a.numDataRows), RenderRows(b, b.numDataRows);
    assert ra == rb by {
      forall rn | 0 <= rn < |ra| ensures ra[rn] == rb[rn] {
        assert ra[rn] == RenderRow(a, rn);
      }
    }
  }
}
