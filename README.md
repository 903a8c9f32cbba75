# Grids, decorators and drag-painting of a knitting-chart editor

This project models the core of a grid-based knitting-chart editor:

- **Grids.** The dense `SimpleGrid` is a row-major store of exactly `height * width` cells with stride `width`. Its reads and writes panic outside the grid. The fixed-capacity `BigGrid` uses the maximum grid width as its stride whatever its logical size, so a cell keeps its slot when the logical size changes. The read-only `TiledGrid` view repeats a base grid through `row % rows`, `col % cols`.
- **Decorators.** The grid-paper class decorators (`BorderedCellDecorator`, `ThickBorders`) each register their stylesheet rules once per process behind a one-shot guard per decorator kind. The round-numbering label decorator (`RoundLabels`) numbers rows and columns by their 1-indexed distance from the bottom-right corner.
- **Table composition.** `render_table` lays out, in ascending row order, the left cell, data row and right cell of each row, then the footer.
- **Click-and-drag painting.** In the two-pattern editor (`TwoPattern`), pressing a cell toggles it and picks up its new colour. Entering further cells while the button is held paints them with that colour. Releasing drops the colour. Releasing and clearing a layer ask for the chart to be saved.

Modules, one per source file:

- `Grids` (grids.dfy) holds what the grid files share: the cell colour and its toggle, row-major addressing, and `GridView`. A `GridView` is a grid's contents as its readers see them: dimensions plus row-major cells.
- `SimpleGrids` and `BigGrids` are classes over an `array<Color>`. Their `SetCell` and `Clear` change the array in place. `Clear` is a loop with invariants. `SimpleGrid.View()` ties the class to `GridView`.
- `Tiled` is a pure view over a base `GridView`, so reading through it cannot change the base.
- `BorderedCell` holds the two class decorators. The stylesheet sink is a `CssMunger` object holding a log of inserted rules. The process-wide `Once` statics are the two flags of a `RegistrationGuards` object.
- `RoundLabels` uses `Decimal` for the decimal text of a number, with a parser proved to invert it.
- `TableRender` models the markup as an `Html` tree. The table-renderer interface is a record of the renderer's answers.
- `TwoPatternApp` specifies each message handler as a function on an `AppState` value. The `TwoPattern` class updates its two `SimpleGrid` layers and its fields in place, and each of its methods is proved to follow the matching function.

Three behaviours of the code are kept as they are:

- The fixed-capacity grid makes no bounds check. The only precondition of its reads and writes is that the slot lies within the store. `ColumnOverflowAliasesNextRow` states the consequence: a column past the maximum width reaches the next row's slots.
- In the tiling view, `repeat_x` scales the row count and `repeat_y` the column count.
- The fixed-capacity grid has no resize operation. Its purpose, keeping cells across changes of logical size, follows from slot addressing, and `ReadIgnoresLogicalSize` states it.

## Model

| member | source | states |
|---|---|---|
| `Grids.Toggle` | temp/src/apps/twopattern.rs:120 | toggling gives the other mark of the two-mark palette |
| `Grids.ToggleInvolutive` | temp/src/apps/twopattern.rs:120 | toggling twice gives back the original mark |
| `Grids.RowMajorInRange` | libs/grids/src/impls/simplegrid.rs:35-37 | an in-bounds `row * stride + col` is below `rows * stride` |
| `Grids.RowMajorInjective` | libs/grids/src/impls/simplegrid.rs:35-37 | two coordinates with columns below the stride share a slot only when they are equal |
| `Grids.GridView.Set` | libs/grids/src/impls/simplegrid.rs:60-65 | after a write the written cell reads the new value, every other in-bounds cell reads as before, and the dimensions are kept |
| `Grids.GridView.Cleared` | libs/grids/src/impls/simplegrid.rs:67-71 | after a reset every in-bounds cell reads the default and the dimensions are kept |
| `Grids.ClearedIdempotent` | libs/grids/src/impls/simplegrid.rs:67-71 | resetting twice is the same as resetting once |
| `SimpleGrids.SimpleGrid.constructor` | libs/grids/src/impls/simplegrid.rs:14-21 | a new grid has the given id, row count and column count, `h * w` slots, and every cell is the default |
| `SimpleGrids.SimpleGrid.CoordsToIndex` | libs/grids/src/impls/simplegrid.rs:35-37 | the index of an in-bounds coordinate is inside the store, and no other in-bounds coordinate has it |
| `SimpleGrids.SimpleGrid.InBounds` | libs/grids/src/impls/simplegrid.rs:23-33 | the coordinates fail the bounds check exactly when `row >= num_rows()` or `col >= num_cols()`; every read and write requires them to pass |
| `SimpleGrids.SimpleGrid.GridIdent` | libs/grids/src/impls/simplegrid.rs:41-43 | the identifier is the one fixed at construction, a field no operation reassigns |
| `SimpleGrids.SimpleGrid.NumRows` | libs/grids/src/impls/simplegrid.rs:45-47 | the row count, whose rows of `width` cells fill the store exactly |
| `SimpleGrids.SimpleGrid.NumCols` | libs/grids/src/impls/simplegrid.rs:49-51 | the column count, the stride by which `height` rows fill the store exactly |
| `SimpleGrids.SimpleGrid.Cell` | libs/grids/src/impls/simplegrid.rs:53-58 | needs in-bounds coordinates; reads the cell at `(row, col)` of the grid's row-major view |
| `SimpleGrids.SimpleGrid.View` | libs/grids/src/impls/simplegrid.rs:40-58 | what readers see is a well-formed grid with this grid's row count and column count |
| `SimpleGrids.SimpleGrid.SetCell` | libs/grids/src/impls/simplegrid.rs:60-65 | needs in-bounds coordinates, since `bounds_check` panics outside them; afterwards the cell reads the written value and every other cell is unchanged; id and dimensions are immutable |
| `SimpleGrids.SimpleGrid.Clear` | libs/grids/src/impls/simplegrid.rs:67-71 | the loop over every slot leaves every cell default, with the id and the dimensions unchanged |
| `BigGrids.BigGrid.constructor` | temp/src/grids/biggrid.rs:21-27 | a new grid has `MAX_GRID_WIDTH * MAX_GRID_HEIGHT` default slots and the given logical height and width |
| `BigGrids.Slot` | temp/src/grids/biggrid.rs:29-31 | for a column below the maximum width, dividing the slot by `MAX_GRID_WIDTH` gives back the row and the remainder gives back the column; no logical size takes part |
| `BigGrids.BigGrid.NumRows` | temp/src/grids/biggrid.rs:38-40 | the logical height, a field fixed at construction that neither `SetCell` nor `Clear` changes |
| `BigGrids.BigGrid.NumCols` | temp/src/grids/biggrid.rs:42-44 | the logical width, a field fixed at construction that neither `SetCell` nor `Clear` changes |
| `BigGrids.BigGrid.Cell` | temp/src/grids/biggrid.rs:46-49 | with no logical-window check, reads the store at the slot of `(row, col)` and nowhere else |
| `BigGrids.BigGrid.SetCell` | temp/src/grids/biggrid.rs:51-54 | with no logical-window check, needs only a slot inside the store; exactly that slot changes, and the logical size is immutable |
| `BigGrids.BigGrid.Clear` | temp/src/grids/biggrid.rs:56-60 | every backing slot becomes the default, including those outside the logical window |
| `BigGrids.SlotsDistinct` | temp/src/grids/biggrid.rs:29-31 | coordinates within the maximum size get distinct slots inside the store |
| `BigGrids.ReadIgnoresLogicalSize` | temp/src/grids/biggrid.rs:1-6 | two grids holding the same store read the same value at the same coordinates, whatever their logical sizes |
| `BigGrids.ColumnOverflowAliasesNextRow` | temp/src/grids/biggrid.rs:29-31 | column `MAX_GRID_WIDTH + c` of a row is the slot of column `c` of the next row |
| `Tiled.New` | temp/src/grids/tiled.rs:16-22 | the view repeats its base three times each way, so it has three times the base's rows and columns |
| `Tiled.TiledGrid.ToBase` | temp/src/grids/tiled.rs:24-26 | for nonzero base dimensions, any coordinate maps inside the base, to its remainder modulo the base's rows and columns |
| `Tiled.TiledGrid.NumRows` | temp/src/grids/tiled.rs:33-35 | the view's row count is exactly `repeat_x` whole copies of the base's rows |
| `Tiled.TiledGrid.NumCols` | temp/src/grids/tiled.rs:37-39 | the view's column count is exactly `repeat_y` whole copies of the base's columns |
| `Tiled.TiledGrid.Cell` | temp/src/grids/tiled.rs:41-44 | for nonzero base dimensions any coordinate can be read, and every value read is a cell of the base |
| `Tiled.TiledGrid.SetCell` | temp/src/grids/tiled.rs:46-48 | writing through the view always fails |
| `Tiled.TiledGrid.Clear` | temp/src/grids/tiled.rs:50-52 | resetting through the view always fails |
| `Tiled.CellInFirstTile` | temp/src/grids/tiled.rs:41-44 | inside the first tile the view reads the base's own cell |
| `Tiled.CellPeriodicInRows` | temp/src/grids/tiled.rs:24-26 | moving down by the base's row count reads the same cell |
| `Tiled.CellPeriodicInCols` | temp/src/grids/tiled.rs:24-26 | moving right by the base's column count reads the same cell |
| `Tiled.CellPeriodic` | temp/src/grids/tiled.rs:24-26 | moving by any whole number of tiles in both directions reads the same cell |
| `Tiled.TilingOfThreeByThree` | temp/src/grids/tiled.rs:16-44 | over a 3x3 base the view `new` builds is 9x9 and reads base cell (1, 1) at (4, 1); with both factors 2 the same remap gives 6x6 and the same read |
| `BorderedCell.RegistrationGuards.constructor` | libs/renderer/src/decorators/class_decorator/borderedcell.rs:4-5 | both one-shot guards start unset |
| `BorderedCell.RegisterBorderedCell` | libs/renderer/src/decorators/class_decorator/borderedcell.rs:16-18 | the thin-border rule is appended on the first registration only; the guard of the other kind is untouched |
| `BorderedCell.RegisterThickBorders` | libs/renderer/src/decorators/class_decorator/borderedcell.rs:39-48 | the left, top, right and bottom rules are appended in that order on the first registration only; the other guard is untouched |
| `BorderedCell.RegisterOnEveryRender` | libs/renderer/src/decorators/class_decorator/borderedcell.rs:4-5 | registering both kinds on any number of passes appends each kind's rules exactly once, and neither guard suppresses the other |
| `BorderedCell.BorderedCellClass` | libs/renderer/src/decorators/class_decorator/borderedcell.rs:19-27 | every cell of every grid gets exactly the class `bdrcell` |
| `BorderedCell.ThickBordersClass` | libs/renderer/src/decorators/class_decorator/borderedcell.rs:49-70 | needs the position within the size, because of the unsigned subtraction; `tcktop` is present iff `(rows - row) % 5 == 0`, `tckleft` iff `(cols - col) % 5 == 0`, nothing else appears, and `tcktop` comes first |
| `BorderedCell.ThickBordersIgnoresContents` | libs/renderer/src/decorators/class_decorator/borderedcell.rs:49-60 | the classes depend on the grid's dimensions and the position, not on the contents |
| `BorderedCell.ThickBordersOnFifteenByFifteen` | libs/renderer/src/decorators/class_decorator/borderedcell.rs:58-67 | on a 15x15 grid, cells (10, 10) and (0, 0) get both classes and cell (1, 1) gets neither |
| `Decimal.NatToString` | libs/renderer/src/decorators/label_decorator/roundlabels.rs:14 | a decimal spelling is nonempty, all digits, and has no leading zero |
| `Decimal.ParseNatToString` | libs/renderer/src/decorators/label_decorator/roundlabels.rs:14 | parsing the decimal spelling of a number gives back the number |
| `Decimal.NatToStringInjective` | libs/renderer/src/decorators/label_decorator/roundlabels.rs:14 | distinct numbers have distinct spellings |
| `Decimal.CanonicalSpellingUnique` | libs/renderer/src/decorators/label_decorator/roundlabels.rs:14 | a nonempty string of digits without a leading zero is the spelling of its own value, so such text is determined by its value |
| `RoundLabels.Left` | libs/renderer/src/decorators/label_decorator/roundlabels.rs:8-10 | the left label is always present, empty and without classes |
| `RoundLabels.Right` | libs/renderer/src/decorators/label_decorator/roundlabels.rs:12-15 | needs `row <= num_rows`; the right label is present, without classes, nonempty, all digits, without a leading zero, and its value is `num_rows - row` |
| `RoundLabels.HasBot` | libs/renderer/src/decorators/label_decorator/roundlabels.rs:17-19 | the footer row is always present |
| `RoundLabels.Bot` | libs/renderer/src/decorators/label_decorator/roundlabels.rs:21-24 | needs `col <= num_cols`; the bottom label is present, spans one column, has no classes, is nonempty, all digits, without a leading zero, and its value is `num_cols - col` |
| `RoundLabels.RightLabelIsDecimalText` | libs/renderer/src/decorators/label_decorator/roundlabels.rs:12-15 | the right label's text is exactly the decimal spelling of `num_rows - row` |
| `RoundLabels.BottomLabelIsDecimalText` | libs/renderer/src/decorators/label_decorator/roundlabels.rs:21-24 | the bottom label's text is exactly the decimal spelling of `num_cols - col` |
| `RoundLabels.RightLabelsInRange` | libs/renderer/src/decorators/label_decorator/roundlabels.rs:12-15 | every row's label lies in `1..num_rows`, and row 0 is labelled `num_rows` |
| `RoundLabels.RightLabelsDecrease` | libs/renderer/src/decorators/label_decorator/roundlabels.rs:13 | right labels strictly decrease down the grid, so no two rows share one |
| `RoundLabels.BottomLabelsDecrease` | libs/renderer/src/decorators/label_decorator/roundlabels.rs:22 | bottom labels strictly decrease to the right, so no two columns share one |
| `RoundLabels.LabelsOnFifteenByFifteen` | libs/renderer/src/decorators/label_decorator/roundlabels.rs:12-24 | on a 15x15 grid, row 0 and column 0 are both labelled "15" |
| `TableRender.TableClasses` | temp/src/tablerender/mod.rs:19-22 | the table's classes are `user-select-none`, then the caller's class if one is given |
| `TableRender.RenderRow` | temp/src/tablerender/mod.rs:37-44 | a row is a `tr` holding the left cell, data row and right cell of its row number, in that order |
| `TableRender.RenderFullRow` | temp/src/tablerender/mod.rs:33-35 | a full row is the same as the plain row |
| `TableRender.RenderRows` | temp/src/tablerender/mod.rs:25-27 | the `n` data rows come in ascending row order, the row at index `rn` being row `rn` |
| `TableRender.RenderTable` | temp/src/tablerender/mod.rs:18-31 | the table carries the table classes and holds one row per data row in ascending order, then the footer row once, last |
| `TableRender.RowCellsInOrder` | temp/src/tablerender/mod.rs:37-44 | in the rendered table, row `rn` holds the left, data and right answers for `rn` |
| `TableRender.RenderTableDependsOnAnswersOnly` | temp/src/tablerender/mod.rs:18-31 | two renderers that give the same row count, row answers and footer render the same table |
| `TwoPatternApp.AppState.WithGrid` | temp/src/apps/twopattern.rs:71-76 | replacing the layer a message names leaves the other layer, the held colour and the page mode as they were |
| `TwoPatternApp.OnDown` | temp/src/apps/twopattern.rs:118-125 | Down toggles the pressed cell, holds its new colour, redraws, and changes no other cell of that layer and nothing of the other layer |
| `TwoPatternApp.OnEnter` | temp/src/apps/twopattern.rs:127-135 | while a colour is held, Enter paints the entered cell with it, changes no other cell and redraws; with none held it changes nothing and does not redraw |
| `TwoPatternApp.OnExit` | temp/src/apps/twopattern.rs:137-139 | Exit changes nothing and does not redraw |
| `TwoPatternApp.OnUp` | temp/src/apps/twopattern.rs:141-144 | Up drops the held colour, changes nothing else and does not redraw |
| `TwoPatternApp.OnClear` | temp/src/apps/twopattern.rs:146-150 | Clear resets every cell of the named layer, keeps its dimensions, leaves the other layer unchanged, and redraws |
| `TwoPatternApp.OnTogglePrintable` | temp/src/apps/twopattern.rs:152-155 | the page mode flips, the layers and held colour are unchanged, and the page redraws |
| `TwoPatternApp.Step` | temp/src/apps/twopattern.rs:233-241 | dispatching a message keeps both layers valid and redraws for every message except Exit, Up, and Enter with no colour held |
| `TwoPatternApp.SaveRequested` | temp/src/apps/twopattern.rs:233-241 | the chart is saved exactly after Up and Clear |
| `TwoPatternApp.TogglePrintableTwice` | temp/src/apps/twopattern.rs:152-155 | toggling the page mode twice restores the state |
| `TwoPatternApp.DownThenEnterPaintsSameColor` | temp/src/apps/twopattern.rs:118-135 | pressing one cell and entering another paints the second with the colour the press gave the first |
| `TwoPatternApp.UpThenEnterPaintsNothing` | temp/src/apps/twopattern.rs:127-144 | after a release, entering a cell changes nothing |
| `TwoPatternApp.StepKeepsDimensions` | temp/src/apps/twopattern.rs:233-241 | no message changes the dimensions of either layer |
| `TwoPatternApp.TwoPattern.constructor` | temp/src/apps/twopattern.rs:221-230 | the editor starts holding no colour, on the input page |
| `TwoPatternApp.TwoPattern.GridById` | temp/src/apps/twopattern.rs:64-69 | the selected layer is a valid grid that reads as the state's layer of that id, with a store apart from the other layer's |
| `TwoPatternApp.TwoPattern.MsgDown` | temp/src/apps/twopattern.rs:118-125 | the in-place handler's new state and result are those of `OnDown` |
| `TwoPatternApp.TwoPattern.MsgEnter` | temp/src/apps/twopattern.rs:127-135 | the in-place handler's new state and result are those of `OnEnter`; coordinates are only checked when a colour is held |
| `TwoPatternApp.TwoPattern.MsgExit` | temp/src/apps/twopattern.rs:137-139 | the handler's result is that of `OnExit` |
| `TwoPatternApp.TwoPattern.MsgUp` | temp/src/apps/twopattern.rs:141-144 | the in-place handler's new state and result are those of `OnUp` |
| `TwoPatternApp.TwoPattern.MsgClear` | temp/src/apps/twopattern.rs:146-150 | the in-place handler's new state and result are those of `OnClear` |
| `TwoPatternApp.TwoPattern.MsgTogglePrintable` | temp/src/apps/twopattern.rs:152-155 | the in-place handler's new state and result are those of `OnTogglePrintable` |
| `TwoPatternApp.TwoPattern.Update` | temp/src/apps/twopattern.rs:232-247 | dispatching a message gives the new state and result of its handler, and asks for a save exactly when `SaveRequested` holds |

## Left out

- The component's user-interface and lifecycle parts are not modelled: `create` (apart from its initial field values), `view`, `display_*`, `reference_card`, `grid_table`, `pattern_table` and `change`. They build yew markup.
- Browser storage is not modelled: `StorageService`, the `Json` wrapper, and the serde (de)serialisation of `Stored` and `SimpleGrid`. `Update` returns only whether a save is requested. Deserialisation could produce a grid whose store does not match its dimensions; the model assumes every grid was built by its constructor.
- `no_dot` is not modelled. It is static SVG markup.
- `Html` is a yew type. It is modelled as a plain tree.
- The thread-safety of `std::sync::Once` is not modelled. The model is single-threaded.
- `GridTrait` is not modelled as an interface. Readers of a grid see it as a `GridView` value.
- `CssMunger` is not part of this model. It appears only as an append-only rule log.
- `FlippedGrid`, the `InputRenderer`/`PatternRenderer`/`SimpleRenderer` renderers and the other decorators are not part of this model.
- The default `StyleDecorator::cell_style` is not modelled. It always answers `None`.
- The temp crate's own `SimpleGrid` is not part of this model. The two layers of `TwoPattern` use the `SimpleGrid` class modelled here, built by the caller of the constructor. `Stored::default` is not modelled, because the model's grid identifier is abstract and cannot be made up.
- `MAX_GRID_WIDTH` and `MAX_GRID_HEIGHT` are arbitrary constants: every property holds for any values.
- `BigGrid<T>` is generic over its cell type; the model fixes the cell type to `Color`.
- `usize` arithmetic is modelled with unbounded integers: `height * width`, `row * width + col` and `repeat_x * num_rows` do not wrap.
- The unsigned subtractions `num_rows - row` and `num_cols - col` would fail below zero. They are modelled as preconditions.
- `Tiled.TiledGrid.SetCell` and `Tiled.TiledGrid.Clear` return a failure value where the source panics through `unimplemented!`.
- `grid_by_id` and `grid_by_id_mut` are both modelled by `GridById`, since a Dafny reference serves for reading and for writing.
- `TableRender.RenderTable`: the footer is shown to appear once, at the end. How many times the renderer is called is not observable in the model.
- The table-renderer answers that `render_table` does not use (`num_data_cols`, `render_data_cell`, `render_footer_cell`) are fields of the record and nothing more.
- `Decimal.NatToString` is modelled as the usual decimal spelling of a number. It is not proved equal to Rust's `to_string`.
