/**
 * The two-pattern chart editor's click-and-drag painting. Pressing on a cell
 * toggles it and picks up the new colour; entering other cells while the
 * button is held paints them with that colour; releasing drops it. Release
 * and clearing a grid ask for the chart to be saved.
 *
 * `AppState` and the `On*` functions give each handler's meaning on values;
 * the `TwoPattern` class updates its two grids and fields in place and is
 * proved to follow them.
 */
module TwoPatternApp {
  import opened Grids
  import opened Wrappers
  import opened SimpleGrids

  /** Which of the two independently edited layers. */
  datatype LayerId = Front | Back

  datatype Msg =
    | Down(id: LayerId, row: nat, col: nat)
    | Up
    | Enter(id: LayerId, row: nat, col: nat)
    | Exit
    | TogglePrintable
    | Clear(id: LayerId)

  function Other(id: LayerId): LayerId
  {
    if id == Front then Back else Front
  }

  /** The editor's state: both layers, the colour being painted, the page mode. */
  datatype AppState = AppState(front: GridView, back: GridView, value: Option<Color>, printablePage: bool)
  {
    predicate Valid()
    {
      front.Valid() && back.Valid()
    }

    function Grid(id: LayerId): GridView
    {
      match id
      case Front => front
      case Back => back
    }

    function WithGrid(id: LayerId, g: GridView): (s: AppState)
      ensures s.Grid(id) == g && s.Grid(Other(id)) == Grid(Other(id))
      ensures s.value == value && s.printablePage == printablePage
    {
      match id
      case Front => this.(front := g)
      case Back => this.(back := g)
    }
  }

  /** Down toggles the pressed cell and picks up its new colour. */
  function OnDown(s: AppState, id: LayerId, row: nat, col: nat): (r: (AppState, bool))
    requires s.Valid() && s.Grid(id).InBounds(row, col)
    ensures r.1 && r.0.Valid() && r.0.printablePage == s.printablePage
    ensures r.0.Grid(id).rows == s.Grid(id).rows && r.0.Grid(id).cols == s.Grid(id).cols
    ensures r.0.Grid(id).Cell(row, col) == Toggle(s.Grid(id).Cell(row, col))
    ensures r.0.value == Some(r.0.Grid(id).Cell(row, col))
    ensures forall rr, cc :: s.Grid(id).InBounds(rr, cc) && (rr != row || cc != col)
              ==> r.0.Grid(id).Cell(rr, cc) == s.Grid(id).Cell(rr, cc)
    ensures r.0.Grid(Other(id)) == s.Grid(Other(id))
  {
    var v := Toggle(s.Grid(id).Cell(row, col));
    (s.WithGrid(id, s.Grid(id).Set(row, col, v)).(value := Some(v)), true)
  }

  /** Enter paints the entered cell while a colour is held, and does nothing otherwise. */
  function OnEnter(s: AppState, id: LayerId, row: nat, col: nat): (r: (AppState, bool))
    requires s.Valid() && (s.value.Some? ==> s.Grid(id).InBounds(row, col))
    ensures r.1 == s.value.Some? && r.0.Valid()
    ensures r.0.value == s.value && r.0.printablePage == s.printablePage
    ensures s.value.None? ==> r.0 == s
    ensures r.0.Grid(id).rows == s.Grid(id).rows && r.0.Grid(id).cols == s.Grid(id).cols
    ensures s.value.Some? ==> r.0.Grid(id).Cell(row, col) == s.value.value
    ensures s.value.Some? ==>
              forall rr, cc :: s.Grid(id).InBounds(rr, cc) && (rr != row || cc != col)
                ==> r.0.Grid(id).Cell(rr, cc) == s.Grid(id).Cell(rr, cc)
    ensures r.0.Grid(Other(id)) == s.Grid(Other(id))
  {
    match s.value
    case Some(v) => (s.WithGrid(id, s.Grid(id).Set(row, col, v)), true)
    case None => (s, false)
  }

  function OnExit(s: AppState): (r: (AppState, bool))
    ensures r.0 == s && !r.1
  {
    (s, false)
  }

  /** Up drops the held colour and asks for no redraw. */
  function OnUp(s: AppState): (r: (AppState, bool))
    ensures r.0 == s.(value := None) && !r.1
  {
    (s.(value := None), false)
  }

  /** Clear resets one layer and leaves the other as it was. */
  function OnClear(s: AppState, id: LayerId): (r: (AppState, bool))
    requires s.Valid()
    ensures r.1 && r.0.Valid() && r.0.value == s.value && r.0.printablePage == s.printablePage
    ensures r.0.Grid(id).rows == s.Grid(id).rows && r.0.Grid(id).cols == s.Grid(id).cols
    ensures forall rr, cc :: s.Grid(id).InBounds(rr, cc) ==> r.0.Grid(id).Cell(rr, cc) == DefaultColor()
    ensures r.0.Grid(Other(id)) == s.Grid(Other(id))
  {
    (s.WithGrid(id, s.Grid(id).Cleared()), true)
  }

  function OnTogglePrintable(s: AppState): (r: (AppState, bool))
    ensures r.0.printablePage != s.printablePage && r.1
    ensures r.0.front == s.front && r.0.back == s.back && r.0.value == s.value
  {
    (s.(printablePage := !s.printablePage), true)
  }

  /** The coordinates a message names must lie in its grid whenever its handler reads or writes there. */
  predicate Accepts(s: AppState, msg: Msg)
  {
    s.Valid() &&
    match msg
    case Down(id, row, col) => s.Grid(id).InBounds(row, col)
    case Enter(id, row, col) => s.value.Some? ==> s.Grid(id).InBounds(row, col)
    case _ => true
  }

  /**
   * The new state and whether to redraw, as `update` dispatches a message:
   * every message but Exit, Up and an Enter with no colour held redraws.
   */
  function Step(s: AppState, msg: Msg): (r: (AppState, bool))
    requires Accepts(s, msg)
    ensures r.0.Valid()
    ensures r.1 <==> !(msg.Exit? || msg.Up? || (msg.Enter? && s.value.None?))
  {
    match msg
    case Down(id, row, col) => OnDown(s, id, row, col)
    case Enter(id, row, col) => OnEnter(s, id, row, col)
    case Exit => OnExit(s)
    case Up => OnUp(s)
    case Clear(id) => OnClear(s, id)
    case TogglePrintable => OnTogglePrintable(s)
  }

  /** `update` stores the chart exactly after a release or a clear. */
  function SaveRequested(msg: Msg): (save: bool)
    ensures save <==> msg.Up? || msg.Clear?
  {
    match msg
    case Up => true
    case Clear(_) => true
    case _ => false
  }

  /** Toggling the page mode twice restores the state. */
  lemma TogglePrintableTwice(s: AppState)
    ensures OnTogglePrintable(OnTogglePrintable(s).0).0 == s
  {
  }

  /**
   * A drag: pressing one cell and entering another paints the second with the
   * colour the press gave the first, in whichever grid it lies.
   */
  lemma DownThenEnterPaintsSameColor(s: AppState, id1: LayerId, r1: nat, c1: nat, id2: LayerId, r2: nat, c2: nat)
    requires s.Valid() && s.Grid(id1).InBounds(r1, c1) && s.Grid(id2).InBounds(r2, c2)
    ensures Accepts(OnDown(s, id1, r1, c1).0, Enter(id2, r2, c2))
    ensures var pressed := OnDown(s, id1, r1, c1).0;
            var entered := Step(pressed, Enter(id2, r2, c2));
            entered.1 && entered.0.Grid(id2).Cell(r2, c2) == Toggle(s.Grid(id1).Cell(r1, c1))
  {
    var pressed := OnDown(s, id1, r1, c1).0;
    assert pressed.Grid(id2).rows == s.Grid(id2).rows && pressed.Grid(id2).cols == s.Grid(id2).cols by {
      if id2 != id1 {
        assert id2 == Other(id1);
      }
    }
  }

  /** After a release, entering cells paints nothing until the next press. */
  lemma UpThenEnterPaintsNothing(s: AppState, id: LayerId, row: nat, col: nat)
    requires s.Valid()
    ensures Accepts(OnUp(s).0, Enter(id, row, col))
    ensures Step(OnUp(s).0, Enter(id, row, col)) == (OnUp(s).0, false)
  {
  }

  /** No message changes the dimensions of either layer. */
  lemma StepKeepsDimensions(s: AppState, msg: Msg, id: LayerId)
    requires Accepts(s, msg)
    ensures Step(s, msg).0.Valid()
    ensures Step(s, msg).0.Grid(id).rows == s.Grid(id).rows
    ensures Step(s, msg).0.Grid(id).cols == s.Grid(id).cols
  {
    match msg
    case Down(target, row, col) =>
      if id != target { assert id == Other(target); }
    case Enter(target, row, col) =>
      if id != target { assert id == Other(target); }
    case Clear(target) =>
      if id != target { assert id == Other(target); }
    case _ =>
  }

  /** The chart editor component. */
  class TwoPattern {
    const front: SimpleGrid
    const back: SimpleGrid
    var value: Option<Color>
    var printablePage: bool

    /** The layers are valid grids with stores of their own. */
    predicate Valid()
    {
      front.Valid() && back.Valid() && front.cells != back.cells
    }

    constructor (front: SimpleGrid, back: SimpleGrid)
      requires front.Valid() && back.Valid() && front.cells != back.cells
      ensures Valid() && this.front == front && this.back == back
      ensures value == None && !printablePage
    {
      this.front := front;
      this.back := back;
      value := None;
      printablePage := false;
    }

    function State(): (s: AppState)
      requires Valid()
      reads this, front.cells, back.cells
      ensures s.Valid()
    {
      AppState(front.View(), back.View(), value, printablePage)
    }

    /** The layer a message names; writes through it reach that layer's store only. */
    function GridById(id: LayerId): (g: SimpleGrid)
      requires Valid()
      reads this, front.cells, back.cells
      ensures g.Valid() && g.View() == State().Grid(id)
      ensures g.cells != (if id == Front then back else front).cells
    {
      match id
      case Front => front
      case Back => back
    }

    method MsgDown(id: LayerId, row: nat, col: nat) returns (render: bool)
      requires Valid() && State().Grid(id).InBounds(row, col)
      modifies GridById(id).cells, this`value
      ensures (State(), render) == OnDown(old(State()), id, row, col)
    {
      var grid := GridById(id);
      var v := Toggle(grid.Cell(row, col));
      grid.SetCell(row, col, v);
      value := Some(v);
      render := true;
    }

    method MsgEnter(id: LayerId, row: nat, col: nat) returns (render: bool)
      requires Valid() && (value.Some? ==> State().Grid(id).InBounds(row, col))
      modifies GridById(id).cells
      ensures (State(), render) == OnEnter(old(State()), id, row, col)
    {
      if value.Some? {
        var grid := GridById(id);
        grid.SetCell(row, col, value.value);
        render := true;
      } else {
        render := false;
      }
    }

    method MsgExit() returns (render: bool)
      requires Valid()
      ensures (State(), render) == OnExit(State())
    {
      render := false;
    }

    method MsgUp() returns (render: bool)
      requires Valid()
      modifies this`value
      ensures (State(), render) == OnUp(old(State()))
    {
      value := None;
      render := false;
    }

    method MsgClear(id: LayerId) returns (render: bool)
      requires Valid()
      modifies GridById(id).cells
      ensures (State(), render) == OnClear(old(State()), id)
    {
      var grid := GridById(id);
      grid.Clear();
      render := true;
    }

    method MsgTogglePrintable() returns (render: bool)
      requires Valid()
      modifies this`printablePage
      ensures (State(), render) == OnTogglePrintable(old(State()))
    {
      printablePage := !printablePage;
      render := true;
    }

    /** Dispatches a message; `save` says whether the chart is then written to storage. */
    method Update(msg: Msg) returns (render: bool, save: bool)
      requires Valid() && Accepts(State(), msg)
      modifies this, front.cells, back.cells
      ensures (State(), render) == Step(old(State()), msg)
      ensures save == SaveRequested(msg)
    {
      match msg
      case Down(id, row, col) =>
        save := false;
        render := MsgDown(id, row, col);
      case Enter(id, row, col) =>
        save := false;
        render := MsgEnter(id, row, col);
      case Exit =>
        save := false;
        render := MsgExit();
      case Up =>
        save := true;
        render := MsgUp();
      case Clear(id) =>
        save := true;
        render := MsgClear(id);
      case TogglePrintable =>
        save := false;
        render := MsgTogglePrintable();
    }
  }
}
