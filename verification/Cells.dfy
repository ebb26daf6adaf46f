/** Stored cells: SQL NULL and arbitrary strings in one string (cell_storage.go). */
module Cells {
  import opened Options

  type Cell = string

  const NULL_CELL: Cell := "\0locaql:null"
  const ESCAPE: Cell := "\0locaql:value:"

  function StoreCell(value: string): Cell {
    if value == NULL_CELL || ESCAPE <= value then ESCAPE + value else value
  }

  /** None is SQL NULL. */
  function LoadCell(cell: Cell): Option<string> {
    if cell == NULL_CELL then None
    else if ESCAPE <= cell then Some(cell[|ESCAPE|..])
    else Some(cell)
  }

  /** Every string survives storing, and none is stored as NULL. */
  lemma {:induction false} LoadUndoesStore(value: string)
    ensures LoadCell(StoreCell(value)) == Some(value)
  {
    if value == NULL_CELL || ESCAPE <= value {
      assert (ESCAPE + value)[|ESCAPE|..] == value;
      assert (ESCAPE + value)[|ESCAPE| - 1] == ':';
    }
  }

  lemma {:induction false} StoreIsInjective(a: string, b: string)
    requires StoreCell(a) == StoreCell(b)
    ensures a == b
  {
    LoadUndoesStore(a);
    LoadUndoesStore(b);
  }

  /** The cells that StoreCell writes. */
  predicate Canonical(cell: Cell) {
    cell != NULL_CELL && (ESCAPE <= cell ==> cell[|ESCAPE|..] == NULL_CELL || ESCAPE <= cell[|ESCAPE|..])
  }

  /** Storing a loaded cell gives the cell back exactly for the cells storing can write. */
  lemma {:induction false} StoreUndoesLoadIff(cell: Cell)
    ensures LoadCell(cell).Some? && StoreCell(LoadCell(cell).value) == cell <==> Canonical(cell)
  {
    if ESCAPE <= cell {
      var v := cell[|ESCAPE|..];
      assert cell == ESCAPE + v;
      assert |ESCAPE + v| > |v|;
    }
  }
}
