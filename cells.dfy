/** The cell grid the circuits fill in, as a value.

    This is the part of the `halo2_proofs` contract that the example circuits rely
    on: assigned advice cells, per-row selector activations, and copy constraints
    between cells.  Regions are one row high here and are placed one
    after another, so the grid also counts the rows placed so far. */
module Cells {
  import opened Wrappers

  /** A column of the grid.  Advice columns hold the private witness; instance
      columns hold the public inputs, which are supplied at verification time. */
  datatype Column = Advice(index: nat) | Instance(index: nat)

  /** The address of one cell: a column and an absolute row. */
  datatype Cell = Cell(column: Column, row: nat)

  /** A handle to an assigned cell together with the value assigned to it
      (`AssignedCell<F, F>`); the value is absent when no witness was known. */
  datatype AssignedCell = AssignedCell(value: Option<int>, cell: Cell)

  /** A placed region: the absolute row its offset 0 refers to. */
  datatype Region = Region(start: nat)

  /** The two ways synthesis can fail in these circuits. */
  datatype Error =
    | Synthesis               // a witness value was missing
    | ColumnNotInPermutation  // a copy touched a column not enabled for equality

  /** The state synthesis builds:
      - `advice`: the advice cells assigned so far and their values,
      - `enabled`: the pairs (selector, row) at which a selector is switched on,
      - `copies`: the cell pairs constrained to be equal (instance bindings included),
      - `rows`: how many rows the regions placed so far occupy. */
  datatype Grid = Grid(
    advice: map<Cell, int>,
    enabled: set<(nat, nat)>,
    copies: set<(Cell, Cell)>,
    rows: nat)

  /** The grid before any region is placed. */
  function EmptyGrid(): Grid
  {
    Grid(map[], {}, {}, 0)
  }

  /** A cell a copy constraint may name: an instance cell, or a cell of a placed row. */
  predicate Placed(g: Grid, c: Cell)
  {
    c.column.Instance? || c.row < g.rows
  }

  /** Everything the grid records lies inside the rows placed so far, and only
      advice cells are ever assigned. */
  ghost predicate ValidGrid(g: Grid)
  {
    && (forall c :: c in g.advice ==> c.column.Advice? && c.row < g.rows)
    && (forall e :: e in g.enabled ==> e.1 < g.rows)
    && (forall pair :: pair in g.copies ==> Placed(g, pair.0) && Placed(g, pair.1))
  }

  /** The handle `h` refers to an assigned cell of `g` and carries its value. */
  predicate Tracks(g: Grid, h: AssignedCell)
  {
    h.value.Some? && h.cell in g.advice && g.advice[h.cell] == h.value.value
  }

  /** Placing a new one-row region below the rows already placed. */
  function PlaceRegion(g: Grid): (g': Grid)
    ensures g'.rows == g.rows + 1
  {
    g.(rows := g.rows + 1)
  }

  /** Switching selector `s` on at row `row`. */
  function Enable(g: Grid, s: nat, row: nat): (g': Grid)
    ensures g'.enabled == g.enabled + {(s, row)}
  {
    g.(enabled := g.enabled + {(s, row)})
  }

  /** Writing `v` into the advice cell `c`. */
  function Write(g: Grid, c: Cell, v: int): (g': Grid)
    ensures c in g'.advice && g'.advice[c] == v
  {
    g.(advice := g.advice[c := v])
  }

  /** Recording the copy constraint `left == right`. */
  function Constrain(g: Grid, left: Cell, right: Cell): (g': Grid)
    ensures g'.copies == g.copies + {(left, right)}
  {
    g.(copies := g.copies + {(left, right)})
  }

  /** `g'` continues `g`: it keeps everything `g` records, and the rows `g` had
      placed are exactly as they were (new cells and activations only go below). */
  ghost predicate Extends(g: Grid, g': Grid)
  {
    && g.rows <= g'.rows
    && (forall c :: c in g.advice ==> c in g'.advice && g'.advice[c] == g.advice[c])
    && (forall c :: c in g'.advice && c.row < g.rows ==> c in g.advice)
    && g.enabled <= g'.enabled
    && (forall e :: e in g'.enabled && e.1 < g.rows ==> e in g.enabled)
    && g.copies <= g'.copies
  }

  /** A handle stays valid in every continuation of its grid. */
  lemma ExtendsKeepsTracks(g: Grid, g': Grid, h: AssignedCell)
    requires Extends(g, g') && Tracks(g, h)
    ensures Tracks(g', h)
  {
  }
}
