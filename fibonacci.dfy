/** The Fibonacci circuit (`FiboChip` and `MyCircuit`).

    Each row is `a | b | c` with the gate `s * (a + b - c)` on.  The first row is
    assigned from the witnesses; the cell under `b` receives the witness `a`, not
    `b`.  Each later row copies the two cells the loop carries into its `a` and
    `b` columns and assigns their sum to `c`.  The loop carries the previous row's
    `c` and the new `c`, so from the third row on the `a` cell is a copy of the `c`
    two rows up.  The first row's `a` cell is bound to instance rows 0 and 1, and
    the last `c` to instance row 2. */
module Fibonacci {
  import opened Wrappers
  import opened Field
  import opened Cells
  import opened Expression
  import opened Configuration
  import opened Layouter
  import opened Verifier

  /** `FiboConfig`: the advice columns `[a, b, c]`, the selector and the instance column. */
  datatype FiboConfig = FiboConfig(a: nat, b: nat, c: nat, selector: nat, instance: nat)

  predicate DistinctColumns(cfg: FiboConfig)
  {
    cfg.a != cfg.b && cfg.b != cfg.c && cfg.a != cfg.c
  }

  /** The columns `configure` enables for equality. */
  function EqualityColumns(cfg: FiboConfig): set<Column>
  {
    {Advice(cfg.a), Advice(cfg.b), Advice(cfg.c), Instance(cfg.instance)}
  }

  /** The gate "add": `s * (a + b - c)` must vanish. */
  function AddGate(cfg: FiboConfig): Gate
  {
    Gate("add", [Product(SelectorQuery(cfg.selector), Difference(Sum(AdviceQuery(cfg.a), AdviceQuery(cfg.b)), AdviceQuery(cfg.c)))])
  }

  /** `FiboChip::configure`: three advice columns, a selector and an instance
      column, all four columns enabled for equality, and the gate "add". */
  method Configure(meta: ConstraintSystem) returns (cfg: FiboConfig)
    modifies meta
    ensures cfg == FiboConfig(old(meta.numAdvice), old(meta.numAdvice) + 1, old(meta.numAdvice) + 2,
                              old(meta.numSelectors), old(meta.numInstance))
    ensures DistinctColumns(cfg)
    ensures meta.Snapshot() == old(meta.Snapshot()).(
      numAdvice := old(meta.numAdvice) + 3,
      numInstance := old(meta.numInstance) + 1,
      numSelectors := old(meta.numSelectors) + 1,
      equality := old(meta.equality) + EqualityColumns(cfg),
      gates := old(meta.gates) + [AddGate(cfg)])
  {
    var a := meta.AdviceColumn();
    var b := meta.AdviceColumn();
    var c := meta.AdviceColumn();
    var selector := meta.Selector();
    var instance := meta.InstanceColumn();
    ghost var declared := meta.equality;
    meta.EnableEquality(Advice(a));
    meta.EnableEquality(Advice(b));
    meta.EnableEquality(Advice(c));
    meta.EnableEquality(Instance(instance));
    cfg := FiboConfig(a, b, c, selector, instance);
    assert meta.equality == declared + EqualityColumns(cfg);
    meta.CreateGate("add", AddGate(cfg).polys);
  }

  // ---------------------------------------------------------------------------
  // The sequence the circuit computes

  /** The `k`-th term of the Fibonacci recurrence seeded with `x` and `y`. */
  function Fib(x: int, y: int, k: nat): int
  {
    if k == 0 then x else if k == 1 then y else Fib(x, y, k - 2) + Fib(x, y, k - 1)
  }

  /** Every term is a fixed combination of the seeds, with the standard Fibonacci
      numbers `Fib(0, 1, k)` as coefficients. */
  lemma {:induction false} FibLinear(x: int, y: int, k: nat)
    ensures Fib(x, y, k + 1) == Fib(0, 1, k) * x + Fib(0, 1, k + 1) * y
  {
    if k >= 2 {
      FibLinear(x, y, k - 2);
      FibLinear(x, y, k - 1);
      var f0, f1, f2 := Fib(0, 1, k - 1), Fib(0, 1, k), Fib(0, 1, k + 1);
      assert f2 == f0 + f1;
      calc {
        Fib(x, y, k + 1);
        Fib(x, y, k - 1) + Fib(x, y, k);
        (Fib(0, 1, k - 2) * x + f0 * y) + (f0 * x + f1 * y);
        { assert Fib(0, 1, k) == Fib(0, 1, k - 2) + f0; }
        f1 * x + (f0 + f1) * y;
      }
    }
  }

  /** The term the circuit exposes: seven steps from its seeds. */
  lemma FibSeven(x: int, y: int)
    ensures Fib(x, y, 7) == 8 * x + 13 * y
  {
    FibLinear(x, y, 6);
    assert Fib(0, 1, 2) == 1;
    assert Fib(0, 1, 4) == 3;
    assert Fib(0, 1, 6) == 8;
    assert Fib(0, 1, 7) == 13;
  }

  /** Seeding with the second and third terms skips one step of the recurrence. */
  lemma {:induction false} FibShift(x: int, y: int, k: nat)
    ensures Fib(y, x + y, k) == Fib(x, y, k + 1)
  {
    if k >= 2 {
      FibShift(x, y, k - 2);
      FibShift(x, y, k - 1);
    }
  }

  /** Eight steps from the seeds. */
  lemma FibEight(x: int, y: int)
    ensures Fib(x, y, 8) == 13 * x + 21 * y
  {
    FibShift(x, y, 7);
    FibSeven(y, x + y);
  }

  // ---------------------------------------------------------------------------
  // Rows, as grid transformers

  /** Row `row` of `g` holds `x | y | z`. */
  predicate RowIs(g: Grid, cfg: FiboConfig, row: nat, x: int, y: int, z: int)
  {
    && Cell(Advice(cfg.a), row) in g.advice && g.advice[Cell(Advice(cfg.a), row)] == x
    && Cell(Advice(cfg.b), row) in g.advice && g.advice[Cell(Advice(cfg.b), row)] == y
    && Cell(Advice(cfg.c), row) in g.advice && g.advice[Cell(Advice(cfg.c), row)] == z
  }

  /** A new row `x | y | z` with the selector on. */
  function FirstRowGrid(g: Grid, cfg: FiboConfig, x: int, y: int, z: int): (g': Grid)
    ensures g'.rows == g.rows + 1 && g'.copies == g.copies
  {
    var row := g.rows;
    var enabled := Enable(PlaceRegion(g), cfg.selector, row);
    Write(Write(Write(enabled, Cell(Advice(cfg.a), row), x), Cell(Advice(cfg.b), row), y), Cell(Advice(cfg.c), row), z)
  }

  /** A new row that copies `b` and `c` into its `a` and `b` cells and holds their
      sum in its `c` cell, with the selector on. */
  function NewRowGrid(g: Grid, cfg: FiboConfig, b: AssignedCell, c: AssignedCell): (g': Grid)
    requires b.value.Some? && c.value.Some?
    ensures g'.rows == g.rows + 1
    ensures g'.copies == g.copies + {(Cell(Advice(cfg.a), g.rows), b.cell), (Cell(Advice(cfg.b), g.rows), c.cell)}
  {
    var row := g.rows;
    var a, b', c' := Cell(Advice(cfg.a), row), Cell(Advice(cfg.b), row), Cell(Advice(cfg.c), row);
    Grid(g.advice[a := b.value.value][b' := c.value.value][c' := b.value.value + c.value.value],
         g.enabled + {(cfg.selector, row)},
         g.copies + {(a, b.cell), (b', c.cell)},
         g.rows + 1)
  }

  /** What the synthesis loop carries: the grid and the cells `prev_b` and `prev_c`. */
  datatype Carry = Carry(grid: Grid, prevB: AssignedCell, prevC: AssignedCell)

  /** Both carried cells have known values. */
  predicate Known(s: Carry)
  {
    s.prevB.value.Some? && s.prevC.value.Some?
  }

  /** One turn of the loop: a new row from the carried cells, after which the loop
      carries the old `prev_c` and the new `c`. */
  function Turn(cfg: FiboConfig, s: Carry): (t: Carry)
    requires Known(s)
    ensures Known(t) && t.grid.rows == s.grid.rows + 1
  {
    var sum := s.prevB.value.value + s.prevC.value.value;
    Carry(NewRowGrid(s.grid, cfg, s.prevB, s.prevC), s.prevC, AssignedCell(Some(sum), Cell(Advice(cfg.c), s.grid.rows)))
  }

  /** `n` turns of the loop. */
  function Steps(cfg: FiboConfig, s: Carry, n: nat): (t: Carry)
    requires Known(s)
    ensures Known(t) && t.grid.rows == s.grid.rows + n
  {
    if n == 0 then s else Turn(cfg, Steps(cfg, s, n - 1))
  }

  /** The cell carried as `prev_c` after `k` turns started at row `start`. */
  function CurCell(cfg: FiboConfig, c: Cell, start: nat, k: nat): Cell
  {
    if k == 0 then c else Cell(Advice(cfg.c), start + k - 1)
  }

  /** The cell carried as `prev_b` after `k` turns: the previous `prev_c`. */
  function PrevCell(cfg: FiboConfig, b: Cell, c: Cell, start: nat, k: nat): Cell
  {
    if k == 0 then b else CurCell(cfg, c, start, k - 1)
  }

  /** The copy constraints `n` turns record. */
  function ChainCopies(cfg: FiboConfig, b: Cell, c: Cell, start: nat, n: nat): set<(Cell, Cell)>
  {
    if n == 0 then {}
    else
      ChainCopies(cfg, b, c, start, n - 1) +
      {(Cell(Advice(cfg.a), start + n - 1), PrevCell(cfg, b, c, start, n - 1)),
       (Cell(Advice(cfg.b), start + n - 1), CurCell(cfg, c, start, n - 1))}
  }

  /** The first row `x | y | z` placed on `g` with its `a` cell bound to instance
      rows 0 and 1, carrying that row's `b` and `c` cells into the loop. */
  function FirstCarry(g: Grid, cfg: FiboConfig, x: int, y: int, z: int): (s: Carry)
    ensures Known(s) && s.grid.rows == g.rows + 1
  {
    var row := g.rows;
    var first := FirstRowGrid(g, cfg, x, y, z);
    var exposed := Constrain(Constrain(first, Cell(Advice(cfg.a), row), Cell(Instance(cfg.instance), 0)),
                             Cell(Advice(cfg.a), row), Cell(Instance(cfg.instance), 1));
    Carry(exposed, AssignedCell(Some(y), Cell(Advice(cfg.b), row)), AssignedCell(Some(z), Cell(Advice(cfg.c), row)))
  }

  /** The grid `synthesize` builds on `g` when the first row holds `x | y | z`:
      that row and its two bindings, six loop turns, and the last `c` bound to
      instance row 2. */
  function RunGrid(g: Grid, cfg: FiboConfig, x: int, y: int, z: int): Grid
  {
    var last := Steps(cfg, FirstCarry(g, cfg, x, y, z), 6);
    Constrain(last.grid, last.prevC.cell, Cell(Instance(cfg.instance), 2))
  }

  // ---------------------------------------------------------------------------
  // The chip and the circuit

  /** `FiboChip::assign_first_row`: fails with `Error::Synthesis` exactly when a
      witness is missing.  The `b` cell is assigned the witness `a`; the `c` cell
      holds `a + b`. */
  method AssignFirstRow(lay: Layouter, cfg: FiboConfig, a: Option<int>, b: Option<int>)
    returns (r: Result<(AssignedCell, AssignedCell, AssignedCell), Error>)
    modifies lay
    ensures r.Ok? <==> a.Some? && b.Some?
    ensures r.Err? ==> r.error == Synthesis
    ensures r.Ok? ==>
      var row := old(lay.rows);
      && r.value == (AssignedCell(a, Cell(Advice(cfg.a), row)), AssignedCell(a, Cell(Advice(cfg.b), row)),
                     AssignedCell(Some(a.value + b.value), Cell(Advice(cfg.c), row)))
      && lay.Snapshot() == FirstRowGrid(old(lay.Snapshot()), cfg, a.value, a.value, a.value + b.value)
  {
    var region := lay.AssignRegion();
    lay.EnableSelector(cfg.selector, region, 0);
    var aCell := lay.AssignAdvice(cfg.a, region, 0, a);
    if aCell.Err? {
      return Err(aCell.error);
    }
    // the witness `a` again, so this cannot fail once the `a` cell was assigned
    var bCell := lay.AssignAdvice(cfg.b, region, 0, a);
    var c := if a.Some? && b.Some? then Some(a.value + b.value) else None;
    var cCell := lay.AssignAdvice(cfg.c, region, 0, c);
    if cCell.Err? {
      return Err(cCell.error);
    }
    r := Ok((aCell.value, bCell.value, cCell.value));
  }

  /** `FiboChip::assign_new_raw`: copies `prevB` into the `a` column and `prevC`
      into the `b` column, then assigns their sum to `c`.  The errors are those of
      the two copies, in order: a missing value, then a column not enabled for
      equality.  The sum is known once both copies succeeded. */
  method AssignNewRow(lay: Layouter, cfg: FiboConfig, prevB: AssignedCell, prevC: AssignedCell)
    returns (r: Result<AssignedCell, Error>)
    requires Placed(lay.Snapshot(), prevB.cell) && Placed(lay.Snapshot(), prevC.cell)
    modifies lay
    ensures r.Ok? <==>
      && prevB.value.Some? && prevC.value.Some?
      && Advice(cfg.a) in lay.equality && prevB.cell.column in lay.equality
      && Advice(cfg.b) in lay.equality && prevC.cell.column in lay.equality
    ensures r.Err? ==>
      r.error == (if prevB.value.None? then Synthesis
                  else if Advice(cfg.a) !in lay.equality || prevB.cell.column !in lay.equality then ColumnNotInPermutation
                  else if prevC.value.None? then Synthesis
                  else ColumnNotInPermutation)
    ensures r.Ok? ==>
      && r.value == AssignedCell(Some(prevB.value.value + prevC.value.value), Cell(Advice(cfg.c), old(lay.rows)))
      && lay.Snapshot() == NewRowGrid(old(lay.Snapshot()), cfg, prevB, prevC)
  {
    ghost var g := lay.Snapshot();
    var region := lay.AssignRegion();
    lay.EnableSelector(cfg.selector, region, 0);
    ghost var placed := lay.Snapshot();
    var copiedB := lay.CopyAdvice(prevB, cfg.a, region, 0);
    if copiedB.Err? {
      return Err(copiedB.error);
    }
    ghost var withB := lay.Snapshot();
    assert withB == Constrain(Write(placed, Cell(Advice(cfg.a), g.rows), prevB.value.value), Cell(Advice(cfg.a), g.rows), prevB.cell);
    var copiedC := lay.CopyAdvice(prevC, cfg.b, region, 0);
    if copiedC.Err? {
      return Err(copiedC.error);
    }
    assert lay.Snapshot() == Constrain(Write(withB, Cell(Advice(cfg.b), g.rows), prevC.value.value), Cell(Advice(cfg.b), g.rows), prevC.cell);
    var c := if prevB.value.Some? && prevC.value.Some? then Some(prevB.value.value + prevC.value.value) else None;
    r := lay.AssignAdvice(cfg.c, region, 0, c);
  }

  /** `FiboChip::expose_public`: binds `cell` to row `row` of the instance column. */
  method ExposePublic(lay: Layouter, cfg: FiboConfig, cell: AssignedCell, row: nat) returns (r: Outcome<Error>)
    requires Placed(lay.Snapshot(), cell.cell)
    modifies lay
    ensures r.Pass? <==> cell.cell.column in lay.equality && Instance(cfg.instance) in lay.equality
    ensures r.Pass? ==> lay.Snapshot() == Constrain(old(lay.Snapshot()), cell.cell, Cell(Instance(cfg.instance), row))
    ensures r.Fail? ==> r.error == ColumnNotInPermutation && lay.Snapshot() == old(lay.Snapshot())
  {
    r := lay.ConstrainInstance(cell.cell, cfg.instance, row);
  }

  /** `MyCircuit::synthesize` on the configuration `configure` built: fails with
      `Error::Synthesis` exactly when a witness is missing, and otherwise builds
      `RunGrid` with the first row `a | a | a + b`. */
  method Synthesize(lay: Layouter, cfg: FiboConfig, a: Option<int>, b: Option<int>) returns (r: Outcome<Error>)
    requires EqualityColumns(cfg) <= lay.equality
    modifies lay
    ensures r.Pass? <==> a.Some? && b.Some?
    ensures r.Fail? ==> r.error == Synthesis
    ensures r.Pass? ==> lay.Snapshot() == RunGrid(old(lay.Snapshot()), cfg, a.value, a.value, a.value + b.value)
  {
    var first := AssignFirstRow(lay, cfg, a, b);
    if first.Err? {
      return Fail(first.error);
    }
    var (prevA, prevB, prevC) := first.value;
    // every column involved is enabled for equality, so no exposure or copy fails
    var exposed := ExposePublic(lay, cfg, prevA, 0);
    exposed := ExposePublic(lay, cfg, prevA, 1);
    ghost var start := Carry(lay.Snapshot(), prevB, prevC);
    for i := 3 to 9
      invariant Carry(lay.Snapshot(), prevB, prevC) == Steps(cfg, start, i - 3)
      invariant Placed(lay.Snapshot(), prevB.cell) && Placed(lay.Snapshot(), prevC.cell)
      invariant prevB.cell.column in lay.equality && prevC.cell.column in lay.equality
    {
      ghost var before := Carry(lay.Snapshot(), prevB, prevC);
      var newC := AssignNewRow(lay, cfg, prevB, prevC);
      ghost var t := Turn(cfg, before);
      assert t.grid == lay.Snapshot() && t.prevB == prevC && t.prevC == newC.value;
      prevB, prevC := prevC, newC.value;
    }
    exposed := ExposePublic(lay, cfg, prevC, 2);
    r := Pass;
  }

  // ---------------------------------------------------------------------------
  // What the rows compute and what they constrain

  /** The first row satisfies the gate exactly when `x + y - z` vanishes in the field. */
  lemma FirstRowHoldsIff(p: Modulus, cfg: FiboConfig, g: Grid, x: int, y: int, z: int)
    requires DistinctColumns(cfg)
    ensures RowHolds(p, [AddGate(cfg)], FirstRowGrid(g, cfg, x, y, z), g.rows) <==> (x + y - z) % p == 0
  {
    var g' := FirstRowGrid(g, cfg, x, y, z);
    var q := Difference(Sum(AdviceQuery(cfg.a), AdviceQuery(cfg.b)), AdviceQuery(cfg.c));
    SingleGateRow(p, "add", Product(SelectorQuery(cfg.selector), q), g', g.rows);
    assert Selectors(q) == {} by {
      assert Selectors(Sum(AdviceQuery(cfg.a), AdviceQuery(cfg.b))) == {};
    }
    SelectedPolyHolds(p, cfg.selector, q, g', g.rows);
    assert Value(Sum(AdviceQuery(cfg.a), AdviceQuery(cfg.b)), g', g.rows) == Some(x + y);
    assert Value(q, g', g.rows) == Some(x + y - z);
  }

  /** A new row satisfies the gate whatever it copies: its `c` is the sum. */
  lemma NewRowHolds(p: Modulus, cfg: FiboConfig, g: Grid, b: AssignedCell, c: AssignedCell)
    requires DistinctColumns(cfg) && b.value.Some? && c.value.Some?
    ensures RowHolds(p, [AddGate(cfg)], NewRowGrid(g, cfg, b, c), g.rows)
  {
    var g' := NewRowGrid(g, cfg, b, c);
    var q := Difference(Sum(AdviceQuery(cfg.a), AdviceQuery(cfg.b)), AdviceQuery(cfg.c));
    SingleGateRow(p, "add", Product(SelectorQuery(cfg.selector), q), g', g.rows);
    assert Selectors(q) == {} by {
      assert Selectors(Sum(AdviceQuery(cfg.a), AdviceQuery(cfg.b))) == {};
    }
    SelectedPolyHolds(p, cfg.selector, q, g', g.rows);
    assert RowIs(g', cfg, g.rows, b.value.value, c.value.value, b.value.value + c.value.value);
    assert Value(Sum(AdviceQuery(cfg.a), AdviceQuery(cfg.b)), g', g.rows) == Some(b.value.value + c.value.value);
    assert Value(q, g', g.rows) == Some(0);
  }

  /** The first row keeps the grid well formed and holds `x | y | z`. */
  lemma FirstRowFacts(cfg: FiboConfig, g: Grid, x: int, y: int, z: int)
    requires ValidGrid(g) && DistinctColumns(cfg)
    ensures var g' := FirstRowGrid(g, cfg, x, y, z);
      ValidGrid(g') && Extends(g, g') && RowIs(g', cfg, g.rows, x, y, z)
  {
  }

  /** The carried cells read their values in a well-formed grid. */
  ghost predicate Consistent(s: Carry)
  {
    ValidGrid(s.grid) && Tracks(s.grid, s.prevB) && Tracks(s.grid, s.prevC)
  }

  /** A turn keeps the carry consistent and only adds its row, which holds
      `b | c | b + c` for the carried values `b` and `c`. */
  lemma TurnFacts(cfg: FiboConfig, s: Carry)
    requires DistinctColumns(cfg) && Consistent(s)
    ensures var t, b, c := Turn(cfg, s), s.prevB.value.value, s.prevC.value.value;
      && Consistent(t) && Extends(s.grid, t.grid)
      && RowIs(t.grid, cfg, s.grid.rows, b, c, b + c)
  {
    var t := Turn(cfg, s);
    ExtendsKeepsTracks(s.grid, t.grid, s.prevC);
  }

  /** The row a turn adds holds `b | c | b + c` for the carried values `b` and `c`. */
  lemma TurnNewRow(cfg: FiboConfig, s: Carry)
    requires DistinctColumns(cfg) && Known(s)
    ensures var b, c := s.prevB.value.value, s.prevC.value.value;
      RowIs(Turn(cfg, s).grid, cfg, s.grid.rows, b, c, b + c)
  {
  }

  /** A turn leaves the rows above it as they were. */
  lemma TurnKeepsRow(cfg: FiboConfig, s: Carry, row: nat, x: int, y: int, z: int)
    requires Known(s) && row < s.grid.rows && RowIs(s.grid, cfg, row, x, y, z)
    ensures RowIs(Turn(cfg, s).grid, cfg, row, x, y, z)
  {
  }

  /** A turn leaves the gates as they were. */
  lemma TurnKeepsGates(p: Modulus, cfg: FiboConfig, s: Carry)
    requires DistinctColumns(cfg) && Consistent(s)
    ensures GatesHold(p, [AddGate(cfg)], Turn(cfg, s).grid) <==> GatesHold(p, [AddGate(cfg)], s.grid)
  {
    TurnFacts(cfg, s);
    ExtendsGates(p, [AddGate(cfg)], s.grid, Turn(cfg, s).grid);
    NewRowHolds(p, cfg, s.grid, s.prevB, s.prevC);
  }

  /** A turn leaves the copy constraints as they were: both copies it records
      join cells of equal value. */
  lemma TurnKeepsCopies(p: Modulus, cfg: FiboConfig, s: Carry, instance: seq<seq<int>>)
    requires DistinctColumns(cfg) && Consistent(s)
    ensures CopiesHold(p, Turn(cfg, s).grid, instance) <==> CopiesHold(p, s.grid, instance)
  {
    var g := Turn(cfg, s).grid;
    TurnFacts(cfg, s);
    ExtendsCopies(p, s.grid, g, instance);
    assert CopyHolds(p, g, instance, (Cell(Advice(cfg.a), s.grid.rows), s.prevB.cell));
    assert CopyHolds(p, g, instance, (Cell(Advice(cfg.b), s.grid.rows), s.prevC.cell));
  }

  /** `n` turns keep the carry consistent. */
  lemma StepsConsistent(cfg: FiboConfig, s: Carry, n: nat)
    requires DistinctColumns(cfg) && Known(s) && Consistent(s)
    ensures Consistent(Steps(cfg, s, n))
  {
    forall t: Carry {:trigger Turn(cfg, t)} | Known(t) && Consistent(t)
      ensures Consistent(Turn(cfg, t))
    {
      TurnFacts(cfg, t);
    }
    StepsPreserve(cfg, s, n, Consistent, g => true);
  }

  /** `n` turns leave the rows above them as they were. */
  lemma {:induction false} StepsKeepRow(cfg: FiboConfig, s: Carry, n: nat, row: nat, x: int, y: int, z: int)
    requires Known(s) && row < s.grid.rows && RowIs(s.grid, cfg, row, x, y, z)
    ensures RowIs(Steps(cfg, s, n).grid, cfg, row, x, y, z)
  {
    if n > 0 {
      StepsKeepRow(cfg, s, n - 1, row, x, y, z);
      TurnKeepsRow(cfg, Steps(cfg, s, n - 1), row, x, y, z);
    }
  }

  /** After `n` turns from carried values `x` and `y`, the carried cells hold the
      terms `n` and `n + 1` of the recurrence. */
  lemma {:induction false} StepsValues(cfg: FiboConfig, s: Carry, n: nat)
    requires Known(s)
    ensures var t, x, y := Steps(cfg, s, n), s.prevB.value.value, s.prevC.value.value;
      t.prevB.value.value == Fib(x, y, n) && t.prevC.value.value == Fib(x, y, n + 1)
  {
    if n > 0 {
      StepsValues(cfg, s, n - 1);
    }
  }

  /** After `n` turns the carried cells are the ones the loop names: `prev_c` is
      the last row's `c` cell and `prev_b` the one before it. */
  lemma {:induction false} StepsCells(cfg: FiboConfig, s: Carry, n: nat)
    requires Known(s)
    ensures var t := Steps(cfg, s, n);
      && t.prevB.cell == PrevCell(cfg, s.prevB.cell, s.prevC.cell, s.grid.rows, n)
      && t.prevC.cell == CurCell(cfg, s.prevC.cell, s.grid.rows, n)
  {
    if n > 0 {
      StepsCells(cfg, s, n - 1);
    }
  }

  /** The copies `n` turns record are `ChainCopies`. */
  lemma {:induction false} StepsCopies(cfg: FiboConfig, s: Carry, n: nat)
    requires Known(s)
    ensures Steps(cfg, s, n).grid.copies == s.grid.copies + ChainCopies(cfg, s.prevB.cell, s.prevC.cell, s.grid.rows, n)
  {
    if n > 0 {
      var r := Steps(cfg, s, n - 1);
      var chain := ChainCopies(cfg, s.prevB.cell, s.prevC.cell, s.grid.rows, n - 1);
      var added := {(Cell(Advice(cfg.a), r.grid.rows), r.prevB.cell), (Cell(Advice(cfg.b), r.grid.rows), r.prevC.cell)};
      assert Steps(cfg, s, n) == Turn(cfg, r);
      assert r.grid.copies == s.grid.copies + chain by {
        StepsCopies(cfg, s, n - 1);
      }
      assert r.prevB.cell == PrevCell(cfg, s.prevB.cell, s.prevC.cell, s.grid.rows, n - 1)
          && r.prevC.cell == CurCell(cfg, s.prevC.cell, s.grid.rows, n - 1) by {
        StepsCells(cfg, s, n - 1);
      }
      assert chain + added == ChainCopies(cfg, s.prevB.cell, s.prevC.cell, s.grid.rows, n);
      assert (s.grid.copies + chain) + added == s.grid.copies + (chain + added);
    }
  }

  /** Row `start + k` of `g` holds the terms `k`, `k + 1` and `k + 2` of the
      recurrence seeded with `x` and `y`. */
  predicate TableRow(g: Grid, cfg: FiboConfig, start: nat, x: int, y: int, k: nat)
  {
    RowIs(g, cfg, start + k, Fib(x, y, k), Fib(x, y, k + 1), Fib(x, y, k + 2))
  }

  /** The `n` rows that `n` turns from carried values `x` and `y` add hold
      consecutive terms of the recurrence seeded with `x` and `y`. */
  lemma {:induction false} StepsTable(cfg: FiboConfig, s: Carry, n: nat)
    requires DistinctColumns(cfg) && Known(s)
    ensures forall k: nat :: k < n ==>
      TableRow(Steps(cfg, s, n).grid, cfg, s.grid.rows, s.prevB.value.value, s.prevC.value.value, k)
  {
    if n > 0 {
      var x, y, start := s.prevB.value.value, s.prevC.value.value, s.grid.rows;
      var r := Steps(cfg, s, n - 1);
      var t := Turn(cfg, r);
      assert Steps(cfg, s, n) == t;
      assert forall k: nat :: k < n - 1 ==> TableRow(r.grid, cfg, start, x, y, k) by {
        StepsTable(cfg, s, n - 1);
      }
      assert TableRow(t.grid, cfg, start, x, y, n - 1) by {
        StepsValues(cfg, s, n - 1);
        TurnNewRow(cfg, r);
      }
      forall k: nat | k < n - 1
        ensures TableRow(t.grid, cfg, start, x, y, k)
      {
        assert TableRow(r.grid, cfg, start, x, y, k);
        TurnKeepsRow(cfg, r, start + k, Fib(x, y, k), Fib(x, y, k + 1), Fib(x, y, k + 2));
      }
    }
  }

  /** Induction over the loop: an invariant of the carry that every turn keeps,
      and a property of the grid no turn changes, hold after `n` turns. */
  lemma {:induction false} StepsPreserve(cfg: FiboConfig, s: Carry, n: nat, Inv: Carry -> bool, P: Grid -> bool)
    requires Known(s) && Inv(s)
    requires forall t: Carry {:trigger Turn(cfg, t)} :: Known(t) && Inv(t) ==>
      Inv(Turn(cfg, t)) && P(Turn(cfg, t).grid) == P(t.grid)
    ensures Inv(Steps(cfg, s, n)) && P(Steps(cfg, s, n).grid) == P(s.grid)
  {
    if n > 0 {
      var r := Steps(cfg, s, n - 1);
      assert Steps(cfg, s, n) == Turn(cfg, r);
      StepsPreserve(cfg, s, n - 1, Inv, P);
    }
  }

  /** `n` turns leave the gates as they were. */
  lemma StepsKeepGates(p: Modulus, cfg: FiboConfig, s: Carry, n: nat)
    requires DistinctColumns(cfg) && Known(s) && Consistent(s)
    ensures GatesHold(p, [AddGate(cfg)], Steps(cfg, s, n).grid) <==> GatesHold(p, [AddGate(cfg)], s.grid)
  {
    forall t: Carry {:trigger Turn(cfg, t)} | Known(t) && Consistent(t)
      ensures Consistent(Turn(cfg, t))
      ensures GatesHold(p, [AddGate(cfg)], Turn(cfg, t).grid) == GatesHold(p, [AddGate(cfg)], t.grid)
    {
      TurnFacts(cfg, t);
      TurnKeepsGates(p, cfg, t);
    }
    StepsPreserve(cfg, s, n, Consistent, g => GatesHold(p, [AddGate(cfg)], g));
  }

  /** `n` turns leave the copy constraints as they were. */
  lemma StepsKeepCopies(p: Modulus, cfg: FiboConfig, s: Carry, n: nat, instance: seq<seq<int>>)
    requires DistinctColumns(cfg) && Known(s) && Consistent(s)
    ensures CopiesHold(p, Steps(cfg, s, n).grid, instance) <==> CopiesHold(p, s.grid, instance)
  {
    forall t: Carry {:trigger Turn(cfg, t)} | Known(t) && Consistent(t)
      ensures Consistent(Turn(cfg, t))
      ensures CopiesHold(p, Turn(cfg, t).grid, instance) == CopiesHold(p, t.grid, instance)
    {
      TurnFacts(cfg, t);
      TurnKeepsCopies(p, cfg, t, instance);
    }
    StepsPreserve(cfg, s, n, Consistent, g => CopiesHold(p, g, instance));
  }

  /** From an empty grid, the first carry is consistent: one row `x | y | z`
      and the two bindings of its `a` cell. */
  lemma FirstCarryFacts(cfg: FiboConfig, x: int, y: int, z: int)
    requires DistinctColumns(cfg)
    ensures var s := FirstCarry(EmptyGrid(), cfg, x, y, z);
      && Consistent(s)
      && RowIs(s.grid, cfg, 0, x, y, z)
      && s.grid == FirstRowGrid(EmptyGrid(), cfg, x, y, z).(copies := s.grid.copies)
      && s.grid.copies == {(Cell(Advice(cfg.a), 0), Cell(Instance(cfg.instance), 0)),
                           (Cell(Advice(cfg.a), 0), Cell(Instance(cfg.instance), 1))}
  {
    FirstRowFacts(cfg, EmptyGrid(), x, y, z);
  }

  /** The rows of the synthesized grid: the first `x | y | z`, then six rows of
      consecutive terms seeded by `y` and `z`. */
  lemma RunRows(cfg: FiboConfig, x: int, y: int, z: int)
    requires DistinctColumns(cfg)
    ensures var g := RunGrid(EmptyGrid(), cfg, x, y, z);
      && g.rows == 7
      && RowIs(g, cfg, 0, x, y, z)
      && (forall k: nat :: k < 6 ==> TableRow(g, cfg, 1, y, z, k))
  {
    var s := FirstCarry(EmptyGrid(), cfg, x, y, z);
    var last := Steps(cfg, s, 6);
    var g := RunGrid(EmptyGrid(), cfg, x, y, z);
    assert g.advice == last.grid.advice && g.rows == last.grid.rows;
    assert RowIs(last.grid, cfg, 0, x, y, z) by {
      FirstCarryFacts(cfg, x, y, z);
      StepsKeepRow(cfg, s, 6, 0, x, y, z);
    }
    assert forall k: nat :: k < 6 ==> TableRow(last.grid, cfg, 1, y, z, k) by {
      FirstCarryFacts(cfg, x, y, z);
      StepsTable(cfg, s, 6);
    }
    forall k: nat | k < 6
      ensures TableRow(g, cfg, 1, y, z, k)
    {
      assert TableRow(last.grid, cfg, 1, y, z, k);
    }
  }

  /** The copies of the synthesized grid: the three instance bindings and the
      loop's copies. */
  lemma RunCopies(cfg: FiboConfig, x: int, y: int, z: int)
    requires DistinctColumns(cfg)
    ensures RunGrid(EmptyGrid(), cfg, x, y, z).copies ==
      {(Cell(Advice(cfg.a), 0), Cell(Instance(cfg.instance), 0)),
       (Cell(Advice(cfg.a), 0), Cell(Instance(cfg.instance), 1)),
       (Cell(Advice(cfg.c), 6), Cell(Instance(cfg.instance), 2))}
      + ChainCopies(cfg, Cell(Advice(cfg.b), 0), Cell(Advice(cfg.c), 0), 1, 6)
  {
    var s := FirstCarry(EmptyGrid(), cfg, x, y, z);
    var last := Steps(cfg, s, 6);
    var bound := {(Cell(Advice(cfg.a), 0), Cell(Instance(cfg.instance), 0)),
                  (Cell(Advice(cfg.a), 0), Cell(Instance(cfg.instance), 1))};
    var chain := ChainCopies(cfg, Cell(Advice(cfg.b), 0), Cell(Advice(cfg.c), 0), 1, 6);
    var third := (Cell(Advice(cfg.c), 6), Cell(Instance(cfg.instance), 2));
    assert s.grid.copies == bound && s.prevB.cell == Cell(Advice(cfg.b), 0) && s.prevC.cell == Cell(Advice(cfg.c), 0) by {
      FirstCarryFacts(cfg, x, y, z);
    }
    assert last.grid.copies == bound + chain by {
      StepsCopies(cfg, s, 6);
    }
    assert last.prevC.cell == Cell(Advice(cfg.c), 6) by {
      StepsCells(cfg, s, 6);
    }
    assert RunGrid(EmptyGrid(), cfg, x, y, z).copies == bound + chain + {third};
  }

  /** Row by row, the copies the loop records: row 1 copies the first row's `b`
      and `c`; every later row copies the `c` two rows up and the `c` just above. */
  lemma {:induction false} ChainCopiesMembers(cfg: FiboConfig, b: Cell, c: Cell, start: nat, n: nat)
    ensures n >= 1 ==>
      && (Cell(Advice(cfg.a), start), b) in ChainCopies(cfg, b, c, start, n)
      && (Cell(Advice(cfg.b), start), c) in ChainCopies(cfg, b, c, start, n)
    ensures n >= 2 ==>
      && (Cell(Advice(cfg.a), start + 1), c) in ChainCopies(cfg, b, c, start, n)
      && (Cell(Advice(cfg.b), start + 1), Cell(Advice(cfg.c), start)) in ChainCopies(cfg, b, c, start, n)
    ensures forall row: nat :: start + 2 <= row < start + n ==>
      && (Cell(Advice(cfg.a), row), Cell(Advice(cfg.c), row - 2)) in ChainCopies(cfg, b, c, start, n)
      && (Cell(Advice(cfg.b), row), Cell(Advice(cfg.c), row - 1)) in ChainCopies(cfg, b, c, start, n)
  {
    if n > 0 {
      ChainCopiesMembers(cfg, b, c, start, n - 1);
    }
  }

  /** The grid `synthesize` builds satisfies the circuit exactly when the first
      row satisfies the gate, instance rows 0 and 1 equal the first row's `a`, and
      instance row 2 equals the seventh term seeded by the first row's `b` and `c`. */
  lemma RunSatisfiedIff(p: Modulus, shape: Shape, cfg: FiboConfig, x: int, y: int, z: int, instance: seq<seq<int>>)
    requires DistinctColumns(cfg) && shape.gates == [AddGate(cfg)]
    ensures Satisfied(p, shape, RunGrid(EmptyGrid(), cfg, x, y, z), instance) <==>
      && |instance| == shape.numInstance
      && (x + y - z) % p == 0
      && InstanceAt(instance, cfg.instance, 0) % p == x % p
      && InstanceAt(instance, cfg.instance, 1) % p == x % p
      && InstanceAt(instance, cfg.instance, 2) % p == Fib(y, z, 7) % p
  {
    RunGatesIff(p, cfg, x, y, z);
    RunCopiesIff(p, cfg, x, y, z, instance);
  }

  /** The gates of the synthesized grid hold exactly when the first row's do. */
  lemma RunGatesIff(p: Modulus, cfg: FiboConfig, x: int, y: int, z: int)
    requires DistinctColumns(cfg)
    ensures GatesHold(p, [AddGate(cfg)], RunGrid(EmptyGrid(), cfg, x, y, z)) <==> (x + y - z) % p == 0
  {
    var gates := [AddGate(cfg)];
    var g0 := EmptyGrid();
    var first := FirstRowGrid(g0, cfg, x, y, z);
    var s := FirstCarry(g0, cfg, x, y, z);
    var last := Steps(cfg, s, 6);
    var g := RunGrid(g0, cfg, x, y, z);
    assert GatesHold(p, gates, first) <==> (x + y - z) % p == 0 by {
      FirstRowFacts(cfg, g0, x, y, z);
      PlacedRowsDecide(p, gates, g0);
      ExtendsGates(p, gates, g0, first);
      FirstRowHoldsIff(p, cfg, g0, x, y, z);
    }
    assert GatesHold(p, gates, last.grid) <==> GatesHold(p, gates, first) by {
      FirstCarryFacts(cfg, x, y, z);
      GatesIgnoreCopies(p, gates, first, s.grid.copies);
      StepsKeepGates(p, cfg, s, 6);
    }
    assert GatesHold(p, gates, g) <==> GatesHold(p, gates, last.grid) by {
      GatesIgnoreCopies(p, gates, last.grid, g.copies);
      assert last.grid.(copies := g.copies) == g;
    }
  }

  /** The copy constraints of the synthesized grid hold exactly when the public
      input matches the first row's `a` twice and the last `c`. */
  lemma RunCopiesIff(p: Modulus, cfg: FiboConfig, x: int, y: int, z: int, instance: seq<seq<int>>)
    requires DistinctColumns(cfg)
    ensures CopiesHold(p, RunGrid(EmptyGrid(), cfg, x, y, z), instance) <==>
      && InstanceAt(instance, cfg.instance, 0) % p == x % p
      && InstanceAt(instance, cfg.instance, 1) % p == x % p
      && InstanceAt(instance, cfg.instance, 2) % p == Fib(y, z, 7) % p
  {
    var s := FirstCarry(EmptyGrid(), cfg, x, y, z);
    var last := Steps(cfg, s, 6);
    var out := Cell(Instance(cfg.instance), 2);
    assert CopiesHold(p, last.grid, instance) <==> CopiesHold(p, s.grid, instance) by {
      FirstCarryFacts(cfg, x, y, z);
      StepsKeepCopies(p, cfg, s, 6, instance);
    }
    FirstBindingsIff(p, cfg, x, y, z, instance);
    LastBindingIff(p, cfg, x, y, z, instance);
    ConstrainCopies(p, last.grid, last.prevC.cell, out, instance);
  }

  /** The two bindings of the first row's `a` cell hold exactly when instance rows
      0 and 1 equal `x` in the field. */
  lemma FirstBindingsIff(p: Modulus, cfg: FiboConfig, x: int, y: int, z: int, instance: seq<seq<int>>)
    requires DistinctColumns(cfg)
    ensures CopiesHold(p, FirstCarry(EmptyGrid(), cfg, x, y, z).grid, instance) <==>
      && InstanceAt(instance, cfg.instance, 0) % p == x % p
      && InstanceAt(instance, cfg.instance, 1) % p == x % p
  {
    var g := FirstCarry(EmptyGrid(), cfg, x, y, z).grid;
    FirstCarryFacts(cfg, x, y, z);
    assert CopyHolds(p, g, instance, (Cell(Advice(cfg.a), 0), Cell(Instance(cfg.instance), 0))) <==>
      InstanceAt(instance, cfg.instance, 0) % p == x % p;
    assert CopyHolds(p, g, instance, (Cell(Advice(cfg.a), 0), Cell(Instance(cfg.instance), 1))) <==>
      InstanceAt(instance, cfg.instance, 1) % p == x % p;
  }

  /** After the six turns, binding the carried `c` to instance row 2 holds exactly
      when that row equals the seventh term seeded by `y` and `z`. */
  lemma LastBindingIff(p: Modulus, cfg: FiboConfig, x: int, y: int, z: int, instance: seq<seq<int>>)
    requires DistinctColumns(cfg)
    ensures var last := Steps(cfg, FirstCarry(EmptyGrid(), cfg, x, y, z), 6);
      CopyHolds(p, last.grid, instance, (last.prevC.cell, Cell(Instance(cfg.instance), 2))) <==>
        InstanceAt(instance, cfg.instance, 2) % p == Fib(y, z, 7) % p
  {
    var s := FirstCarry(EmptyGrid(), cfg, x, y, z);
    FirstCarryFacts(cfg, x, y, z);
    StepsConsistent(cfg, s, 6);
    StepsValues(cfg, s, 6);
  }

  /** `MyCircuit` as written: the circuit is satisfied exactly when the witnesses
      are equal in the field and the public input is `a, a, 21a + 13b`. */
  lemma SynthesizedSatisfiedIff(p: Modulus, shape: Shape, cfg: FiboConfig, a: int, b: int, instance: seq<seq<int>>)
    requires DistinctColumns(cfg) && shape.gates == [AddGate(cfg)]
    ensures Satisfied(p, shape, RunGrid(EmptyGrid(), cfg, a, a, a + b), instance) <==>
      && |instance| == shape.numInstance
      && a % p == b % p
      && InstanceAt(instance, cfg.instance, 0) % p == a % p
      && InstanceAt(instance, cfg.instance, 1) % p == a % p
      && InstanceAt(instance, cfg.instance, 2) % p == (21 * a + 13 * b) % p
  {
    assert (a + a - (a + b)) % p == 0 <==> a % p == b % p by {
      CongruentIffDifferenceVanishes(p, a, b);
      assert a + a - (a + b) == a - b;
    }
    assert Fib(a, a + b, 7) == 21 * a + 13 * b by {
      FibSeven(a, a + b);
    }
    RunSatisfiedIff(p, shape, cfg, a, a, a + b, instance);
  }

  /** With the `b` cell assigned the witness `b`, the first row always satisfies
      the gate, and the circuit is satisfied exactly when the public input is
      `a, a, 13a + 21b`: the Fibonacci term eight places after the seeds. */
  lemma IntendedSatisfiedIff(p: Modulus, shape: Shape, cfg: FiboConfig, a: int, b: int, instance: seq<seq<int>>)
    requires DistinctColumns(cfg) && shape.gates == [AddGate(cfg)]
    ensures Satisfied(p, shape, RunGrid(EmptyGrid(), cfg, a, b, a + b), instance) <==>
      && |instance| == shape.numInstance
      && InstanceAt(instance, cfg.instance, 0) % p == a % p
      && InstanceAt(instance, cfg.instance, 1) % p == a % p
      && InstanceAt(instance, cfg.instance, 2) % p == Fib(a, b, 8) % p
    ensures Fib(a, b, 8) == 13 * a + 21 * b
  {
    assert (a + b - (a + b)) % p == 0;
    assert Fib(b, a + b, 7) == Fib(a, b, 8) by {
      FibShift(a, b, 7);
    }
    assert Fib(a, b, 8) == 13 * a + 21 * b by {
      FibEight(a, b);
    }
    RunSatisfiedIff(p, shape, cfg, a, b, a + b, instance);
  }

  /** With the witnesses `a = 2`, `b = 3` of BN254's scalar field no public input
      satisfies the circuit as written: the first row holds `2 | 2 | 5`. */
  lemma FirstRowMismatchRejected(shape: Shape, instance: seq<seq<int>>)
    requires shape.gates == [AddGate(FiboConfig(0, 1, 2, 0, 0))]
    ensures !Satisfied(FrModulus, shape, RunGrid(EmptyGrid(), FiboConfig(0, 1, 2, 0, 0), 2, 2, 2 + 3), instance)
  {
    SynthesizedSatisfiedIff(FrModulus, shape, FiboConfig(0, 1, 2, 0, 0), 2, 3, instance);
  }

  /** `main` with the witnesses `1, 1` and the public input `1, 1, 34`:
      satisfied.  Stated for any layout `configure` can produce with the
      instance column first, as `main`'s own is. */
  lemma MainWithInstanceAccepted(shape: Shape, cfg: FiboConfig)
    requires DistinctColumns(cfg) && cfg.instance == 0
    requires shape.gates == [AddGate(cfg)] && shape.numInstance == 1
    ensures Satisfied(FrModulus, shape, RunGrid(EmptyGrid(), cfg, 1, 1, 1 + 1), [[1, 1, 34]])
  {
    SynthesizedSatisfiedIff(FrModulus, shape, cfg, 1, 1, [[1, 1, 34]]);
  }
}
