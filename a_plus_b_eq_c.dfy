/** The `a + b = c` chip: each `assign` lays out one row `a | b | c` with
    `c = b + a` and the gate `s * (a + b - c)` on; `synthesize` assigns three such
    rows from the same witnesses and binds the last `c` to row 0 of the public
    instance column.  Only `c` and the instance column are enabled for equality. */
module APlusBEqC {
  import opened Wrappers
  import opened Field
  import opened Cells
  import opened Expression
  import opened Configuration
  import opened Layouter
  import opened Verifier

  /** The columns and the selector `configure` allocates (`out` is the instance column). */
  datatype APlusBEqCConfig = APlusBEqCConfig(a: nat, b: nat, c: nat, out: nat, s: nat)

  /** The three advice columns are distinct, as `configure` makes them. */
  predicate DistinctColumns(cfg: APlusBEqCConfig)
  {
    cfg.a != cfg.b && cfg.b != cfg.c && cfg.a != cfg.c
  }

  /** The gate "a+b=c": `s * (a + b - c)` must vanish. */
  function SumGate(cfg: APlusBEqCConfig): Gate
  {
    Gate("a+b=c", [Product(SelectorQuery(cfg.s), Difference(Sum(AdviceQuery(cfg.a), AdviceQuery(cfg.b)), AdviceQuery(cfg.c)))])
  }

  /** `APlusBEqCChip::configure`: three advice columns, one instance column, one
      selector; the instance column and `c` are enabled for equality; one gate. */
  method Configure(meta: ConstraintSystem) returns (cfg: APlusBEqCConfig)
    modifies meta
    ensures cfg == APlusBEqCConfig(old(meta.numAdvice), old(meta.numAdvice) + 1, old(meta.numAdvice) + 2,
                                   old(meta.numInstance), old(meta.numSelectors))
    ensures DistinctColumns(cfg)
    ensures meta.Snapshot() == old(meta.Snapshot()).(
      numAdvice := old(meta.numAdvice) + 3,
      numInstance := old(meta.numInstance) + 1,
      numSelectors := old(meta.numSelectors) + 1,
      equality := old(meta.equality) + {Instance(cfg.out), Advice(cfg.c)},
      gates := old(meta.gates) + [SumGate(cfg)])
  {
    var a := meta.AdviceColumn();
    var b := meta.AdviceColumn();
    var c := meta.AdviceColumn();
    var out := meta.InstanceColumn();
    var s := meta.Selector();
    meta.EnableEquality(Instance(out));
    meta.EnableEquality(Advice(c));
    cfg := APlusBEqCConfig(a, b, c, out, s);
    meta.CreateGate("a+b=c", SumGate(cfg).polys);
  }

  /** A new row `x | y | z` with the selector on, whatever the three values:
      the row a prover could fill in freely. */
  function RowGrid(g: Grid, cfg: APlusBEqCConfig, x: int, y: int, z: int): (g': Grid)
    ensures g'.rows == g.rows + 1 && g'.copies == g.copies
  {
    var row := g.rows;
    var enabled := Enable(PlaceRegion(g), cfg.s, row);
    Write(Write(Write(enabled, Cell(Advice(cfg.a), row), x), Cell(Advice(cfg.b), row), y), Cell(Advice(cfg.c), row), z)
  }

  /** The gate is sound: on a row `x | y | z` with the selector on, it holds
      exactly when `z` is `x + y` in the field. */
  lemma GateHoldsIff(p: Modulus, cfg: APlusBEqCConfig, g: Grid, x: int, y: int, z: int)
    requires DistinctColumns(cfg)
    ensures RowHolds(p, [SumGate(cfg)], RowGrid(g, cfg, x, y, z), g.rows) <==> z % p == (x + y) % p
  {
    var g' := RowGrid(g, cfg, x, y, z);
    var q := Difference(Sum(AdviceQuery(cfg.a), AdviceQuery(cfg.b)), AdviceQuery(cfg.c));
    SingleGateRow(p, "a+b=c", Product(SelectorQuery(cfg.s), q), g', g.rows);
    assert Selectors(q) == {} by {
      assert Selectors(Sum(AdviceQuery(cfg.a), AdviceQuery(cfg.b))) == {};
    }
    SelectedPolyHolds(p, cfg.s, q, g', g.rows);
    assert Value(Sum(AdviceQuery(cfg.a), AdviceQuery(cfg.b)), g', g.rows) == Some(x + y);
    assert Value(q, g', g.rows) == Some(x + y - z);
    CongruentIffDifferenceVanishes(p, x + y, z);
  }

  /** The grid after one successful `assign` on `g`: a new row `a | b | b + a`
      with the selector on. */
  function RegionGrid(g: Grid, cfg: APlusBEqCConfig, a: int, b: int): (g': Grid)
    ensures g'.rows == g.rows + 1 && g'.copies == g.copies
  {
    RowGrid(g, cfg, a, b, b + a)
  }

  /** The row keeps the grid well formed and only adds below it. */
  lemma RegionFacts(g: Grid, cfg: APlusBEqCConfig, a: int, b: int)
    requires ValidGrid(g)
    ensures ValidGrid(RegionGrid(g, cfg, a, b)) && Extends(g, RegionGrid(g, cfg, a, b))
  {
  }

  /** The grid after a successful `synthesize` on `g`: three rows, and the last
      row's `c` bound to row 0 of the instance column. */
  function SynthesizedGrid(g: Grid, cfg: APlusBEqCConfig, a: int, b: int): (g': Grid)
    ensures g'.rows == g.rows + 3
    ensures g'.copies == g.copies + {(Cell(Advice(cfg.c), g.rows + 2), Cell(Instance(cfg.out), 0))}
  {
    var g3 := RegionGrid(RegionGrid(RegionGrid(g, cfg, a, b), cfg, a, b), cfg, a, b);
    Constrain(g3, Cell(Advice(cfg.c), g.rows + 2), Cell(Instance(cfg.out), 0))
  }

  /** `APlusBEqCChip::assign`: fails with `Error::Synthesis` exactly when a witness
      is missing; otherwise lays out the row `RegionGrid` describes and returns the
      handle of its `c` cell, which holds `b + a`. */
  method Assign(lay: Layouter, cfg: APlusBEqCConfig, a: Option<int>, b: Option<int>)
    returns (r: Result<AssignedCell, Error>)
    modifies lay
    ensures r.Ok? <==> a.Some? && b.Some?
    ensures r.Err? ==> r.error == Synthesis
    ensures r.Ok? ==>
      && r.value == AssignedCell(Some(b.value + a.value), Cell(Advice(cfg.c), old(lay.rows)))
      && lay.Snapshot() == RegionGrid(old(lay.Snapshot()), cfg, a.value, b.value)
  {
    var region := lay.AssignRegion();
    lay.EnableSelector(cfg.s, region, 0);
    var aCell := lay.AssignAdvice(cfg.a, region, 0, a);
    if aCell.Err? {
      return Err(aCell.error);
    }
    var bCell := lay.AssignAdvice(cfg.b, region, 0, b);
    if bCell.Err? {
      return Err(bCell.error);
    }
    // `a.and_then(|a| b.and_then(|b| Some(b + a)))`: known once both witnesses are
    var c := if a.Some? && b.Some? then Some(b.value + a.value) else None;
    r := lay.AssignAdvice(cfg.c, region, 0, c);
  }

  /** `APlusBEqCChip::enforce`: binds `v` to row 0 of the instance column. */
  method Enforce(lay: Layouter, cfg: APlusBEqCConfig, v: AssignedCell) returns (r: Outcome<Error>)
    requires Placed(lay.Snapshot(), v.cell)
    modifies lay
    ensures r.Pass? <==> v.cell.column in lay.equality && Instance(cfg.out) in lay.equality
    ensures r.Pass? ==> lay.Snapshot() == Constrain(old(lay.Snapshot()), v.cell, Cell(Instance(cfg.out), 0))
    ensures r.Fail? ==> r.error == ColumnNotInPermutation && lay.Snapshot() == old(lay.Snapshot())
  {
    r := lay.ConstrainInstance(v.cell, cfg.out, 0);
  }

  /** `APlusBEqCCircuit::synthesize`: three `assign` calls, then `enforce` on the
      last `c`.  It fails with `Error::Synthesis` when a witness is missing and with
      `ColumnNotInPermutation` when `c` or the instance column cannot be copied. */
  method Synthesize(lay: Layouter, cfg: APlusBEqCConfig, a: Option<int>, b: Option<int>)
    returns (r: Outcome<Error>)
    modifies lay
    ensures r.Pass? <==> a.Some? && b.Some? && Advice(cfg.c) in lay.equality && Instance(cfg.out) in lay.equality
    ensures r.Fail? ==> r.error == if a.Some? && b.Some? then ColumnNotInPermutation else Synthesis
    ensures r.Pass? ==> lay.Snapshot() == SynthesizedGrid(old(lay.Snapshot()), cfg, a.value, b.value)
  {
    var after := Assign(lay, cfg, a, b);
    if after.Err? {
      return Fail(after.error);
    }
    after := Assign(lay, cfg, a, b);
    after := Assign(lay, cfg, a, b);
    r := Enforce(lay, cfg, after.value);
  }

  /** Whatever the witnesses, the gate holds on the row `assign` lays out: the
      chip computes `c` itself. */
  lemma RegionRowHolds(p: Modulus, cfg: APlusBEqCConfig, g: Grid, a: int, b: int)
    requires DistinctColumns(cfg)
    ensures RowHolds(p, [SumGate(cfg)], RegionGrid(g, cfg, a, b), g.rows)
  {
    GateHoldsIff(p, cfg, g, a, b, b + a);
  }

  /** Adding a row with `assign` never breaks the gates. */
  lemma RegionKeepsGates(p: Modulus, cfg: APlusBEqCConfig, g: Grid, a: int, b: int)
    requires ValidGrid(g) && DistinctColumns(cfg)
    ensures GatesHold(p, [SumGate(cfg)], RegionGrid(g, cfg, a, b)) <==> GatesHold(p, [SumGate(cfg)], g)
  {
    RegionFacts(g, cfg, a, b);
    ExtendsGates(p, [SumGate(cfg)], g, RegionGrid(g, cfg, a, b));
    RegionRowHolds(p, cfg, g, a, b);
  }

  /** The gates hold on every synthesized grid, whatever the witnesses. */
  lemma SynthesizedGatesHold(p: Modulus, cfg: APlusBEqCConfig, a: int, b: int)
    requires DistinctColumns(cfg)
    ensures GatesHold(p, [SumGate(cfg)], SynthesizedGrid(EmptyGrid(), cfg, a, b))
  {
    var gates := [SumGate(cfg)];
    var g0 := EmptyGrid();
    var g1 := RegionGrid(g0, cfg, a, b);
    var g2 := RegionGrid(g1, cfg, a, b);
    var g3 := RegionGrid(g2, cfg, a, b);
    PlacedRowsDecide(p, gates, g0);
    RegionFacts(g0, cfg, a, b);
    RegionFacts(g1, cfg, a, b);
    RegionKeepsGates(p, cfg, g0, a, b);
    RegionKeepsGates(p, cfg, g1, a, b);
    RegionKeepsGates(p, cfg, g2, a, b);
    GatesIgnoreCopies(p, gates, g3, SynthesizedGrid(g0, cfg, a, b).copies);
  }

  /** The synthesized circuit is satisfied exactly when the public input's row 0
      equals `a + b` in the field. */
  lemma SynthesizedSatisfiedIff(p: Modulus, shape: Shape, cfg: APlusBEqCConfig, a: int, b: int, instance: seq<seq<int>>)
    requires DistinctColumns(cfg) && shape.gates == [SumGate(cfg)]
    ensures Satisfied(p, shape, SynthesizedGrid(EmptyGrid(), cfg, a, b), instance) <==>
      |instance| == shape.numInstance && InstanceAt(instance, cfg.out, 0) % p == (a + b) % p
  {
    var g := SynthesizedGrid(EmptyGrid(), cfg, a, b);
    SynthesizedGatesHold(p, cfg, a, b);
    var bound := (Cell(Advice(cfg.c), 2), Cell(Instance(cfg.out), 0));
    assert CopiesHold(p, g, instance) <==> CopyHolds(p, g, instance, bound) by {
      assert g.copies == {bound};
    }
    assert CopyHolds(p, g, instance, bound) <==> InstanceAt(instance, cfg.out, 0) % p == (a + b) % p by {
      assert g.advice[bound.0] == b + a;
    }
  }

  /** `test_success`: with `a = 1`, `b = 2` the public input 3 is accepted over
      BN254's scalar field. */
  lemma SumAccepted(shape: Shape)
    requires shape.gates == [SumGate(APlusBEqCConfig(0, 1, 2, 0, 0))] && shape.numInstance == 1
    ensures Satisfied(FrModulus, shape, SynthesizedGrid(EmptyGrid(), APlusBEqCConfig(0, 1, 2, 0, 0), 1, 2), [[3]])
  {
    SynthesizedSatisfiedIff(FrModulus, shape, APlusBEqCConfig(0, 1, 2, 0, 0), 1, 2, [[3]]);
  }

  /** `test_wrong`: the public input `1 + 2 + 4` is rejected. */
  lemma WrongSumRejected(shape: Shape)
    requires shape.gates == [SumGate(APlusBEqCConfig(0, 1, 2, 0, 0))] && shape.numInstance == 1
    ensures !Satisfied(FrModulus, shape, SynthesizedGrid(EmptyGrid(), APlusBEqCConfig(0, 1, 2, 0, 0), 1, 2), [[7]])
  {
    SynthesizedSatisfiedIff(FrModulus, shape, APlusBEqCConfig(0, 1, 2, 0, 0), 1, 2, [[7]]);
    assert InstanceAt([[7]], 0, 0) == 7;
  }
}
