/** The `a == b` chip: one region with the two witnesses side by side and a gate
    `s * (a - b)` switched on at that row.  No instance column and no copy
    constraint take part, although both advice columns are enabled for equality. */
module AEqualsB {
  import opened Wrappers
  import opened Field
  import opened Cells
  import opened Expression
  import opened Configuration
  import opened Layouter
  import opened Verifier

  /** The columns and the selector `configure` allocates. */
  datatype AEqBConfig = AEqBConfig(a: nat, b: nat, selector: nat)

  /** The gate "a equal b": `s * (a - b)` must vanish. */
  function EqualityGate(cfg: AEqBConfig): Gate
  {
    Gate("a equal b", [Product(SelectorQuery(cfg.selector), Difference(AdviceQuery(cfg.a), AdviceQuery(cfg.b)))])
  }

  /** `AEqBChip::configure`: two fresh advice columns, both enabled for equality,
      a fresh selector and the equality gate. */
  method Configure(meta: ConstraintSystem) returns (cfg: AEqBConfig)
    modifies meta
    ensures cfg == AEqBConfig(old(meta.numAdvice), old(meta.numAdvice) + 1, old(meta.numSelectors))
    ensures meta.Snapshot() == old(meta.Snapshot()).(
      numAdvice := old(meta.numAdvice) + 2,
      numSelectors := old(meta.numSelectors) + 1,
      equality := old(meta.equality) + {Advice(cfg.a), Advice(cfg.b)},
      gates := old(meta.gates) + [EqualityGate(cfg)])
  {
    var a := meta.AdviceColumn();
    var b := meta.AdviceColumn();
    var selector := meta.Selector();
    meta.EnableEquality(Advice(a));
    meta.EnableEquality(Advice(b));
    cfg := AEqBConfig(a, b, selector);
    meta.CreateGate("a equal b", EqualityGate(cfg).polys);
  }

  /** The grid after `assign` succeeds on `g`: a new row holding `a` and `b` with
      the selector on. */
  function RegionGrid(g: Grid, cfg: AEqBConfig, a: int, b: int): (g': Grid)
    ensures g'.rows == g.rows + 1 && g'.copies == g.copies
  {
    var row := g.rows;
    Write(Write(Enable(PlaceRegion(g), cfg.selector, row), Cell(Advice(cfg.a), row), a), Cell(Advice(cfg.b), row), b)
  }

  /** The row keeps the grid well formed and only adds below it. */
  lemma RegionFacts(g: Grid, cfg: AEqBConfig, a: int, b: int)
    requires ValidGrid(g)
    ensures ValidGrid(RegionGrid(g, cfg, a, b)) && Extends(g, RegionGrid(g, cfg, a, b))
  {
  }

  /** `AEqBChip::assign`, which `synthesize` calls directly: fails with
      `Error::Synthesis` exactly when a witness is missing, and otherwise lays out
      the row `RegionGrid` describes. */
  method Assign(lay: Layouter, cfg: AEqBConfig, a: Option<int>, b: Option<int>) returns (r: Outcome<Error>)
    modifies lay
    ensures r.Pass? <==> a.Some? && b.Some?
    ensures r.Fail? ==> r.error == Synthesis
    ensures r.Pass? ==> lay.Snapshot() == RegionGrid(old(lay.Snapshot()), cfg, a.value, b.value)
  {
    var region := lay.AssignRegion();
    lay.EnableSelector(cfg.selector, region, 0);
    var aCell := lay.AssignAdvice(cfg.a, region, 0, a);
    if aCell.Err? {
      return Fail(aCell.error);
    }
    var bCell := lay.AssignAdvice(cfg.b, region, 0, b);
    if bCell.Err? {
      return Fail(bCell.error);
    }
    r := Pass;
  }

  /** The gate holds on the new row exactly when the witnesses are equal in the field. */
  lemma RegionRowHolds(p: Modulus, cfg: AEqBConfig, g: Grid, a: int, b: int)
    requires cfg.a != cfg.b
    ensures RowHolds(p, [EqualityGate(cfg)], RegionGrid(g, cfg, a, b), g.rows) <==> a % p == b % p
  {
    var g' := RegionGrid(g, cfg, a, b);
    var q := Difference(AdviceQuery(cfg.a), AdviceQuery(cfg.b));
    SingleGateRow(p, "a equal b", Product(SelectorQuery(cfg.selector), q), g', g.rows);
    SelectedPolyHolds(p, cfg.selector, q, g', g.rows);
    assert Value(q, g', g.rows) == Some(a - b);
    CongruentIffDifferenceVanishes(p, a, b);
  }

  /** The synthesized circuit is satisfied exactly when `a` and `b` are equal in
      the field and the public input has as many columns as the shape declares. */
  lemma SynthesizedSatisfiedIff(p: Modulus, shape: Shape, cfg: AEqBConfig, a: int, b: int, instance: seq<seq<int>>)
    requires cfg.a != cfg.b && shape.gates == [EqualityGate(cfg)]
    ensures Satisfied(p, shape, RegionGrid(EmptyGrid(), cfg, a, b), instance) <==>
      |instance| == shape.numInstance && a % p == b % p
  {
    var g := RegionGrid(EmptyGrid(), cfg, a, b);
    RegionFacts(EmptyGrid(), cfg, a, b);
    PlacedRowsDecide(p, shape.gates, g);
    RegionRowHolds(p, cfg, EmptyGrid(), a, b);
  }

  /** `test_a_eq_b`: the witnesses 2 and 2 satisfy the circuit over BN254's scalar field. */
  lemma EqualWitnessesAccepted(shape: Shape)
    requires shape.gates == [EqualityGate(AEqBConfig(0, 1, 0))] && shape.numInstance == 0
    ensures Satisfied(FrModulus, shape, RegionGrid(EmptyGrid(), AEqBConfig(0, 1, 0), 2, 2), [])
  {
    SynthesizedSatisfiedIff(FrModulus, shape, AEqBConfig(0, 1, 0), 2, 2, []);
  }

  /** `test_not_eq`: the witnesses 2 and 3 violate it. */
  lemma UnequalWitnessesRejected(shape: Shape)
    requires shape.gates == [EqualityGate(AEqBConfig(0, 1, 0))] && shape.numInstance == 0
    ensures !Satisfied(FrModulus, shape, RegionGrid(EmptyGrid(), AEqBConfig(0, 1, 0), 2, 3), [])
  {
    SynthesizedSatisfiedIff(FrModulus, shape, AEqBConfig(0, 1, 0), 2, 3, []);
  }
}
