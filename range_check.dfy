/** The range-check chip with the bound as a type-level constant `RANGE`: one
    advice cell per region, checked by the gate
    `q_range_check * v * (0 - v) * (1 - v) * ... * (RANGE - 1 - v)`.
    The value column is allocated by the circuit and handed to `configure`; it is
    not enabled for equality and no instance column exists. */
module RangeCheck {
  import opened Wrappers
  import opened Field
  import opened Cells
  import opened Expression
  import opened Configuration
  import opened Layouter
  import opened Verifier
  import opened RangeFold

  /** `RangeCheckConfig<F, RANGE>`: the value column, the selector and the bound
      the type carries as a const generic. */
  datatype RangeCheckConfig = RangeCheckConfig(value: nat, qRangeCheck: nat, range: nat)

  /** The gate "range check gate": the selector times the fold over `0..RANGE`. */
  function RangeGate(cfg: RangeCheckConfig): Gate
  {
    Gate("range check gate", [Product(SelectorQuery(cfg.qRangeCheck), FoldRange(AdviceQuery(cfg.value), 0, cfg.range))])
  }

  /** `RangeCheckConfig::configure`: allocates the selector and adds the gate over
      the given column; it never fails. */
  method Configure(meta: ConstraintSystem, value: nat, range: nat) returns (r: Result<RangeCheckConfig, Error>)
    modifies meta
    ensures r == Ok(RangeCheckConfig(value, old(meta.numSelectors), range))
    ensures meta.Snapshot() == old(meta.Snapshot()).(
      numSelectors := old(meta.numSelectors) + 1,
      gates := old(meta.gates) + [RangeGate(r.value)])
  {
    var qRangeCheck := meta.Selector();
    var cfg := RangeCheckConfig(value, qRangeCheck, range);
    meta.CreateGate("range check gate", RangeGate(cfg).polys);
    r := Ok(cfg);
  }

  /** The test circuit's `configure`: a fresh advice column, then the chip's
      `configure`, whose result is unwrapped. */
  method CircuitConfigure(meta: ConstraintSystem, range: nat) returns (cfg: RangeCheckConfig)
    modifies meta
    ensures cfg == RangeCheckConfig(old(meta.numAdvice), old(meta.numSelectors), range)
    ensures meta.Snapshot() == old(meta.Snapshot()).(
      numAdvice := old(meta.numAdvice) + 1,
      numSelectors := old(meta.numSelectors) + 1,
      gates := old(meta.gates) + [RangeGate(cfg)])
  {
    var value := meta.AdviceColumn();
    var r := Configure(meta, value, range);
    cfg := r.value;
  }

  /** `RangeCheckConfig::assign`, which the test circuit's `synthesize` calls
      directly: fails with `Error::Synthesis` exactly when the witness is
      missing, and otherwise lays out one row with the selector on and the value
      in the value column. */
  method Assign(lay: Layouter, cfg: RangeCheckConfig, value: Option<int>) returns (r: Outcome<Error>)
    modifies lay
    ensures r.Pass? <==> value.Some?
    ensures r.Fail? ==> r.error == Synthesis
    ensures r.Pass? ==> lay.Snapshot() == SingleCellRegion(old(lay.Snapshot()), cfg.qRangeCheck, cfg.value, value.value)
  {
    var region := lay.AssignRegion();
    lay.EnableSelector(cfg.qRangeCheck, region, 0);
    var cell := lay.AssignAdvice(cfg.value, region, 0, value);
    if cell.Err? {
      return Fail(cell.error);
    }
    r := Pass;
  }

  /** The gate's polynomial has degree `RANGE + 2`: the selector, the starting
      value and one factor per element of `0..RANGE`. */
  lemma GateDegree(cfg: RangeCheckConfig)
    ensures Degree(RangeGate(cfg).polys[0]) == cfg.range + 2
  {
    FoldDegree(cfg.value, 0, cfg.range);
  }

  /** The fold starts at 0, so the gate's product is `-v * v * (1 - v) * ... * (RANGE - 1 - v)`
      and not the `v * (1 - v) * ... * (RANGE - 1 - v)` the chip's comment writes;
      in a field both vanish for exactly the same values. */
  lemma CommentedProductSameRoots(p: Modulus, x: int, range: nat)
    requires NoZeroDivisors(p) && range >= 1
    ensures RangeProduct(x, 0, range) == -x * RangeProduct(x, 1, range)
    ensures RangeProduct(x, 0, range) % p == 0 <==> RangeProduct(x, 1, range) % p == 0
  {
    FromZeroSquares(x, range);
    ProductVanishes(p, -x, RangeProduct(x, 1, range));
    CongruentIffDifferenceVanishes(p, 0, x);
    ModUnique(p, 0, 0, 0);
    if x % p == 0 {
      InRangeVanishes(p, x, 1, range);
    }
  }

  /** With the bound below the field order, the synthesized circuit is satisfied
      exactly when the public input has as many columns as the shape declares
      and the value denotes one of `0 .. RANGE - 1` (just `0` when `RANGE` is 0, the gate then being `q * v`). */
  lemma SynthesizedSatisfiedIff(p: Modulus, shape: Shape, cfg: RangeCheckConfig, v: int, instance: seq<seq<int>>)
    requires NoZeroDivisors(p) && cfg.range <= p && shape.gates == [RangeGate(cfg)]
    ensures Satisfied(p, shape, SingleCellRegion(EmptyGrid(), cfg.qRangeCheck, cfg.value, v), instance) <==>
      |instance| == shape.numInstance && (v % p == 0 || v % p < cfg.range)
  {
    SingleCellSatisfiedIff(p, shape, "range check gate", cfg.qRangeCheck, cfg.value, 0, cfg.range, v, instance);
    VanishesIff(p, v, 0, cfg.range);
  }

  /** `test_range_check`: with `RANGE = 8`, each of the values `0 .. 7` satisfies
      the circuit over BN254's scalar field (no primality needed for this direction). */
  lemma EveryValueInRangeAccepted(shape: Shape)
    requires shape.gates == [RangeGate(RangeCheckConfig(0, 0, 8))] && shape.numInstance == 0
    ensures forall i: nat :: i < 8 ==> Satisfied(FrModulus, shape, SingleCellRegion(EmptyGrid(), 0, 0, i), [])
  {
    forall i: nat | i < 8
      ensures Satisfied(FrModulus, shape, SingleCellRegion(EmptyGrid(), 0, 0, i), [])
    {
      SingleCellSatisfiedIff(FrModulus, shape, "range check gate", 0, 0, 0, 8, i, []);
      ModUnique(FrModulus, i, 0, i);
      InRangeVanishes(FrModulus, i, 0, 8);
    }
  }

  /** The first value past the bound, 8, is rejected: the product is `8 * 8!` up
      to sign, far below the field order and not zero. */
  lemma BoundRejected(shape: Shape)
    requires shape.gates == [RangeGate(RangeCheckConfig(0, 0, 8))] && shape.numInstance == 0
    ensures !Satisfied(FrModulus, shape, SingleCellRegion(EmptyGrid(), 0, 0, 8), [])
  {
    SingleCellSatisfiedIff(FrModulus, shape, "range check gate", 0, 0, 0, 8, 8, []);
    assert RangeProduct(8, 0, 8) == 322560;
    ModUnique(FrModulus, 322560, 0, 322560);
  }
}
