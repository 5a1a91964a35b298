/** The demo range-check chip: the bound `range_right` is an argument of
    `configure`, and the gate is `s * v * (1 - v) * ... * (range_right - 1 - v)`.
    The chip allocates its own advice column and selector. */
module RangeDemo {
  import opened Wrappers
  import opened Field
  import opened Cells
  import opened Expression
  import opened Configuration
  import opened Layouter
  import opened Verifier
  import opened RangeFold

  /** `CircuitConfig`: the value column and the selector. */
  datatype CircuitConfig = CircuitConfig(value: nat, s: nat)

  /** The gate "value in range [a,b]": the selector times the fold over `1..right`. */
  function RangeGate(cfg: CircuitConfig, right: nat): Gate
  {
    Gate("value in range [a,b]", [Product(SelectorQuery(cfg.s), FoldRange(AdviceQuery(cfg.value), 1, right))])
  }

  /** `CircuitChip::configure(meta, range_right)`, which `MyCircuit::configure`
      calls with `RANGE`: a fresh advice column, a fresh selector and the gate. */
  method Configure(meta: ConstraintSystem, rangeRight: nat) returns (cfg: CircuitConfig)
    modifies meta
    ensures cfg == CircuitConfig(old(meta.numAdvice), old(meta.numSelectors))
    ensures meta.Snapshot() == old(meta.Snapshot()).(
      numAdvice := old(meta.numAdvice) + 1,
      numSelectors := old(meta.numSelectors) + 1,
      gates := old(meta.gates) + [RangeGate(cfg, rangeRight)])
  {
    var value := meta.AdviceColumn();
    var s := meta.Selector();
    cfg := CircuitConfig(value, s);
    meta.CreateGate("value in range [a,b]", RangeGate(cfg, rangeRight).polys);
  }

  /** `CircuitChip::assign`, reached from `MyCircuit::synthesize` through
      `construct`: fails with `Error::Synthesis` exactly when the witness is
      missing, and otherwise lays out one row with the selector on and the value
      in the value column. */
  method Assign(lay: Layouter, cfg: CircuitConfig, value: Option<int>) returns (r: Outcome<Error>)
    modifies lay
    ensures r.Pass? <==> value.Some?
    ensures r.Fail? ==> r.error == Synthesis
    ensures r.Pass? ==> lay.Snapshot() == SingleCellRegion(old(lay.Snapshot()), cfg.s, cfg.value, value.value)
  {
    var region := lay.AssignRegion();
    lay.EnableSelector(cfg.s, region, 0);
    var cell := lay.AssignAdvice(cfg.value, region, 0, value);
    if cell.Err? {
      return Fail(cell.error);
    }
    r := Pass;
  }

  /** The gate's polynomial has degree `range_right + 1` once the range is not
      empty (the selector, the value and `range_right - 1` factors), and 2 when
      `range_right <= 1` leaves it `s * v`. */
  lemma GateDegree(cfg: CircuitConfig, right: nat)
    ensures Degree(RangeGate(cfg, right).polys[0]) == if right <= 1 then 2 else right + 1
  {
    FoldDegree(cfg.value, 1, right);
  }

  /** With the bound below the field order, the synthesized circuit is satisfied
      exactly when the public input has as many columns as the shape declares
      and the value denotes one of `0 .. range_right - 1` (just `0` when `range_right` is 0 or 1). */
  lemma SynthesizedSatisfiedIff(p: Modulus, shape: Shape, cfg: CircuitConfig, right: nat, v: int, instance: seq<seq<int>>)
    requires NoZeroDivisors(p) && right <= p && shape.gates == [RangeGate(cfg, right)]
    ensures Satisfied(p, shape, SingleCellRegion(EmptyGrid(), cfg.s, cfg.value, v), instance) <==>
      |instance| == shape.numInstance && (v % p == 0 || v % p < right)
  {
    SingleCellSatisfiedIff(p, shape, "value in range [a,b]", cfg.s, cfg.value, 1, right, v, instance);
    VanishesIff(p, v, 1, right);
  }

  /** `test_success`: with `RANGE = 6`, the value 2 satisfies the circuit over
      BN254's scalar field. */
  lemma ValueInRangeAccepted(shape: Shape)
    requires shape.gates == [RangeGate(CircuitConfig(0, 0), 6)] && shape.numInstance == 0
    ensures Satisfied(FrModulus, shape, SingleCellRegion(EmptyGrid(), 0, 0, 2), [])
  {
    SingleCellSatisfiedIff(FrModulus, shape, "value in range [a,b]", 0, 0, 1, 6, 2, []);
    ModUnique(FrModulus, 2, 0, 2);
    InRangeVanishes(FrModulus, 2, 1, 6);
  }

  /** `test_wrong`: the value 10 violates it; the product is `-151200`, a nonzero
      field element. */
  lemma ValueOutOfRangeRejected(shape: Shape)
    requires shape.gates == [RangeGate(CircuitConfig(0, 0), 6)] && shape.numInstance == 0
    ensures !Satisfied(FrModulus, shape, SingleCellRegion(EmptyGrid(), 0, 0, 10), [])
  {
    SingleCellSatisfiedIff(FrModulus, shape, "value in range [a,b]", 0, 0, 1, 6, 10, []);
    assert RangeProduct(10, 1, 6) == -151200;
    ModUnique(FrModulus, -151200, -1, FrModulus - 151200);
  }
}
