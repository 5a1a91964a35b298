/** What the two range-check circuits share: the gate body built by folding
    `(lo..hi).fold(value, |acc, i| acc * (Constant(i) - value))`, the integer it
    evaluates to, the values that make it vanish, and the one-cell region their
    `assign` lays out. */
module RangeFold {
  import opened Wrappers
  import opened Field
  import opened Cells
  import opened Expression
  import opened Configuration
  import opened Verifier

  /** The fold over `lo..hi`, starting from `v`: each step multiplies the
      accumulated expression by `Constant(i) - v`.  An empty range (`hi <= lo`)
      leaves `v` itself. */
  function FoldRange(v: Expr, lo: nat, hi: nat): Expr
    decreases hi
  {
    if hi <= lo then v else Product(FoldRange(v, lo, hi - 1), Difference(Constant(hi - 1), v))
  }

  /** The integer the fold denotes when `v` holds `x`: `x * (lo - x) * ... * (hi - 1 - x)`. */
  function RangeProduct(x: int, lo: nat, hi: nat): int
    decreases hi
  {
    if hi <= lo then x else RangeProduct(x, lo, hi - 1) * (hi - 1 - x)
  }

  /** The fold over an advice query evaluates to `RangeProduct` of the cell's
      value, is undefined exactly when the cell is unassigned, and queries no
      selector. */
  lemma {:induction false} FoldValue(column: nat, lo: nat, hi: nat, g: Grid, row: nat)
    ensures Selectors(FoldRange(AdviceQuery(column), lo, hi)) == {}
    ensures var cell := Cell(Advice(column), row);
      Value(FoldRange(AdviceQuery(column), lo, hi), g, row) ==
        if cell in g.advice then Some(RangeProduct(g.advice[cell], lo, hi)) else None
    decreases hi
  {
    if hi > lo {
      FoldValue(column, lo, hi - 1, g, row);
      var q := AdviceQuery(column);
      assert Selectors(Difference(Constant(hi - 1), q)) == {};
      assert Value(Difference(Constant(hi - 1), q), g, row) == if Cell(Advice(column), row) in g.advice then Some(hi - 1 - g.advice[Cell(Advice(column), row)]) else None;
    }
  }

  /** The fold has one factor per element of the range besides the starting
      query, so its degree is `1 + |lo..hi|`. */
  lemma {:induction false} FoldDegree(column: nat, lo: nat, hi: nat)
    ensures Degree(FoldRange(AdviceQuery(column), lo, hi)) == if hi <= lo then 1 else 1 + (hi - lo)
    decreases hi
  {
    if hi > lo {
      FoldDegree(column, lo, hi - 1);
      assert Degree(Difference(Constant(hi - 1), AdviceQuery(column))) == 1;
    }
  }

  /** Every value in range makes the product vanish, in any field: `0`, and each
      `i` with `lo <= i < hi`, is a root.  (With `lo <= 1` these are `0 .. hi - 1`.) */
  lemma {:induction false} InRangeVanishes(p: Modulus, x: int, lo: nat, hi: nat)
    requires lo <= 1 && (x % p == 0 || x % p < hi)
    ensures RangeProduct(x, lo, hi) % p == 0
    decreases hi
  {
    if hi > lo {
      var rest := RangeProduct(x, lo, hi - 1);
      if x % p == 0 || x % p < hi - 1 {
        InRangeVanishes(p, x, lo, hi - 1);
      } else {
        CongruentIffDifferenceVanishes(p, hi - 1, x);
        ModUnique(p, hi - 1, 0, hi - 1);
      }
      ZeroFactor(p, rest, hi - 1 - x);
    }
  }

  /** In a field, and for a range that does not wrap around (`hi <= p`), only the
      values in range make the product vanish. */
  lemma {:induction false} VanishesOnlyInRange(p: Modulus, x: int, lo: nat, hi: nat)
    requires NoZeroDivisors(p) && lo <= 1 && hi <= p
    requires RangeProduct(x, lo, hi) % p == 0
    ensures x % p == 0 || x % p < hi
    decreases hi
  {
    if hi > lo {
      var rest := RangeProduct(x, lo, hi - 1);
      ProductVanishes(p, rest, hi - 1 - x);
      if rest % p == 0 {
        VanishesOnlyInRange(p, x, lo, hi - 1);
      } else {
        CongruentIffDifferenceVanishes(p, hi - 1, x);
        ModUnique(p, hi - 1, 0, hi - 1);
      }
    }
  }

  /** The range check, both directions: the product vanishes in the field
      exactly when `x` denotes one of `0 .. max(hi, 1) - 1`. */
  lemma VanishesIff(p: Modulus, x: int, lo: nat, hi: nat)
    requires NoZeroDivisors(p) && lo <= 1 && hi <= p
    ensures RangeProduct(x, lo, hi) % p == 0 <==> x % p == 0 || x % p < hi
  {
    if x % p == 0 || x % p < hi {
      InRangeVanishes(p, x, lo, hi);
    }
    if RangeProduct(x, lo, hi) % p == 0 {
      VanishesOnlyInRange(p, x, lo, hi);
    }
  }

  /** Starting the fold at 0 instead of 1 adds the factor `0 - x`: the product
      from 0 is `-x` times the product from 1, so `x` appears squared. */
  lemma {:induction false} FromZeroSquares(x: int, hi: nat)
    requires hi >= 1
    ensures RangeProduct(x, 0, hi) == -x * RangeProduct(x, 1, hi)
    decreases hi
  {
    if hi > 1 {
      FromZeroSquares(x, hi - 1);
      var rest, factor := RangeProduct(x, 1, hi - 1), hi - 1 - x;
      var whole := rest * factor;
      assert RangeProduct(x, 1, hi) == whole;
      assert RangeProduct(x, 0, hi) == (-x * rest) * factor;
      Regroup(-x, rest, factor);
    } else {
      assert RangeProduct(x, 0, 1) == x * (0 - x);
    }
  }

  /** Regrouping a product of three factors. */
  lemma Regroup(x: int, y: int, z: int)
    ensures (x * y) * z == x * (y * z)
  {
  }

  /** The region both circuits' `assign` lays out: one new row, the selector on
      and the value in the advice column. */
  function SingleCellRegion(g: Grid, selector: nat, column: nat, v: int): (g': Grid)
    ensures g'.rows == g.rows + 1 && g'.copies == g.copies
  {
    Write(Enable(PlaceRegion(g), selector, g.rows), Cell(Advice(column), g.rows), v)
  }

  /** The region keeps a grid well formed and only adds below it. */
  lemma SingleCellRegionFacts(g: Grid, selector: nat, column: nat, v: int)
    requires ValidGrid(g)
    ensures ValidGrid(SingleCellRegion(g, selector, column, v)) && Extends(g, SingleCellRegion(g, selector, column, v))
  {
  }

  /** A single one-cell region under a single fold gate satisfies the circuit
      exactly when the public input has the configured shape and the fold's
      product vanishes in the field.  No copy constraint is involved. */
  lemma SingleCellSatisfiedIff(p: Modulus, shape: Shape, name: string, selector: nat, column: nat,
                               lo: nat, hi: nat, v: int, instance: seq<seq<int>>)
    requires shape.gates == [Gate(name, [Product(SelectorQuery(selector), FoldRange(AdviceQuery(column), lo, hi))])]
    ensures Satisfied(p, shape, SingleCellRegion(EmptyGrid(), selector, column, v), instance) <==>
      |instance| == shape.numInstance && RangeProduct(v, lo, hi) % p == 0
  {
    var g := SingleCellRegion(EmptyGrid(), selector, column, v);
    var body := FoldRange(AdviceQuery(column), lo, hi);
    SingleCellRegionFacts(EmptyGrid(), selector, column, v);
    PlacedRowsDecide(p, shape.gates, g);
    SingleGateRow(p, name, Product(SelectorQuery(selector), body), g, 0);
    FoldValue(column, lo, hi, g, 0);
    SelectedPolyHolds(p, selector, body, g, 0);
    assert g.copies == {};
  }
}
