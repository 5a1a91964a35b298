/** When a synthesized grid satisfies a configured circuit for a public input.

    This replaces `MockProver::verify`: every gate polynomial must vanish (with
    all the cells it reads assigned) at each row where a selector it queries is
    on, and every copy constraint must join two known cells of equal value.
    Instance cells read the public input; rows past the end of an instance column
    read zero, the padding `MockProver::run` applies.  Pairwise equality of the
    recorded pairs is the same as equality within each connected group of cells,
    which is what the permutation argument enforces. */
module Verifier {
  import opened Wrappers
  import opened Field
  import opened Cells
  import opened Expression
  import opened Configuration

  /** Row `row` of instance column `column`, zero past the end of the column. */
  function InstanceAt(instance: seq<seq<int>>, column: nat, row: nat): int
  {
    if column < |instance| && row < |instance[column]| then instance[column][row] else 0
  }

  /** The value a cell holds: the public input for an instance cell, the
      assigned value (if any) for an advice cell. */
  function CellValue(g: Grid, instance: seq<seq<int>>, c: Cell): Option<int>
  {
    match c.column
    case Instance(col) => Some(InstanceAt(instance, col, c.row))
    case Advice(_) => if c in g.advice then Some(g.advice[c]) else None
  }

  /** A copy constraint holds when both cells are known and equal in the field. */
  predicate CopyHolds(p: Modulus, g: Grid, instance: seq<seq<int>>, pair: (Cell, Cell))
  {
    var l, r := CellValue(g, instance, pair.0), CellValue(g, instance, pair.1);
    l.Some? && r.Some? && l.value % p == r.value % p
  }

  ghost predicate CopiesHold(p: Modulus, g: Grid, instance: seq<seq<int>>)
  {
    forall pair :: pair in g.copies ==> CopyHolds(p, g, instance, pair)
  }

  /** Some selector the polynomial queries is on at `row`. */
  ghost predicate Active(e: Expr, g: Grid, row: nat)
  {
    exists s :: s in Selectors(e) && (s, row) in g.enabled
  }

  ghost predicate PolyHolds(p: Modulus, e: Expr, g: Grid, row: nat)
  {
    Active(e, g, row) ==> Eval(p, e, g, row) == Some(0)
  }

  /** Every polynomial of every gate holds at `row`. */
  ghost predicate RowHolds(p: Modulus, gates: seq<Gate>, g: Grid, row: nat)
  {
    forall i, j :: 0 <= i < |gates| && 0 <= j < |gates[i].polys| ==> PolyHolds(p, gates[i].polys[j], g, row)
  }

  ghost predicate GatesHold(p: Modulus, gates: seq<Gate>, g: Grid)
  {
    forall row: nat :: RowHolds(p, gates, g, row)
  }

  /** The grid satisfies the circuit for the public input `instance`. */
  ghost predicate Satisfied(p: Modulus, shape: Shape, g: Grid, instance: seq<seq<int>>)
  {
    && |instance| == shape.numInstance
    && GatesHold(p, shape.gates, g)
    && CopiesHold(p, g, instance)
  }

  /** With one gate of one polynomial, a row holds exactly when that polynomial does. */
  lemma SingleGateRow(p: Modulus, name: string, e: Expr, g: Grid, row: nat)
    ensures RowHolds(p, [Gate(name, [e])], g, row) <==> PolyHolds(p, e, g, row)
  {
    var gates := [Gate(name, [e])];
    assert gates[0].polys[0] == e;
  }

  /** A polynomial `s * q`, where `q` queries no selector, holds at a row exactly
      when `s` is off there or `q` is defined and vanishes in the field. */
  lemma SelectedPolyHolds(p: Modulus, s: nat, q: Expr, g: Grid, row: nat)
    requires Selectors(q) == {}
    ensures PolyHolds(p, Product(SelectorQuery(s), q), g, row) <==>
      ((s, row) in g.enabled ==> Value(q, g, row).Some? && Value(q, g, row).value % p == 0)
  {
    var e := Product(SelectorQuery(s), q);
    var on := (s, row) in g.enabled;
    var v := Value(q, g, row);
    assert Active(e, g, row) <==> on by {
      assert Selectors(e) == {s};
    }
    assert Value(e, g, row) == if v.Some? then Some((if on then 1 else 0) * v.value) else None;
    EvalIsValueModP(p, e, g, row);
  }

  /** Nothing is switched on below the placed rows, so nothing is checked there. */
  lemma UnplacedRowHolds(p: Modulus, gates: seq<Gate>, g: Grid, row: nat)
    requires ValidGrid(g) && row >= g.rows
    ensures RowHolds(p, gates, g, row)
  {
    forall i, j | 0 <= i < |gates| && 0 <= j < |gates[i].polys|
      ensures PolyHolds(p, gates[i].polys[j], g, row)
    {
      assert forall s :: (s, row) !in g.enabled;
    }
  }

  /** Rows that were already placed check the same in a continuation. */
  lemma PlacedRowUnchanged(p: Modulus, gates: seq<Gate>, g: Grid, g': Grid, row: nat)
    requires ValidGrid(g) && Extends(g, g') && row < g.rows
    ensures RowHolds(p, gates, g', row) <==> RowHolds(p, gates, g, row)
  {
    ExtendsKeepsPlacedRows(g, g', row);
    forall i, j | 0 <= i < |gates| && 0 <= j < |gates[i].polys|
      ensures PolyHolds(p, gates[i].polys[j], g', row) <==> PolyHolds(p, gates[i].polys[j], g, row)
    {
      var e := gates[i].polys[j];
      EvalOnlyReadsRow(p, e, g, g', row);
      assert Active(e, g, row) <==> Active(e, g', row);
    }
  }

  /** A continuation satisfies the gates exactly when the original did and the
      rows it adds do. */
  lemma ExtendsGates(p: Modulus, gates: seq<Gate>, g: Grid, g': Grid)
    requires ValidGrid(g) && ValidGrid(g') && Extends(g, g')
    ensures GatesHold(p, gates, g') <==>
      GatesHold(p, gates, g) && forall row: nat :: g.rows <= row < g'.rows ==> RowHolds(p, gates, g', row)
  {
    if GatesHold(p, gates, g) && forall row: nat :: g.rows <= row < g'.rows ==> RowHolds(p, gates, g', row) {
      forall row: nat ensures RowHolds(p, gates, g', row) {
        if row < g.rows {
          PlacedRowUnchanged(p, gates, g, g', row);
        } else if row >= g'.rows {
          UnplacedRowHolds(p, gates, g', row);
        }
      }
    }
    if GatesHold(p, gates, g') {
      forall row: nat ensures RowHolds(p, gates, g, row) {
        if row < g.rows {
          PlacedRowUnchanged(p, gates, g, g', row);
        } else {
          UnplacedRowHolds(p, gates, g, row);
        }
      }
    }
  }

  /** Only the placed rows decide whether the gates hold. */
  lemma PlacedRowsDecide(p: Modulus, gates: seq<Gate>, g: Grid)
    requires ValidGrid(g)
    ensures GatesHold(p, gates, g) <==> forall row: nat :: row < g.rows ==> RowHolds(p, gates, g, row)
  {
    if forall row: nat :: row < g.rows ==> RowHolds(p, gates, g, row) {
      forall row: nat ensures RowHolds(p, gates, g, row) {
        if row >= g.rows {
          UnplacedRowHolds(p, gates, g, row);
        }
      }
    }
  }

  /** Copy constraints play no part in the gates. */
  lemma GatesIgnoreCopies(p: Modulus, gates: seq<Gate>, g: Grid, copies: set<(Cell, Cell)>)
    ensures GatesHold(p, gates, g.(copies := copies)) <==> GatesHold(p, gates, g)
  {
    var g' := g.(copies := copies);
    forall row: nat, i, j | 0 <= i < |gates| && 0 <= j < |gates[i].polys|
      ensures PolyHolds(p, gates[i].polys[j], g', row) <==> PolyHolds(p, gates[i].polys[j], g, row)
    {
      EvalOnlyReadsRow(p, gates[i].polys[j], g, g', row);
      assert Active(gates[i].polys[j], g, row) <==> Active(gates[i].polys[j], g', row);
    }
    assert forall row: nat :: RowHolds(p, gates, g', row) <==> RowHolds(p, gates, g, row);
  }

  /** Recording one more copy constraint: the copies hold afterwards exactly when
      they held before and the new pair holds. */
  lemma ConstrainCopies(p: Modulus, g: Grid, left: Cell, right: Cell, instance: seq<seq<int>>)
    ensures CopiesHold(p, Constrain(g, left, right), instance) <==>
      CopiesHold(p, g, instance) && CopyHolds(p, g, instance, (left, right))
  {
    var g' := Constrain(g, left, right);
    assert forall pair :: CopyHolds(p, g', instance, pair) <==> CopyHolds(p, g, instance, pair);
  }

  /** A cell a grid may name keeps its value in every continuation. */
  lemma PlacedCellUnchanged(g: Grid, g': Grid, instance: seq<seq<int>>, c: Cell)
    requires ValidGrid(g) && Extends(g, g') && Placed(g, c)
    ensures CellValue(g', instance, c) == CellValue(g, instance, c)
  {
  }

  /** A continuation satisfies the copy constraints exactly when the original did
      and the constraints it adds hold. */
  lemma ExtendsCopies(p: Modulus, g: Grid, g': Grid, instance: seq<seq<int>>)
    requires ValidGrid(g) && Extends(g, g')
    ensures CopiesHold(p, g', instance) <==>
      CopiesHold(p, g, instance) && forall pair :: pair in g'.copies - g.copies ==> CopyHolds(p, g', instance, pair)
  {
    forall pair | pair in g.copies
      ensures CopyHolds(p, g', instance, pair) <==> CopyHolds(p, g, instance, pair)
    {
      PlacedCellUnchanged(g, g', instance, pair.0);
      PlacedCellUnchanged(g, g', instance, pair.1);
    }
  }
}
