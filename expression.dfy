/** Gate polynomials as data (`halo2_proofs::plonk::Expression`), restricted to
    what the example circuits build: constants, advice queries at the current row,
    selector queries, sums, differences and products. */
module Expression {
  import opened Wrappers
  import opened Field
  import opened Cells

  datatype Expr =
    | Constant(value: int)
    | AdviceQuery(column: nat)   // `query_advice(column, Rotation::cur())`
    | SelectorQuery(selector: nat)
    | Sum(left: Expr, right: Expr)
    | Difference(left: Expr, right: Expr)
    | Product(left: Expr, right: Expr)

  /** A named gate and the polynomials it asks to vanish (`create_gate`). */
  datatype Gate = Gate(name: string, polys: seq<Expr>)

  /** Value of `e` at row `row` of `g` in the field: every operation reduces
      modulo `p`, a selector reads 1 where it is on and 0 elsewhere, and the value
      is absent when a queried advice cell has not been assigned. */
  function Eval(p: Modulus, e: Expr, g: Grid, row: nat): Option<int>
  {
    match e
    case Constant(c) => Some(c % p)
    case AdviceQuery(col) =>
      var cell := Cell(Advice(col), row);
      if cell in g.advice then Some(g.advice[cell] % p) else None
    case SelectorQuery(s) => Some(if (s, row) in g.enabled then 1 else 0)
    case Sum(l, r) =>
      var x, y := Eval(p, l, g, row), Eval(p, r, g, row);
      if x.Some? && y.Some? then Some((x.value + y.value) % p) else None
    case Difference(l, r) =>
      var x, y := Eval(p, l, g, row), Eval(p, r, g, row);
      if x.Some? && y.Some? then Some((x.value - y.value) % p) else None
    case Product(l, r) =>
      var x, y := Eval(p, l, g, row), Eval(p, r, g, row);
      if x.Some? && y.Some? then Some((x.value * y.value) % p) else None
  }

  /** The same polynomial evaluated over the integers, with no reduction. */
  function Value(e: Expr, g: Grid, row: nat): Option<int>
  {
    match e
    case Constant(c) => Some(c)
    case AdviceQuery(col) =>
      var cell := Cell(Advice(col), row);
      if cell in g.advice then Some(g.advice[cell]) else None
    case SelectorQuery(s) => Some(if (s, row) in g.enabled then 1 else 0)
    case Sum(l, r) =>
      var x, y := Value(l, g, row), Value(r, g, row);
      if x.Some? && y.Some? then Some(x.value + y.value) else None
    case Difference(l, r) =>
      var x, y := Value(l, g, row), Value(r, g, row);
      if x.Some? && y.Some? then Some(x.value - y.value) else None
    case Product(l, r) =>
      var x, y := Value(l, g, row), Value(r, g, row);
      if x.Some? && y.Some? then Some(x.value * y.value) else None
  }

  /** Evaluating in the field is evaluating over the integers and reducing once
      at the end; both are defined exactly when every queried cell is assigned. */
  lemma {:induction false} EvalIsValueModP(p: Modulus, e: Expr, g: Grid, row: nat)
    ensures Eval(p, e, g, row).Some? <==> Value(e, g, row).Some?
    ensures Value(e, g, row).Some? ==> Eval(p, e, g, row).value == Value(e, g, row).value % p
  {
    match e
    case Constant(c) =>
    case AdviceQuery(col) =>
    case SelectorQuery(s) =>
      ModUnique(p, Value(e, g, row).value, 0, Value(e, g, row).value);
    case Sum(l, r) =>
      EvalIsValueModP(p, l, g, row);
      EvalIsValueModP(p, r, g, row);
      if Value(e, g, row).Some? {
        ModSum(p, Value(l, g, row).value, Value(r, g, row).value);
      }
    case Difference(l, r) =>
      EvalIsValueModP(p, l, g, row);
      EvalIsValueModP(p, r, g, row);
      if Value(e, g, row).Some? {
        ModDiff(p, Value(l, g, row).value, Value(r, g, row).value);
      }
    case Product(l, r) =>
      EvalIsValueModP(p, l, g, row);
      EvalIsValueModP(p, r, g, row);
      if Value(e, g, row).Some? {
        ModProduct(p, Value(l, g, row).value, Value(r, g, row).value);
      }
  }

  /** The selectors a polynomial queries. */
  function Selectors(e: Expr): set<nat>
  {
    match e
    case Constant(_) => {}
    case AdviceQuery(_) => {}
    case SelectorQuery(s) => {s}
    case Sum(l, r) => Selectors(l) + Selectors(r)
    case Difference(l, r) => Selectors(l) + Selectors(r)
    case Product(l, r) => Selectors(l) + Selectors(r)
  }

  /** Degree of a polynomial as `Expression::degree` counts it: queries have
      degree 1, constants 0, sums the larger and products the sum of their parts. */
  function Degree(e: Expr): nat
  {
    match e
    case Constant(_) => 0
    case AdviceQuery(_) => 1
    case SelectorQuery(_) => 1
    case Sum(l, r) => if Degree(l) < Degree(r) then Degree(r) else Degree(l)
    case Difference(l, r) => if Degree(l) < Degree(r) then Degree(r) else Degree(l)
    case Product(l, r) => Degree(l) + Degree(r)
  }

  /** Grids `g` and `g'` show the same advice cells and selectors at `row`. */
  ghost predicate SameRow(g: Grid, g': Grid, row: nat)
  {
    && (forall col :: Cell(Advice(col), row) in g.advice <==> Cell(Advice(col), row) in g'.advice)
    && (forall col :: Cell(Advice(col), row) in g.advice ==>
          g.advice[Cell(Advice(col), row)] == g'.advice[Cell(Advice(col), row)])
    && (forall s :: (s, row) in g.enabled <==> (s, row) in g'.enabled)
  }

  /** A polynomial at a row depends only on that row. */
  lemma {:induction false} EvalOnlyReadsRow(p: Modulus, e: Expr, g: Grid, g': Grid, row: nat)
    requires SameRow(g, g', row)
    ensures Eval(p, e, g, row) == Eval(p, e, g', row)
  {
    match e
    case Constant(_) =>
    case AdviceQuery(col) =>
      assert Cell(Advice(col), row) in g.advice <==> Cell(Advice(col), row) in g'.advice;
    case SelectorQuery(s) =>
      assert (s, row) in g.enabled <==> (s, row) in g'.enabled;
    case Sum(l, r) =>
      EvalOnlyReadsRow(p, l, g, g', row);
      EvalOnlyReadsRow(p, r, g, g', row);
    case Difference(l, r) =>
      EvalOnlyReadsRow(p, l, g, g', row);
      EvalOnlyReadsRow(p, r, g, g', row);
    case Product(l, r) =>
      EvalOnlyReadsRow(p, l, g, g', row);
      EvalOnlyReadsRow(p, r, g, g', row);
  }

  /** A row the continuation did not touch: every row already placed. */
  lemma ExtendsKeepsPlacedRows(g: Grid, g': Grid, row: nat)
    requires ValidGrid(g) && Extends(g, g') && row < g.rows
    ensures SameRow(g, g', row)
  {
  }
}
