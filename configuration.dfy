/** The configuration phase (`ConstraintSystem<F>`): columns, selectors,
    equality-enabled columns and gates are declared once, before any witness is
    known.  Each declaration appends to the constraint system and returns a handle,
    which is the index of the new column or selector. */
module Configuration {
  import opened Cells
  import opened Expression

  /** What a configured constraint system records. */
  datatype Shape = Shape(
    numAdvice: nat,
    numInstance: nat,
    numSelectors: nat,
    equality: set<Column>,
    gates: seq<Gate>)

  function EmptyShape(): Shape
  {
    Shape(0, 0, 0, {}, [])
  }

  class ConstraintSystem {
    var numAdvice: nat
    var numInstance: nat
    var numSelectors: nat
    var equality: set<Column>
    var gates: seq<Gate>

    function Snapshot(): Shape
      reads this
    {
      Shape(numAdvice, numInstance, numSelectors, equality, gates)
    }

    constructor ()
      ensures Snapshot() == EmptyShape()
    {
      numAdvice, numInstance, numSelectors := 0, 0, 0;
      equality, gates := {}, [];
    }

    /** `meta.advice_column()`: a fresh advice column. */
    method AdviceColumn() returns (column: nat)
      modifies this
      ensures column == old(numAdvice)
      ensures Snapshot() == old(Snapshot()).(numAdvice := column + 1)
    {
      column := numAdvice;
      numAdvice := numAdvice + 1;
    }

    /** `meta.instance_column()`: a fresh instance column. */
    method InstanceColumn() returns (column: nat)
      modifies this
      ensures column == old(numInstance)
      ensures Snapshot() == old(Snapshot()).(numInstance := column + 1)
    {
      column := numInstance;
      numInstance := numInstance + 1;
    }

    /** `meta.selector()`: a fresh selector. */
    method Selector() returns (selector: nat)
      modifies this
      ensures selector == old(numSelectors)
      ensures Snapshot() == old(Snapshot()).(numSelectors := selector + 1)
    {
      selector := numSelectors;
      numSelectors := numSelectors + 1;
    }

    /** `meta.enable_equality(column)`: the column may take part in copy constraints. */
    method EnableEquality(column: Column)
      modifies this
      ensures Snapshot() == old(Snapshot()).(equality := old(equality) + {column})
    {
      equality := equality + {column};
    }

    /** `meta.create_gate(name, ...)`: the polynomials must vanish wherever their
        selector is on. */
    method CreateGate(name: string, polys: seq<Expr>)
      modifies this
      ensures Snapshot() == old(Snapshot()).(gates := old(gates) + [Gate(name, polys)])
    {
      gates := gates + [Gate(name, polys)];
    }
  }
}
