/** The assignment phase (`Layouter<F>` and `Region<'_, F>`), as far as the
    example circuits use it.  Each `assign_region` call places a one-row region
    directly below the previous one; inside it a chip switches selectors on,
    assigns advice cells and records copy constraints.  The layouter knows which
    columns configuration enabled for equality.  Every method states its new
    state as a grid transformer of `Cells` applied to the old one. */
module Layouter {
  import opened Wrappers
  import opened Cells

  class Layouter {
    /** The columns enabled for equality during configuration. */
    const equality: set<Column>

    var advice: map<Cell, int>
    var enabled: set<(nat, nat)>
    var copies: set<(Cell, Cell)>
    var rows: nat

    /** The grid built so far. */
    function Snapshot(): Grid
      reads this
    {
      Grid(advice, enabled, copies, rows)
    }

    constructor (equality: set<Column>)
      ensures Snapshot() == EmptyGrid() && this.equality == equality
    {
      this.equality := equality;
      advice, enabled, copies, rows := map[], {}, {}, 0;
    }

    /** `assign_region`: places a one-row region directly below the previous one. */
    method AssignRegion() returns (region: Region)
      modifies this
      ensures region == Region(old(rows))
      ensures Snapshot() == PlaceRegion(old(Snapshot()))
    {
      region := Region(rows);
      rows := rows + 1;
    }

    /** `selector.enable(&mut region, offset)`. */
    method EnableSelector(selector: nat, region: Region, offset: nat)
      requires region.start + offset < rows
      modifies this
      ensures Snapshot() == Enable(old(Snapshot()), selector, region.start + offset)
    {
      enabled := enabled + {(selector, region.start + offset)};
    }

    /** `region.assign_advice(.., column, offset, || value.ok_or(Error::Synthesis))`:
        fails, writing nothing, when the witness is missing; a second write to
        the same cell replaces its value. */
    method AssignAdvice(column: nat, region: Region, offset: nat, value: Option<int>)
      returns (r: Result<AssignedCell, Error>)
      requires region.start + offset < rows
      modifies this
      ensures value.None? ==> r == Err(Synthesis) && Snapshot() == old(Snapshot())
      ensures value.Some? ==>
        var cell := Cell(Advice(column), region.start + offset);
        && r == Ok(AssignedCell(value, cell))
        && Snapshot() == Write(old(Snapshot()), cell, value.value)
    {
      if value.None? {
        return Err(Synthesis);
      }
      var cell := Cell(Advice(column), region.start + offset);
      advice := advice[cell := value.value];
      r := Ok(AssignedCell(value, cell));
    }

    /** `constrain_equal(left, right)`: both columns must be enabled for equality. */
    method ConstrainEqual(left: Cell, right: Cell) returns (r: Outcome<Error>)
      requires Placed(Snapshot(), left) && Placed(Snapshot(), right)
      modifies this
      ensures r.Pass? <==> left.column in equality && right.column in equality
      ensures r.Pass? ==> Snapshot() == Constrain(old(Snapshot()), left, right)
      ensures r.Fail? ==> r.error == ColumnNotInPermutation && Snapshot() == old(Snapshot())
    {
      if left.column !in equality || right.column !in equality {
        return Fail(ColumnNotInPermutation);
      }
      copies := copies + {(left, right)};
      r := Pass;
    }

    /** `source.copy_advice(.., region, column, offset)`: assigns the source's value
        to a new cell, then constrains the new cell equal to the source. */
    method CopyAdvice(source: AssignedCell, column: nat, region: Region, offset: nat)
      returns (r: Result<AssignedCell, Error>)
      requires region.start + offset < rows && Placed(Snapshot(), source.cell)
      modifies this
      ensures source.value.None? ==> r == Err(Synthesis) && Snapshot() == old(Snapshot())
      ensures source.value.Some? ==>
        var cell := Cell(Advice(column), region.start + offset);
        var written := Write(old(Snapshot()), cell, source.value.value);
        if Advice(column) in equality && source.cell.column in equality then
          && r == Ok(AssignedCell(source.value, cell))
          && Snapshot() == Constrain(written, cell, source.cell)
        else
          && r == Err(ColumnNotInPermutation)
          && Snapshot() == written
    {
      var written := AssignAdvice(column, region, offset, source.value);
      if written.Err? {
        return Err(written.error);
      }
      var constrained := ConstrainEqual(written.value.cell, source.cell);
      if constrained.Fail? {
        return Err(constrained.error);
      }
      r := written;
    }

    /** `layouter.constrain_instance(cell, column, row)`: binds an assigned cell to
        row `row` of an instance column. */
    method ConstrainInstance(cell: Cell, instance: nat, row: nat) returns (r: Outcome<Error>)
      requires Placed(Snapshot(), cell)
      modifies this
      ensures r.Pass? <==> cell.column in equality && Instance(instance) in equality
      ensures r.Pass? ==> Snapshot() == Constrain(old(Snapshot()), cell, Cell(Instance(instance), row))
      ensures r.Fail? ==> r.error == ColumnNotInPermutation && Snapshot() == old(Snapshot())
    {
      r := ConstrainEqual(cell, Cell(Instance(instance), row));
    }
  }
}
