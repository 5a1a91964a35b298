# halo2-demo circuits, modelled in Dafny

This project models the example circuits of the halo2-demo repository. Each one
is a small halo2 circuit that is configured once and then filled in with a
witness:

- the Fibonacci circuit `FiboChip` / `MyCircuit` (`src/main.rs`);
- the `a == b` chip (`src/mydemo/a_equals_b.rs`);
- the `a + b = c` chip with a public output (`src/mydemo/a_plus_b_eq_c.rs`);
- two range-check chips built by folding a product (`src/range_check/example1.rs`
  and `src/mydemo/range_check.rs`).

The part of the `halo2_proofs` crate that these circuits rely on is modelled as
far as they use it:

- `Field`: the field is the integers modulo a parameter `p`. Primality is asked
  for explicitly, as `NoZeroDivisors(p)`, by the lemmas that need it. The tests'
  field is BN254's `Fr`, whose order is the constant `FrModulus`.
- `Expression`: gate polynomials are an expression tree of constants, advice
  queries at the current row, selector queries, sums, differences and products.
  `Eval` reduces modulo `p`; `Value` computes over the integers.
- `Configuration`: a `ConstraintSystem` class. It allocates advice columns,
  instance columns and selectors, enables columns for equality and collects
  gates.
- `Cells` and `Layouter`: a `Layouter` class that places one-row regions one
  below the other. It switches selectors on, assigns advice cells (failing with
  `Error::Synthesis` when the witness is missing), copies cells and binds cells
  to instance rows. A copy fails with `ColumnNotInPermutation` when a column is
  not enabled for equality.
- `Verifier`: `Satisfied(p, shape, grid, instance)` stands in for
  `MockProver::verify`. The public input must have one vector per instance
  column. Every gate polynomial must be defined and vanish at each row where a
  selector it queries is on. Every copy constraint must join two known cells
  that are equal in the field. An instance cell past the end of its vector reads
  zero.

Each chip method states its new state as a grid function of the old one. The
circuit-level lemmas then characterise exactly which witnesses and public inputs
satisfy the synthesized grid.

One behaviour of `FiboChip` is worth noting. After the first loop turn,
`prev_b` is the previous turn's `prev_c`, which is the `c` cell two rows up. So
from the third row on, the `a` cell of each row is a copy of the `c` cell two
rows above, not of the `b` cell just above. The values agree, so the recurrence
is unaffected. `Fibonacci.ChainCopiesMembers` states the copies row by row.

## Model

| member | source | states |
|---|---|---|
| Configuration.ConstraintSystem.AdviceColumn | src/main.rs:138-140 | returns the next advice column index and changes nothing else |
| Configuration.ConstraintSystem.InstanceColumn | src/main.rs:142 | returns the next instance column index and changes nothing else |
| Configuration.ConstraintSystem.Selector | src/main.rs:141 | returns the next selector index and changes nothing else |
| Configuration.ConstraintSystem.EnableEquality | src/main.rs:149-152 | adds the column to the equality-enabled set and changes nothing else |
| Configuration.ConstraintSystem.CreateGate | src/main.rs:155-165 | appends the named gate with its polynomials and changes nothing else |
| Layouter.Layouter.AssignRegion | src/main.rs:85-87 | the new region starts at the first free row, and exactly one row is added |
| Layouter.Layouter.EnableSelector | src/main.rs:89 | switches the selector on at the region's row plus offset and changes nothing else |
| Layouter.Layouter.AssignAdvice | src/main.rs:91-98 | with no witness: `Err(Synthesis)` and nothing written; otherwise the cell holds the value and its handle is returned |
| Layouter.Layouter.ConstrainEqual | src/main.rs:53-58 | records the copy exactly when both columns are equality-enabled, else `ColumnNotInPermutation` with nothing recorded |
| Layouter.Layouter.CopyAdvice | src/main.rs:53-58 | a missing value gives `Synthesis`; otherwise the value is written, and the copy is recorded iff both columns are equality-enabled |
| Layouter.Layouter.ConstrainInstance | src/main.rs:38 | binds the cell to the instance row iff both columns are equality-enabled, else `ColumnNotInPermutation` with nothing recorded |
| Fibonacci.Configure | src/main.rs:137-171 | three distinct advice columns, a selector and an instance column; all four columns equality-enabled; the gate "add" `s * (a + b - c)` appended |
| Fibonacci.FirstRowHoldsIff | src/main.rs:155-165 | on a row `x, y, z` with the selector on, the gate holds iff `x + y - z` vanishes mod p |
| Fibonacci.AssignFirstRow | src/main.rs:79-125 | fails with `Synthesis` iff `a` or `b` is missing; otherwise the row is `a, a, a + b` (the `b` cell gets `a`) and the three handles are returned |
| Fibonacci.AssignNewRow | src/main.rs:40-77 | copies `prev_b` to `a` and `prev_c` to `b`, and assigns their sum to `c`; succeeds iff both values are known and all columns are equality-enabled; otherwise returns the first error in source order |
| Fibonacci.NewRowHolds | src/main.rs:61-73 | the row `assign_new_raw` adds satisfies the gate whatever it copies |
| Fibonacci.ExposePublic | src/main.rs:31-39 | binds the cell to the given instance row iff both columns are equality-enabled |
| Fibonacci.Synthesize | src/main.rs:192-215 | fails with `Synthesis` iff a witness is missing; otherwise builds `RunGrid` with first row `a, a, a + b`; the loop is proved against `Steps` |
| Fibonacci.FibLinear | src/main.rs:204-212 | every term of the recurrence is `Fib(0,1,k) * x + Fib(0,1,k+1) * y` |
| Fibonacci.FibSeven | src/main.rs:204-213 | the seventh term from seeds `x, y` is `8x + 13y` |
| Fibonacci.FibShift | src/main.rs:204-212 | seeding with the second and third terms skips one step |
| Fibonacci.FibEight | src/main.rs:204-212 | the eighth term from seeds `x, y` is `13x + 21y` |
| Fibonacci.TurnFacts | src/main.rs:207-212 | one loop turn keeps the carried handles valid, only adds below, and its row holds `b, c, b + c` |
| Fibonacci.TurnNewRow | src/main.rs:208-209 | the row one turn adds holds `b, c, b + c` for the carried values |
| Fibonacci.TurnKeepsRow | src/main.rs:208-209 | one turn leaves every earlier row's contents unchanged |
| Fibonacci.TurnKeepsGates | src/main.rs:208-209 | one turn does not change whether the gates hold |
| Fibonacci.TurnKeepsCopies | src/main.rs:53-58 | one turn does not change whether the copies hold: both copies it records join equal values |
| Fibonacci.StepsPreserve | src/main.rs:207-212 | an invariant of the carried state that every turn keeps, and a grid property no turn changes, survive any number of turns |
| Fibonacci.StepsConsistent | src/main.rs:207-212 | after any number of turns the carried handles still read their cells |
| Fibonacci.StepsKeepRow | src/main.rs:207-212 | any number of turns leaves earlier rows unchanged |
| Fibonacci.StepsValues | src/main.rs:207-212 | after `n` turns `(prev_b, prev_c)` hold terms `n` and `n + 1` of the recurrence seeded by the carried values |
| Fibonacci.StepsCells | src/main.rs:207-212 | after `n` turns `prev_c` names the last row's `c` cell and `prev_b` the one before it (`CurCell`, `PrevCell`) |
| Fibonacci.StepsCopies | src/main.rs:53-58 | the copies `n` turns record are exactly `ChainCopies` |
| Fibonacci.StepsTable | src/main.rs:207-212 | the `n` rows the turns add hold consecutive triples of the recurrence |
| Fibonacci.StepsKeepGates | src/main.rs:207-212 | any number of turns does not change whether the gates hold |
| Fibonacci.StepsKeepCopies | src/main.rs:207-212 | any number of turns does not change whether the copies hold |
| Fibonacci.FirstRowFacts | src/main.rs:89-118 | the first row keeps the grid well formed, only adds below, and holds `x, y, z` |
| Fibonacci.FirstCarryFacts | src/main.rs:199-203 | after the first row and the two exposures, the grid holds row 0 and exactly the two bindings of its `a` cell to instance rows 0 and 1 |
| Fibonacci.ChainCopiesMembers | src/main.rs:53-58 | row 1 copies the first row's `b` and `c`; every later row's `a` copies the `c` two rows up, and its `b` the `c` just above |
| Fibonacci.RunRows | src/main.rs:199-212 | the synthesized grid has 7 rows; row 0 holds `x, y, z`; row `1 + k` holds terms `k..k+2` from seeds `y, z` |
| Fibonacci.RunCopies | src/main.rs:202-213 | the synthesized grid's copies are exactly the three instance bindings plus `ChainCopies` of the loop |
| Fibonacci.RunGatesIff | src/main.rs:155-165 | the synthesized grid's gates hold iff the first row's gate holds |
| Fibonacci.RunCopiesIff | src/main.rs:202-213 | its copies hold iff instance rows 0 and 1 equal the first `a`, and row 2 equals the seventh term from the first `b, c` |
| Fibonacci.FirstBindingsIff | src/main.rs:202-203 | the two bindings of the first `a` cell hold iff instance rows 0 and 1 equal `x` mod p |
| Fibonacci.LastBindingIff | src/main.rs:213 | binding the last carried `c` holds iff instance row 2 equals the seventh term from seeds `y, z` mod p |
| Fibonacci.RunSatisfiedIff | src/main.rs:192-215 | the synthesized grid is satisfied iff the first row satisfies the gate and the three public values are as in `RunCopiesIff` |
| Fibonacci.SynthesizedSatisfiedIff | src/main.rs:100-110 | as written, satisfied iff `a == b` mod p and the public input is `a, a, 21a + 13b` |
| Fibonacci.FirstRowMismatchRejected | src/main.rs:105 | with `a = 2`, `b = 3`, no public input satisfies the circuit as written |
| Fibonacci.IntendedSatisfiedIff | src/main.rs:100-110 | with `b` in the `b` cell, satisfied iff the public input is `a, a, Fib(a, b, 8) = 13a + 21b` |
| Fibonacci.MainWithInstanceAccepted | src/main.rs:218-225 | with `a = b = 1`, the public input `1, 1, 34` is accepted, for any configured layout whose instance column is column 0 |
| AEqualsB.Configure | src/mydemo/a_equals_b.rs:28-50 | two advice columns, both equality-enabled, a selector, and the gate `s * (a - b)` |
| AEqualsB.RegionFacts | src/mydemo/a_equals_b.rs:59-79 | the region keeps the grid well formed and only adds below |
| AEqualsB.Assign | src/mydemo/a_equals_b.rs:53-79 | fails with `Synthesis` iff a witness is missing; otherwise adds the row `a, b` with the selector on |
| AEqualsB.RegionRowHolds | src/mydemo/a_equals_b.rs:38-44 | the gate holds on that row iff `a == b` mod p |
| AEqualsB.SynthesizedSatisfiedIff | src/mydemo/a_equals_b.rs:96-103 | satisfied iff the public input has as many columns as the shape declares and `a == b` mod p |
| AEqualsB.EqualWitnessesAccepted | src/mydemo/a_equals_b.rs:112-123 | `(2, 2)` is accepted over `Fr` |
| AEqualsB.UnequalWitnessesRejected | src/mydemo/a_equals_b.rs:124-135 | `(2, 3)` is rejected over `Fr` |
| APlusBEqC.Configure | src/mydemo/a_plus_b_eq_c.rs:30-54 | three distinct advice columns, an instance column and a selector; only `c` and the instance column equality-enabled; the gate `s * (a + b - c)` |
| APlusBEqC.RegionFacts | src/mydemo/a_plus_b_eq_c.rs:70-97 | the region keeps the grid well formed and only adds below |
| APlusBEqC.Assign | src/mydemo/a_plus_b_eq_c.rs:64-98 | fails with `Synthesis` iff a witness is missing; otherwise adds the row `a, b, b + a` and returns the `c` handle |
| APlusBEqC.Enforce | src/mydemo/a_plus_b_eq_c.rs:56-62 | binds the cell to instance row 0 iff both columns are equality-enabled |
| APlusBEqC.Synthesize | src/mydemo/a_plus_b_eq_c.rs:118-128 | three identical rows, then the last `c` bound to instance row 0; the error is `Synthesis` for a missing witness, else `ColumnNotInPermutation` |
| APlusBEqC.GateHoldsIff | src/mydemo/a_plus_b_eq_c.rs:40-46 | on any row `x, y, z` with the selector on, the gate holds iff `z == x + y` mod p: a wrong `c` breaks it |
| APlusBEqC.RegionRowHolds | src/mydemo/a_plus_b_eq_c.rs:40-46 | the gate holds on every row `assign` lays out, whatever the witnesses |
| APlusBEqC.RegionKeepsGates | src/mydemo/a_plus_b_eq_c.rs:73-93 | adding a region never changes whether the gates hold |
| APlusBEqC.SynthesizedGatesHold | src/mydemo/a_plus_b_eq_c.rs:124-126 | the gates hold on every synthesized grid |
| APlusBEqC.SynthesizedSatisfiedIff | src/mydemo/a_plus_b_eq_c.rs:118-128 | satisfied iff public row 0 equals `a + b` mod p |
| APlusBEqC.SumAccepted | src/mydemo/a_plus_b_eq_c.rs:139-152 | `a = 1, b = 2` with public input `[3]` is accepted |
| APlusBEqC.WrongSumRejected | src/mydemo/a_plus_b_eq_c.rs:153-166 | with public input `[7]` it is rejected |
| RangeFold.FoldValue | src/range_check/example1.rs:38-42 | the fold over an advice query has no selector; its value is `RangeProduct` of the cell, and it is undefined iff the cell is unassigned |
| RangeFold.FoldDegree | src/mydemo/range_check.rs:28-32 | the fold's degree is 1 plus the length of `lo..hi` |
| RangeFold.InRangeVanishes | src/range_check/example1.rs:31-42 | for a fold starting at 0 or 1, every `x` with `x mod p` in `0 .. hi-1` makes the product vanish, in any modulus |
| RangeFold.VanishesOnlyInRange | src/mydemo/range_check.rs:24-32 | in a field with `hi <= p`, only such `x` make it vanish |
| RangeFold.VanishesIff | src/mydemo/range_check.rs:24-32 | both directions: the product vanishes iff `x mod p` is 0 or below `hi` |
| RangeFold.FromZeroSquares | src/range_check/example1.rs:39-40 | the fold from 0 equals `-x` times the fold from 1 |
| RangeFold.SingleCellRegionFacts | src/range_check/example1.rs:53-66 | the one-cell region keeps the grid well formed and only adds below |
| RangeFold.SingleCellSatisfiedIff | src/mydemo/range_check.rs:45-59 | one region under one fold gate is satisfied iff the public input has the configured column count and the product vanishes mod p |
| RangeCheck.Configure | src/range_check/example1.rs:19-47 | reuses the given column; adds one selector and the gate over `0..RANGE`; enables no equality; always `Ok` |
| RangeCheck.CircuitConfigure | src/range_check/example1.rs:94-97 | a fresh advice column, then `configure`, unwrapped |
| RangeCheck.Assign | src/range_check/example1.rs:48-71 | fails with `Synthesis` iff the value is missing; otherwise one row with the selector on and the value written |
| RangeCheck.GateDegree | src/range_check/example1.rs:35-45 | the gate polynomial has degree `RANGE + 2` |
| RangeCheck.CommentedProductSameRoots | src/range_check/example1.rs:33-40 | the code's product is `-v` times the product the comment writes, and in a field both vanish for the same values |
| RangeCheck.SynthesizedSatisfiedIff | src/range_check/example1.rs:35-45 | for `RANGE <= p` in a field: satisfied iff `v mod p` is 0 or below `RANGE` (only 0 when `RANGE = 0`) |
| RangeCheck.EveryValueInRangeAccepted | src/range_check/example1.rs:107-117 | with `RANGE = 8` every `i < 8` is accepted over `Fr` |
| RangeCheck.BoundRejected | src/range_check/example1.rs:31-34 | with `RANGE = 8` the value 8 is rejected over `Fr` |
| RangeDemo.Configure | src/mydemo/range_check.rs:21-36 | a fresh advice column and selector, and the gate over `1..range_right`; no equality, no instance column |
| RangeDemo.Assign | src/mydemo/range_check.rs:45-59 | fails with `Synthesis` iff the value is missing; otherwise one row with `s` on and the value written |
| RangeDemo.GateDegree | src/mydemo/range_check.rs:28-33 | the gate polynomial has degree `range_right + 1`, or 2 when `range_right <= 1` (the gate is then `s * v`) |
| RangeDemo.SynthesizedSatisfiedIff | src/mydemo/range_check.rs:24-33 | for `range_right <= p` in a field: satisfied iff `v mod p` is 0 or below `range_right` |
| RangeDemo.ValueInRangeAccepted | src/mydemo/range_check.rs:90-98 | `R = 6`, `v = 2` is accepted over `Fr` |
| RangeDemo.ValueOutOfRangeRejected | src/mydemo/range_check.rs:99-107 | `R = 6`, `v = 10` is rejected over `Fr` |

## Left out

- Proving-system internals of `halo2_proofs` are not modelled: keygen, proving, the permutation argument and `SimpleFloorPlanner`'s placement policy. Regions are one row each and are placed at successive rows, which is what these circuits produce.
- The table size `k` is not modelled. There is no `NotEnoughRowsAvailable` and no check of the degree bound against `k`.
- `without_witnesses`, plotting (the `dev-graph` test), region and cell annotations, `PhantomData`, and the chips' `construct` are left out. They carry no behaviour beyond wrapping the configuration.
- `Layouter.Layouter.AssignAdvice`: cells are not write-once. A second write replaces the value, as `MockProver` does. No modelled circuit writes a cell twice.
- `AEqualsB.Assign`, `APlusBEqC.Assign`, `APlusBEqC.Synthesize`, `Fibonacci.AssignFirstRow`, `Fibonacci.AssignNewRow`, `Fibonacci.Synthesize`, `RangeCheck.Assign`, `RangeDemo.Assign`: on failure the partly written region is not described, only the error. A failed synthesis is rejected as a whole.
- `Fibonacci.Synthesize` requires the equality-enabled columns that `Fibonacci.Configure` creates. With them, no exposure or copy fails, so the source's `?` on those calls never fires.
- `RangeCheck.Configure`: the gate closure's own `range` argument is ignored by the source. The bound is always the const `RANGE`, which is also what the call passes.
- The "only in range" lemmas (`RangeFold.VanishesOnlyInRange`, `RangeFold.VanishesIff`, and both chips' `SynthesizedSatisfiedIff`) take `NoZeroDivisors(p)` as a precondition. The primality of BN254's order is not proved. The concrete tests avoid it by computing the product directly.
- `main`: its own run passes an empty public input although `synthesize` binds instance rows 0 to 2, so its outcome is not stated. `Fibonacci.MainWithInstanceAccepted` states the run with the public input `1, 1, 34`.
- `src/mydemo/mimc/sc_box.rs` (a stub referring to undefined items) and `src/range_check/table.rs` (a lookup table no gate uses) are not part of this model.
- Field elements are unbounded integers compared modulo `p`. The `u64` conversion of constants (`F::from(i as u64)`) is exact for every range these circuits use.

## Findings

| source | as written | input that shows it | evidently intended | confidence | as-written member | corrected member |
|---|---|---|---|---|---|---|
| src/main.rs:105 | `assign_first_row` assigns the witness `a` to the `b` cell, so the first row is `a, a, a + b` and its gate holds only when `a == b` | `a = 2`, `b = 3`: no public input is accepted | assign `b` to the `b` cell, so the row is `a, b, a + b` and the last `c` is the eighth term `13a + 21b` | not executed; `main` uses `a = b = 1`, where both versions give 34 | Fibonacci.SynthesizedSatisfiedIff, Fibonacci.FirstRowMismatchRejected | Fibonacci.IntendedSatisfiedIff |
