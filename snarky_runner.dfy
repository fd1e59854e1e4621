/**
  The parts of the snarky runner that the Poseidon gadget relies on:
  circuit variables (`FieldVar`), the constraint values it emits, and a
  `RunState` that hands out fresh variables, records unconstrained
  computations and keeps an append-only log of constraints.
*/
module SnarkyRunner {
  import opened Wrappers

  /** A symbolic circuit variable. `+` builds a symbolic sum and nothing more. */
  datatype FieldVar =
    | Constant(value: int)
    | Var(index: nat)
    | Add(left: FieldVar, right: FieldVar)

  /** `FieldVar::zero()`. */
  function Zero(): FieldVar { Constant(0) }

  /** `&a + b` on circuit variables: a symbolic sum, never evaluated here. */
  function Plus(a: FieldVar, b: FieldVar): FieldVar { Add(a, b) }

  /** The `width` fresh variables that an allocation starting at `base` returns. */
  function FreshVars(base: nat, width: nat): (r: seq<FieldVar>)
    ensures |r| == width
    ensures forall j :: 0 <= j < width ==> r[j] == Var(base + j)
  {
    seq(width, j requires 0 <= j < width => Var(base + j))
  }

  /**
    One unconstrained computation: the witness values of `outputs` are
    `full_round(params, values of inputs, round)`. The round function itself
    is never evaluated; the record is all the model keeps.
  */
  datatype Computation = FullRound(outputs: seq<FieldVar>, inputs: seq<FieldVar>, round: nat, loc: string)

  /** The Poseidon gate's input: the reordered round states and the final state. */
  datatype PoseidonInput = PoseidonInput(states: seq<seq<FieldVar>>, last: seq<FieldVar>)

  /** The kimchi-specific constraints; only the Poseidon gate is part of this model. */
  datatype KimchiConstraint = Poseidon2(input: PoseidonInput)

  /** A constraint handed to the runner. Other gate kinds are not part of this model. */
  datatype Constraint = KimchiConstraint(kimchi: KimchiConstraint)

  /** One entry of the runner's constraint log: the constraint, its label (`tag`) and its location. */
  datatype Entry = Entry(constraint: Constraint, tag: Option<string>, loc: string)

  /** The label under which the Poseidon gadget submits its constraint. */
  const POSEIDON_LABEL: string := "Poseidon"

  /** Number of permutations recorded in a constraint log. */
  function PoseidonCount(log: seq<Entry>): (r: nat)
    ensures r <= |log|
  {
    if log == [] then 0
    else PoseidonCount(log[..|log| - 1]) + (if log[|log| - 1].tag == Some(POSEIDON_LABEL) then 1 else 0)
  }

  /** Counting is additive over concatenated logs. */
  lemma {:induction false} PoseidonCountAppend(a: seq<Entry>, b: seq<Entry>)
    ensures PoseidonCount(a + b) == PoseidonCount(a) + PoseidonCount(b)
    decreases |b|
  {
    if b == [] {
      assert a + b == a;
    } else {
      var b' := b[..|b| - 1];
      assert (a + b)[..|a + b| - 1] == a + b';
      assert (a + b)[|a + b| - 1] == b[|b| - 1];
      PoseidonCountAppend(a, b');
    }
  }

  /**
    The circuit runner, reduced to what the gadget touches: the next free
    variable index, the log of unconstrained computations and the
    append-only constraint log.
  */
  class RunState {
    var nextVar: nat
    var computations: seq<Computation>
    var constraints: seq<Entry>

    constructor ()
      ensures nextVar == 0 && computations == [] && constraints == []
    {
      nextVar := 0;
      computations := [];
      constraints := [];
    }

    /**
      `compute` with the round closure: allocates one fresh variable per
      input and records that their witness values are one full round of
      the permutation applied to the inputs' values.
    */
    method Compute(loc: string, inputs: seq<FieldVar>, round: nat) returns (outputs: seq<FieldVar>)
      modifies this
      ensures outputs == FreshVars(old(nextVar), |inputs|)
      ensures nextVar == old(nextVar) + |inputs|
      ensures computations == old(computations) + [FullRound(outputs, inputs, round, loc)]
      ensures constraints == old(constraints)
    {
      outputs := FreshVars(nextVar, |inputs|);
      nextVar := nextVar + |inputs|;
      computations := computations + [FullRound(outputs, inputs, round, loc)];
    }

    /** `add_constraint`: appends to the log; the failure path is not modelled. */
    method AddConstraint(constraint: Constraint, tag: Option<string>, loc: string)
      modifies this
      ensures constraints == old(constraints) + [Entry(constraint, tag, loc)]
      ensures nextVar == old(nextVar) && computations == old(computations)
    {
      constraints := constraints + [Entry(constraint, tag, loc)];
    }
  }
}
