/**
  The in-circuit Poseidon gadget and the duplex sponge built on it
  (kimchi's snarky `poseidon` module).

  `Poseidon` runs the permutation round by round through the runner's
  unconstrained `compute`, lays the round states out in the row order of
  the Poseidon gate and submits exactly one constraint. `DuplexState` is the
  absorb/squeeze state machine on top of it.
*/
module SnarkyPoseidon {
  import opened Wrappers
  import opened SnarkyRunner

  /** Width of the permutation state. */
  const SPONGE_WIDTH: nat := 3
  /** Round states per row of the Poseidon gate. */
  const ROUNDS_PER_ROW: nat := 5
  /** Full rounds of one permutation. */
  const ROUNDS_PER_HASH: nat := 55
  /** The rate of the sponge: the part modified when absorbing and released when squeezing. */
  const RATE_SIZE: nat := 2
  /**
    Fresh variables one call of `Poseidon` allocates: one state per closure
    call of the round iterator, written out as a literal (see `VarsPerHash`).
  */
  const VARS_PER_HASH: nat := 168

  /** The iterator calls the round closure `ROUNDS_PER_HASH + 1` times, each allocating a state. */
  lemma VarsPerHash()
    ensures VARS_PER_HASH == (ROUNDS_PER_HASH + 1) * SPONGE_WIDTH
  {
  }

  type State = s: seq<FieldVar> | |s| == SPONGE_WIDTH witness [Constant(0), Constant(0), Constant(0)]

  type Preimage = (FieldVar, FieldVar)

  // ---------------------------------------------------------------------------
  // Row layout of the round states
  // ---------------------------------------------------------------------------

  /**
    Each chunk `r0, r1, r2, r3, r4` of round states is emitted as
    `r0, r4, r1, r2, r3`. The gadget cuts the states into chunks of
    `ROUNDS_PER_ROW` and takes exactly five items from each, failing on a
    shorter chunk: hence a length that is a multiple of five.
  */
  function RowLayout<T>(s: seq<T>): (r: seq<T>)
    requires |s| % 5 == 0
    ensures |r| == |s|
    decreases |s|
  {
    if |s| == 0 then [] else [s[0], s[4], s[1], s[2], s[3]] + RowLayout(s[5..])
  }

  /** The inverse layout: each emitted chunk `r0, r4, r1, r2, r3` back to round order. */
  function RowUnlayout<T>(t: seq<T>): (r: seq<T>)
    requires |t| % 5 == 0
    ensures |r| == |t|
    decreases |t|
  {
    if |t| == 0 then [] else [t[0], t[2], t[3], t[4], t[1]] + RowUnlayout(t[5..])
  }

  /** Chunk `c` of the layout holds round states `5c, 5c+4, 5c+1, 5c+2, 5c+3`. */
  lemma {:induction false} RowLayoutChunk<T>(s: seq<T>, c: nat)
    requires |s| % 5 == 0
    requires 5 * c < |s|
    ensures var r := RowLayout(s);
      && r[5 * c] == s[5 * c]
      && r[5 * c + 1] == s[5 * c + 4]
      && r[5 * c + 2] == s[5 * c + 1]
      && r[5 * c + 3] == s[5 * c + 2]
      && r[5 * c + 4] == s[5 * c + 3]
    decreases c
  {
    var rest := s[5..];
    assert RowLayout(s) == [s[0], s[4], s[1], s[2], s[3]] + RowLayout(rest);
    if c > 0 {
      RowLayoutChunk(rest, c - 1);
      var c' := c - 1;
      assert 5 * c == 5 * c' + 5;
      assert s[5 * c] == rest[5 * c'] && s[5 * c + 1] == rest[5 * c' + 1];
      assert s[5 * c + 2] == rest[5 * c' + 2] && s[5 * c + 3] == rest[5 * c' + 3];
      assert s[5 * c + 4] == rest[5 * c' + 4];
    }
  }

  /** One step of the layout: the first chunk, then the layout of the rest. */
  lemma UnfoldLayout<T>(s: seq<T>)
    requires |s| % 5 == 0 && |s| > 0
    ensures RowLayout(s) == s[..1] + (s[4..5] + s[1..4]) + RowLayout(s[5..])
  {
    ChunkRest(|s|);
    var rest := s[5..];
    assert |rest| % 5 == 0;
    var tail := RowLayout(rest);
    assert RowLayout(s) == [s[0], s[4], s[1], s[2], s[3]] + tail;
    HeadChunk(s);
  }

  lemma ChunkRest(n: nat)
    requires n % 5 == 0 && n > 0
    ensures n >= 5 && (n - 5) % 5 == 0
  {
  }

  lemma HeadChunk<T>(s: seq<T>)
    requires |s| >= 5
    ensures s[..1] + (s[4..5] + s[1..4]) == [s[0], s[4], s[1], s[2], s[3]]
  {
    var head := s[..1] + (s[4..5] + s[1..4]);
    assert |head| == 5;
    assert head[0] == s[0] && head[1] == s[4] && head[2] == s[1] && head[3] == s[2] && head[4] == s[3];
  }

  lemma SplitChunk<T>(s: seq<T>)
    requires |s| >= 5
    ensures s == s[..1] + (s[1..4] + s[4..5]) + s[5..]
  {
    assert s == s[..4] + s[4..5] + s[5..];
    assert s[..4] == s[..1] + s[1..4];
  }

  lemma MultisetSwap<T>(a: seq<T>, x: seq<T>, y: seq<T>, r: seq<T>, r': seq<T>, u: seq<T>, v: seq<T>)
    requires multiset(r) == multiset(r')
    requires u == a + (x + y) + r && v == a + (y + x) + r'
    ensures multiset(u) == multiset(v)
  {
    calc {
      multiset(a + (x + y) + r);
      multiset(a) + multiset(x) + multiset(y) + multiset(r);
      multiset(a) + multiset(y) + multiset(x) + multiset(r');
      multiset(a + (y + x) + r');
    }
  }

  /** The layout only reorders: it is a permutation of the round states. */
  lemma {:induction false} RowLayoutPermutes<T>(s: seq<T>)
    requires |s| % 5 == 0
    ensures multiset(RowLayout(s)) == multiset(s)
    decreases |s|
  {
    if |s| > 0 {
      var rest := s[5..];
      RowLayoutPermutes(rest);
      UnfoldLayout(s);
      SplitChunk(s);
      MultisetSwap(s[..1], s[4..5], s[1..4], RowLayout(rest), rest, RowLayout(s), s);
    }
  }

  /** Undoing the layout gives back the round states in order. */
  lemma {:induction false} RowLayoutRoundTrip<T>(s: seq<T>)
    requires |s| % 5 == 0
    ensures RowUnlayout(RowLayout(s)) == s
    decreases |s|
  {
    if |s| > 0 {
      var r := RowLayout(s);
      assert r[5..] == RowLayout(s[5..]);
      RowLayoutRoundTrip(s[5..]);
      assert s == s[..5] + s[5..];
    }
  }

  /** Every emitted order comes from exactly one round order. */
  lemma {:induction false} RowUnlayoutRoundTrip<T>(t: seq<T>)
    requires |t| % 5 == 0
    ensures RowLayout(RowUnlayout(t)) == t
    decreases |t|
  {
    if |t| > 0 {
      var r := RowUnlayout(t);
      assert r[5..] == RowUnlayout(t[5..]);
      RowUnlayoutRoundTrip(t[5..]);
      assert t == t[..5] + t[5..];
    }
  }

  // ---------------------------------------------------------------------------
  // The permutation trace and the constraint it produces
  // ---------------------------------------------------------------------------

  /** `[preimage.0, preimage.1, zero]`. */
  function InitialState(preimage: Preimage): State
  {
    [preimage.0, preimage.1, Zero()]
  }

  /** The state the runner allocates for the round computed when `nextVar` was `at`. */
  function AllocatedState(at: nat): State
  {
    FreshVars(at, SPONGE_WIDTH)
  }

  /**
    The states the round iterator goes through when started at `init` with
    `base` the runner's first free variable: `init`, then one allocated state
    per closure call. The iterator computes each successor as soon as it
    yields an item, so taking `ROUNDS_PER_HASH + 1` items calls the closure
    `ROUNDS_PER_HASH + 1` times and the last state is never yielded.
  */
  function Trace(init: State, base: nat): (t: seq<State>)
    ensures |t| == ROUNDS_PER_HASH + 2
    ensures t[0] == init
  {
    [init] + seq(ROUNDS_PER_HASH + 1, k requires 0 <= k => AllocatedState(base + SPONGE_WIDTH * k))
  }

  /** The computation log of a trace: round `i` maps state `i` to state `i + 1`. */
  function RoundLog(t: seq<State>, loc: string): (log: seq<Computation>)
    requires |t| >= 1
    ensures |log| == |t| - 1
  {
    seq(|t| - 1, i requires 0 <= i < |t| - 1 => FullRound(t[i + 1], t[i], i, loc))
  }

  lemma RoundLogSnoc(t: seq<State>, n: nat, loc: string)
    requires 1 <= n < |t|
    ensures RoundLog(t[..n + 1], loc) == RoundLog(t[..n], loc) + [FullRound(t[n], t[n - 1], n - 1, loc)]
  {
  }

  /** The constraint `Poseidon` submits for `preimage` when the runner's next variable is `base`. */
  function PoseidonEntry(preimage: Preimage, base: nat, loc: string): (e: Entry)
    ensures e.tag == Some(POSEIDON_LABEL) && e.loc == loc
    ensures |e.constraint.kimchi.input.states| == ROUNDS_PER_HASH
    ensures var last := e.constraint.kimchi.input.last;
      |last| == SPONGE_WIDTH && (last[0], last[1]) == PoseidonHash(preimage, base)
  {
    var t := Trace(InitialState(preimage), base);
    Entry(KimchiConstraint(Poseidon2(PoseidonInput(RowLayout<seq<FieldVar>>(t[..ROUNDS_PER_HASH]), t[ROUNDS_PER_HASH]))),
          Some(POSEIDON_LABEL), loc)
  }

  /** The computations `Poseidon` records for `preimage`. */
  function PoseidonComputations(preimage: Preimage, base: nat, loc: string): seq<Computation>
  {
    RoundLog(Trace(InitialState(preimage), base), loc)
  }

  /** The pair `Poseidon` returns: the first two cells of the state after `ROUNDS_PER_HASH` rounds. */
  function PoseidonHash(preimage: Preimage, base: nat): (h: Preimage)
    ensures var at := base + SPONGE_WIDTH * (ROUNDS_PER_HASH - 1);
      h == (Var(at), Var(at + 1))
  {
    var last := Trace(InitialState(preimage), base)[ROUNDS_PER_HASH];
    (last[0], last[1])
  }

  /**
    The computation log of one hash: `ROUNDS_PER_HASH + 1` closure calls, the
    first on `[preimage.0, preimage.1, zero]`, each later one on the previous
    one's outputs, call `i` with round index `i`.
  */
  lemma PoseidonRoundsChain(preimage: Preimage, base: nat, loc: string)
    ensures var log := PoseidonComputations(preimage, base, loc);
      && |log| == ROUNDS_PER_HASH + 1
      && log[0].inputs == [preimage.0, preimage.1, Zero()]
      && (forall i :: 0 <= i < |log| ==> log[i].round == i && |log[i].outputs| == SPONGE_WIDTH)
      && (forall i :: 0 < i < |log| ==> log[i].inputs == log[i - 1].outputs)
  {
  }

  /** The state each computation of `log` starts from. */
  function RoundInputs(log: seq<Computation>): (r: seq<seq<FieldVar>>)
    ensures |r| == |log|
  {
    seq(|log|, i requires 0 <= i < |log| => log[i].inputs)
  }

  /**
    The constraint of one hash, read against its computation log: labelled
    "Poseidon"; `states` is the row layout of the inputs of rounds
    0 .. ROUNDS_PER_HASH - 1, each of width `SPONGE_WIDTH`; `last` is the
    output of round ROUNDS_PER_HASH - 1; and the returned pair is the first
    two cells of `last`.
  */
  lemma PoseidonEntryFromLog(preimage: Preimage, base: nat, loc: string)
    ensures var e := PoseidonEntry(preimage, base, loc);
      var log := PoseidonComputations(preimage, base, loc);
      var states := e.constraint.kimchi.input.states;
      && |log| == ROUNDS_PER_HASH + 1
      && e.tag == Some(POSEIDON_LABEL)
      && states == RowLayout(RoundInputs(log)[..ROUNDS_PER_HASH])
      && (forall k :: 0 <= k < |states| ==> |states[k]| == SPONGE_WIDTH)
      && e.constraint.kimchi.input.last == log[ROUNDS_PER_HASH - 1].outputs
      && PoseidonHash(preimage, base) == (e.constraint.kimchi.input.last[0], e.constraint.kimchi.input.last[1])
  {
    var log := PoseidonComputations(preimage, base, loc);
    TraceRounds(preimage, base, loc);
    LayoutKeepsWidth(RoundInputs(log)[..ROUNDS_PER_HASH]);
  }

  /** The first `ROUNDS_PER_HASH` round inputs are the first states of the trace. */
  lemma TraceRounds(preimage: Preimage, base: nat, loc: string)
    ensures var t := Trace(InitialState(preimage), base);
      var rounds := RoundInputs(PoseidonComputations(preimage, base, loc))[..ROUNDS_PER_HASH];
      && rounds == t[..ROUNDS_PER_HASH]
      && (forall i :: 0 <= i < |rounds| ==> |rounds[i]| == SPONGE_WIDTH)
  {
    var t := Trace(InitialState(preimage), base);
    var rounds := RoundInputs(PoseidonComputations(preimage, base, loc))[..ROUNDS_PER_HASH];
    assert forall i :: 0 <= i < ROUNDS_PER_HASH ==> rounds[i] == t[i];
  }

  lemma LayoutKeepsWidth(rounds: seq<seq<FieldVar>>)
    requires |rounds| % 5 == 0
    requires forall i :: 0 <= i < |rounds| ==> |rounds[i]| == SPONGE_WIDTH
    ensures var states := RowLayout(rounds);
      forall k :: 0 <= k < |states| ==> |states[k]| == SPONGE_WIDTH
  {
    var states := RowLayout(rounds);
    RowLayoutPermutes(rounds);
    forall k | 0 <= k < |states|
      ensures |states[k]| == SPONGE_WIDTH
    {
      assert states[k] in multiset(rounds);
    }
  }

  /**
    The constraint of one hash: its `states` has `ROUNDS_PER_HASH` entries
    that are the round states 0 .. ROUNDS_PER_HASH - 1, reordered: a
    permutation of them, and chunk `c` holds states 5c, 5c+4, 5c+1, 5c+2,
    5c+3.
  */
  lemma PoseidonConstraintShape(preimage: Preimage, base: nat, loc: string, c: nat)
    requires c < ROUNDS_PER_HASH / ROUNDS_PER_ROW
    ensures var log := PoseidonComputations(preimage, base, loc);
      var states := PoseidonEntry(preimage, base, loc).constraint.kimchi.input.states;
      var rounds := RoundInputs(log)[..ROUNDS_PER_HASH];
      && |states| == ROUNDS_PER_HASH
      && multiset(states) == multiset(rounds)
      && states[5 * c] == rounds[5 * c]
      && states[5 * c + 1] == rounds[5 * c + 4]
      && states[5 * c + 2] == rounds[5 * c + 1]
      && states[5 * c + 3] == rounds[5 * c + 2]
      && states[5 * c + 4] == rounds[5 * c + 3]
  {
    var log := PoseidonComputations(preimage, base, loc);
    PoseidonEntryFromLog(preimage, base, loc);
    var rounds := RoundInputs(log)[..ROUNDS_PER_HASH];
    RowLayoutPermutes(rounds);
    RowLayoutChunk(rounds, c);
  }

  /** One round: `compute` applied to the round closure. */
  method Round(runner: RunState, loc: string, elements: State, round: nat) returns (next: State)
    modifies runner
    ensures next == AllocatedState(old(runner.nextVar))
    ensures runner.nextVar == old(runner.nextVar) + SPONGE_WIDTH
    ensures runner.computations == old(runner.computations) + [FullRound(next, elements, round, loc)]
    ensures runner.constraints == old(runner.constraints)
  {
    var outputs := runner.Compute(loc, elements, round);
    next := outputs;
  }

  /**
    The Poseidon gadget: runs the permutation on `[preimage.0, preimage.1, zero]`,
    submits one "Poseidon" constraint carrying the row-ordered trace and the
    final state, and returns the final state's first two cells.
  */
  method Poseidon(runner: RunState, loc: string, preimage: Preimage) returns (hash: Preimage)
    modifies runner
    ensures runner.nextVar == old(runner.nextVar) + VARS_PER_HASH
    ensures runner.computations == old(runner.computations) + PoseidonComputations(preimage, old(runner.nextVar), loc)
    ensures runner.constraints == old(runner.constraints) + [PoseidonEntry(preimage, old(runner.nextVar), loc)]
    ensures hash == PoseidonHash(preimage, old(runner.nextVar))
  {
    var initial: State := [preimage.0, preimage.1, Zero()];
    ghost var t := Trace(initial, runner.nextVar);
    var items := RunRounds(runner, loc, initial);
    assert items[..ROUNDS_PER_HASH] == t[..ROUNDS_PER_HASH];
    assert items[ROUNDS_PER_HASH] == t[ROUNDS_PER_HASH];
    var states := RowLayout<seq<FieldVar>>(items[..ROUNDS_PER_HASH]);
    var last := items[ROUNDS_PER_HASH];
    hash := (last[0], last[1]);
    var constraint := KimchiConstraint(Poseidon2(PoseidonInput(states, last)));
    runner.AddConstraint(constraint, Some(POSEIDON_LABEL), loc);
  }

  /**
    The first `ROUNDS_PER_HASH + 1` states of the round iterator started at
    `initial`; the iterator computes one state past the last one taken.
  */
  method RunRounds(runner: RunState, loc: string, initial: State) returns (items: seq<State>)
    modifies runner
    ensures items == Trace(initial, old(runner.nextVar))[..ROUNDS_PER_HASH + 1]
    ensures runner.nextVar == old(runner.nextVar) + VARS_PER_HASH
    ensures runner.computations == old(runner.computations) + RoundLog(Trace(initial, old(runner.nextVar)), loc)
    ensures runner.constraints == old(runner.constraints)
  {
    ghost var t := Trace(initial, runner.nextVar);
    ghost var base := runner.nextVar;
    items := [];
    var pending, i := initial, 0;
    while i < ROUNDS_PER_HASH + 1
      invariant i == |items| <= ROUNDS_PER_HASH + 1
      invariant items == t[..i] && pending == t[i]
      invariant runner.nextVar == base + SPONGE_WIDTH * i
      invariant runner.computations == old(runner.computations) + RoundLog(t[..i + 1], loc)
      invariant runner.constraints == old(runner.constraints)
    {
      var next := Round(runner, loc, pending, i);
      RoundLogSnoc(t, i + 1, loc);
      items := items + [pending];
      pending, i := next, i + 1;
    }
    assert t[..ROUNDS_PER_HASH + 2] == t;
  }

  // ---------------------------------------------------------------------------
  // Runner effects of a sequence of permutations
  // ---------------------------------------------------------------------------

  /** The constraints that permuting `pres` in order appends, the first call starting at variable `base`. */
  function PermutationEntries(pres: seq<Preimage>, base: nat, loc: string): (log: seq<Entry>)
    ensures |log| == |pres|
    decreases |pres|
  {
    if pres == [] then []
    else
      var n := |pres| - 1;
      PermutationEntries(pres[..n], base, loc) + [PoseidonEntry(pres[n], base + VARS_PER_HASH * n, loc)]
  }

  /** The computations that permuting `pres` in order appends. */
  function PermutationComputations(pres: seq<Preimage>, base: nat, loc: string): seq<Computation>
    decreases |pres|
  {
    if pres == [] then []
    else
      var n := |pres| - 1;
      PermutationComputations(pres[..n], base, loc) + PoseidonComputations(pres[n], base + VARS_PER_HASH * n, loc)
  }

  /** Every permutation shows up as one "Poseidon" constraint: the log counts them exactly. */
  lemma {:induction false} PermutationsCounted(pres: seq<Preimage>, base: nat, loc: string)
    ensures PoseidonCount(PermutationEntries(pres, base, loc)) == |pres|
    decreases |pres|
  {
    if pres != [] {
      var n := |pres| - 1;
      PermutationsCounted(pres[..n], base, loc);
      var log := PermutationEntries(pres, base, loc);
      assert log[..n] == PermutationEntries(pres[..n], base, loc);
    }
  }

  /** The `j`-th permutation constraint is the gadget's constraint for the `j`-th preimage. */
  lemma {:induction false} PermutationEntryAt(pres: seq<Preimage>, base: nat, loc: string, j: nat)
    requires j < |pres|
    ensures PermutationEntries(pres, base, loc)[j] == PoseidonEntry(pres[j], base + VARS_PER_HASH * j, loc)
    ensures PermutationEntries(pres, base, loc)[j].constraint.kimchi.input.states[0] == InitialState(pres[j])
    decreases |pres|
  {
    var n := |pres| - 1;
    if j < n {
      PermutationEntryAt(pres[..n], base, loc, j);
    }
    var t := Trace(InitialState(pres[j]), base + VARS_PER_HASH * j);
    RowLayoutChunk(t[..ROUNDS_PER_HASH], 0);
  }

  /** Appending the constraints of `k` permutations to any log raises its permutation count by exactly `k`. */
  lemma PermutationsAddCount(log: seq<Entry>, pres: seq<Preimage>, base: nat, loc: string)
    ensures PoseidonCount(log + PermutationEntries(pres, base, loc)) == PoseidonCount(log) + |pres|
  {
    PoseidonCountAppend(log, PermutationEntries(pres, base, loc));
    PermutationsCounted(pres, base, loc);
  }

  // ---------------------------------------------------------------------------
  // The duplex sponge as a state machine on values
  // ---------------------------------------------------------------------------

  /** The fields of a `DuplexState`. */
  datatype Sponge = Sponge(revQueue: seq<FieldVar>, absorbing: bool, squeezed: Option<FieldVar>, state: State)

  /**
    The sponge invariant: at most a rate's worth of pending inputs, none while
    squeezing, and no cached output while absorbing. It makes the two
    assertions of `absorb` and `squeeze` unreachable.
  */
  predicate SpongeInv(sp: Sponge)
  {
    && |sp.revQueue| <= RATE_SIZE
    && (!sp.absorbing ==> sp.revQueue == [])
    && (sp.absorbing ==> sp.squeezed == None)
  }

  /** `DuplexState::default()`: absorbing, nothing queued, nothing cached, an all-zero state. */
  function NewSponge(): (sp: Sponge)
    ensures SpongeInv(sp) && sp.absorbing
  {
    Sponge([], true, None, [Zero(), Zero(), Zero()])
  }

  /** Entering `absorb`: switching to absorbing drops the cached output and permutes nothing. */
  function StartAbsorbing(sp: Sponge): (r: Sponge)
    ensures r.absorbing && r.revQueue == sp.revQueue && r.state == sp.state
    ensures SpongeInv(sp) ==> SpongeInv(r) && r.squeezed == None
  {
    if sp.absorbing then sp else sp.(squeezed := None, absorbing := true)
  }

  /** The preimage permuted when absorbing one more input into `sp` overflows the rate, if it does. */
  function Overflow(sp: Sponge): (r: seq<Preimage>)
    ensures |r| <= 1
    ensures |r| == 1 <==> |sp.revQueue| == RATE_SIZE
    ensures |r| == 1 ==> var q := sp.revQueue;
      r[0] == (Plus(sp.state[0], q[|q| - 1]), Plus(sp.state[1], q[0]))
  {
    if |sp.revQueue| == RATE_SIZE then
      [(Plus(sp.state[0], sp.revQueue[1]), Plus(sp.state[1], sp.revQueue[0]))]
    else []
  }

  /**
    One input of `absorb`: with a full queue, the oldest pending input is
    added into `state[0]` and the other into `state[1]` (then the permutation
    runs and its result is dropped); the input then goes to the queue's front.
  */
  function AbsorbOne(sp: Sponge, x: FieldVar): (r: Sponge)
    ensures |r.revQueue| == if |sp.revQueue| == RATE_SIZE then 1 else |sp.revQueue| + 1
    ensures r.revQueue[0] == x
    ensures |sp.revQueue| < RATE_SIZE ==> r.revQueue[1..] == sp.revQueue && r.state == sp.state
    ensures |sp.revQueue| == RATE_SIZE ==> r.state == [Overflow(sp)[0].0, Overflow(sp)[0].1, sp.state[2]]
    ensures r.absorbing == sp.absorbing && r.squeezed == sp.squeezed && r.state[2] == sp.state[2]
  {
    if |sp.revQueue| == RATE_SIZE then
      var left := sp.revQueue[1];
      var right := sp.revQueue[0];
      sp.(revQueue := [x], state := [Plus(sp.state[0], left), Plus(sp.state[1], right), sp.state[2]])
    else
      sp.(revQueue := [x] + sp.revQueue)
  }

  /** The absorbing loop over `xs`. */
  function AbsorbAll(sp: Sponge, xs: seq<FieldVar>): (r: Sponge)
    ensures r.absorbing == sp.absorbing && r.squeezed == sp.squeezed
    decreases |xs|
  {
    if xs == [] then sp else AbsorbOne(AbsorbAll(sp, xs[..|xs| - 1]), xs[|xs| - 1])
  }

  /** The preimages the absorbing loop over `xs` permutes, in order. */
  function AbsorbPreimages(sp: Sponge, xs: seq<FieldVar>): (r: seq<Preimage>)
    ensures |r| <= |xs|
    decreases |xs|
  {
    if xs == [] then [] else
      var prefix := xs[..|xs| - 1];
      AbsorbPreimages(sp, prefix) + Overflow(AbsorbAll(sp, prefix))
  }

  /** The sponge after `absorb(xs)`. */
  function Absorbed(sp: Sponge, xs: seq<FieldVar>): (r: Sponge)
    ensures r.absorbing
    ensures SpongeInv(sp) ==> r.squeezed == None
  {
    AbsorbAll(StartAbsorbing(sp), xs)
  }

  /** Entering `squeeze` while absorbing: the pending inputs, oldest first, are added into `state[0]` and `state[1]`. */
  function StartSqueezing(sp: Sponge): (r: Sponge)
    ensures !r.absorbing && r.squeezed == sp.squeezed && r.state[2] == sp.state[2]
    ensures SpongeInv(sp) ==> r.revQueue == []
  {
    if !sp.absorbing then sp
    else
      var q := sp.revQueue;
      var s0 := if |q| > 0 then Plus(sp.state[0], q[|q| - 1]) else sp.state[0];
      var q' := if |q| > 0 then q[..|q| - 1] else q;
      var s1 := if |q'| > 0 then Plus(sp.state[1], q'[|q'| - 1]) else sp.state[1];
      var q'' := if |q'| > 0 then q'[..|q'| - 1] else q';
      sp.(revQueue := q'', state := [s0, s1, sp.state[2]], absorbing := false)
  }

  /** What one `squeeze` yields: the new sponge, the output, and the preimages it permutes. */
  datatype Squeezed = Squeezed(sponge: Sponge, output: FieldVar, preimages: seq<Preimage>)

  /**
    One `squeeze` when the runner's next variable is `base`: a cached output
    is released without permuting; otherwise `(state[0], state[1])` is
    permuted, the left output released and the right one cached. The sponge
    state itself is left as it was.
  */
  function SqueezeStep(sp: Sponge, base: nat): (r: Squeezed)
    ensures |r.preimages| <= 1
    ensures r.preimages == [] <==> StartSqueezing(sp).squeezed.Some?
    ensures r.sponge.state == StartSqueezing(sp).state
  {
    var sp' := StartSqueezing(sp);
    match sp'.squeezed
    case Some(v) => Squeezed(sp'.(squeezed := None), v, [])
    case None =>
      var pre := (sp'.state[0], sp'.state[1]);
      var h := PoseidonHash(pre, base);
      Squeezed(sp'.(squeezed := Some(h.1)), h.0, [pre])
  }

  // ---------------------------------------------------------------------------
  // Properties of the duplex sponge
  // ---------------------------------------------------------------------------

  lemma {:induction false} AbsorbAllInv(sp: Sponge, xs: seq<FieldVar>)
    requires SpongeInv(sp) && sp.absorbing
    ensures SpongeInv(AbsorbAll(sp, xs)) && AbsorbAll(sp, xs).absorbing
    decreases |xs|
  {
    if xs != [] {
      AbsorbAllInv(sp, xs[..|xs| - 1]);
    }
  }

  /** `absorb` keeps the invariant and leaves the sponge absorbing. */
  lemma AbsorbedInv(sp: Sponge, xs: seq<FieldVar>)
    requires SpongeInv(sp)
    ensures SpongeInv(Absorbed(sp, xs)) && Absorbed(sp, xs).absorbing
  {
    AbsorbAllInv(StartAbsorbing(sp), xs);
  }

  /** `squeeze` keeps the invariant and leaves the sponge squeezing with an empty queue. */
  lemma SqueezeInv(sp: Sponge, base: nat)
    requires SpongeInv(sp)
    ensures var r := SqueezeStep(sp, base);
      SpongeInv(r.sponge) && !r.sponge.absorbing && r.sponge.revQueue == [] && |r.preimages| <= 1
  {
  }

  /**
    Lazy absorption: from an absorbing sponge with `q` pending inputs, `k`
    more inputs (with `q + k >= 1`) permute `(q + k - 1) / 2` times and leave
    `(q + k - 1) % 2 + 1` inputs pending.
  */
  lemma {:induction false} AbsorbCounts(sp: Sponge, xs: seq<FieldVar>)
    requires SpongeInv(sp) && sp.absorbing
    requires |sp.revQueue| + |xs| >= 1
    ensures var total := |sp.revQueue| + |xs|;
      && |AbsorbPreimages(sp, xs)| == (total - 1) / 2
      && |AbsorbAll(sp, xs).revQueue| == (total - 1) % 2 + 1
    decreases |xs|
  {
    if xs != [] {
      var prefix := xs[..|xs| - 1];
      AbsorbAllInv(sp, prefix);
      if |sp.revQueue| + |prefix| >= 1 {
        AbsorbCounts(sp, prefix);
      }
    }
  }

  /** From a new sponge, `k >= 1` inputs permute `(k - 1) / 2` times and leave `(k - 1) % 2 + 1` pending. */
  lemma AbsorbCountsFromNew(xs: seq<FieldVar>)
    requires |xs| >= 1
    ensures |AbsorbPreimages(NewSponge(), xs)| == (|xs| - 1) / 2
    ensures |Absorbed(NewSponge(), xs).revQueue| == (|xs| - 1) % 2 + 1
  {
    AbsorbCounts(NewSponge(), xs);
  }

  /** Absorbing never writes the capacity cell `state[2]`. */
  lemma {:induction false} AbsorbKeepsCapacity(sp: Sponge, xs: seq<FieldVar>)
    ensures Absorbed(sp, xs).state[2] == sp.state[2]
    decreases |xs|
  {
    if xs != [] {
      AbsorbKeepsCapacity(sp, xs[..|xs| - 1]);
    }
  }

  /** Squeezing never writes the capacity cell `state[2]` either. */
  lemma SqueezeKeepsCapacity(sp: Sponge, base: nat)
    ensures SqueezeStep(sp, base).sponge.state[2] == sp.state[2]
  {
  }

  /**
    Three inputs into an empty absorbing sponge: the third overflows the rate,
    so the first two are added into `state[0]` and `state[1]`, that pair is
    permuted once, and only the third stays pending.
  */
  lemma AbsorbThree(sp: Sponge, a: FieldVar, b: FieldVar, c: FieldVar)
    requires sp.absorbing && sp.revQueue == []
    ensures var s := sp.state;
      && AbsorbPreimages(sp, [a, b, c]) == [(Plus(s[0], a), Plus(s[1], b))]
      && AbsorbAll(sp, [a, b, c]).revQueue == [c]
      && AbsorbAll(sp, [a, b, c]).state == [Plus(s[0], a), Plus(s[1], b), s[2]]
  {
    assert [a, b, c][..2] == [a, b];
    assert [a, b][..1] == [a];
    assert [a][..0] == [];
    var sp1 := AbsorbAll(sp, [a]);
    assert sp1 == AbsorbOne(AbsorbAll(sp, []), a);
    assert sp1 == sp.(revQueue := [a]);
    assert AbsorbPreimages(sp, [a]) == [];
    var sp2 := AbsorbAll(sp, [a, b]);
    assert sp2 == sp.(revQueue := [b, a]);
    assert AbsorbPreimages(sp, [a, b]) == [];
  }

  /**
    A queue carried over between two `absorb` calls: after `absorb([a])`,
    `absorb([b, c])` overflows on `c`, adds `a` and `b` into the rate, permutes
    that pair once and leaves `c` pending.
  */
  lemma AbsorbAcrossCalls(a: FieldVar, b: FieldVar, c: FieldVar)
    ensures var sp := Absorbed(NewSponge(), [a]);
      && AbsorbPreimages(StartAbsorbing(sp), [b, c]) == [(Plus(Zero(), a), Plus(Zero(), b))]
      && Absorbed(sp, [b, c]).revQueue == [c]
      && Absorbed(sp, [b, c]).state == [Plus(Zero(), a), Plus(Zero(), b), Zero()]
  {
    var sp0 := NewSponge();
    assert [a][..0] == [];
    assert StartAbsorbing(sp0) == sp0;
    assert AbsorbAll(sp0, [a]) == AbsorbOne(AbsorbAll(sp0, []), a);
    var sp := Absorbed(sp0, [a]);
    assert sp == sp0.(revQueue := [a]);
    assert StartAbsorbing(sp) == sp;
    assert [b, c][..1] == [b];
    assert [b][..0] == [];
    var sp1 := AbsorbAll(sp, [b]);
    assert sp1 == AbsorbOne(AbsorbAll(sp, []), b);
    assert sp1 == sp0.(revQueue := [b, a]);
    assert AbsorbPreimages(sp, [b]) == [];
  }

  // ---------------------------------------------------------------------------
  // Arrival order of absorbed inputs
  // ---------------------------------------------------------------------------

  /** `s` newest first: the order in which `revQueue` holds pending inputs. */
  function Rev<T>(s: seq<T>): (r: seq<T>)
    ensures |r| == |s|
    ensures forall i :: 0 <= i < |s| ==> r[i] == s[|s| - 1 - i]
    decreases |s|
  {
    if s == [] then [] else [s[|s| - 1]] + Rev(s[..|s| - 1])
  }

  /**
    The queue lists the pending inputs newest first: after absorbing `xs`,
    it is a prefix of the inputs in reverse arrival order followed by the
    inputs that were already pending. So `revQueue[|revQueue| - 1]` is always
    the oldest pending input, also across calls.
  */
  lemma {:induction false} AbsorbQueueOrder(sp: Sponge, xs: seq<FieldVar>)
    ensures var q := AbsorbAll(sp, xs).revQueue;
      |q| <= |xs| + |sp.revQueue| && q == (Rev(xs) + sp.revQueue)[..|q|]
    decreases |xs|
  {
    if xs != [] {
      var n := |xs| - 1;
      var x := xs[n];
      AbsorbQueueOrder(sp, xs[..n]);
      assert Rev(xs) == [x] + Rev(xs[..n]);
      var q0 := AbsorbAll(sp, xs[..n]).revQueue;
      var q := AbsorbAll(sp, xs).revQueue;
      if |q0| == RATE_SIZE {
        assert q == [x];
      } else {
        assert q == [x] + q0;
      }
    }
  }

  /**
    The rate cell `state[p]` after `j` overflows from an empty queue: the
    start value with inputs `p`, `p + 2`, …, `p + 2(j - 1)` added in turn.
  */
  function Accum(s: FieldVar, xs: seq<FieldVar>, p: nat, j: nat): (r: FieldVar)
    requires p <= 1 && p + 2 * j <= |xs| + 1
    ensures j == 0 ==> r == s
  {
    if j == 0 then s else Plus(Accum(s, xs, p, j - 1), xs[p + 2 * (j - 1)])
  }

  /**
    Absorbing the first `m` inputs of `xs` into an empty queue: `k` pairs
    have been permuted, the inputs after the last full pair are queued newest
    first, the rate holds the sums of the permuted pairs, and the `j`-th
    permuted pair is the rate with inputs `2j` and `2j + 1` added.
  */
  predicate AbsorbedFromEmpty(sp: Sponge, xs: seq<FieldVar>, m: nat)
    requires m <= |xs|
  {
    FromEmptyShape(sp, xs, m, AbsorbAll(sp, xs[..m]), AbsorbPreimages(sp, xs[..m]))
  }

  /** `r` and `pres` are the sponge and the preimages described by `AbsorbedFromEmpty`. */
  predicate FromEmptyShape(sp: Sponge, xs: seq<FieldVar>, m: nat, r: Sponge, pres: seq<(FieldVar, FieldVar)>)
    requires m <= |xs|
  {
    var k := if m == 0 then 0 else (m - 1) / 2;
    && |pres| == k
    && r.revQueue == Rev(xs[2 * k..m])
    && r.state == [Accum(sp.state[0], xs, 0, k), Accum(sp.state[1], xs, 1, k), sp.state[2]]
    && (forall j :: 0 <= j < k ==>
          pres[j] == (Accum(sp.state[0], xs, 0, j + 1), Accum(sp.state[1], xs, 1, j + 1)))
  }

  lemma {:induction false} FromEmptyUpTo(sp: Sponge, xs: seq<FieldVar>, m: nat)
    requires sp.revQueue == [] && m <= |xs|
    ensures AbsorbedFromEmpty(sp, xs, m)
    decreases m
  {
    if m == 0 {
      assert xs[..0] == [];
      assert AbsorbAll(sp, xs[..0]) == sp && AbsorbPreimages(sp, xs[..0]) == [];
      FromEmptyStart(sp, xs);
    } else {
      FromEmptyUpTo(sp, xs, m - 1);
      FromEmptyStep(sp, xs, m);
    }
  }

  /** No input yet: no permutation, an empty queue and the initial rate. */
  lemma FromEmptyStart(sp: Sponge, xs: seq<FieldVar>)
    requires sp.revQueue == []
    ensures FromEmptyShape(sp, xs, 0, sp, [])
  {
    assert xs[0..0] == [];
    assert sp.state == [sp.state[0], sp.state[1], sp.state[2]];
  }

  /** One input more, from an empty queue. */
  lemma FromEmptyStep(sp: Sponge, xs: seq<FieldVar>, m: nat)
    requires sp.revQueue == [] && 0 < m <= |xs|
    requires AbsorbedFromEmpty(sp, xs, m - 1)
    ensures AbsorbedFromEmpty(sp, xs, m)
  {
    var p := m - 1;
    AbsorbLoopStep(sp, xs, p);
    var r0 := AbsorbAll(sp, xs[..p]);
    var pres0 := AbsorbPreimages(sp, xs[..p]);
    assert AbsorbAll(sp, xs[..m]) == AbsorbOne(r0, xs[p]);
    assert AbsorbPreimages(sp, xs[..m]) == pres0 + Overflow(r0);
    if |r0.revQueue| == RATE_SIZE {
      OverflowStep(sp, xs, m, r0, pres0);
    } else {
      QueueStep(sp, xs, m, r0, pres0);
    }
  }

  /** The step of `FromEmptyStep` that only queues the input. */
  lemma QueueStep(sp: Sponge, xs: seq<FieldVar>, m: nat, r0: Sponge, pres0: seq<(FieldVar, FieldVar)>)
    requires 0 < m <= |xs| && FromEmptyShape(sp, xs, m - 1, r0, pres0)
    requires |r0.revQueue| < RATE_SIZE
    ensures FromEmptyShape(sp, xs, m, AbsorbOne(r0, xs[m - 1]), pres0 + Overflow(r0))
  {
    var p := m - 1;
    var k := if p == 0 then 0 else (p - 1) / 2;
    assert |xs[2 * k..p]| < 2;
    assert m == 1 || (m - 1) / 2 == k;
    assert xs[2 * k..m] == xs[2 * k..p] + [xs[p]];
    assert Rev(xs[2 * k..m]) == [xs[p]] + Rev(xs[2 * k..p]);
  }

  /** The step of `FromEmptyStep` in which the queue is full and one pair is permuted. */
  lemma OverflowStep(sp: Sponge, xs: seq<FieldVar>, m: nat, r0: Sponge, pres0: seq<(FieldVar, FieldVar)>)
    requires 0 < m <= |xs| && FromEmptyShape(sp, xs, m - 1, r0, pres0)
    requires |r0.revQueue| == RATE_SIZE
    ensures FromEmptyShape(sp, xs, m, AbsorbOne(r0, xs[m - 1]), pres0 + Overflow(r0))
  {
    var p := m - 1;
    var k := (p - 1) / 2;
    assert p == 2 * k + 2;
    assert r0.revQueue == [xs[2 * k + 1], xs[2 * k]];
    var a0 := Accum(sp.state[0], xs, 0, k + 1);
    var a1 := Accum(sp.state[1], xs, 1, k + 1);
    assert Overflow(r0) == [(a0, a1)];
    var pres := pres0 + [(a0, a1)];
    forall j | 0 <= j < k + 1
      ensures pres[j] == (Accum(sp.state[0], xs, 0, j + 1), Accum(sp.state[1], xs, 1, j + 1))
    {
      if j < k {
        assert pres[j] == pres0[j];
      }
    }
    var r := AbsorbOne(r0, xs[p]);
    assert r.state == [a0, a1, sp.state[2]];
    assert xs[2 * (k + 1)..m] == [xs[p]];
    assert r.revQueue == [xs[p]];
  }

  /**
    Absorbing into an empty queue, the `j`-th permutation adds inputs `2j`
    and `2j + 1` (oldest into `state[0]`) onto the rate accumulated by the
    earlier ones; the inputs after the last full pair stay queued, newest
    first, and the rate holds the sums of the pairs permuted so far.
  */
  lemma AbsorbFromEmpty(sp: Sponge, xs: seq<FieldVar>)
    requires sp.revQueue == []
    ensures var k := if xs == [] then 0 else (|xs| - 1) / 2;
      var r := AbsorbAll(sp, xs);
      var pres := AbsorbPreimages(sp, xs);
      && |pres| == k
      && r.revQueue == Rev(xs[2 * k..])
      && r.state == [Accum(sp.state[0], xs, 0, k), Accum(sp.state[1], xs, 1, k), sp.state[2]]
      && (forall j :: 0 <= j < k ==>
            pres[j] == (Accum(sp.state[0], xs, 0, j + 1), Accum(sp.state[1], xs, 1, j + 1)))
  {
    FromEmptyUpTo(sp, xs, |xs|);
    assert xs[..|xs|] == xs;
    var k := if xs == [] then 0 else (|xs| - 1) / 2;
    assert xs[2 * k..|xs|] == xs[2 * k..];
  }

  /**
    Absorbing `xs` into an empty queue and then switching to squeezing: the
    inputs still pending are added, oldest first, onto the accumulated rate.
    Thus the squeeze permutes the sums of the even- and of the odd-indexed
    inputs.
  */
  lemma AbsorbFromEmptyThenDrain(sp: Sponge, xs: seq<FieldVar>)
    requires sp.revQueue == [] && sp.absorbing && xs != []
    ensures var k := (|xs| - 1) / 2;
      var last1 := if |xs| - 2 * k == 2 then k + 1 else k;
      StartSqueezing(AbsorbAll(sp, xs)).state
        == [Accum(sp.state[0], xs, 0, k + 1), Accum(sp.state[1], xs, 1, last1), sp.state[2]]
  {
    var k := (|xs| - 1) / 2;
    AbsorbFromEmpty(sp, xs);
    var r := AbsorbAll(sp, xs);
    PendingInputs(xs, k);
    DrainState(r);
  }

  /** The inputs after the last full pair, newest first: one or two of them, the oldest being input `2k`. */
  lemma PendingInputs(xs: seq<FieldVar>, k: nat)
    requires xs != [] && k == (|xs| - 1) / 2
    ensures var q := Rev(xs[2 * k..]);
      && |q| == |xs| - 2 * k && 1 <= |q| <= 2
      && q[|q| - 1] == xs[2 * k]
      && (|q| == 2 ==> q[0] == xs[2 * k + 1])
  {
  }

  /** Draining one or two pending inputs at the switch to squeezing: the oldest goes into `state[0]`. */
  lemma DrainState(r: Sponge)
    requires r.absorbing && 1 <= |r.revQueue| <= 2
    ensures var q := r.revQueue;
      StartSqueezing(r).state
        == [Plus(r.state[0], q[|q| - 1]), if |q| == 2 then Plus(r.state[1], q[0]) else r.state[1], r.state[2]]
  {
  }

  /**
    Squeezes alternate: an uncached squeeze permutes `(state[0], state[1])`
    once and releases the left output, the next one releases the cached right
    output without permuting, and the one after permutes the very same
    preimage again, since the permutation's output never reaches the state.
  */
  lemma SqueezeAlternates(sp: Sponge, b1: nat, b2: nat, b3: nat)
    requires SpongeInv(sp)
    requires StartSqueezing(sp).squeezed == None
    ensures var st := StartSqueezing(sp).state;
      var p := (st[0], st[1]);
      var r1 := SqueezeStep(sp, b1);
      var r2 := SqueezeStep(r1.sponge, b2);
      var r3 := SqueezeStep(r2.sponge, b3);
      && r1.preimages == [p] && r1.output == PoseidonHash(p, b1).0
      && r2.preimages == [] && r2.output == PoseidonHash(p, b1).1
      && r3.preimages == [p] && r3.output == PoseidonHash(p, b3).0
      && r3.sponge.squeezed == Some(PoseidonHash(p, b3).1)
      && r3.sponge.state == r1.sponge.state == st
  {
  }

  /**
    Absorbing up to two inputs into a new sponge and squeezing once permutes
    exactly once, on the inputs added into the zero state; absorbing three
    permutes twice.
  */
  lemma AbsorbThenSqueeze(xs: seq<FieldVar>, base: nat)
    requires |xs| <= 3
    ensures var sp := Absorbed(NewSponge(), xs);
      var total := |AbsorbPreimages(NewSponge(), xs)| + |SqueezeStep(sp, base).preimages|;
      && (|xs| <= 2 ==> total == 1)
      && (|xs| == 3 ==> total == 2)
      && (|xs| == 0 ==> SqueezeStep(sp, base).preimages == [(Zero(), Zero())])
      && (|xs| == 2 ==> SqueezeStep(sp, base).preimages == [(Plus(Zero(), xs[0]), Plus(Zero(), xs[1]))])
  {
    if |xs| == 0 {
      SqueezeNew(xs, base);
    } else {
      AbsorbSomeThenSqueeze(xs, base);
    }
  }

  /** Squeezing a new sponge after absorbing nothing permutes the zero pair once. */
  lemma SqueezeNew(xs: seq<FieldVar>, base: nat)
    requires xs == []
    ensures var sp := Absorbed(NewSponge(), xs);
      && AbsorbPreimages(NewSponge(), xs) == []
      && SqueezeStep(sp, base).preimages == [(Zero(), Zero())]
  {
    assert Absorbed(NewSponge(), xs) == NewSponge();
  }

  lemma AbsorbSomeThenSqueeze(xs: seq<FieldVar>, base: nat)
    requires 1 <= |xs| <= 3
    ensures var sp := Absorbed(NewSponge(), xs);
      var total := |AbsorbPreimages(NewSponge(), xs)| + |SqueezeStep(sp, base).preimages|;
      && (|xs| <= 2 ==> total == 1)
      && (|xs| == 3 ==> total == 2)
      && (|xs| == 2 ==> SqueezeStep(sp, base).preimages == [(Plus(Zero(), xs[0]), Plus(Zero(), xs[1]))])
  {
    AbsorbCountsFromNew(xs);
    AbsorbedInv(NewSponge(), xs);
    if |xs| == 2 {
      AbsorbTwoThenSqueeze(xs, base);
    }
  }

  /** Two inputs into a new sponge are both added into the zero state at the squeeze. */
  lemma AbsorbTwoThenSqueeze(xs: seq<FieldVar>, base: nat)
    requires |xs| == 2
    ensures SqueezeStep(Absorbed(NewSponge(), xs), base).preimages == [(Plus(Zero(), xs[0]), Plus(Zero(), xs[1]))]
  {
    var sp := NewSponge();
    assert StartAbsorbing(sp) == sp;
    var one := xs[..1];
    assert |one| == 1 && one[0] == xs[0] && one[..0] == [];
    assert AbsorbAll(sp, one[..0]) == sp;
    var sp1 := AbsorbAll(sp, one);
    assert sp1 == AbsorbOne(sp, xs[0]);
    assert sp1.revQueue == [xs[0]];
    assert AbsorbAll(sp, xs) == AbsorbOne(sp1, xs[1]);
    assert Absorbed(sp, xs) == sp.(revQueue := [xs[1], xs[0]]);
  }

  lemma ConcatAssoc<T>(a: seq<T>, b: seq<T>, c: seq<T>)
    ensures a + (b + c) == (a + b) + c
  {
  }

  /** The runner's logs after `k + 1` inputs of the absorbing loop, from those after `k`. */
  lemma AbsorbLogsStep(start: Sponge, xs: seq<FieldVar>, k: nat, base: nat, loc: string,
                       c0: seq<Computation>, e0: seq<Entry>,
                       c1: seq<Computation>, e1: seq<Entry>, n1: nat,
                       c2: seq<Computation>, e2: seq<Entry>, n2: nat)
    requires k < |xs|
    requires var pres := AbsorbPreimages(start, xs[..k]);
      && n1 == base + VARS_PER_HASH * |pres|
      && c1 == c0 + PermutationComputations(pres, base, loc)
      && e1 == e0 + PermutationEntries(pres, base, loc)
    requires var more := Overflow(AbsorbAll(start, xs[..k]));
      && n2 == n1 + VARS_PER_HASH * |more|
      && c2 == c1 + PermutationComputations(more, n1, loc)
      && e2 == e1 + PermutationEntries(more, n1, loc)
    ensures var pres := AbsorbPreimages(start, xs[..k + 1]);
      && n2 == base + VARS_PER_HASH * |pres|
      && c2 == c0 + PermutationComputations(pres, base, loc)
      && e2 == e0 + PermutationEntries(pres, base, loc)
  {
    var pres := AbsorbPreimages(start, xs[..k]);
    var more := Overflow(AbsorbAll(start, xs[..k]));
    AbsorbLoopStep(start, xs, k);
    LogsAppend(pres, more, base, loc, c0, e0, c1, e1, n1, c2, e2, n2);
  }

  /** Logs after permuting `pres` then `more`, from the logs after each part. */
  lemma LogsAppend(pres: seq<Preimage>, more: seq<Preimage>, base: nat, loc: string,
                   c0: seq<Computation>, e0: seq<Entry>,
                   c1: seq<Computation>, e1: seq<Entry>, n1: nat,
                   c2: seq<Computation>, e2: seq<Entry>, n2: nat)
    requires |more| <= 1
    requires n1 == base + VARS_PER_HASH * |pres|
    requires c1 == c0 + PermutationComputations(pres, base, loc)
    requires e1 == e0 + PermutationEntries(pres, base, loc)
    requires n2 == n1 + VARS_PER_HASH * |more|
    requires c2 == c1 + PermutationComputations(more, n1, loc)
    requires e2 == e1 + PermutationEntries(more, n1, loc)
    ensures n2 == base + VARS_PER_HASH * |pres + more|
    ensures c2 == c0 + PermutationComputations(pres + more, base, loc)
    ensures e2 == e0 + PermutationEntries(pres + more, base, loc)
  {
    PermutationsSnoc(pres, more, base, loc);
    ConcatAssoc(c0, PermutationComputations(pres, base, loc), PermutationComputations(more, n1, loc));
    ConcatAssoc(e0, PermutationEntries(pres, base, loc), PermutationEntries(more, n1, loc));
  }

  lemma AbsorbLoopStep(sp: Sponge, xs: seq<FieldVar>, k: nat)
    requires k < |xs|
    ensures AbsorbAll(sp, xs[..k + 1]) == AbsorbOne(AbsorbAll(sp, xs[..k]), xs[k])
    ensures AbsorbPreimages(sp, xs[..k + 1]) == AbsorbPreimages(sp, xs[..k]) + Overflow(AbsorbAll(sp, xs[..k]))
  {
    assert xs[..k + 1][..k] == xs[..k];
  }

  /** Permuting `pres` and then at most one more preimage `more`: the logs concatenate. */
  lemma PermutationsSnoc(pres: seq<Preimage>, more: seq<Preimage>, base: nat, loc: string)
    requires |more| <= 1
    ensures var at := base + VARS_PER_HASH * |pres|;
      && PermutationEntries(pres + more, base, loc) == PermutationEntries(pres, base, loc) + PermutationEntries(more, at, loc)
      && PermutationComputations(pres + more, base, loc) == PermutationComputations(pres, base, loc) + PermutationComputations(more, at, loc)
  {
    var at := base + VARS_PER_HASH * |pres|;
    if more == [] {
      assert pres + more == pres;
      assert PermutationEntries(more, at, loc) == [];
      assert PermutationComputations(more, at, loc) == [];
      assert PermutationEntries(pres, base, loc) + [] == PermutationEntries(pres, base, loc);
      assert PermutationComputations(pres, base, loc) + [] == PermutationComputations(pres, base, loc);
    } else {
      assert more == [more[0]];
      EntriesSnoc(pres, more[0], base, loc);
      ComputationsSnoc(pres, more[0], base, loc);
    }
  }

  lemma EntriesSnoc(pres: seq<Preimage>, p: Preimage, base: nat, loc: string)
    ensures PermutationEntries(pres + [p], base, loc)
         == PermutationEntries(pres, base, loc) + PermutationEntries([p], base + VARS_PER_HASH * |pres|, loc)
  {
    assert (pres + [p])[..|pres|] == pres;
    assert [p][..0] == [];
    var at := base + VARS_PER_HASH * |pres|;
    assert PermutationEntries([p], at, loc) == PermutationEntries([], at, loc) + [PoseidonEntry(p, at + VARS_PER_HASH * 0, loc)];
  }

  lemma ComputationsSnoc(pres: seq<Preimage>, p: Preimage, base: nat, loc: string)
    ensures PermutationComputations(pres + [p], base, loc)
         == PermutationComputations(pres, base, loc) + PermutationComputations([p], base + VARS_PER_HASH * |pres|, loc)
  {
    assert (pres + [p])[..|pres|] == pres;
    assert [p][..0] == [];
    var at := base + VARS_PER_HASH * |pres|;
    assert PermutationComputations([p], at, loc) == PermutationComputations([], at, loc) + PoseidonComputations(p, at + VARS_PER_HASH * 0, loc);
  }

  // ---------------------------------------------------------------------------
  // The duplex sponge object
  // ---------------------------------------------------------------------------

  /** A duplex construction: absorb and squeeze alternately. */
  class DuplexState {
    var revQueue: seq<FieldVar>
    var absorbing: bool
    var squeezed: Option<FieldVar>
    var state: State

    function View(): Sponge
      reads this
    {
      Sponge(revQueue, absorbing, squeezed, state)
    }

    predicate Valid()
      reads this
    {
      SpongeInv(View())
    }

    /** `DuplexState::new()` / `default()`. */
    constructor ()
      ensures Valid() && View() == NewSponge()
    {
      revQueue := [];
      absorbing := true;
      squeezed := None;
      state := [Zero(), Zero(), Zero()];
    }

    /** Absorb `inputs`, permuting only when a third pending input would overflow the rate. */
    method Absorb(sys: RunState, loc: string, inputs: seq<FieldVar>)
      requires Valid()
      modifies this, sys
      ensures Valid() && absorbing
      ensures View() == Absorbed(old(View()), inputs)
      ensures var pres := AbsorbPreimages(StartAbsorbing(old(View())), inputs);
        && sys.nextVar == old(sys.nextVar) + VARS_PER_HASH * |pres|
        && sys.computations == old(sys.computations) + PermutationComputations(pres, old(sys.nextVar), loc)
        && sys.constraints == old(sys.constraints) + PermutationEntries(pres, old(sys.nextVar), loc)
        && PoseidonCount(sys.constraints) == PoseidonCount(old(sys.constraints)) + |pres|
    {
      // switching to absorbing needs no permutation
      if !absorbing {
        assert revQueue == [];
        squeezed := None;
        absorbing := true;
      }
      ghost var start := View();
      assert start == StartAbsorbing(old(View()));
      ghost var base := sys.nextVar;
      for k := 0 to |inputs|
        invariant Valid() && absorbing
        invariant View() == AbsorbAll(start, inputs[..k])
        invariant sys.nextVar == base + VARS_PER_HASH * |AbsorbPreimages(start, inputs[..k])|
        invariant sys.computations == old(sys.computations) + PermutationComputations(AbsorbPreimages(start, inputs[..k]), base, loc)
        invariant sys.constraints == old(sys.constraints) + PermutationEntries(AbsorbPreimages(start, inputs[..k]), base, loc)
      {
        ghost var c1, e1, n1 := sys.computations, sys.constraints, sys.nextVar;
        AbsorbInput(sys, loc, inputs[k]);
        AbsorbLoopStep(start, inputs, k);
        AbsorbLogsStep(start, inputs, k, base, loc, old(sys.computations), old(sys.constraints),
                       c1, e1, n1, sys.computations, sys.constraints, sys.nextVar);
      }
      assert inputs[..|inputs|] == inputs;
      PermutationsAddCount(old(sys.constraints), AbsorbPreimages(start, inputs), base, loc);
    }

    /** The body of the absorbing loop, for one input `x`. */
    method AbsorbInput(sys: RunState, loc: string, x: FieldVar)
      requires Valid() && absorbing
      modifies this, sys
      ensures Valid() && absorbing
      ensures View() == AbsorbOne(old(View()), x)
      ensures var more := Overflow(old(View()));
        && sys.nextVar == old(sys.nextVar) + VARS_PER_HASH * |more|
        && sys.computations == old(sys.computations) + PermutationComputations(more, old(sys.nextVar), loc)
        && sys.constraints == old(sys.constraints) + PermutationEntries(more, old(sys.nextVar), loc)
    {
      // permute only when absorbing would overflow the rate
      if |revQueue| == RATE_SIZE {
        var left := revQueue[|revQueue| - 1];
        revQueue := revQueue[..|revQueue| - 1];
        var right := revQueue[|revQueue| - 1];
        revQueue := revQueue[..|revQueue| - 1];
        state := state[0 := Plus(state[0], left)];
        state := state[1 := Plus(state[1], right)];
        var _, _ := Permute(sys, loc);
      }
      revQueue := [x] + revQueue;
    }

    /**
      Permute `(state[0], state[1])` with the Poseidon gadget and return its
      output. The sponge's own fields are left untouched.
    */
    method Permute(sys: RunState, loc: string) returns (left: FieldVar, right: FieldVar)
      modifies sys
      ensures (left, right) == PoseidonHash((state[0], state[1]), old(sys.nextVar))
      ensures sys.nextVar == old(sys.nextVar) + VARS_PER_HASH
      ensures sys.computations == old(sys.computations) + PermutationComputations([(state[0], state[1])], old(sys.nextVar), loc)
      ensures sys.constraints == old(sys.constraints) + PermutationEntries([(state[0], state[1])], old(sys.nextVar), loc)
    {
      var hash := Poseidon(sys, loc, (state[0], state[1]));
      left, right := hash.0, hash.1;
    }

    /** Entering `squeeze`: while absorbing, add the pending inputs, oldest first, into the rate and stop absorbing. */
    method SwitchToSqueezing()
      requires Valid()
      modifies this
      ensures View() == StartSqueezing(old(View()))
    {
      // switching to squeezing: do not forget the queue
      if absorbing {
        assert squeezed == None;
        if |revQueue| > 0 {
          var left := revQueue[|revQueue| - 1];
          revQueue := revQueue[..|revQueue| - 1];
          state := state[0 := Plus(state[0], left)];
        }
        if |revQueue| > 0 {
          var right := revQueue[|revQueue| - 1];
          revQueue := revQueue[..|revQueue| - 1];
          state := state[1 := Plus(state[1], right)];
        }
        absorbing := false;
      }
    }

    /** Squeeze one output: release the cached one if there is one, otherwise permute. */
    method Squeeze(sys: RunState, loc: string) returns (output: FieldVar)
      requires Valid()
      modifies this, sys
      ensures Valid() && !absorbing
      ensures var r := SqueezeStep(old(View()), old(sys.nextVar));
        && View() == r.sponge
        && output == r.output
        && sys.nextVar == old(sys.nextVar) + VARS_PER_HASH * |r.preimages|
        && sys.computations == old(sys.computations) + PermutationComputations(r.preimages, old(sys.nextVar), loc)
        && sys.constraints == old(sys.constraints) + PermutationEntries(r.preimages, old(sys.nextVar), loc)
        && PoseidonCount(sys.constraints) == PoseidonCount(old(sys.constraints)) + |r.preimages|
    {
      SwitchToSqueezing();
      // release a left-over output
      if squeezed.Some? {
        output := squeezed.value;
        squeezed := None;
        assert PermutationComputations([], old(sys.nextVar), loc) == [];
        assert PermutationEntries([], old(sys.nextVar), loc) == [];
        assert sys.constraints == old(sys.constraints) + [];
        return;
      }
      // otherwise permute: cache the right, release the left
      var left, right := Permute(sys, loc);
      squeezed := Some(right);
      output := left;
      PermutationsAddCount(old(sys.constraints), [(state[0], state[1])], old(sys.nextVar), loc);
    }
  }
}
