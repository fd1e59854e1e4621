# Kimchi Poseidon gadget, duplex sponge and evaluation domains in Dafny

This project models two pieces of the kimchi proof system and proves properties about them.

**The snarky Poseidon gadget** (`kimchi/src/snarky/poseidon.rs`, modules `SnarkyRunner` and `SnarkyPoseidon`):
- `poseidon` runs the permutation round by round through the circuit runner. It submits one `Poseidon`-labelled constraint. That constraint holds the round states, reordered row by row, and the final state. The gadget returns the first two cells of the final state.
- `round` performs one round as an unconstrained computation.
- The `DuplexState` sponge absorbs lazily. It permutes only when a third pending input would overflow the rate (`RATE_SIZE` = 2). It squeezes two outputs per permutation, caching the right one.

The runner is a class with three fields:
- `RunState.nextVar` is the next fresh variable index.
- `RunState.computations` is the log of unconstrained round computations.
- `RunState.constraints` is the append-only constraint log.

Circuit variables are symbolic: `FieldVar` addition builds a sum term. The round function `full_round` is never evaluated. A round is recorded as "these fresh outputs are `full_round` of these inputs with this round index". Every method of the gadget and the sponge is stated against a pure function of the old state, and the properties are lemmas about those functions:
- the trace (`Trace`, `RoundLog`);
- the emitted constraint (`PoseidonEntry`);
- the sponge steps (`Absorbed`, `AbsorbPreimages`, `SqueezeStep`).

`std::iter::successors` computes each successor as soon as it yields an item. So `take(ROUNDS_PER_HASH + 1)` calls the round closure `ROUNDS_PER_HASH + 1` = 56 times, with round indices 0 to 55. The state computed by the last call is never used. One call of `poseidon` therefore allocates 56 × 3 = 168 variables (`VARS_PER_HASH`). The constraint holds states 0 to 54 and, as `last`, state 55.

The constants `SPONGE_WIDTH` = 3, `ROUNDS_PER_ROW` = 5 and `ROUNDS_PER_HASH` = 55 are imported by the gadget from `kimchi/src/circuits/polynomials/poseidon.rs`. That file is not part of this model; the values are kimchi's.

**Evaluation domains** (`kimchi/src/circuits/domains.rs`, module `Domains`). `EvaluationDomains::create(n)` does three things:
- It rounds `n` up to a domain size `n'`.
- It builds radix-2 domains of sizes `n'`, `2n'`, `4n'` and `8n'`, stopping at the first one that cannot be built.
- It asserts that each generator squares to the next smaller domain's generator.

The field is abstracted by its two-adicity `A`, the largest `A` for which it holds a primitive `2^A`-th root of unity `w`. A domain generator `w^e` is represented by its exponent `e` modulo `2^A`. `compute_size_of_domain` and `Radix2EvaluationDomain::new` (arkworks) are modelled by the behaviour they document:
- the size is the next power of two;
- construction fails when that power exceeds `2^A`;
- the generator is the primitive root of that order.

Under this abstraction:
- `create` succeeds exactly when `A >= 3` and `n <= 2^(A-3)`;
- its `"d1"` error can never occur;
- the squaring assertions always hold.

## Model

| member | source | states |
|---|---|---|
| SnarkyRunner.Zero | kimchi/src/snarky/poseidon.rs:26 | `FieldVar::zero()`, the constant 0. It fills the third cell of the initial state and all three cells of a new sponge. |
| SnarkyRunner.Plus | kimchi/src/snarky/poseidon.rs:148-149 | `&a + b` on circuit variables is a symbolic sum. It is never evaluated, so the model keeps which variables were added and in which order. |
| SnarkyRunner.PoseidonCount | kimchi/src/snarky/poseidon.rs:60-62 | Counts the entries of a constraint log labelled "Poseidon", one per permutation. It is never more than the log's length. |
| SnarkyRunner.RunState.constructor | kimchi/src/snarky/poseidon.rs:22 | A fresh runner has no variables, no computations and no constraints. |
| SnarkyRunner.RunState.Compute | kimchi/src/snarky/poseidon.rs:74-80 | `compute` returns as many fresh variables as it has inputs and records that they are one full round of the inputs. No constraint is added. |
| SnarkyRunner.RunState.AddConstraint | kimchi/src/snarky/poseidon.rs:60-62 | The constraint, its label and its location are appended to the constraint log. Nothing else changes. |
| SnarkyRunner.PoseidonCountAppend | kimchi/src/snarky/poseidon.rs:60-62 | The number of "Poseidon" constraints in a log is additive over appended logs. |
| SnarkyPoseidon.Round | kimchi/src/snarky/poseidon.rs:67-81 | One round yields 3 fresh variables. It records one computation from `elements` with the given round index and adds no constraint. |
| SnarkyPoseidon.Trace | kimchi/src/snarky/poseidon.rs:26-35 | The iterator's states: the initial state, then the fresh state of each of the `ROUNDS_PER_HASH + 1` closure calls. It has 57 states and starts with the initial one. |
| SnarkyPoseidon.InitialState | kimchi/src/snarky/poseidon.rs:26 | The state the iterator starts from: `[preimage.0, preimage.1, zero]`. It is a definition with no contract; `PoseidonRoundsChain` states that round 0 reads it. |
| SnarkyPoseidon.RoundLog | kimchi/src/snarky/poseidon.rs:29-35 | One computation per step of a trace, so the log is one shorter than the trace. Computation `i` is round `i`, from state `i` to state `i + 1`. |
| SnarkyPoseidon.PoseidonComputations | kimchi/src/snarky/poseidon.rs:29-35 | The log of one hash is the round log of its trace. It is a definition with no contract; `PoseidonRoundsChain` states its length and chaining. |
| SnarkyPoseidon.VarsPerHash | kimchi/src/snarky/poseidon.rs:29-35 | The 168 variables of one hash are `(ROUNDS_PER_HASH + 1) * SPONGE_WIDTH`: one state per closure call. |
| SnarkyPoseidon.PoseidonHash | kimchi/src/snarky/poseidon.rs:48-52 | The returned pair is the first two variables allocated by round 54, the state that follows the 55 states of the constraint. |
| SnarkyPoseidon.PoseidonEntry | kimchi/src/snarky/poseidon.rs:37-61 | The constraint is labelled "Poseidon" at the caller's location. It has 55 states, and the first two cells of its width-3 `last` are the returned pair. |
| SnarkyPoseidon.RunRounds | kimchi/src/snarky/poseidon.rs:26-35 | The states taken from the round iterator are the initial state followed by the states of rounds 0, 1, …. The iterator makes 56 round computations, each fed the previous state. |
| SnarkyPoseidon.Poseidon | kimchi/src/snarky/poseidon.rs:21-65 | The gadget allocates 168 variables and logs the round chain. It appends exactly one constraint, `PoseidonEntry`, and returns the first two cells of the state after 55 rounds. |
| SnarkyPoseidon.PoseidonRoundsChain | kimchi/src/snarky/poseidon.rs:26-35 | Round 0 reads `[preimage.0, preimage.1, zero]`. Round `i` reads round `i-1`'s outputs, with round index `i`, and every state has width 3. |
| SnarkyPoseidon.PoseidonEntryFromLog | kimchi/src/snarky/poseidon.rs:37-56 | The constraint is labelled "Poseidon". `states` is the row layout of the inputs of rounds 0..54, each of width 3. `last` is round 54's output, and the returned pair is `(last[0], last[1])`. |
| SnarkyPoseidon.TraceRounds | kimchi/src/snarky/poseidon.rs:37-39 | The 55 states the constraint takes are the first 55 states of the trace, each of width 3. |
| SnarkyPoseidon.PoseidonConstraintShape | kimchi/src/snarky/poseidon.rs:37-47 | `states` has 55 entries and is a permutation of round states 0..54. Chunk `c` holds states 5c, 5c+4, 5c+1, 5c+2, 5c+3. |
| SnarkyPoseidon.RowLayout | kimchi/src/snarky/poseidon.rs:40-46 | Each chunk `r0, r1, r2, r3, r4` of round states is emitted as `r0, r4, r1, r2, r3`, keeping the length. The five-way split matches the five `n()` calls at line 44. |
| SnarkyPoseidon.RowLayoutChunk | kimchi/src/snarky/poseidon.rs:40-46 | Positions 5c..5c+4 of the layout hold inputs 5c, 5c+4, 5c+1, 5c+2, 5c+3. |
| SnarkyPoseidon.RowLayoutPermutes | kimchi/src/snarky/poseidon.rs:40-47 | The row layout only reorders: it has the same multiset of states. |
| SnarkyPoseidon.RowLayoutRoundTrip | kimchi/src/snarky/poseidon.rs:44-45 | Undoing the layout `r0, r4, r1, r2, r3` restores round order. |
| SnarkyPoseidon.RowUnlayoutRoundTrip | kimchi/src/snarky/poseidon.rs:44-45 | The layout is onto: every row-ordered sequence is the layout of its unlayout. |
| SnarkyPoseidon.LayoutKeepsWidth | kimchi/src/snarky/poseidon.rs:53-55 | States of width 3 stay of width 3 after the layout. |
| SnarkyPoseidon.PermutationsCounted | kimchi/src/snarky/poseidon.rs:159-167 | Permuting `k` preimages adds exactly `k` "Poseidon" constraints to the log. |
| SnarkyPoseidon.PermutationEntries | kimchi/src/snarky/poseidon.rs:159-167 | One constraint per preimage, in order, permutation `j` allocating from `base + 168j`. The log has as many entries as there are preimages. |
| SnarkyPoseidon.PermutationComputations | kimchi/src/snarky/poseidon.rs:159-167 | The computations of permuting the preimages in order, one hash log after another, permutation `j` allocating from `base + 168j`. It is a definition with no contract; `DuplexState.Absorb` and `DuplexState.Squeeze` state that they append it. |
| SnarkyPoseidon.PermutationEntryAt | kimchi/src/snarky/poseidon.rs:159-167 | The `j`-th constraint is the gadget's constraint for the `j`-th preimage. Its first state is `[pre.0, pre.1, zero]`. |
| SnarkyPoseidon.PermutationsAddCount | kimchi/src/snarky/poseidon.rs:159-167 | Appending the constraints of `k` permutations to any log raises its "Poseidon" count by exactly `k`. |
| SnarkyPoseidon.SpongeInv | kimchi/src/snarky/poseidon.rs:135-181 | The sponge invariant: at most `RATE_SIZE` pending inputs, none while squeezing, and no cached output while absorbing. It makes the assertions at lines 137 and 173 unreachable. |
| SnarkyPoseidon.NewSponge | kimchi/src/snarky/poseidon.rs:102-111 | A new sponge is absorbing, with an empty queue, no cached output and an all-zero state. It satisfies the sponge invariant. |
| SnarkyPoseidon.DuplexState.constructor | kimchi/src/snarky/poseidon.rs:123-126 | `new()` produces the default sponge, which is valid. |
| SnarkyPoseidon.StartAbsorbing | kimchi/src/snarky/poseidon.rs:135-140 | Switching to absorbing permutes nothing and keeps the queue and the state. From a valid sponge the cache is dropped and the result is valid. |
| SnarkyPoseidon.Overflow | kimchi/src/snarky/poseidon.rs:145-151 | Absorbing one more input permutes once exactly when the queue is full, and otherwise not at all. The preimage is `(state[0] + q[1], state[1] + q[0])` for the queue `q`, newest first. By `AbsorbQueueOrder`, `q[1]` is the older of the two queued inputs. |
| SnarkyPoseidon.AbsorbOne | kimchi/src/snarky/poseidon.rs:145-153 | The input goes to the front of the queue. Below capacity, the old queue follows it unchanged and the state is kept. A full queue is first added into the rate: the new `state[0]`/`state[1]` are the pair `Overflow` permutes, and the queue then holds only the input. Mode, cache and `state[2]` are always kept. |
| SnarkyPoseidon.AbsorbAll | kimchi/src/snarky/poseidon.rs:143-154 | The loop over the inputs, one `AbsorbOne` per input in order. It keeps the mode and the cache. |
| SnarkyPoseidon.Rev | kimchi/src/snarky/poseidon.rs:153 | The reversal of a sequence: entry `i` of the result is entry `|s| - 1 - i` of the input. It is the order the queue keeps, since each input is inserted at index 0. |
| SnarkyPoseidon.AbsorbQueueOrder | kimchi/src/snarky/poseidon.rs:143-154 | For every sponge and every input list, the queue after absorbing is a prefix of the reversed inputs followed by the old queue. So it holds the most recent inputs, newest first, and its last entry is the oldest input still queued. |
| SnarkyPoseidon.Accum | kimchi/src/snarky/poseidon.rs:148-149 | Rate cell `p` after `j` overflows from an empty queue: the start value plus inputs `p`, `p + 2`, …, `p + 2(j - 1)`, added in that order. With no overflow it is the start value. |
| SnarkyPoseidon.AbsorbFromEmpty | kimchi/src/snarky/poseidon.rs:143-154 | Absorbing `xs` into an empty queue permutes `(|xs| - 1) / 2` times. Permutation `j` gets inputs `2j` (into `state[0]`) and `2j + 1` (into `state[1]`) added onto the rate of the earlier permutations. The inputs after the last full pair stay queued, newest first, and the rate holds the sums of the permuted pairs. |
| SnarkyPoseidon.DrainState | kimchi/src/snarky/poseidon.rs:172-181 | With one or two inputs queued, the mode switch adds the oldest into `state[0]` and, when there are two, the newer into `state[1]`. `state[2]` is kept. |
| SnarkyPoseidon.AbsorbFromEmptyThenDrain | kimchi/src/snarky/poseidon.rs:143-181 | Absorbing a non-empty `xs` into an empty queue and then switching to squeezing leaves `state[0]` as the start value plus every even-indexed input, and `state[1]` as the start value plus every odd-indexed input, each in arrival order. |
| SnarkyPoseidon.AbsorbPreimages | kimchi/src/snarky/poseidon.rs:143-154 | The preimages the loop permutes, in order, at most one per input. |
| SnarkyPoseidon.Absorbed | kimchi/src/snarky/poseidon.rs:129-155 | The sponge after `absorb(inputs)` is absorbing. From a valid sponge it holds no cached output. |
| SnarkyPoseidon.DuplexState.Absorb | kimchi/src/snarky/poseidon.rs:129-155 | The new fields are `Absorbed(old fields, inputs)` and the sponge stays valid and absorbing. The runner gains exactly the permutations of `AbsorbPreimages`, in order, and its "Poseidon" count rises by their number. |
| SnarkyPoseidon.DuplexState.AbsorbInput | kimchi/src/snarky/poseidon.rs:143-154 | One loop iteration. With a full queue, the oldest input is added into `state[0]`, the other into `state[1]`, and that pair is permuted once. The input then goes to the front of the queue. |
| SnarkyPoseidon.DuplexState.Permute | kimchi/src/snarky/poseidon.rs:159-167 | Runs the gadget once on `(state[0], state[1])` and returns its pair. The sponge is not written. `sys.poseidon` is taken to run the free `poseidon` gadget (poseidon.rs:21-65); the runner that defines it is not part of this model. |
| SnarkyPoseidon.StartSqueezing | kimchi/src/snarky/poseidon.rs:171-181 | Switching to squeezing stops absorbing. It keeps the cache and `state[2]`, and from a valid sponge it leaves the queue empty. `DrainState` gives the new rate: the last queue entry, the oldest input, goes into `state[0]`. |
| SnarkyPoseidon.SqueezeStep | kimchi/src/snarky/poseidon.rs:170-194 | One squeeze permutes at most once, and exactly once when no output is cached after the switch. The state after the switch is left as it is. |
| SnarkyPoseidon.DuplexState.SwitchToSqueezing | kimchi/src/snarky/poseidon.rs:171-181 | The fields after the mode switch are `StartSqueezing(old fields)`. |
| SnarkyPoseidon.DuplexState.Squeeze | kimchi/src/snarky/poseidon.rs:170-194 | The new fields, the output and the runner's logs are those of `SqueezeStep`. The sponge stays valid and ends squeezing, and the "Poseidon" count rises by the number of permutations. |
| SnarkyPoseidon.AbsorbedInv | kimchi/src/snarky/poseidon.rs:135-154 | `absorb` preserves the invariant (queue ≤ rate, empty while squeezing, no cache while absorbing), so the assertion at line 137 never fires. |
| SnarkyPoseidon.SqueezeInv | kimchi/src/snarky/poseidon.rs:170-194 | `squeeze` preserves the invariant, so the assertion at line 173 never fires. It leaves an empty queue and permutes at most once. |
| SnarkyPoseidon.AbsorbCounts | kimchi/src/snarky/poseidon.rs:143-154 | From `q` pending inputs, `k` more inputs with `q + k >= 1` permute `(q+k-1)/2` times and leave `(q+k-1)%2+1` pending. |
| SnarkyPoseidon.AbsorbCountsFromNew | kimchi/src/snarky/poseidon.rs:143-154 | From a new sponge, `k >= 1` inputs permute `(k-1)/2` times and leave `(k-1)%2+1` pending. |
| SnarkyPoseidon.AbsorbKeepsCapacity | kimchi/src/snarky/poseidon.rs:145-153 | Absorbing never writes `state[2]`. |
| SnarkyPoseidon.SqueezeKeepsCapacity | kimchi/src/snarky/poseidon.rs:172-181 | Squeezing never writes `state[2]`. |
| SnarkyPoseidon.AbsorbThree | kimchi/src/snarky/poseidon.rs:145-153 | Three inputs into an empty queue permute once, on `(s0 + a, s1 + b)`, and leave only `c` pending. |
| SnarkyPoseidon.AbsorbAcrossCalls | kimchi/src/snarky/poseidon.rs:128-154 | A queue carried over between calls: after `absorb([a])` on a new sponge, `absorb([b, c])` permutes `(0 + a, 0 + b)` once, keeps that pair as the new rate and leaves only `c` queued. |
| SnarkyPoseidon.SqueezeAlternates | kimchi/src/snarky/poseidon.rs:183-193 | An uncached squeeze permutes once and returns the left output. The next squeeze returns the cached right output without permuting. The one after permutes the same preimage again, because the permutation's result never reaches the state. |
| SnarkyPoseidon.AbsorbThenSqueeze | kimchi/src/snarky/poseidon.rs:129-194 | From a new sponge, absorbing zero, one or two inputs and then squeezing once makes exactly one permutation. With no input it is on `(0, 0)`, with two on `(0 + x0, 0 + x1)`. Three inputs make two permutations. |
| SnarkyPoseidon.SqueezeNew | kimchi/src/snarky/poseidon.rs:170-194 | `absorb(&[])` then `squeeze` on a new sponge permutes the zero pair once. |
| SnarkyPoseidon.AbsorbTwoThenSqueeze | kimchi/src/snarky/poseidon.rs:145-181 | Two inputs into a new sponge stay queued and are both added into the zero state at the squeeze. |
| Domains.CeilLog2 | kimchi/src/circuits/domains.rs:26 | The exponent of the rounded size is the least `k` with `n <= 2^k`. |
| Domains.CeilLog2Least | kimchi/src/circuits/domains.rs:26 | No smaller power of two holds `n`. |
| Domains.ComputeSizeOfDomain | kimchi/src/circuits/domains.rs:26-27 | The result is defined exactly when the rounded exponent is at most `A`. It is then a power of two at least `n`. |
| Domains.RootOfUnity | kimchi/src/circuits/domains.rs:29-48 | The primitive `2^k`-th root of unity as an exponent of the field's `2^A`-th root, which is what arkworks' `new` takes as `group_gen`. It is a residue modulo `2^A`. |
| Domains.Power | kimchi/src/circuits/domains.rs:22-24 | Raising a generator to the `e`-th power, computed on exponents modulo `2^A`. |
| Domains.Square | kimchi/src/circuits/domains.rs:51-53 | `.square()` of a generator, its second power. |
| Domains.NewDomain | kimchi/src/circuits/domains.rs:29-48 | A domain exists exactly when a size exists. Its size is that power of two, `2^logSize`, with `logSize <= A`. |
| Domains.NewDomainOfPow2 | kimchi/src/circuits/domains.rs:29-48 | `new(2^k)` succeeds exactly when `k <= A`. It then has size `2^k` and the primitive `2^k`-th root as generator. |
| Domains.Create | kimchi/src/circuits/domains.rs:25-56 | Whenever `create` returns domains, the three squaring assertions hold. |
| Domains.SquaringChain | kimchi/src/circuits/domains.rs:51-53 | The three assertions of `create`: squaring the generator of d2, d4 and d8 gives the generator of d1, d2 and d4. It is the predicate that `Create` and `CreateChain` establish. |
| Domains.CreateOutcome | kimchi/src/circuits/domains.rs:25-48 | Gives the outcome for every `n`. If `n` cannot be rounded, the error is `DomainSizeFailed(n)` with the requested `n`. Otherwise the first of d2, d4, d8 that does not fit fails, with its label and the size attempted (`2n'`, `4n'`, `8n'`), or all four domains are built. |
| Domains.CreateFailsAtD2 | kimchi/src/circuits/domains.rs:37-40 | When `n' = 2^A`, `create` fails with `("d2", 2n')`. |
| Domains.CreateFailsAtD4 | kimchi/src/circuits/domains.rs:41-44 | When `n' = 2^(A-1)`, `create` fails with `("d4", 4n')`. |
| Domains.CreateFailsAtD8 | kimchi/src/circuits/domains.rs:45-48 | When `n' = 2^(A-2)`, `create` fails with `("d8", 8n')`. |
| Domains.CreateBuildsAll | kimchi/src/circuits/domains.rs:29-55 | When `8n'` fits, the four domains have sizes `n'`, `2n'`, `4n'`, `8n'` and the primitive roots of those orders as generators. |
| Domains.CreateSucceedsIff | kimchi/src/circuits/domains.rs:25-55 | `create` succeeds if and only if `A >= 3` and `n <= 2^(A-3)`. |
| Domains.CreateOkBound | kimchi/src/circuits/domains.rs:45-48 | Success implies that the eightfold domain fits. |
| Domains.CreateNeverFailsAtD1 | kimchi/src/circuits/domains.rs:29-32 | A construction error never carries the label "d1". |
| Domains.CreateSizes | kimchi/src/circuits/domains.rs:26-48 | On success `n <= n'`, with `n' < 2n` unless `n' = 1`. The sizes are `n'`, `2n'`, `4n'`, `8n'`, all powers of two. |
| Domains.CreateGeneratorPowers | kimchi/src/circuits/domains.rs:22-24 | On success `g8^8 = g1`, `g4^4 = g1` and `g8^2 = g4`. |
| Domains.ExpectedChain | kimchi/src/circuits/domains.rs:51-53 | The domains built from `2^k` satisfy `g2^2 = g1`, `g4^2 = g2` and `g8^2 = g4`. |
| Domains.SquareRootOfUnity | kimchi/src/circuits/domains.rs:51-53 | Squaring the primitive `2^(k+1)`-th root gives the primitive `2^k`-th root. |
| Domains.PowerOfRoot | kimchi/src/circuits/domains.rs:22-24 | Raising the primitive `2^k`-th root to the power `2^j` gives the primitive `2^(k-j)`-th root. |
| Domains.RootOfUnityOrder | kimchi/src/circuits/domains.rs:29-48 | The generator of a domain of size `2^k` has multiplicative order exactly `2^k`. |
| Domains.CreatePrimitiveRoots | kimchi/src/circuits/domains.rs:29-48 | Every domain `create` returns is generated by an element whose order is the domain's size. |

## Left out

- `full_round`, the S-box, the MDS matrix, the round constants and `ArithmeticSpongeParams` come from `mina_poseidon`. They are represented only by the recorded `FullRound` computations.
- `RunState::compute` / `read_var` witness evaluation and prime-field arithmetic: no witness values exist in the model. `FieldVar` addition is a free symbolic sum; any constant folding the real `+` does is not modelled.
- SnarkyPoseidon.SqueezeAlternates: states that the third squeeze permutes the same preimage as the first. Without witness values it cannot state that the two outputs are equal field elements.
- SnarkyRunner.RunState.Compute: the fresh variables are numbered consecutively from the counter. The runner's real variable allocation lives outside this model.
- The `.expect("compiler bug")` failure paths of `compute` and `add_constraint` are not modelled. Both are taken to succeed.
- Constraint kinds other than the Poseidon gate, and the rest of the runner, are not part of this model.
- SnarkyPoseidon.DuplexState.Permute: the `RunState::poseidon` method that `permute` calls (poseidon.rs:166) is defined in the runner, which is not part of this model. The model takes it to run the free `poseidon` gadget at poseidon.rs:21-65 on the same runner.
- The `CircuitAbsorb` trait (poseidon.rs lines 198-203) is a declaration with no behaviour.
- The serde `SerdeAs` serialisation of `EvaluationDomains` is not modelled.
- The ignored `usize::MAX` test is not modelled as a test. Its two relations `g4^4 = g1` and `g8^2 = g4` are proved in `Domains.CreateGeneratorPowers`.
- Domains.NewDomain: the field is abstracted by its two-adicity and a root-of-unity exponent. The generator inverse, the size inverse and the coset offset that arkworks also stores are not modelled.
- Domains.Create: `usize` overflow is not modelled; sizes are unbounded integers. Rounding `n` up to a power of two (domains.rs:26) overflows for every `n > 2^63`, whatever the two-adicity `A`. An example is `create(usize::MAX)` in the ignored test at domains.rs:65-68, on Pasta Fp with `A = 32`; a debug build panics there. The model instead returns `DomainSizeFailed(n)`, because `CeilLog2(n) = 64 > A`. A release build, whose rounding wraps, is led to the same error. Only the products `2n'`, `4n'` and `8n'` at domains.rs:37-47 need `A >= 61` to overflow; for smaller `A` those sizes are rejected first.
- `sample_circuit` is not part of this model. It is glue over an external circuit builder, plus a floating-point demo.
