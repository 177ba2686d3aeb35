# Lazy gate scheduler

A Dafny model of `LazyScheduler`, the scheduler of a two-party secure
computation framework. It sits between an application and a secret-share
engine.

What the scheduler does:

- **Wires.** The application creates wires by input calls: private, public
  or recovered values. Each wire is boolean or 64-bit integer, scalar or
  batch, private or public.
- **Gates only record.** The application combines wires with gate calls:
  AND, XOR, NOT, MULT, PLUS, NEG, composite AND, open-to-party and
  rebatching. A gate call runs nothing. It records the gate with the gate
  keeper, at the lowest level that is above all of the gate's inputs and
  not yet run.
- **Fresh outputs.** A gate call returns fresh output wires, which hold no
  value yet.
- **Forcing.** Work happens only when a value is needed: extracting a
  secret share or reading a public value. This forces the wire: every
  recorded level up to the wire's own runs, one level at a time and in
  increasing order.
- **One batch per level.** The engine gates of a level go to the engine as
  one batch, so a level costs at most one round. A level of only
  public-public or rebatching gates adds no round, and a round of only
  non-interactive gates exchanges nothing.
- **Housekeeping.** Reference counts manage wire lifetime. The scheduler
  reports traffic and wire statistics.

How the model is built:

- **Ideal engine.** The secret-share engine is an ideal evaluator. A
  gate's result is the plaintext operation on its inputs' plaintext. The
  engine keeps a log of the rounds it has run, and traffic is derived from
  that log.
- **Eager reference.** The scheduler carries a ghost map `ideal` holding
  the plaintext every wire would have under eager evaluation.
- **Invariant.** `SchedulerState.Consistent` is kept by every method. It
  says a wire holds a value exactly when its level has run, and that value
  is the eager plaintext. So forcing a wire returns what eager evaluation
  would have computed.
- **Running as a function.** `Record`, `Executed` and `Ran` describe what
  recording a gate, running one level and running every level below a
  bound do to the state. The methods are proved to produce exactly those
  states, and the lemmas prove their properties.

Modules, one per file:

| file | module | contents |
|---|---|---|
| `values.dfy` | `Values` | payloads, 64-bit arithmetic, concatenation and splitting |
| `gates.dfy` | `Gates` | gate functions and their plaintext semantics |
| `engine.dfy` | `Engines` | the ideal engine and its round log |
| `wire_keeper.dfy` | `WireKeeping` | the wire table and reference counts |
| `gate_keeper.dfy` | `GateKeeping` | pending gates by level and the frontier |
| `scheduler_state.dfy` | `SchedulerState` | the state value, its invariant, and what recording and running do |
| `gate_checks.dfy` | `GateChecks` | each gate's operand checks and what recording it yields |
| `lazy_scheduler.dfy` | `LazySchedulers` | the `LazyScheduler` class |

The header declares one C++ method per visibility and batchness variant,
for example `privateAndPublicBatch`. The model folds each family into one
method:

- **Which variant.** A `Pattern` or `Vis` argument picks the visibility
  (private-private, private-public or public-public). A `batched` flag
  picks scalar or batch.
- **Scalars.** A scalar is a batch of one element.
- **Both kinds.** The boolean and integer forms of open, extract, get-value
  and reference counting are one method over a `WireId` that carries its
  kind.

## Model

| member | source | states |
|---|---|---|
| LazySchedulers.LazyScheduler.constructor | fbpcf/scheduler/LazyScheduler.h:28-33 | a scheduler over the given engine, wire keeper and gate keeper, with no wires and no pending gates, satisfies the invariant |
| LazySchedulers.LazyScheduler.Input | fbpcf/scheduler/LazyScheduler.h:40-142 | a live wire is created, holding its value from the start, at level 0, with one reference, under a fresh index; the plaintext map records the value; the invariant is kept |
| LazySchedulers.LazyScheduler.BinaryGate | fbpcf/scheduler/LazyScheduler.h:189-430 | a freed operand gives InvalidWireError and a visibility, batchness or length mismatch gives ValidationError, both in both directions and with nothing changed; no other error is possible, so fitting operands always succeed; then the only change is recording one gate, and the result is the fresh pending output; the engine is not in the frame, so no engine call and no traffic happen |
| LazySchedulers.LazyScheduler.CompositeAndGate | fbpcf/scheduler/LazyScheduler.h:233-270 | fails exactly when `left` or one of `rights` is freed (InvalidWireError), or when one of them does not fit `left` (ValidationError), and with no other error; otherwise it records one composite gate with one fresh output per element of `rights`, in order, each of `left`'s length |
| LazySchedulers.LazyScheduler.UnaryGate | fbpcf/scheduler/LazyScheduler.h:321-456 | the NOT and NEG gates: InvalidWireError and ValidationError exactly in their cases, no other error; otherwise exactly one gate is recorded with one fresh output |
| LazySchedulers.LazyScheduler.OpenValueToParty | fbpcf/scheduler/LazyScheduler.h:75-157 | opening records one gate whose fresh output is public; it is refused exactly for a freed source (InvalidWireError) or a batchness mismatch (ValidationError) |
| LazySchedulers.LazyScheduler.BatchingUp | fbpcf/scheduler/LazyScheduler.h:502-503 | bands live batches of one visibility into one fresh batch whose length is the sum of theirs; an empty list, a scalar or mixed visibilities give ValidationError and a freed source InvalidWireError, exactly and with no other error |
| LazySchedulers.LazyScheduler.Unbatching | fbpcf/scheduler/LazyScheduler.h:505-508 | cuts a batch into one fresh batch per strategy entry; a strategy that does not add up to the batch length, or a scalar source, gives ValidationError, a freed source InvalidWireError, and nothing else fails |
| LazySchedulers.LazyScheduler.Enqueue | fbpcf/scheduler/LazyScheduler.h:20-25 | recording a gate whose results fit turns the state into exactly `Record` of it, keeps the invariant, and returns the fresh consecutive output ids |
| LazySchedulers.LazyScheduler.IncreaseReferenceCount | fbpcf/scheduler/LazyScheduler.h:463-488 | adds one reference to a live wire of the stated batchness; a freed wire gives InvalidWireError, a batchness mismatch ValidationError, and nothing else changes |
| LazySchedulers.LazyScheduler.DecreaseReferenceCount | fbpcf/scheduler/LazyScheduler.h:473-498 | drops one reference; the last one frees the wire; the same error cases |
| LazySchedulers.LazyScheduler.ForceWire | fbpcf/scheduler/LazyScheduler.h:530-535 | `Forced`: an already computed wire returns its value and changes nothing; otherwise it runs every level up to the wire's own (`RanTill`); it succeeds exactly when no gate to run reads a freed wire, and then returns the eager plaintext, which the wire now holds; a failure stops at the first level that reads a freed wire with the levels below it run (`StoppedAt`) |
| LazySchedulers.LazyScheduler.ForcePending | fbpcf/scheduler/LazyScheduler.h:530-535 | forcing a pending wire satisfies `Forced`: it runs the levels up to the wire's own and the wire then holds its eager plaintext, or stops at the failing level |
| LazySchedulers.LazyScheduler.ExtractSecretShare | fbpcf/scheduler/LazyScheduler.h:89-169 | a freed wire or a batchness mismatch is refused with nothing changed; otherwise it satisfies `Forced`: the ideal share is the eager plaintext, an already computed wire is returned with nothing run, and a pending one succeeds exactly when the levels up to its own can run |
| LazySchedulers.LazyScheduler.GetValue | fbpcf/scheduler/LazyScheduler.h:100-180 | a private wire gives ProtocolStateError and a freed one InvalidWireError, both without changing anything; a public live wire of the stated batchness satisfies `Forced`: its eager plaintext, returned at once when already computed, otherwise after running the levels up to its own, exactly when those can run |
| LazySchedulers.LazyScheduler.ExecuteTillLevel | fbpcf/scheduler/LazyScheduler.h:539-540 | the loop reaches exactly `Ran(old state, level + 1)`: every level up to `level` has run, in increasing order, and the engine logged one round per level with engine gates; it fails exactly when a pending gate at one of those levels reads a freed wire, and then it stopped at the first such level `f`, with the levels below `f` run and logged (`StoppedAt`) |
| LazySchedulers.LazyScheduler.ExecuteOneLevel | fbpcf/scheduler/LazyScheduler.h:542-543 | drains exactly the frontier level: its outputs get their plaintext, the level is removed, the frontier moves up by one, and the engine logs that level's round; a freed input fails the level with nothing changed |
| LazySchedulers.LazyScheduler.GetTrafficStatistics | fbpcf/scheduler/LazyScheduler.h:515 | the traffic reported is that of the engine's round log, the same count in both directions |
| LazySchedulers.LazyScheduler.GetWireStatistics | fbpcf/scheduler/LazyScheduler.h:520-522 | reports exactly the wire keeper's counts: wires allocated and wires still live |
| SchedulerState.RecordKeepsConsistent | fbpcf/scheduler/LazyScheduler.h:20-25 | recording a fitting gate over live wires keeps the invariant (values exactly below the frontier, every value equal to its eager plaintext) |
| SchedulerState.RecordedFresh | fbpcf/scheduler/LazyScheduler.h:20-25 | each output of a recorded gate is a fresh pending wire with one reference, at a level not yet run and above all the gate's inputs, and its eager plaintext is the gate's result |
| SchedulerState.ExecutedConsistent | fbpcf/scheduler/LazyScheduler.h:542-543 | running the frontier level keeps the invariant |
| SchedulerState.RanKeepsConsistent | fbpcf/scheduler/LazyScheduler.h:539-540 | running any number of levels keeps the invariant |
| SchedulerState.RanFrame | fbpcf/scheduler/LazyScheduler.h:539-540 | running the levels below `hi` moves the frontier to `hi` and only fills in values: the same wires stay live with the same shape, level and references; levels from `hi` up are untouched, so no gate above the target level runs |
| SchedulerState.RanComputes | fbpcf/scheduler/LazyScheduler.h:530-535 | once the levels below `hi` have run, every wire of those levels holds its eager plaintext, with its other fields unchanged |
| SchedulerState.RanNext | fbpcf/scheduler/LazyScheduler.h:539-543 | one more level run after running the levels below `f` gives the state and round log of running the levels below `f + 1` |
| SchedulerState.RanCompose | fbpcf/scheduler/LazyScheduler.h:539-540 | running to `lo` and then to `hi` equals running to `hi`; in particular running again to a level already reached changes nothing |
| SchedulerState.RoundsInOrder | fbpcf/scheduler/LazyScheduler.h:539-543 | the rounds logged while running a range of levels are in strictly increasing level order; each is a level of the range and holds exactly that level's engine gates, never none |
| SchedulerState.RoundsComplete | fbpcf/scheduler/LazyScheduler.h:539-543 | every level of the range that has an engine gate has a round in the log |
| SchedulerState.LocalRangeMakesNoRounds | fbpcf/scheduler/LazyScheduler.h:20-25 | running levels whose gates are all public-public or rebatching logs no round at all |
| SchedulerState.NonInteractiveRangeIsFree | fbpcf/scheduler/LazyScheduler.h:515 | running levels with no interactive gate exchanges no traffic, whatever rounds it logs |
| SchedulerState.LocalGatesMakeNoRound | fbpcf/scheduler/LazyScheduler.h:217-226 | a level whose gates are all public-public or rebatching adds no round to the engine log |
| GateChecks.BinaryGateOutcome | fbpcf/scheduler/LazyScheduler.h:189-226 | after a two-input gate the state is consistent and the fresh output's eager plaintext is the operation on the operands' plaintext |
| GateChecks.UnaryGateOutcome | fbpcf/scheduler/LazyScheduler.h:321-340 | the fresh output of NOT or NEG holds the operation on the operand's plaintext |
| GateChecks.OpenOutcome | fbpcf/scheduler/LazyScheduler.h:75-87 | the fresh public output of an open holds the source's plaintext |
| GateChecks.CompositeAndOutcome | fbpcf/scheduler/LazyScheduler.h:233-270 | output `k` of a composite AND is fresh, pending, and holds `left` AND `rights[k]` |
| GateChecks.BatchingUpOutcome | fbpcf/scheduler/LazyScheduler.h:502-503 | the banded batch holds the in-order concatenation of the sources' bits |
| GateChecks.UnbatchingOutcome | fbpcf/scheduler/LazyScheduler.h:505-508 | piece `k` of an unbatching is a fresh batch of length `strategy[k]` holding the `k`-th piece of the source bits |
| GateChecks.UnbatchThenBatchUp | fbpcf/scheduler/LazyScheduler.h:502-508 | the pieces of an unbatching are live batches of one visibility that banding accepts, and banding them gives back the original batch; it needs a non-empty strategy, since banding refuses an empty list, so an empty batch cut into no pieces cannot be banded back |
| WireKeeping.ReferenceRoundTrip | fbpcf/scheduler/LazyScheduler.h:463-498 | `n` reference increases followed by `n` decreases leave the wire table as it was |
| WireKeeping.LastDecreaseFrees | fbpcf/scheduler/LazyScheduler.h:473-498 | dropping the last reference frees exactly that wire: one live wire fewer |
| WireKeeping.DecreaseKeepsOthersLive | fbpcf/scheduler/LazyScheduler.h:473-498 | dropping a reference that is not the last frees nothing and lowers the count by one |
| Engines.TrafficAppend | fbpcf/scheduler/LazyScheduler.h:515 | traffic is additive over the round log, so it only grows as rounds run |
| Engines.LocalCallsAreFree | fbpcf/scheduler/LazyScheduler.h:515 | the non-interactive engine calls exchange nothing |
| Values.ConcatSplit | fbpcf/scheduler/LazyScheduler.h:505-508 | splitting a batch by a strategy that adds up to its length and concatenating the pieces gives the batch back |
| Values.SplitConcat | fbpcf/scheduler/LazyScheduler.h:502-508 | concatenating batches and splitting by their lengths gives the batches back |
| Values.Neg64Involution | fbpcf/scheduler/LazyScheduler.h:437-456 | 64-bit negation undoes itself |
| Gates.UnaryInvolution | fbpcf/scheduler/LazyScheduler.h:321-340 | the NOT and NEG gates undo themselves on a payload of their kind |
| Gates.XorTwice | fbpcf/scheduler/LazyScheduler.h:277-314 | XOR with the same operand twice gives the first operand back |
| Gates.PlusNegIsZero | fbpcf/scheduler/LazyScheduler.h:393-456 | adding a payload's negation gives all zeros modulo 2^64 |

## Left out

- `LazyScheduler.cpp` is not part of this model. What each method does follows the declarations and comments in the header.
- GateChecks.UnbatchThenBatchUp: requires a non-empty strategy. With an empty strategy, an empty batch unbatches into no pieces, and banding refuses an empty list, so that round trip is not stated.
- `maybeExecuteGates` (line 537): the header does not say what triggers it, so the model runs levels only when a wire is forced.
- The secret-share engine is an ideal plaintext evaluator: the oblivious-transfer protocols, the actual shares returned by the extract calls and the party id of private inputs are not modelled, and neither are privacy or leakage.
- Networking, cross-party synchrony and failures during a level are left out; traffic is derived from the log of rounds in whole elements, the same in both directions, not in bytes.
- `MetricCollector` telemetry (lines 32, 528) has no effect on results and is left out.
- The collaborators are owned objects of the class rather than injected through `shared_ptr`; their interfaces are only what the scheduler uses.
- Levels are unbounded naturals; the header's `uint32_t` level limit is not modelled.
- Wire ids are never reused; the wire keeper's slot recycling is not modelled, so the allocated count is the next index.
- Recorded gates do not hold references to their inputs. A gate whose input is freed before it runs makes its level fail with InvalidWireError and nothing changes in that level; the levels run before it stay run (`StoppedAt`), so a failed force is not undone.
- Public-public gates and rebatching are recorded and run lazily like every other gate, but computed locally, without the engine, when their level runs; unlike an eager design, a public-public gate is not computed at the call, since the header declares every gate call the same way.
- A new wire starts with one reference, which the caller owns; releasing it is the first decrease.
- Traffic counts the elements each interactive gate produces; a composite AND is charged `|rights|` times the length of `left`, as many separate ANDs would be, so the measure does not show the saving a composite gate makes in the protocol.
