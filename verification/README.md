# Verification of STAMINA's truncation

STAMINA checks a bounded until property on a continuous-time Markov chain that may have infinitely
many states.  It explores the chain only as far as states carry enough probability, redirects every
transition that leaves the explored part to one artificial absorbing state, and has the finite rest
checked twice: once with the absorbing state as a failure (lower probability) and once as a success
(upper probability).  This project models that process and proves that the two results bracket the
true probability, together with what the bookkeeping of the exploration promises on the way.

The source chain is a parameter: a number of bits, a finite sequence of initial states, a function
from states to finite sequences of transitions and a function from states to labels.  Transitions
have positive rates and distinct targets, no state is encoded as the reserved all-ones pattern and no
state of the model has the label "Absorbing"; nothing else is assumed, and in particular rates need
not be bounded.  Real numbers stand for doubles.

## How the project is built

Everything the code mutates exists twice: as a value (`Exploration.Snapshot` and functions on it) and
as heap objects (`ModelBuilder.IterativeModelBuilder`, whose two queues and map share
`ProbabilityState` records).  Every method is proved to take the abstract value of the heap to what
the function says, and the theorems are about the functions, for all chains and all runs.

- `Csl`, `SourceChain`, `Truncation`, `TruncatedModel`: properties and their rewriting, the value of
  an until property on the source chain, on a truncation and on the finite chain.
- `Walks`, `WalkValues`: what these values mean, as sums over the walks of a uniformized chain.
- `Exploration`, `Invariant`, `Iterations`: the operations of the iterative builder, its invariant,
  whole inner iterations.
- `Callbacks`, `Rounds`, `PriorityRounds`, `Reachability`: what a single round does, told without the
  operations, and which states are explored.
- `Finalization`, `Emission`, `RowFidelity`, `Soundness`: connecting the perimeter, the emitted
  matrix, and the guarantees for the property.
- `Accounting`, `Runs`, `Deadlocks`, `Termination`, `KappaLoop`: probability mass, counters, reported
  deadlocks, and the end of all loops.
- `PerimeterMass`, `LateMass`, `ErrorBound`: what the perimeter holds, what piHat says about it, and
  how wide the window can be.
- `ReExploring`, `ReExploringRuns`, `PriorityExploration`, `PriorityFrontier`: the two other builders.
- `ProbabilityState`, `ModelBuilder`, `ReExploringBuilder`, `PriorityBuilder`: the mutable form.
- `StateIndexArray`, `StateMemoryPool`, `Ownership`: support structures.

## Main results

- **Values** (`WalkValues.UntilValueIsWalks`, `WalkValues.ModelValueIsWalks`).  The true value and what
  the solver computes are sums over the walks of k steps that win, each with the product of rate / q for
  its jumps and 1 - exit rate / q for its stays.
- **Soundness** (`Soundness.TruncationIsSound`, `Soundness.BuiltModelBrackets`).  Lower <= true <= upper,
  for every chain, every finished exploration, every registered state and every number of steps;
  `BuildModelComponents` ensures it, in terms of walks, of what one build emits.
- **Window identity** (`Soundness.WindowIsTheLeak`) and **monotone refinement**
  (`Soundness.RefinementIsMonotone`).
- **Row fidelity** (`RowFidelity.EmittedRowsAreFaithful`), despite repeated expansion and stale
  entries in the perimeter queue.
- **Perimeter partition** (`Iterations.PerimeterPartition`) and the exploration invariant behind it.
- **Exploration** (`Reachability.IterationReached`).  With property refinement every registered state is
  reached through registered states that leave the property undecided, and no other is ever expanded;
  `Rounds` says of every kind of round exactly what it does, `Rounds.RoundShares` in which proportions.
- **Mass** (`KappaLoop.IterationMass`), with the exact condition under which a round loses some
  (`Accounting.StepMass`): it expands a state that carries probability and has a self-loop.
- **Kappa loop** (`ReduceKappa`).  It stops after the first iteration that brings piHat below the
  window, and it does stop (`KappaLoop.KappaLoopEnds`), although the counter may grow linearly while
  kappa shrinks geometrically.
- **Re-exploring completeness** (`ReExploring.EveryIterationVisitsAll`,
  `ReExploringRuns.EveryIterationIsComplete`).
- **Priority accounting** (`PriorityFrontier.PiHatCoversFrontier`), for every order of the queue.
- **Ownership** (`Ownership.OwnersAreUnique`, `Ownership.AnswersAfterClaim`), for every interleaving.
- **Error bound** (`ErrorBound.WindowIsBoundedByMass`).  In a chain without self-loops the windows of
  the initial states add up to at most the probability that the exploration left with states from
  which the chain can go on; and where no two transitions lead to the same state, they are below the
  precision that was asked for (`ErrorBound.PrecisionIsReached`).

What piHat means has two limits.  The piHat of the iterative builder bounds what the perimeter states
held when they were queued.  What they hold in the end exceeds that exactly by what reached them late
(`PerimeterMass.PerimeterHoldsHeldAndLate`), which happens exactly in the rounds that spread
probability onto a state of the perimeter (`PerimeterMass.StepPerimeterMass`); it may carry the
perimeter above piHat (`LateMass.PiHatMissesLateMass`), but never does if no state has two incoming
transitions and no initial state has one (`PerimeterMass.PerimeterStaysBelowPiHat`).  And the piHat of
the priority builder, which starts from 1, is exact if and only if there is one initial state, because
each of them holds 1 (`PriorityFrontier.PiHatAccounts`).

## Where the code and its comments disagree

The model follows the code.

- The block size of `StateIndexArray` is `2 << e`, that is 2^16 for the default exponent; the comment
  in `StateIndexArray.h:48` says 2^15.  A block of 2^15 places would not do
  (`StateIndexArrays.BlockArrayIsMap`).
- The block size of `StateMemoryPool` is 2^14 for the default exponent; the comment in
  `StateMemoryPool.h:58` says 2^12.
- The rewritten property has strict time bounds whatever the bounds of the original one
  (`ModelModify.cpp:129-130`).

## Model

| member | source | states |
|---|---|---|
| `Csl.ModifyProperty` | src/stamina/util/ModelModify.cpp:107-188 | rewriting fails exactly if the property has no upper time bound; otherwise phi1 and the values of both bounds are kept, a missing lower bound is 0, both bounds are marked strict, and the name gets the suffix of its version (what the new goal means is the subject of ModifiedGoal) |
| `Csl.ModifiedGoal` | src/stamina/util/ModelModify.cpp:133-180 | the rewritten goal differs from the original one at the label "Absorbing" and nowhere else; there the lower version is a failure and the upper one a success |
| `Walks.WalksAreAll` | src/stamina/util/ModelModify.cpp:133-180 | exactly the walks of k steps are summed over: sequences of jumps along transitions and stays that fit together |
| `Walks.WalksAreDistinct` | src/stamina/util/ModelModify.cpp:133-180 | and each of them once |
| `Walks.WalksAreExhaustive` | src/stamina/util/ModelModify.cpp:133-180 | the products of their chances (rate / q for a jump, 1 - exit rate / q for a stay) add up to 1 |
| `Walks.WalkRecursion` | src/stamina/util/ModelModify.cpp:133-180 | the sum over the walks that win, by their first step |
| `WalkValues.UntilValueIsWalks` | src/stamina/util/ModelModify.cpp:133-180 | the true value of a state: the sum over the k-step walks of the uniformized source chain that get to a phi2 state through phi1 states, for all chains, q, k and states |
| `WalkValues.ModelValueIsWalks` | src/stamina/util/ModelModify.cpp:133-180 | what the solver computes for an index of a finite chain: the same sum over the walks on its matrix and labelling |
| `WalkValues.LeakValueIsWalks` | src/stamina/util/ModelModify.cpp:133-180 | the leak: the sum over the walks that get to index 0 through undecided states |
| `WalkValues.CutValueIsWalks` | src/stamina/builder/StaminaModelBuilder.cpp:394-409 | the value of a truncation: the sum over the walks that win before they leave the known states, and with 1 at the cut also over those that leave them undecided |
| `WalkValues.RowOfIsExact` | src/stamina/builder/StaminaModelBuilder.cpp:177-206 | the row of an index consists of its entries in the matrix, each as often as it is there |
| `WalkValues.LiteralSides` | src/stamina/builder/StaminaIterativeModelBuilder.cpp:140-163 | with true on the left a walk wins as soon as it gets to a phi2 state, and only phi2 states settle the property; with false it wins at once or never, and every state does |
| `Truncation.CutValueRefines` | src/stamina/builder/StaminaModelBuilder.cpp:368-415 | on values alone: redirecting the edges out of a larger set of known states raises the k-step value with 0 at the cut and lowers the one with 1 at it |
| `Truncation.CutValueBrackets` | src/stamina/builder/StaminaModelBuilder.cpp:368-415 | on values alone: for every set of known states, chain and k the two cut values bracket the true k-step until value |
| `TruncatedModel.CutRowFlow` | src/stamina/builder/StaminaModelBuilder.cpp:394-409 | a redirected row weighs all unknown successors with the value of index 0 |
| `TruncatedModel.CutRowRate` | src/stamina/builder/StaminaModelBuilder.cpp:394-409 | a redirected row keeps the exit rate |
| `TruncatedModel.ModelValueIsCutValue` | src/stamina/builder/StaminaModelBuilder.cpp:394-409 | a finite chain whose rows are the redirected ones has, under the lower (upper) property, the value of the truncation with 0 (1) at the cut, for every k and known state |
| `TruncatedModel.WindowIsLeak` | src/stamina/util/ModelModify.cpp:133-180 | on every finite chain with one empty row labelled "Absorbing" the upper minus the lower value is the probability of reaching that row through states with phi1 and not phi2 |
| `Soundness.TruncationIsSound` | src/stamina/util/ModelModify.cpp:107-180 | for every source chain, every finished exploration of it, every registered state and every k: lower probability of the built chain <= true probability <= upper probability, also with states left unexplored because they settle the property |
| `Soundness.WindowIsTheLeak` | src/stamina/util/ModelModify.cpp:133-180 | for every finished exploration the window is exactly the k-step probability of leaking into the absorbing state |
| `Soundness.RefinementIsMonotone` | src/stamina/builder/StaminaIterativeModelBuilder.cpp:485-501 | connecting the perimeter of a later snapshot never lowers the lower and never raises the upper probability of a state known before |
| `Soundness.NextIterationTightens` | src/stamina/builder/StaminaIterativeModelBuilder.cpp:485-501 | one more inner iteration never loosens a bound of a state known before |
| `Soundness.TimeBoundedBracket` | src/stamina/util/ModelModify.cpp:147-179 | the bracket holds for every non-negative weighting of the step bounds, such as the Poisson weights of a time bound |
| `Soundness.MixtureAdds` | src/stamina/util/ModelModify.cpp:147-179 | in such a weighted sum each weight goes with the value at its place |
| `Soundness.BuiltModelBrackets` | src/stamina/builder/StaminaIterativeModelBuilder.cpp:499-511 | the bracket in terms of walks, for all q, k and registered states: on the emitted chain the walks that win under the lower property are at most as probable as those of the source that win, and these as those that win under the upper one |
| `Invariant.CreateRow` | src/stamina/builder/StaminaModelBuilder.cpp:210-249 | createTransition appends the entry to the row of its source, unless it repeats the last one or has rate 0, and changes no other row |
| `Invariant.RegisterEffect` | src/stamina/builder/StaminaIterativeModelBuilder.cpp:373-434 | a callback registers at most one state, with a fresh index and an empty row, enqueues it, and touches nothing else but marks; the numbering stays a bijection onto 0..N-1 |
| `Invariant.PropagateRow` | src/stamina/builder/StaminaModelBuilder.cpp:236-247 | the check against the last entry drops nothing while a row is built |
| `Invariant.PropagateAllEffect` | src/stamina/builder/StaminaIterativeModelBuilder.cpp:252-279 | the loop over the successors only adds probability, and builds the row of a new state entry by entry in generator order |
| `Invariant.StopKeepsInv` | src/stamina/builder/StaminaIterativeModelBuilder.cpp:140-163 | a state that settles the property gets one self-loop, however often it is visited |
| `Invariant.PostponeKeepsInv` | src/stamina/builder/StaminaIterativeModelBuilder.cpp:167-177 | a terminal state below the threshold is flagged and has exactly one entry in the perimeter queue |
| `Invariant.DeadlockKeepsInv` | src/stamina/builder/StaminaIterativeModelBuilder.cpp:199-214 | a deadlock gets one self-loop, however often it is visited |
| `Invariant.NoMassIsClosed` | src/stamina/builder/StaminaIterativeModelBuilder.cpp:373-402 | a state expanded with pi = 0 was expanded before, so all its successors are registered and the branch that enqueues an unregistered record never runs |
| `Invariant.ExpandKeepsCharged` | src/stamina/builder/StaminaIterativeModelBuilder.cpp:263-301 | every terminal state carries probability after an expansion, the new ones included |
| `Invariant.StepKeepsValid` | src/stamina/builder/StaminaIterativeModelBuilder.cpp:118-322 | every round of the loop keeps the whole invariant: numbering, the five situations of a state, their flags and their rows |
| `Iterations.RegisterInitialsShape` | src/stamina/builder/StaminaIterativeModelBuilder.cpp:349-367 | the initial states get the indices from 1 on and are enqueued in their order |
| `Iterations.RunKeepsValid` | src/stamina/builder/StaminaIterativeModelBuilder.cpp:118-322 | every run of the loop keeps the whole invariant |
| `Iterations.FlushOneKeepsValid` | src/stamina/builder/StaminaIterativeModelBuilder.cpp:541-553 | one turn of the flush keeps the invariant, whether the entry is stale or not |
| `Iterations.FlushKeepsValid` | src/stamina/builder/StaminaIterativeModelBuilder.cpp:540-554 | the flush keeps it, empties the perimeter queue and renumbers nothing |
| `Iterations.NextIterationGrows` | src/stamina/builder/StaminaIterativeModelBuilder.cpp:485-497 | no later inner iteration forgets or renumbers a state |
| `Iterations.PerimeterPartition` | src/stamina/builder/StaminaIterativeModelBuilder.cpp:167-184 | when the worklist is empty, of every registered state exactly one holds: not terminal, settles the property, known deadlock, perimeter flag set; a flagged one has exactly one queue entry, and every other queue entry is one the flush skips |
| `Callbacks.RegisterAllIsExact` | src/stamina/builder/StaminaIterativeModelBuilder.cpp:373-434 | the callbacks of one expansion number exactly the successors without an index, in generator order, mark exactly the successors as seen, and enqueue exactly those not met in this iteration, in generator order |
| `Rounds.DecidedRound` | src/stamina/builder/StaminaIterativeModelBuilder.cpp:140-163 | a round with property refinement on a state that violates phi1 or satisfies phi2: its row is a self-loop, it is terminal, the counter goes up by one, and nothing else changes |
| `Rounds.SmallRound` | src/stamina/builder/StaminaIterativeModelBuilder.cpp:167-177 | a round on a terminal state below the threshold: it is flagged and, unless it was flagged, appended to the perimeter queue, and nothing else changes |
| `Rounds.DeadlockRound` | src/stamina/builder/StaminaIterativeModelBuilder.cpp:199-214 | a round on a state without successors: its row is a self-loop, it is a deadlock and listed as one, and nothing else changes |
| `Rounds.ExpandedRound` | src/stamina/builder/StaminaIterativeModelBuilder.cpp:179-301 | a round on any other state: it is left with pi 0, neither terminal nor new nor flagged, all its successors are registered, its row has an entry for each of them, and all other rows, the queue of the perimeter and the list of deadlocks stay |
| `Rounds.RoundVisits` | src/stamina/builder/StaminaIterativeModelBuilder.cpp:373-434 | such a round numbers, marks and enqueues as RegisterAllIsExact says, touches no record of a state that is not a successor, and keeps the counter exact |
| `Rounds.RoundShares` | src/stamina/builder/StaminaIterativeModelBuilder.cpp:238-279 | such a round gives each successor pi times rate over exit rate, where what a self-loop has brought back counts for the successors after it |
| `Rounds.FlushIsExact` | src/stamina/builder/StaminaIterativeModelBuilder.cpp:540-554 | the flush appends exactly the flagged entries of the perimeter queue to the worklist, in their order, clears their flags, marks their states as new, and changes nothing else |
| `Reachability.IterationReached` | src/stamina/builder/StaminaIterativeModelBuilder.cpp:140-163 | after any rounds of any inner iteration, with property refinement, every registered state is reached from an initial state through registered states that satisfy phi1 and not phi2, and no registered state that does not was ever expanded |
| `Reachability.LastTransition` | src/stamina/builder/StaminaIterativeModelBuilder.cpp:140-163 | so every registered state that is not initial has a registered predecessor from which the exploration may go on |
| `Reachability.ReIterationReached` | src/stamina/builder/StaminaReExploringModelBuilder.cpp:113-303 | the same for the builder that starts again from the initial states |
| `Reachability.BuiltReached` | src/stamina/builder/StaminaPriorityModelBuilder.cpp:424-617 | the same for the priority builder, in every order |
| `Finalization.ClosingStarts` | src/stamina/builder/StaminaIterativeModelBuilder.cpp:499-502 | when the worklist is empty every row is final but those of the flagged states, which are empty |
| `Finalization.ConnectRows` | src/stamina/builder/StaminaModelBuilder.cpp:368-415 | connecting gives a perimeter state its redirected row, or a self-loop if it has no successors |
| `Finalization.ConnectAllCloses` | src/stamina/builder/StaminaModelBuilder.cpp:587-611 | after all stale and live entries of the queue are processed every registered state has its final row |
| `Emission.EmittedRows` | src/stamina/builder/StaminaModelBuilder.cpp:177-206 | the rows of the emitted matrix are the rows of the table |
| `Emission.EmittedInOrder` | src/stamina/builder/StaminaModelBuilder.cpp:178-189 | entries are emitted in increasing order of their rows |
| `Emission.ClosedTable` | src/stamina/builder/StaminaModelBuilder.cpp:178-183 | at the flush there is one row for each index and every row but that of index 0 is non-empty, so the abort cannot fire |
| `Emission.LabellingFits` | src/stamina/builder/StaminaModelBuilder.cpp:279-284 | "Absorbing" labels index 0 and no other index, and every other index has the labels of its state |
| `Emission.BuiltModelRepresents` | src/stamina/builder/StaminaIterativeModelBuilder.cpp:499-511 | the emitted chain is the truncation of the source chain at the registered states |
| `RowFidelity.EmittedRowsAreFaithful` | src/stamina/builder/StaminaModelBuilder.cpp:368-415 | in the emitted chain a state without successors, or with property refinement one that violates phi1 or satisfies phi2, has a self-loop as its row; of any other state each transition to a known state has exactly one entry with its rate, there is one entry to 0 with the sum of the other rates exactly if that is positive, there are no more entries, and the row sum is the exit rate |
| `RowFidelity.EmittedMatrixIsComplete` | src/stamina/builder/StaminaModelBuilder.cpp:177-206 | the emitted matrix has a non-empty row for exactly the indices 1..N-1, in increasing order |
| `Deadlocks.IterationListsDeadlocks` | src/stamina/builder/StaminaIterativeModelBuilder.cpp:199-214 | after every inner iteration the deadlock list holds exactly index 0 and the states flagged as deadlocks |
| `Deadlocks.ConnectAllLists` | src/stamina/builder/StaminaModelBuilder.cpp:378-387 | connecting the perimeter adds exactly the perimeter states without successors |
| `Deadlocks.DeadlocksAreExact` | src/stamina/builder/StaminaModelBuilder.cpp:587-611 | in a finished build the registered states reported as deadlocks are exactly those without successors that do not settle the property |
| `Accounting.CallBackSum` | src/stamina/builder/StaminaIterativeModelBuilder.cpp:373-434 | the callbacks move no probability, keep the counter in step with the number of terminal states, and mark as many states as they enqueue |
| `Accounting.PropagateAllMass` | src/stamina/builder/StaminaIterativeModelBuilder.cpp:252-279 | what the loop over the successors gives away, with a self-loop that makes the probability of the state itself grow on the way |
| `Accounting.ExpandMass` | src/stamina/builder/StaminaIterativeModelBuilder.cpp:238-301 | an expansion loses probability exactly if the state carries some and has a self-loop |
| `Accounting.StepMass` | src/stamina/builder/StaminaIterativeModelBuilder.cpp:118-322 | no round creates probability; a round loses some exactly if it expands such a state |
| `Runs.TerminalCounterIsPositive` | src/stamina/builder/StaminaIterativeModelBuilder.cpp:294-299 | the abort "Number terminal should have been positive" cannot be reached |
| `Runs.StepCounts` | src/stamina/builder/StaminaIterativeModelBuilder.cpp:118-322 | per round: the counter exceeds the number of terminal states by one more exactly if the state settles the property; entries without a mark go down by one |
| `Runs.RunCounts` | src/stamina/builder/StaminaIterativeModelBuilder.cpp:118-322 | over a run numberTerminal >= number of terminal states throughout, with equality kept when property refinement is off, and at most one too many per round |
| `Runs.RunMass` | src/stamina/builder/StaminaIterativeModelBuilder.cpp:118-322 | over a run the sum of pi never grows, and stays the same in a chain without self-loops |
| `Runs.FlushSums` | src/stamina/builder/StaminaIterativeModelBuilder.cpp:540-554 | the flush changes neither mass nor counters |
| `KappaLoop.IterationMass` | src/stamina/builder/StaminaIterativeModelBuilder.cpp:485-497 | over all inner iterations the sum of pi is at most the number of initial states, and equal to it in a chain without self-loops |
| `KappaLoop.PiHatBoundsQueuedMass` | src/stamina/builder/StaminaModelBuilder.cpp:288-293 | what each perimeter state held when it was queued adds up to at most piHat |
| `KappaLoop.IterationCounts` | src/stamina/builder/StaminaIterativeModelBuilder.cpp:294-301 | over all inner iterations numberTerminal >= number of terminal states, with equality if property refinement is off |
| `KappaLoop.EveryPiHatBoundsQueuedMass` | src/stamina/builder/StaminaModelBuilder.cpp:288-293 | whenever accumulateProbabilities is called, what each perimeter state held when it was queued adds up to at most piHat |
| `PerimeterMass.StepReceives` | src/stamina/builder/StaminaIterativeModelBuilder.cpp:264-267 | in a round a state that is not the one treated receives probability exactly if the round spreads onto it, and keeps its situation |
| `PerimeterMass.StepPerimeterMass` | src/stamina/builder/StaminaIterativeModelBuilder.cpp:118-322 | apart from the state treated the probability of the flagged states never shrinks in a round, and grows if and only if the round spreads probability onto a flagged successor |
| `PerimeterMass.HeldIsExact` | src/stamina/builder/StaminaIterativeModelBuilder.cpp:167-177 | what a perimeter state holds at the end of an iteration is no less than when it was queued, and more if and only if a round spread onto it while it was flagged |
| `PerimeterMass.PerimeterHoldsHeldAndLate` | src/stamina/builder/StaminaModelBuilder.cpp:288-293 | the perimeter holds what was held when queued and what came late; so it exceeds piHat at most by the latter, and nothing came late if and only if no round spread onto a state that was flagged then and is in the end |
| `PerimeterMass.EveryPerimeterHoldsHeldAndLate` | src/stamina/builder/StaminaIterativeModelBuilder.cpp:485-497 | at the end of every inner iteration the perimeter queue holds what its states held when queued and what came late, and exceeds piHat at most by the latter |
| `PerimeterMass.PerimeterIsFlagged` | src/stamina/builder/StaminaIterativeModelBuilder.cpp:170-173 | the probability of the flagged states is that of the live entries of the perimeter queue |
| `PerimeterMass.NothingIsReached` | src/stamina/builder/StaminaIterativeModelBuilder.cpp:252-279 | in a chain where no state has two incoming transitions and no initial state has one, no round spreads onto a registered state |
| `PerimeterMass.PerimeterStaysBelowPiHat` | src/stamina/builder/StaminaModelBuilder.cpp:288-293 | in a chain where no state has two incoming transitions and no initial state has one, piHat bounds what the perimeter holds at the end of every inner iteration |
| `LateMass.PiHatMissesLateMass` | src/stamina/builder/StaminaModelBuilder.cpp:288-293 | with two transitions into one state piHat need not bound what the perimeter holds: a chain of three states whose exploration ends with probability 1 on the perimeter and piHat = 1/2 |
| `ErrorBound.LeakIsWindow` | src/stamina/util/ModelModify.cpp:133-180 | on values alone: the window of a truncation is its k-step leak |
| `ErrorBound.LeakGrows` | src/stamina/builder/StaminaModelBuilder.cpp:394-409 | the leak grows with the number of steps |
| `ErrorBound.LeakIsSubharmonic` | src/stamina/builder/StaminaModelBuilder.cpp:394-409 | from a known state the leak is at most the average, by rates, of the leak from its successors |
| `ErrorBound.StepWeighted` | src/stamina/builder/StaminaIterativeModelBuilder.cpp:118-322 | in a chain without self-loops no round lowers the sum of pi times leak |
| `ErrorBound.IterationWeighted` | src/stamina/builder/StaminaIterativeModelBuilder.cpp:485-497 | in a chain without self-loops no sequence of inner iterations lowers the sum of pi times leak |
| `ErrorBound.WindowIsBoundedByMass` | src/stamina/builder/StaminaIterativeModelBuilder.cpp:481-511 | in a chain without self-loops, after every finished inner iteration and for every k, the reported windows of the initial states add up to at most the pi of the registered states that neither settle the property nor lack successors |
| `ErrorBound.PrecisionIsReached` | src/stamina/builder/StaminaIterativeModelBuilder.cpp:485-497 | in a chain without confluence and self-loops, when the kappa loop is left the window of the initial states is at most piHat and below the window that was asked for |
| `ErrorBound.CoveringConstantExists` | src/stamina/builder/StaminaIterativeModelBuilder.cpp:485-497 | there is a uniformization constant as these bounds need it, whatever is registered |
| `Termination.RunEnds` | src/stamina/builder/StaminaIterativeModelBuilder.cpp:118-322 | on a finite reachable set every inner iteration ends: worklist length plus unseen states bounds the rounds |
| `Termination.DequeuesAreMarked` | src/stamina/builder/StaminaIterativeModelBuilder.cpp:373-434 | a state is dequeued once for each entry the iteration began with and once if it is marked as seen in it |
| `Termination.AtMostTwice` | src/stamina/builder/StaminaIterativeModelBuilder.cpp:118-122 | no state is dequeued more than twice in an inner iteration |
| `Termination.AtMostOnceAtFirst` | src/stamina/builder/StaminaIterativeModelBuilder.cpp:118-122 | no state is dequeued more than once in the first inner iteration |
| `KappaLoop.IterationsEnd` | src/stamina/builder/StaminaIterativeModelBuilder.cpp:485-497 | on a finite reachable set every inner iteration ends, with kappa divided by the power of reduce_kappa and the counter at most linearly too large |
| `KappaLoop.KappaLoopEnds` | src/stamina/builder/StaminaIterativeModelBuilder.cpp:485-497 | the kappa loop ends after an explicit number of iterations even with property refinement |
| `KappaLoop.KappaLoopEndsLogarithmically` | src/stamina/builder/StaminaIterativeModelBuilder.cpp:485-497 | without property refinement it ends at the first k with reduce_kappa^k > states * kappa / window |
| `KappaLoop.LoopIsNotGivenUp` | src/stamina/builder/StaminaIterativeModelBuilder.cpp:485-497 | with enough rounds and iterations the loop is left after a first iteration whose numberTerminal * kappa is below the window, and that is no later than an iteration known in advance |
| `KappaLoop.FirstBelowMeaning` | src/stamina/builder/StaminaIterativeModelBuilder.cpp:485-497 | an iteration is the outcome of the loop if and only if its numberTerminal * kappa is below the window, that of none before it is, and all of them ended |
| `ProbabilityStates.ProbabilityState.constructor` | src/stamina/builder/ProbabilityState.h:46-63 | a new record is new, neither flagged nor a deadlock, and last seen in iteration 0 |
| `ProbabilityStates.ProbabilityState.AddToPi` | src/stamina/builder/ProbabilityState.h:83-85 | adds to pi and changes nothing else |
| `ProbabilityStates.ProbabilityState.SetPi` | src/stamina/builder/ProbabilityState.h:86-88 | sets pi and changes nothing else |
| `ProbabilityStates.ProbabilityState.SetTerminal` | src/stamina/builder/ProbabilityState.h:92-94 | sets terminal and changes nothing else |
| `ModelBuilder.IterativeModelBuilder.CreateTransition` | src/stamina/builder/StaminaModelBuilder.cpp:210-249 | the table becomes that of the specification Create; nothing else changes |
| `ModelBuilder.IterativeModelBuilder.Put` | src/stamina/builder/StaminaIterativeModelBuilder.cpp:422-432 | a record enters the map under its own index and is counted as terminal |
| `ModelBuilder.IterativeModelBuilder.Meet` | src/stamina/builder/StaminaIterativeModelBuilder.cpp:374-387 | a registered state is enqueued once per iteration; the abort about the iteration is unreachable |
| `ModelBuilder.IterativeModelBuilder.GetOrAddStateIndex` | src/stamina/builder/StaminaIterativeModelBuilder.cpp:329-436 | refines Register; the index returned is that of the state; the aborts and the record outside of the map are unreachable |
| `ModelBuilder.IterativeModelBuilder.CallBackSuccessors` | src/stamina/builder/StaminaIterativeModelBuilder.cpp:189 | one expand refines RegisterAll |
| `ModelBuilder.IterativeModelBuilder.PropagateTo` | src/stamina/builder/StaminaIterativeModelBuilder.cpp:252-279 | one turn of the loop refines Propagate; the abort for an unexplored successor is unreachable |
| `ModelBuilder.TotalRate` | src/stamina/builder/StaminaIterativeModelBuilder.cpp:238-247 | the sum of the rates of a choice |
| `ModelBuilder.IterativeModelBuilder.DistributeProbability` | src/stamina/builder/StaminaIterativeModelBuilder.cpp:238-279 | the loop refines Distribute |
| `ModelBuilder.IterativeModelBuilder.StopAt` | src/stamina/builder/StaminaIterativeModelBuilder.cpp:154-162 | refines Stop |
| `ModelBuilder.IterativeModelBuilder.PostponeState` | src/stamina/builder/StaminaIterativeModelBuilder.cpp:167-177 | refines Postpone |
| `ModelBuilder.IterativeModelBuilder.MarkDeadlock` | src/stamina/builder/StaminaIterativeModelBuilder.cpp:199-214 | refines Deadlock |
| `ModelBuilder.IterativeModelBuilder.CountDown` | src/stamina/builder/StaminaIterativeModelBuilder.cpp:294-299 | the counter goes down for a terminal state; the abort is unreachable |
| `ModelBuilder.IterativeModelBuilder.FinishExpansion` | src/stamina/builder/StaminaIterativeModelBuilder.cpp:287-301 | refines Finish |
| `ModelBuilder.IterativeModelBuilder.ExpandState` | src/stamina/builder/StaminaIterativeModelBuilder.cpp:179-301 | the whole expansion on shared records refines Expand |
| `ModelBuilder.IterativeModelBuilder.ExploreNext` | src/stamina/builder/StaminaIterativeModelBuilder.cpp:118-322 | one round on shared records refines Step |
| `ModelBuilder.IterativeModelBuilder.SetUpAbsorbingState` | src/stamina/builder/StaminaModelBuilder.cpp:297-329 | index 0 is the reserved pattern and a deadlock |
| `ModelBuilder.IterativeModelBuilder.AddInitialState` | src/stamina/builder/StaminaIterativeModelBuilder.cpp:349-367 | refines RegisterInitial; the abort for an existing state is unreachable |
| `ModelBuilder.IterativeModelBuilder.CreateInitialStates` | src/stamina/builder/StaminaIterativeModelBuilder.cpp:94-96 | refines Start |
| `ModelBuilder.IterativeModelBuilder.Explore` | src/stamina/builder/StaminaIterativeModelBuilder.cpp:117-322 | the loop refines Run and keeps the invariant |
| `ModelBuilder.IterativeModelBuilder.FlushStatesTerminated` | src/stamina/builder/StaminaIterativeModelBuilder.cpp:540-554 | the loop refines Flush |
| `ModelBuilder.IterativeModelBuilder.AccumulateProbabilities` | src/stamina/builder/StaminaModelBuilder.cpp:288-293 | it returns numberTerminal times the old kappa, and kappa is divided by the factor |
| `ModelBuilder.IterativeModelBuilder.GetStateIndexOrAbsorbing` | src/stamina/builder/StaminaModelBuilder.cpp:167-173 | the index of a known state, 0 for any other |
| `ModelBuilder.IterativeModelBuilder.ConnectTerminalStatesToAbsorbing` | src/stamina/builder/StaminaModelBuilder.cpp:368-415 | refines Connect |
| `ModelBuilder.IterativeModelBuilder.ConnectAllTerminalStatesToAbsorbing` | src/stamina/builder/StaminaModelBuilder.cpp:587-611 | refines ConnectAll |
| `ModelBuilder.IterativeModelBuilder.PurgeAbsorbingTransitions` | src/stamina/builder/StaminaModelBuilder.cpp:562-574 | exactly the entries to index 0 get rate 0 if a perimeter was connected before, and nothing changes otherwise |
| `ModelBuilder.PurgedIsSilent` | src/stamina/builder/StaminaModelBuilder.cpp:186-188 | what is emitted of a purged row is the row without its entries to index 0 |
| `ModelBuilder.PurgedIs` | src/stamina/builder/StaminaModelBuilder.cpp:562-574 | purging keeps every entry in its place and sets the rate of those to index 0, and of no other, to 0 |
| `ModelBuilder.WithoutAbsorbingIs` | src/stamina/builder/StaminaModelBuilder.cpp:193-202 | erasing keeps exactly the entries to other indices, each as often as it was there |
| `ModelBuilder.WithoutAbsorbingAdds` | src/stamina/builder/StaminaModelBuilder.cpp:193-202 | and in their order: two rows in turn are erased one after the other |
| `ModelBuilder.IterativeModelBuilder.FlushToTransitionMatrix` | src/stamina/builder/StaminaModelBuilder.cpp:177-206 | emits exactly the non-zero entries in order, and leaves the table without those to index 0; the abort is unreachable |
| `ModelBuilder.IterativeModelBuilder.EraseAbsorbing` | src/stamina/builder/StaminaModelBuilder.cpp:193-202 | removes exactly the entries to index 0 from a row |
| `ModelBuilder.IterativeModelBuilder.BuildMatrices` | src/stamina/builder/StaminaIterativeModelBuilder.cpp:85-325 | one inner iteration: from the initial states at first, from the flushed perimeter later, then the loop |
| `ModelBuilder.IterativeModelBuilder.ReduceKappa` | src/stamina/builder/StaminaIterativeModelBuilder.cpp:481-497 | the loop is left after iteration r if and only if window <= 1, r < iterations, every iteration up to r ended, numberTerminal * kappa is below the window after r and not below it after any iteration before r; the builder is then in the state after r |
| `ModelBuilder.IterativeModelBuilder.BuildModelComponents` | src/stamina/builder/StaminaIterativeModelBuilder.cpp:481-511 | one build on mutable data: the iteration after which it stops is the one of ReduceKappa; what it emits is the chain of the last iteration, its deadlock list is exact, and that chain brackets the true probabilities; with a window above 1 it builds and emits nothing |
| `ReExploring.RevisitAllKeepsValid` | src/stamina/builder/StaminaReExploringModelBuilder.cpp:345-350 | enqueuing the initial states again keeps the invariant |
| `ReExploring.ReopenStarts` | src/stamina/builder/StaminaReExploringModelBuilder.cpp:91-96 | an inner iteration begins with exactly the initial states in the worklist, each marked as seen |
| `ReExploring.AllAreSeen` | src/stamina/builder/StaminaReExploringModelBuilder.cpp:354-411 | when the worklist is empty every registered state was seen in this iteration |
| `ReExploring.EveryStateIsVisitedOnce` | src/stamina/builder/StaminaReExploringModelBuilder.cpp:113-303 | an inner iteration that ends has dequeued every registered state exactly once |
| `ReExploring.EveryIterationVisitsAll` | src/stamina/builder/StaminaReExploringModelBuilder.cpp:458-473 | every inner iteration of a build that ended, with all before it, has dequeued every registered state exactly once |
| `ReExploring.ReExploringIsSound` | src/stamina/builder/StaminaReExploringModelBuilder.cpp:458-480 | the chain that a re-exploring build finalizes brackets the true probabilities too |
| `ReExploringRuns.ReopenSums` | src/stamina/builder/StaminaReExploringModelBuilder.cpp:345-350 | between two iterations mass and counter stay, and every entry of the worklist is marked |
| `ReExploringRuns.ReIterationMass` | src/stamina/builder/StaminaReExploringModelBuilder.cpp:458-473 | over all inner iterations the sum of pi is at most the number of initial states, and equal to it in a chain without self-loops |
| `ReExploringRuns.ReIterationCounts` | src/stamina/builder/StaminaReExploringModelBuilder.cpp:277-279 | numberTerminal >= number of terminal states, with equality without property refinement |
| `ReExploringRuns.ReIterationsEnd` | src/stamina/builder/StaminaReExploringModelBuilder.cpp:113-303 | on a finite reachable set every inner iteration ends within as many rounds as there are states |
| `ReExploringRuns.ReKappaLoopEnds` | src/stamina/builder/StaminaReExploringModelBuilder.cpp:458-473 | the kappa loop ends after an explicit number of iterations, although each stopped state is counted again in each |
| `ReExploringRuns.ReKappaLoopEndsLogarithmically` | src/stamina/builder/StaminaReExploringModelBuilder.cpp:458-473 | without property refinement it ends at the first k with reduce_kappa^k > states * kappa / window |
| `ReExploringRuns.EveryIterationIsComplete` | src/stamina/builder/StaminaReExploringModelBuilder.cpp:113-303 | on a finite reachable set every inner iteration dequeues each registered state exactly once, without any assumption about the worklists |
| `ReExploringBuilder.RevisitState` | src/stamina/builder/StaminaReExploringModelBuilder.cpp:345-350 | refines Revisit on shared records |
| `ReExploringBuilder.RevisitInitialStates` | src/stamina/builder/StaminaReExploringModelBuilder.cpp:91-93 | refines RevisitAll |
| `ReExploringBuilder.BuildMatricesAgain` | src/stamina/builder/StaminaReExploringModelBuilder.cpp:84-306 | an inner iteration after the first refines RevisitAll, Run and the step of the iteration number |
| `PriorityExploration.PStopKeeps` | src/stamina/builder/StaminaPriorityModelBuilder.cpp:463-473 | a settled state takes what it holds out of piHat, and the accounting stays exact |
| `PriorityExploration.PDeadlockKeeps` | src/stamina/builder/StaminaPriorityModelBuilder.cpp:490-507 | a deadlock takes what it holds out of piHat, and the accounting stays exact |
| `PriorityExploration.PPropagateAllTerminalMass` | src/stamina/builder/StaminaPriorityModelBuilder.cpp:547-582 | over the loop over the successors piHat changes by exactly as much as the probability of the terminal states, self-loops included |
| `PriorityExploration.PExpandKeeps` | src/stamina/builder/StaminaPriorityModelBuilder.cpp:483-617 | an expansion of any queued state keeps the invariant and the accounting |
| `PriorityExploration.PStepKeeps` | src/stamina/builder/StaminaPriorityModelBuilder.cpp:424-617 | every round keeps the invariant and the accounting, whichever entry is on top of the queue |
| `PriorityFrontier.PStartKeeps` | src/stamina/builder/StaminaPriorityModelBuilder.cpp:370-420 | at the start piHat is off by the number of initial states less one |
| `PriorityFrontier.PiHatAccounts` | src/stamina/builder/StaminaPriorityModelBuilder.cpp:424-617 | in every order piHat is the probability of the terminal states less what the settled ones held when popped, if and only if there is exactly one initial state |
| `PriorityFrontier.TerminalIsQueuedOrHeld` | src/stamina/builder/StaminaPriorityModelBuilder.cpp:424-617 | the probability of the terminal states is that of the queue and that of the settled states |
| `PriorityFrontier.PiHatCoversFrontier` | src/stamina/builder/StaminaPriorityModelBuilder.cpp:424-617 | in every order piHat is the probability in the queue and what reached settled states late; with one initial state the queue never holds more than piHat |
| `PriorityFrontier.FrontierIsSmall` | src/stamina/builder/StaminaPriorityModelBuilder.cpp:424 | when the queue is empty or piHat is at most windowPower / approx_factor the queue holds at most windowPower / approx_factor, and one more for each initial state after the first |
| `PriorityFrontier.EachStateIsPoppedOnce` | src/stamina/builder/StaminaPriorityModelBuilder.cpp:424-435 | popped states and queued states are all registered states, each once; so on a finite reachable set the loop ends whatever the order and the window |
| `PriorityFrontier.EnoughRoundsFinish` | src/stamina/builder/StaminaPriorityModelBuilder.cpp:424 | after as many rounds as there are reachable states the queue is empty |
| `PriorityRounds.PDecidedRound` | src/stamina/builder/StaminaPriorityModelBuilder.cpp:463-473 | a round on a state that settles the property: its row is a self-loop, piHat goes down by what it holds, and nothing else changes, the counter and windowPower included |
| `PriorityRounds.PDeadlockRound` | src/stamina/builder/StaminaPriorityModelBuilder.cpp:490-507 | a round on a state without successors: a self-loop, the state is a deadlock and listed as one, piHat goes down by what it holds, and nothing else changes |
| `PriorityRounds.PExpandedRound` | src/stamina/builder/StaminaPriorityModelBuilder.cpp:483-617 | a round on any other state is an expansion as in the other builders, the number of explored states goes up by one, and windowPower is that of the number before |
| `PriorityRounds.PRoundShares` | src/stamina/builder/StaminaPriorityModelBuilder.cpp:535-585 | and each successor gets pi times rate over exit rate |
| `PriorityRounds.BuiltCounts` | src/stamina/builder/StaminaPriorityModelBuilder.cpp:616-617 | after any choices the number of explored states is that of expansions among them, and windowPower is 0 before the first and belongs to one less than that number afterwards |
| `PriorityRounds.BuiltListsDeadlocks` | src/stamina/builder/StaminaPriorityModelBuilder.cpp:499-503 | after any choices the list of deadlocks holds exactly index 0 and the states found to be deadlocks |
| `PriorityBuilder.PriorityModelBuilder.TakeTop` | src/stamina/builder/StaminaPriorityModelBuilder.cpp:428-434 | an arbitrary entry leaves the queue |
| `PriorityBuilder.PriorityModelBuilder.StopAt` | src/stamina/builder/StaminaPriorityModelBuilder.cpp:463-473 | refines PStop |
| `PriorityBuilder.PriorityModelBuilder.MarkDeadlock` | src/stamina/builder/StaminaPriorityModelBuilder.cpp:490-507 | refines PDeadlock |
| `PriorityBuilder.PriorityModelBuilder.PropagateTo` | src/stamina/builder/StaminaPriorityModelBuilder.cpp:547-582 | refines PPropagate |
| `PriorityBuilder.PriorityModelBuilder.DistributeProbability` | src/stamina/builder/StaminaPriorityModelBuilder.cpp:535-585 | the total rate and the loop refine PPropagateAll |
| `PriorityBuilder.PriorityModelBuilder.GiveShares` | src/stamina/builder/StaminaPriorityModelBuilder.cpp:547-585 | the loop refines PPropagateAll |
| `PriorityBuilder.PriorityModelBuilder.FinishExpansion` | src/stamina/builder/StaminaPriorityModelBuilder.cpp:600-617 | refines PFinish |
| `PriorityBuilder.PriorityModelBuilder.ExploreTop` | src/stamina/builder/StaminaPriorityModelBuilder.cpp:424-617 | one round on shared records refines PStep |
| `PriorityBuilder.PriorityModelBuilder.BuildMatrices` | src/stamina/builder/StaminaPriorityModelBuilder.cpp:363-641 | the loop refines Built for the choices it made, each of which stands for a round; it is finished if and only if there was a round and the queue is empty or piHat <= windowPower / approx_factor, and before each round but the first neither held; the number of explored states is that of expansions and windowPower belongs to the one before; it is not given up with as many rounds as there are reachable states, and leaves little in the queue |
| `StateIndexArrays.AddressIsExact` | src/stamina/util/StateIndexArray.cpp:73-80 | with blocks of at least 2^16 places no two 32-bit indices share an address |
| `StateIndexArrays.SmallBlocksAlias` | src/stamina/util/StateIndexArray.cpp:73-80 | with smaller blocks index blockSize * 2^16 gets the address of index 0 |
| `StateIndexArrays.ActsAsMapExactly` | src/stamina/util/StateIndexArray.cpp:72-103 | the array acts as a map if and only if a block has at least 2^16 places |
| `StateIndexArrays.BlockArrayIsMap` | src/stamina/util/StateIndexArray.cpp:28-40 | the array can be made and gives after every sequence of puts what a map would give, for all 32-bit indices, if and only if the exponent is between 15 and 29 |
| `StateIndexArrays.ShiftedAdds` | src/stamina/util/StateIndexArray.cpp:28-40 | the size of a block is 2 for exponent 0, doubles with each exponent, and multiplies when exponents are added |
| `StateIndexArrays.LastPutMeaning` | src/stamina/util/StateIndexArray.cpp:72-103 | what a map gives for an index: the value of the last put at it, null if there is none |
| `StateIndexArrays.StateIndexArray.constructor` | src/stamina/util/StateIndexArray.cpp:28-40 | one empty block of 2 << exponent places |
| `StateIndexArrays.StateIndexArray.Get` | src/stamina/util/StateIndexArray.cpp:72-80 | the value put last at this address, null if there is none; with large blocks the value put last at this index |
| `StateIndexArrays.StateIndexArray.Put` | src/stamina/util/StateIndexArray.cpp:84-103 | records the put; blocks are added as needed and no other place changes |
| `StateIndexArrays.StateIndexArray.GetPerimeterStates` | src/stamina/util/StateIndexArray.cpp:112-122 | the indices of the terminal records in the order of their places |
| `StateIndexArrays.StateIndexArray.GetNumberTerminal` | src/stamina/util/StateIndexArray.cpp:106-108 | the number of terminal records |
| `StateIndexArrays.StateIndexArray.PerimeterIsListed` | src/stamina/util/StateIndexArray.cpp:112-122 | if every record was put at its own index, exactly the terminal ones are listed, in increasing order |
| `StateMemoryPools.StateMemoryPool.constructor` | src/stamina/util/StateMemoryPool.cpp:33-39 | one block, nothing handed out |
| `StateMemoryPools.StateMemoryPool.Allocate` | src/stamina/util/StateMemoryPool.cpp:58-73 | all spans ever handed out are in bounds and pairwise disjoint, no place is skipped, usedThisBlock < blockSize between calls, a request fails exactly if it is larger than the rest of the block, and one for a single place never does |
| `Ownership.StepKeepsInv` | src/stamina/builder/threads/ControlThread.cpp:47-84 | every step of any thread keeps mutual exclusion, what a thread relies on at its place, and the truth of all answers |
| `Ownership.OneThreadHoldsTheLock` | src/stamina/builder/threads/ControlThread.cpp:57-74 | no two threads are between taking and releasing the lock |
| `Ownership.AnswersStayTrue` | src/stamina/builder/threads/ControlThread.cpp:47-84 | in every interleaving a state's owner is written at most once and every thread named in an answer of requestOwnership or whoOwns owns the state for the rest of the run; an answer to requestOwnership always names one |
| `Ownership.OwnersAreUnique` | src/stamina/builder/threads/ControlThread.cpp:47-74 | two threads are never both told that they own a state |
| `Ownership.AnswersAfterClaim` | src/stamina/builder/threads/ControlThread.cpp:47-84 | from the moment a state has an owner every answer about it, of requestOwnership and of whoOwns, to any thread, names that owner |
| `Ownership.NobodyOwnedIt` | src/stamina/builder/threads/ControlThread.cpp:77-84 | whoOwns answers 0 only if up to then, in particular when it was asked, the state had no owner |
| `Ownership.CallsEnd` | src/stamina/builder/threads/ControlThread.cpp:47-84 | a thread inside a call that does not wait for the lock gets nearer to the end of it with every step, and its last step answers the call it made |
| `Ownership.RequestAlone` | src/stamina/builder/threads/ControlThread.cpp:47-74 | a request that nobody interferes with names the owner after three steps without taking the lock, and if there is none makes the thread the owner after six, with the lock free again |
| `Ownership.AskAlone` | src/stamina/builder/threads/ControlThread.cpp:77-84 | a question that nobody interferes with is answered with the owner after three steps, and with 0 after two if there is none |
| `Ownership.SecondCheckIsNeeded` | src/stamina/builder/threads/ControlThread.cpp:57-70 | without the second check there is an interleaving after which two threads have been told that they own the same state |

## Left out

- Storm: the parser, the next-state generator, the sparse matrix builder and the solver.  The source chain stands for the generator, and the k-step until value on the uniformized chain, with any constant at least as large as the rates met within k steps, stands for the solver; `Soundness.TimeBoundedBracket` carries the bracket over to weighted sums over k.
- Time bounds: the value semantics knows neither strictness nor a positive lower time bound.
- Rounding of doubles.  The machine width of state indices and counters, and the wrap-around of the 8-bit iteration number: both are unbounded here, except in `StateIndexArrays`, where indices have 32 bits and block numbers 16.
- Explore: the loop is given up after a stated number of rounds, because on an infinite chain it may not end; `Termination.RunEnds` says when it does.
- ReduceKappa: the loop is given up after a stated number of iterations, and its result is then missing; it is also missing if the window exceeds 1, when the code makes no iteration and has nothing to finalize.  `KappaLoop.LoopIsNotGivenUp` says when it is not given up.
- BuildMatrices: the loop of the priority builder is given up in the same way; its contract says when it is not.
- Storm collects the successors of a choice in a distribution, which merges equal targets and lists them by index; here they are distinct from the start, with one callback each, and are treated in the order of the callbacks.  That order decides only the order of the entries in a row and when a self-loop takes its share.
- BuildModelComponents: only a first build; a second call on the same builder finds an empty perimeter queue.
- stateMap is a map in the builders; `StateIndexArrays.BlockArrayIsMap` says that the block array is one.
- StateIndexArray: clear, reserve and the element count, which nothing reads.  An exponent from 30 on, for which `2 << exponent` is not an int, gives no array here; in the code the shift overflows.
- StateMemoryPool: freeing; the generator's objects.
- The abort for an empty set of initial states, other than as a precondition of `PriorityBuilder.PriorityModelBuilder.BuildMatrices`; the iterative builder's results hold for an empty set too.
- A behaviour that is not empty but has an empty choice (the generator does not produce one for a chain), and behaviours with several choices, on which the builders abort.
- Reward models, choice labels and origins, valuations, observability classes, progress messages, the counters currentRow, currentRowGroup and numberTransitions.
- The priority builder's finalization, the option preterminate, the order of the queue and EventStatePriority: the order is left open instead.  windowPower is an arbitrary function of the number of explored states.
- Discrete-time chains, where probabilities are not divided by the total rate.
- The threaded builders but for the ownership protocol; in that protocol the state index that is returned beside the owner, and data races inside one map operation.
- The kappa loop and finalization of the re-exploring builder on mutable data: they are those of the iterative builder with BuildMatricesAgain in place of BuildMatrices.
