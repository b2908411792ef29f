# Verified model of the workflow executor and the logs and guards around it

The project models, in Dafny, the parts of the repository whose correctness is not visible from any single function.

**The workflow executor** (`runtime/orchestrator`). `Graph`, `Layers` and `Dag` treat the graph: walks, cycles, the
three-colour search, layering. `WorkflowLog` gives the events of a run, what replay folds out of them and the rule
every appended event obeys. `WorkflowCore` holds the executor's data and its await-free operations, `Recovery` the
rebuilding of the data from a log. `Machine` is the executor as a state machine: one step is the code between two
awaits of the drive loop, of one of its workers, or of the execution of a node; any enabled step may come next; jobs
may be delivered again, the run may be cancelled, and a crash leaves nothing but a prefix of the log, from which the
next process starts. A worker takes a seat in the bulkhead (`Bulkhead`, `Seats`) before it begins a job, and an
approval callback may throw. `CoreInvariant`, `MachineInvariant`, `MachineSteps`, `WorkerSteps`, `DriverSteps`,
`RoundSteps` and `Restart` prove that one invariant holds in every state of every run, all crashes included. `Safety`,
`Stopping`, `CompensationOrder`, `Branches`, `Termination` (with `Progress`), `Admission`, `Starvation` and `Sleeps`
draw the consequences; `NamelessRuns` and `BrokenRuns` (built from the steps in `Executions` and `Playing`) and
`StatusDisagreement` exhibit the runs that show what their conditions are for. `DagExecutor` is the executor as the
object it is in the program; its methods are proved to compute the functions the state machine is made of.
`Idempotency`, `Keys`, `Conditions`, `Retry`, `RetryDelay` and `NodeMachine` are the components it uses.

**The tamper-evident log** (`kernel/events`, `storage/store`). `Json` and `CanonicalForm` treat the canonical
serializer, `HashChain` the chained events and their verifier, `Merkle` the root over them, `DurableLedger` the
write-behind log. The hash function is a parameter. That it does not collide is a hypothesis of the lemmas that need
it, about exactly the texts hashed in the lists compared.

**The guards.** `CircuitBreaker` is the breaker of an external resource. `LocalRunner`, with `Policy` and
`Verification`, is the gate pipeline of a local run.

Where a property does not hold of the code as it stands, the code is modelled as it is, the failing input is exhibited
and the exact condition is proved:

- Replay ignores the node whose name is empty (names are unique, so there is at most one). So it is completed again
  after a restart (`NamelessRuns.NamelessCompletesTwice`), and what does not directly depend on it may run beside it:
  then a reference to it does not resolve (`NamelessRuns.NamelessUnresolved`), a branch of it that skips such a node
  throws (`NamelessRuns.NamelessBranchThrows`), and compensation undoes it before what depends on it
  (`NamelessRuns.NamelessUndoneFirst`). For every graph whose nodes can be executed each of the four happens if and
  only if the node completed, referred to, branching or undone first has no name and, for the second and the third, is
  no direct dependency (`NamelessRuns.OnceExactly`, `ThereExactly`, `SkipsExactly`, `UndoneInOrderExactly`); what
  other nodes are called does not matter. The positive halves hold of every graph: `Safety.CompletedOnceForAll`,
  `Safety.DependenciesHold` and `Safety.ReferencesResolve`, `Branches.SkipsSucceed` and the lemmas after it,
  `CompensationOrder.UndoneOnceInOrder` and `CompensationOrder.DependentsFirst`.
- An approval callback that throws breaks the run (`BrokenRuns.ThrowingApprovalBreaks`); nothing else does
  (`Restart.FaultsExactly`).
- A cap below one lets a worker poll for its seat for ever (`Starvation.CapBelowOneHangs`), and while the node that
  needs the seat is ready the run does not stop unless it is cancelled (`Starvation.StopsOnlyCancelled`); with caps of
  at least one the seat comes (`Admission.SeatComesExactly`) and the run stops (`Termination.EverySchedulerStops`).
- The cap on all jobs counts identifiers, so it fails once one is granted again while it is counted
  (`Bulkhead.RegrantEvadesCap`, exactly in `Bulkhead.CapSafeExactly`).
- The announced and the reported status of a run may differ (`Stopping.StatusAgreement`,
  `StatusDisagreement.StatusesCanDisagree`).
- `CircuitBreaker.HalfOpenTrialsUnlimited` (the comment at line 41 of the breaker promises limited trials; no code
  counts them), `HashChain.OnlyPayloadsBound`, `Merkle.LengthNotBound`.

## Model

| member | source | states |
|---|---|---|
| Dag.DetectCycle | runtime/orchestrator/src/dag.ts:25-42 | for unique ids and known dependencies the three-colour search returns true if and only if the dependency relation has a cycle |
| Dag.CycleSearch.Visit | runtime/orchestrator/src/dag.ts:28-39 | one visit keeps the colours consistent with the path being walked, reports a real cycle, or finishes the node after all it depends on |
| Dag.ValidateGraph | runtime/orchestrator/src/dag.ts:14-23 | accepts exactly the lists with unique ids, known dependencies and no cycle, and names the right defect otherwise |
| Dag.TopologicalLayers | runtime/orchestrator/src/dag.ts:45-64 | fails exactly where validation fails, never with its second error, and otherwise returns the layers |
| Layers.LayersPartition | runtime/orchestrator/src/dag.ts:45-64 | every node of a valid graph stands in exactly one layer, the one its rank names |
| Layers.LayerIsLongestChain | runtime/orchestrator/src/dag.ts:51-62 | a node's layer index is the length in edges of its longest dependency chain |
| NodeMachine.TerminalVersusFinal | runtime/orchestrator/src/node-machine.ts:32-60 | the statuses nothing in the table leaves are the terminal ones except failed |
| WorkflowLog.FinishedStays | runtime/orchestrator/src/executor.ts:622-665 | in a legal log, a node once replayed as finished keeps its snapshot however the log grows |
| CoreInvariant.PromoteAll | runtime/orchestrator/src/executor.ts:451-459 | a sweep keeps the invariant, changes only planned nodes whose dependencies completed, and leaves none of those planned |
| CoreInvariant.CascadeKeeps | runtime/orchestrator/src/executor.ts:470-479 | the cascade never meets an illegal transition, skips only planned dependents of its root, and leaves no planned node depending on the root or on anything newly skipped |
| CoreInvariant.SkipNodeKeeps | runtime/orchestrator/src/executor.ts:461-468 | skipping throws exactly when the node is under way, and then changes nothing; otherwise only the node and its dependents are touched |
| CoreInvariant.CompleteKeeps | runtime/orchestrator/src/executor.ts:542-555 | completing a verified node keeps the invariant, records the result last in the completion order, and promotes all it unblocks |
| CoreInvariant.CancelAllKeeps | runtime/orchestrator/src/executor.ts:557-564 | cancellation finishes every node and disturbs none that already was |
| Recovery.FirstSeenOrder | runtime/orchestrator/src/executor.ts:171-180 | listing the completed nodes in the order they first appear in the log puts each after all nodes with a name above it, although they may have completed in another order |
| Recovery.HydrateKeeps | runtime/orchestrator/src/executor.ts:144-195 | from any prefix of a run's log hydration succeeds and satisfies the executor's invariant, with promotion carried through |
| Recovery.HydrateExact | runtime/orchestrator/src/executor.ts:144-194 | hydration restores what the log says is finished, with the logged results, if and only if the node has a name; every other node comes back planned, ready, or skipped below a named node the log skipped |
| Restart.RunsAreGood | runtime/orchestrator/src/executor.ts:216-320 | every state of every run, under every interleaving, redelivery, throwing approval callback and sequence of crashes, satisfies the invariant |
| Restart.FaultsExactly | runtime/orchestrator/src/executor.ts:297-311 | a step leaves a process broken by an escaped illegal transition if and only if its approval callback throws or it was broken before and does not restart |
| BrokenRuns.ThrowingApprovalBreaks | runtime/orchestrator/src/executor.ts:373-389 | every run that comes between two rounds to a ready node that may ask for approval and can get a seat has a continuation in which the callback throws: the process never ends the round, and a sound, unbroken process can start from every prefix of the log left behind |
| BrokenRuns.RootsReady | runtime/orchestrator/src/executor.ts:123-141 | a run of any valid graph begins between rounds with every node without dependencies ready |
| Safety.NothingAfterFinish | runtime/orchestrator/src/executor.ts:542-564 | after an event that finishes a node with a name, no later event of the log moves that node |
| Safety.CompletedOnceForAll | runtime/orchestrator/src/executor.ts:542-555 | the whole log of a run, restarts included, has at most one completion per node with a name, and such a node is never started again after it |
| NamelessRuns.NamelessCompletesTwice | runtime/orchestrator/src/executor.ts:157 | for every graph with a nameless node whose nodes can be executed (they get a seat, call their handlers at once, succeed and skip nothing), a run whose log completes that node twice, before and after a crash that lost nothing |
| NamelessRuns.OnceExactly | runtime/orchestrator/src/executor.ts:157 | in a graph whose nodes can be executed, a node is completed at most once in every run if and only if it has a name |
| Safety.RecoversExactly | runtime/orchestrator/src/executor.ts:144-195 | crash anywhere, any number of times: every prefix of a reachable log restores what it finishes exactly for the nodes with a name; of the ancestors of a node restored as completed, exactly those with a name are restored as completed |
| Safety.DependenciesHold | runtime/orchestrator/src/executor.ts:451-459 | in every reachable state a node being executed has all it depends on completed, a node that has begun has every ancestor with a name completed, whatever stands in between, and the results are exactly those of completed nodes |
| Safety.ReferencesResolve | runtime/orchestrator/src/executor.ts:611-619 | an input or condition that refers to a direct dependency, or to any ancestor with a name, always resolves where an execution looks it up |
| NamelessRuns.NamelessUnresolved | runtime/orchestrator/src/executor.ts:157 | for every graph whose other nodes can be executed and every node below a nameless one but not directly: a run, with one crash that loses nothing, in which it is executed without the result of the nameless node, so that a reference to that does not resolve |
| NamelessRuns.ThereExactly | runtime/orchestrator/src/executor.ts:611-619 | in such a graph, the result of an ancestor is there in every run whenever the node is executed if and only if the ancestor has a name or is a direct dependency |
| Safety.SkipsAreClosed | runtime/orchestrator/src/executor.ts:461-479 | in every reachable state no planned node depends on a skipped one, and skipping any node keeps it so and touches only that node and its dependents |
| Safety.StartedAtMostOnce | runtime/orchestrator/src/executor.ts:253-278 | whatever is delivered again and however workers interleave, a process executes each node at most once and records each completion once |
| Safety.BoundedWork | runtime/orchestrator/src/executor.ts:280-320 | a process begins at most as many rounds as there are nodes, and an execution from attempt s makes at most max(1, maxAttempts - s + 1) attempts |
| Safety.BatchesFollowLayers | runtime/orchestrator/src/executor.ts:216-237 | in a first run without failure, skip or cancellation the k-th batch of ready nodes is, as a list, the k-th topological layer, and a completed run has run them all |
| Stopping.NoStuckNodes | runtime/orchestrator/src/executor.ts:216-237 | when a run has stopped, every node still planned has an ancestor that failed, was rolled back, quarantined or cancelled |
| Stopping.StatusAgreement | runtime/orchestrator/src/executor.ts:566-578 | the announced status equals the reported one if and only if some node failed, was rolled back or quarantined, or none is planned; each is "completed" if and only if every node completed or was skipped |
| Stopping.PlannedBelowFailure | runtime/orchestrator/src/executor.ts:216-237 | if a process starts with no cancelled ancestor of a planned node, every node planned when its run has stopped has an ancestor that failed, was rolled back or quarantined |
| Stopping.StatusesAgree | runtime/orchestrator/src/executor.ts:566-578 | under the same condition the announced and the reported status of its run are equal |
| Stopping.SkippedNeverRuns | runtime/orchestrator/src/executor.ts:461-468 | a node once skipped or cancelled is never executed by the same process |
| StatusDisagreement.StatusesCanDisagree | runtime/orchestrator/src/executor.ts:566-578 | a concrete run, stopped while its cancellation was being logged and resumed, that announces failure and reports cancellation |
| Branches.SkipsSucceed | runtime/orchestrator/src/executor.ts:416-418 | skipping a list of nodes that directly depend on a running node never throws and finishes each; if the running node has a name, the same holds of all its descendants, and each ends skipped or cancelled |
| Branches.DecisionSettles | runtime/orchestrator/src/executor.ts:398-424 | a conditional whose branches name only such nodes always returns its branch result and settles every node it did not choose |
| Branches.UnchosenNeverRuns | runtime/orchestrator/src/executor.ts:398-424 | if the conditional has a name and its branches name only its descendants, no node of the branch not chosen is ever executed by the process that chose |
| NamelessRuns.NamelessBranchThrows | runtime/orchestrator/src/executor.ts:416-418 | if that nameless node is a conditional: a run in which it is executed again and, if its condition now gives up such a node, skipping that throws |
| NamelessRuns.SkipsExactly | runtime/orchestrator/src/executor.ts:461-468 | in such a graph, skipping a descendant of a running node throws in no run if and only if the running node has a name or is a direct dependency of the descendant |
| CompensationOrder.PassStartsWithCompleted | runtime/orchestrator/src/executor.ts:508-510 | a compensation pass starts with exactly the nodes completed at that moment |
| CompensationOrder.WholePass | runtime/orchestrator/src/executor.ts:508-540 | from the step that begins a pass to its end, the pass undoes, and logs as undone, exactly what was completed at its start and has an action to undo it, but for the failed node |
| CompensationOrder.UndoneOnceInOrder | runtime/orchestrator/src/executor.ts:523-540 | within one process a failed node undoes nothing twice, and nothing with a name before completed work that depends on it, also after recovery |
| CompensationOrder.DependentsFirst | runtime/orchestrator/src/executor.ts:525 | in every reachable state the list of what a pass has undone has no repetition, and no node with a name stands in it before one that depends on it |
| NamelessRuns.NamelessUndoneFirst | runtime/orchestrator/src/executor.ts:525 | in such a graph, if a failing node depends on some node below the nameless one, and not directly on that, and all three can be undone: a run in which the failing node's pass undoes the nameless node before the one that depends on it |
| NamelessRuns.UndoneInOrderExactly | runtime/orchestrator/src/executor.ts:525 | in the same case, passes of the failing node never undo the first of two nodes before the one that depends on it if and only if the first has a name |
| CompensationOrder.PassUndoesAll | runtime/orchestrator/src/executor.ts:525-530 | at its end a pass has compensated exactly the nodes it walked that have an action to undo them, but for the failed one |
| CompensationOrder.TurnsAreLogged | runtime/orchestrator/src/executor.ts:530-538 | each turn of a pass logs one compensation exactly when it undoes something, and changes nothing else |
| CompensationOrder.PassGoesOn | runtime/orchestrator/src/executor.ts:523-540 | whatever else happens, a pass keeps walking the list it started with and ends only when it is through |
| Termination.WorkDecreases | runtime/orchestrator/src/executor.ts:216-320 | every step of the process decreases a lexicographic measure: rounds, phase, nodes not started, attempts left, work left in attempts, jobs |
| Termination.NeverStuck | runtime/orchestrator/src/executor.ts:240-278 | until the run has stopped or an exception has escaped, some step of the process is possible, if every cap that applies to a node is at least one |
| Termination.EverySchedulerStops | runtime/orchestrator/src/executor.ts:216-237 | under the same caps, whatever scheduler picks each step by all that happened so far, and with any finite number of cancellations, repeated deliveries and crashes anywhere in between, the run is over after finitely many steps, and it is over by stopping unless an approval callback throws |
| Termination.SchedulerExists | runtime/orchestrator/src/executor.ts:216-237 | there is a scheduler that always picks a possible step of the process and needs nothing of the environment |
| Admission.SeatComesExactly | runtime/orchestrator/src/executor.ts:259-261 | a worker that waits for a seat, beside whatever others hold or wait for, can get it if and only if every cap that applies to its node is at least one |
| Starvation.StopsOnlyCancelled | runtime/orchestrator/src/executor.ts:216-261 | while a node is ready to whose seat a cap below one applies, it stays ready and the process does not stop, whatever it does, unless the run is cancelled |
| Starvation.CapBelowOneHangs | runtime/orchestrator/src/executor.ts:259-261 | every run that comes to such a state, neither cancelled nor broken, can go on so that the process never leaves its round again, even if the run is then cancelled |
| Admission.CapsRespected | runtime/orchestrator/src/bulkhead.ts:30-48 | in every reachable state of the executor the jobs running for an agent, a tenant or a tool stay within the cap |
| DagExecutor.DagExecutor.Begin | runtime/orchestrator/src/executor.ts:123-141 | a run starts exactly for valid graphs, in the state machine's first state |
| DagExecutor.DagExecutor.PromoteReady | runtime/orchestrator/src/executor.ts:451-459 | the loop computes the promotion the invariant lemmas are about |
| DagExecutor.DagExecutor.CascadeSkip | runtime/orchestrator/src/executor.ts:470-479 | the recursive loop terminates and computes the cascade, including where it would throw |
| DagExecutor.DagExecutor.SkipNode | runtime/orchestrator/src/executor.ts:461-468 | computes the specified skip |
| DagExecutor.DagExecutor.CompleteNode | runtime/orchestrator/src/executor.ts:542-555 | throws exactly for nodes neither running nor verifying, changing nothing; otherwise computes the specified completion |
| DagExecutor.DagExecutor.StartAttempt | runtime/orchestrator/src/executor.ts:284-287 | starts exactly ready and retrying nodes, as the state machine does |
| DagExecutor.DagExecutor.AnswerApproval | runtime/orchestrator/src/executor.ts:379-388 | an answer takes a waiting node where the state machine's step takes it; a callback that throws makes the exception escape, as in the state machine |
| DagExecutor.DagExecutor.ChooseBranch | runtime/orchestrator/src/executor.ts:414-423 | skips the branch not chosen as specified, and returns the branch result unless a skip throws |
| DagExecutor.DagExecutor.ReadyNodes | runtime/orchestrator/src/executor.ts:223 | the batch of a round is the ready nodes in list order |
| DagExecutor.DagExecutor.EnqueueRound | runtime/orchestrator/src/executor.ts:226-230 | logs and enqueues one job per node of the batch, in order |
| DagExecutor.DagExecutor.CancelAll | runtime/orchestrator/src/executor.ts:557-564 | computes the specified cancellation |
| DagExecutor.DagExecutor.Finalize | runtime/orchestrator/src/executor.ts:566-578 | ends the run as the state machine's last step does |
| DagExecutor.DagExecutor.ReplayLog | runtime/orchestrator/src/executor.ts:144-159 | the loop over the events computes the replayed snapshots and the order of first appearance |
| DagExecutor.DagExecutor.Hydrate | runtime/orchestrator/src/executor.ts:144-195 | succeeds exactly when the specified recovery does, rebuilds the fields it describes, resets cancellation, and seeds the idempotency store with exactly the restored results, as a recovered process of the state machine has it |
| DagExecutor.DagExecutor.FailNode | runtime/orchestrator/src/executor.ts:481-520 | up to its first await, takes the node where the state machine's step takes it |
| DagExecutor.DagExecutor.CatchFailure | runtime/orchestrator/src/executor.ts:297-314 | the catch block decides between giving up and retrying as the state machine's step does |
| DagExecutor.DagExecutor.RunNodeAction | runtime/orchestrator/src/executor.ts:322-413 | the work of an attempt up to its first await takes the node where the state machine's step takes it, for all kinds of nodes and where the input, the condition or a skip fails |
| DagExecutor.DagExecutor.RollBack | runtime/orchestrator/src/executor.ts:508-525 | rolls the node back and begins the pass over the completed work as the state machine does |
| DagExecutor.DagExecutor.UndoTurn | runtime/orchestrator/src/executor.ts:525-538 | one turn of the compensation loop does what the state machine's step does, wherever other activity has taken the run since the last turn |
| Idempotency.InMemoryIdempotencyStore.Run | runtime/orchestrator/src/idempotency.ts:33-47 | work is started only for a key neither resolved nor in flight, so no key is ever started twice |
| Idempotency.Replay | runtime/orchestrator/src/idempotency.ts:33-51 | over any sequence of deliveries and successes each key is started at most once, and every delivered key is started or resolved |
| Keys.KeysInjective | runtime/orchestrator/src/hash.ts:17-19 | within a run, equal key texts come from the same node and the same serialized input |
| Conditions.GetPath | runtime/orchestrator/src/hash.ts:22-30 | the loop follows the path exactly |
| Conditions.WalkComposes | runtime/orchestrator/src/hash.ts:22-30 | following a longer path is following its first part and then the rest |
| Conditions.PathConditionCompares | runtime/orchestrator/src/executor.ts:426-439 | a path condition matches exactly when the value is there and equals the expected one up to object key order |
| RetryDelay.BackoffBounds | runtime/orchestrator/src/retry.ts:17-25 | jitter keeps a delay between half of its base and its base |
| RetryDelay.TotalBackoffBounds | runtime/orchestrator/src/retry.ts:17-25 | the total of n exponential delays from attempt s lies between half of 1000*(2^(s-1+n) - 2^(s-1)) ms and that, which it equals without jitter |
| Sleeps.SleepsCount | runtime/orchestrator/src/executor.ts:306-317 | how often an execution has gone to sleep is counted up exactly when one of its steps puts it to sleep |
| Sleeps.WaitsAtMost | runtime/orchestrator/src/executor.ts:312-317 | in every reachable state an execution began at an attempt s of at least one, and its delays, one per sleep, are at most max(s, maxAttempts) - s and add up to at most 1000*(2^(max(s, maxAttempts)-1) - 2^(s-1)) ms |
| Bulkhead.ConcurrencyLimiter.TryAcquire | runtime/orchestrator/src/bulkhead.ts:30-41 | grants exactly when no cap forbids it, and a refusal changes nothing |
| Bulkhead.CountersAreExact | runtime/orchestrator/src/bulkhead.ts:30-48 | after any matched trace each per-agent, per-tenant and per-tool counter equals the slots held under its key and stays within its cap |
| Bulkhead.ClampNeverReached | runtime/orchestrator/src/bulkhead.ts:43-48 | a matched release never meets the clamp at zero |
| Bulkhead.GlobalCapHolds | runtime/orchestrator/src/bulkhead.ts:30-36 | if no identifier is granted while it is held, the running set is exactly the identifiers held, and the cap on all jobs holds |
| Bulkhead.CapSafeExactly | runtime/orchestrator/src/bulkhead.ts:30-48 | from any matched trace on, fresh grants stay within the cap on all jobs if and only if as many slots are held as identifiers are counted |
| Bulkhead.RegrantEvadesCap | runtime/orchestrator/src/bulkhead.ts:36 | whatever the limits: once an identifier is granted while it is counted, some extension with fresh grants only exceeds the cap on all jobs |
| Bulkhead.AdmissionNeedsCaps | runtime/orchestrator/src/bulkhead.ts:30-34 | a slot some applying cap below one forbids is never granted, and any other is granted when nothing is counted |
| CanonicalForm.CanonicalFaithful | kernel/events/src/canonicalize.ts:5-22 | two values have the same canonical form if and only if they are equal up to object key order |
| CanonicalForm.ValueSplit | kernel/events/src/canonicalize.ts:5-22 | where a canonical form ends in a longer text is determined by the text |
| CanonicalForm.SerializersAgree | runtime/orchestrator/src/hash.ts:4-10 | the orchestrator's serializer computes the kernel's canonical form |
| CanonicalForm.StableHasNoNul | runtime/orchestrator/src/hash.ts:4-19 | a serialized value never contains the separator used in keys |
| HashChain.VerifyChain | kernel/events/src/ledger.ts:26-45 | reports "valid" if and only if every link holds, and otherwise the least broken index with the hashes or back references that differ |
| HashChain.Ledger.Append | kernel/events/src/ledger.ts:70-84 | appends one event chained to the last and keeps the chain valid |
| HashChain.Ledger.VerifyIntegrity | kernel/events/src/ledger.ts:104-106 | a ledger that was only appended to always verifies |
| HashChain.HeadBindsPayloads | kernel/events/src/ledger.ts:7-13 | two valid chains with the same head hash, on texts without collision, have the same length and equal payloads up to key order |
| HashChain.ChainDetermined | kernel/events/src/ledger.ts:70-84 | two valid chains whose payloads have the same canonical forms carry the same hashes |
| HashChain.TamperingFound | kernel/events/src/ledger.ts:26-45 | replacing one payload breaks exactly that link |
| HashChain.OnlyPayloadsBound | kernel/events/src/ledger.ts:7-13 | the chain commits to payloads only |
| Merkle.MerkleRoot | kernel/events/src/ledger.ts:48-61 | the level loop computes the recursive tree's root with at most n - 1 + ceil(log2 n) hash calls |
| Merkle.DepthIsLogarithm | kernel/events/src/ledger.ts:51-59 | the number of levels is the base-two logarithm rounded up |
| Merkle.RootBindsLeaves | kernel/events/src/ledger.ts:48-61 | lists of equal length with the same root have the same leaf hashes, if no two joined texts collide |
| Merkle.LengthNotBound | kernel/events/src/ledger.ts:55 | every list of an odd number of leaves above one shares its root with the same list with its last leaf repeated |
| DurableLedger.DurableLedger.Append | storage/store/src/durable-ledger.ts:47-51 | stored events and pending ones together stay equal to the log in memory |
| DurableLedger.DurableLedger.Flush | storage/store/src/durable-ledger.ts:54-59 | moves everything pending to the store in order and keeps that equality |
| DurableLedger.DurableLedger.Hydrate | storage/store/src/durable-ledger.ts:23-45 | behind whatever is in memory: fails with nothing appended exactly for a broken stored chain, after one event exactly if its hash does not follow from what was in memory, which an empty ledger rules out, and otherwise rebuilds every stored event, leaving nothing pending |
| DurableLedger.Recover | storage/store/src/durable-ledger.ts:23-59 | after a crash the flushed prefix is rebuilt with equal numbers, hashes, back references and payloads |
| CircuitBreaker.BreakerConsistent | kernel/immune/src/circuit-breaker.ts:42-90 | closed if and only if fewer failures than the threshold and never opened since; while closed the count is the streak of failures |
| CircuitBreaker.TripsOnThreshold | kernel/immune/src/circuit-breaker.ts:69-90 | a closed breaker opens exactly on the failure completing a streak of threshold length |
| CircuitBreaker.ClosesOnlyOnSuccess | kernel/immune/src/circuit-breaker.ts:55-67 | only a success recorded while half open closes it again |
| CircuitBreaker.RefusedDuringCooldown | kernel/immune/src/circuit-breaker.ts:42-53 | under a monotone clock and any calls in between, a request strictly within the cooldown of the last opening is refused |
| CircuitBreaker.HalfOpenTrialsUnlimited | kernel/immune/src/circuit-breaker.ts:52 | the limit on half-open trials limits nothing |
| CircuitBreaker.CircuitBreaker.RecordSuccess | kernel/immune/src/circuit-breaker.ts:55-67 | the object's state moves as the traces say: a success closes a half-open breaker and restarts the count of a closed one, and changes nothing while open |
| CircuitBreaker.CircuitBreaker.RecordFailure | kernel/immune/src/circuit-breaker.ts:69-90 | the object's state moves as the traces say, and a failure while open renews the opening time |
| Policy.DenyTakesPrecedence | kernel/policy/src/policy-engine.ts:43-75 | allowed if and only if some relevant grant allows and none denies, in any order; approval required unless the policy says otherwise |
| Policy.PolicyEngine.AddGrant | kernel/policy/src/policy-engine.ts:28-33 | refuses exactly a grant whose identifier is in use, and otherwise appends it |
| Policy.PolicyEngine.RemoveGrant | kernel/policy/src/policy-engine.ts:35-37 | the loop removes exactly the grants with the identifier and keeps the others in order |
| Policy.RemoveUndoesAdd | kernel/policy/src/policy-engine.ts:28-37 | removing an accepted grant restores the list before it, and with it every decision |
| Verification.PassedNeedsEvidence | plugins/verification/src/verification-engine.ts:10-29 | passed if and only if there are checks, all passed, and one has evidence |
| LocalRunner.LocalRunner.Run | apps/cli/src/local-runner.ts:197-343 | the loop over the steps produces exactly the specified ledger, metering and verdict, also where an approval callback, an input function or a custom verification throws |
| LocalRunner.LocalRunner.Execute | kernel/execution/src/execute.ts:19-66 | the order of events around the executor call, including the exceptions that escape it |
| LocalRunner.AlwaysGated | apps/cli/src/local-runner.ts:219-297 | over any sequence of runs every requested execution was cleared by every gate in its own step and within the quota, and metered calls never exceed the budget |
| LocalRunner.GatedAt | apps/cli/src/local-runner.ts:232-284 | read off by position: each request was cleared, approved before where required, and below the quota at that moment |
| LocalRunner.CompletedExactly | apps/cli/src/local-runner.ts:299-322 | under default verification a run passes if and only if its plan is not empty, every step is cleared and succeeds within the budget and some evidence exists |
| LocalRunner.TasksCompletedExactly | apps/cli/src/local-runner.ts:317-322 | over any sequence of runs the ledger marks a task completed exactly when its own run passed |

## Left out

- SHA-256: idempotency keys are the texts that are hashed, as if the hash did not collide; in the log and the tree collision freedom is a hypothesis about the texts actually hashed.
- Strings are sequences of Unicode scalar values: keys are ordered by code point, not by UTF-16 unit, and lone surrogates, which `JSON.stringify` escapes, do not occur. Any other total order would do in the proofs.
- Values outside JSON in the serializers: `undefined`, bigints, functions, and the non-finite numbers, which are all written as null. A number is its decimal text, equal for equal numbers.
- Conditions.GetPath: own members, array elements and array lengths are followed, inherited members such as `constructor` are not, because they are functions and no JSON values.
- Dependencies are sets: the program only asks for membership and for all of them, so their order and repetition cannot be seen.
- A failure guard, a ledger or a persistence hook that throws; what the caller sees of a run whose approval callback threw is the exception, and the outcome record is not modelled.
- Timeouts are handler failures; the values of delays, clocks and random numbers do not matter to the state machine, which may wake a sleeping execution at any time.
- Polling: a worker asks for its seat again and again until it is granted; in the state machine the step is possible exactly while it would be granted. That the event loop lets the others go on meanwhile is its fairness, not proved here.
- The count of deduplicated deliveries, skip reasons and error texts of nodes, task ids, actors and times of enqueueing, and the assembly of the outcome record beyond its status.
- The two cancellation events of a run have the same type in the program; here they have two names.
- Several runs in one log, and an executor reused for the same run: the program does not support them.
- A branch chosen again after a crash between its skip events and the completion of its conditional may differ from the first choice.
- Idempotency.Replay: promises are not objects here; a failed call leaves its key in flight, as in the program.
- The loops that contain awaits (the drive loop, its workers, the loop over attempts and the compensation loop) are steps of the state machine, not methods of the class.
- Store appends are atomic and succeed, and payloads come back from the store unchanged.
- In the local runner the immune decision, the name guard, the approval, the executors and the grants seen by each check are inputs; events the immune system itself logs, models, the flush and the billing report after a run, and vault are left out.
- Floating-point rounding in retry delays: the arithmetic is over reals, with the program's rounding to whole milliseconds. Caps and attempt numbers are integers.
- The in-process queue, the registries, the detectors, projections, schemas, storage adapters, HTTP and UI: plumbing or easy members. The second copy of the graph algorithms in `kernel/transition` is not modelled again.
