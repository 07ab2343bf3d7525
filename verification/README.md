# LIPAS: a Dafny model of durable agent execution

LIPAS runs agents whose work survives crashes: every task, run, checkpoint, question and
settlement is a row in a transactional store, every writer is fenced by a lease token, and
whoever takes a run over continues from its latest checkpoint without repeating an effect.
This project models that core and proves what it promises, for all inputs, all histories and
all interleavings. `dafny verify dfyconfig.toml` checks everything.

## Layers

| files | component |
|---|---|
| `Values.dfy` | identifiers, JSON trees, results |
| `Execution*.dfy` | `ExecutionStore`: the tables, the transitions and theorems over every history |
| `Durable*.dfy`, `ReactLoop.dfy`, `Runner*.dfy` | `DurableReActRunner` on that store, and the plain loop it refines |
| `Remote*.dfy` | the remote worker server's request protocol |
| `Calculus*.dfy` | claims, merge strategies, folds |
| `Coordination*.dfy`, `AgentCoordinator.dfy` | plan validation, the merged event stream, handoffs and `sequential` |
| `Policy.dfy` | workspace identities and approval delegations |

**Execution store.** `Execution.dfy` defines each transition as a function from the tables before
a transaction to the tables after it; `Store.ExecutionStore` writes the same tables one statement
at a time, with rollback, and every method is proved to be the function of its name. A history is
a sequence of calls with arbitrary arguments and clock readings. The theorems are an inductive
invariant, fencing, event sourcing (replaying the audit outbox rebuilds the tables), the exact
conditions, over every call, under which audit identities clash and under which replay goes wrong,
settlement, budget conservation and the mirror of the outbox. `ExecutionWitness.dfy` holds concrete
histories that reach the surprising cases.

**Durable runner.** A world is the store, the effect tape and any number of workers; its moves are
claims, loads, submissions, outcomes, saves, suspensions, settlements, crashes, lease renewals and
everything other callers may do. `RunnerInvariant.dfy` proves one invariant for all schedules; from it follow
at-most-once effects, the approval gate, and the refinement of the plain loop of `ReactLoop.dfy`.
`DurableRunner.dfy` is the phase loop as an object; others may call the store between its statements.
It is proved to terminate and to be part of one such schedule, so that the theorems hold of it.

**Remote protocol.** Each lock region of a handler thread is one step, each thread has a program
counter, and all interleavings are considered.

**Coordination.** The handoffs of a sequential composition live on the execution store. Any number
of attempts at the same call interleave with each other, with crashes and with arbitrary other
calls on the same store. `Coordinator.AgentCoordinator.Sequential` is the loop itself; it is proved
to be one attempt's schedule.

## Where the code differs from its documentation

The model follows the code.

- `merge` is documented as commutative; it breaks ties of priority and of kind to the left
  (`CalculusOrder.MergeCommutesExactly`, `CalculusOrder.TagDependsOnOrder`).
- `strategy_counter_max` is a semilattice only where counters are not negative
  (`CalculusAlgebra.CounterMaxAssociatesExactly`, `CalculusAlgebra.CounterMaxOnNegatives`).
- A second `fail_run` after a reopen reuses an audit identity and is refused unless the error and
  the checkpoint version repeat (`ExecutionAudit.SecondFailureRefused`, `ExecutionWitness.RepeatedFailure`).
- Replaying the outbox follows every call except four kinds that only a reopen makes possible, or
  that are one: a repeated failure, a repeated cancel request, a completion whose row is there already or
  whose task was cancelled, and the reopen of a completed task
  (`ExecutionReplayExact.ReplayFollowsExactly`, with histories in `ExecutionWitness.dfy`).
- A run that suspends after a cancel request comes back PENDING and flagged and is stuck there
  (`ExecutionSettlement.SuspendedRunGoesOn`, `ExecutionWitness.FlaggedSuspension`).
- The aggregate event cursor passes over an event whose successor in the same run carries an
  earlier time (`CoordinationMerge.ExactIffChronological`, `CoordinationMerge.SkippedIsLost`).
- A request that waits for an owner which gave up before starting is never woken
  (`RemoteProtocol.WaitersWakeExactly`, `RemoteProtocol.AbandonedWaiter`).
- The attenuation check is skipped in the system's name, also when the grantor's own id is `system`
  (`Policy.ExceedsOnlyInSystemsName`); putting a revoked delegation again reports success
  (`Policy.PuttingAgainSucceeds`).

## Model

| member | source | states |
|---|---|---|
| Store.ExecutionStore.CreateTask | lipas/execution.py:1107-1144 | the call does exactly the modelled transition: new OPEN task and its audit row, or an error and unchanged tables |
| Store.ExecutionStore.CreateRun | lipas/execution.py:1176-1222 | a PENDING run, refused for a missing or closed task, a taken id or another active run of the task |
| Store.ExecutionStore.ClaimRun | lipas/execution.py:1308-1350 | takes a PENDING unflagged run or a RUNNING one whose lease has expired, with a new token, attempt and expiry |
| Store.ExecutionStore.RequireLease | lipas/execution.py:1391-1419 | raises nothing exactly when the run is RUNNING under this token and not expired |
| Store.ExecutionStore.RenewLease | lipas/execution.py:1352-1389 | moves the expiry of the owned lease and nothing else |
| Store.ExecutionStore.SaveCheckpoint | lipas/execution.py:1421-1473 | appends the next version under lease and version guards, or leaves all tables unchanged |
| Store.ExecutionStore.Suspend | lipas/execution.py:1505-1596 | checkpoint, interrupt, release and audit rows in one step; the cancel flag is not consulted |
| Store.ExecutionStore.ResolveInterrupt | lipas/execution.py:1652-1732 | ALLOWED puts the run back to PENDING, DENIED cancels it; repeats and contradictions as in the code |
| Store.ExecutionStore.CompleteRun | lipas/execution.py:1734-1783 | the owner completes an unflagged run with its result and closes an OPEN task |
| Store.ExecutionStore.FailRun | lipas/execution.py:1785-1822 | the owner fails the run; a clash of the audit identity rolls everything back |
| Store.ExecutionStore.ReopenUncertain | lipas/execution.py:1824-1889 | a recoverable failure becomes PENDING, its flag is cleared and a COMPLETED task reopened, a CANCELLED one not |
| Store.ExecutionStore.RequestCancel | lipas/execution.py:1891-1967 | flags an active run; one that is not RUNNING is cancelled at once and its pending interrupts denied |
| Store.ExecutionStore.FinishCancelled | lipas/execution.py:1969-2006 | the owner of a flagged run ends it as CANCELLED |
| Store.ExecutionStore.CancelTask | lipas/execution.py:2008-2111 | cancels an OPEN task with its active run, or leaves it to the owner of a RUNNING one |
| Store.ExecutionStore.AppendAgentEvent | lipas/execution.py:839-908 | one row per identity with the next sequence number; the same identity with other data is refused |
| Store.ExecutionStore.ConfigureBudget | lipas/execution.py:970-1003 | limits are set once; the same limits again are a no-op, others are refused |
| Store.ExecutionStore.Admit | lipas/execution.py:1045-1058 | the loop over buckets fits exactly when every declared bucket has room, and then adds every estimate |
| Store.ExecutionStore.ReserveBudget | lipas/execution.py:1005-1080 | all buckets or none, once per handoff |
| Store.ExecutionStore.RecordAudit | lipas/execution.py:556-585 | an audit identity is written once; the same data again is absorbed and other data is refused |
| Store.ExecutionStore.Perform | lipas/execution.py:545-550 | any call, by whomever, is its transition and leaves the tables in order, so calls may follow each other |
| ExecutionInvariant.StepKeepsWellFormed | lipas/execution.py:1107-2111 | every transition keeps: one active run per task; token and expiry exactly when RUNNING; checkpoints exactly 1..version; WAITING exactly with one pending interrupt; event sequences 1..n; a COMPLETED task has a completed run and no active one |
| ExecutionInvariant.ReachableWellFormed | lipas/execution.py:223-275 | that invariant holds after every history of calls with arbitrary arguments and clocks |
| ExecutionInvariant.EventsAfterIsSuffix | lipas/execution.py:910-943 | `agent_events` after a cursor returns exactly the rows beyond it, in order |
| ExecutionInvariant.PendingInterruptResolvable | lipas/execution.py:1688-1730 | the branch that finds a pending interrupt on a run that is not WAITING is dead |
| ExecutionAudit.ReachableInvariant | lipas/execution.py:556-585 | every audit row in a reachable store is justified by the tables, so its identity cannot be met with other data |
| ExecutionAudit.ClashOnlyWhenFailingAgain | lipas/execution.py:1807-1818 | a transition is refused for its audit identity if and only if it is a `fail_run` by the owner of a run with an earlier recorded failure that differs |
| ExecutionAudit.SecondFailureRefused | lipas/execution.py:1785-1873 | after reopen and claim the second failure is refused exactly when its row differs from the first; the run then stays RUNNING |
| ExecutionReplayExact.ReplayFollowsExactly | lipas/execution.py:556-585 | for every call on a store in order whose outbox tells its tables: replay tells the tables afterwards if and only if the call is not a losing one (a repeated failure, a cancel request repeated after a reopen, a completion on record already or of a cancelled task, the reopen of a completed task) |
| ExecutionReplayExact.StepFaithful | lipas/execution.py:1107-2111 | in a store that has seen no reopen every transition appends exactly the rows that replay to its effect |
| ExecutionReplayExact.ReplayRebuildsState | lipas/execution.py:1107-2111 | after every history without a reopen, replaying the outbox in order gives every task state and every run's state, attempt, version and cancel flag |
| ExecutionWitness.RepeatedFailure | lipas/execution.py:1807-1818 | a history from the empty store: after reopen and claim the same failure is absorbed and replay is wrong, another one is refused |
| ExecutionWitness.RepeatedCancel | lipas/execution.py:1861-1935 | a history in which a cancel request after a reopen is absorbed and replay misses the flag |
| ExecutionWitness.CompletionOfCancelledTask | lipas/execution.py:1744-1783 | a history in which a cancelled task is recorded as completed |
| ExecutionWitness.ReopenOfCompletedTask | lipas/execution.py:1861-1887 | a history in which a completed task is reopened without a row |
| ExecutionWitness.FlaggedSuspension | lipas/execution.py:1544-1568 | a history in which a flagged run suspends, is allowed to go on, and is stuck |
| ExecutionFencing.EndedLeaseSuperseded | lipas/execution.py:1308-1419 | a token that stops being current is superseded, however the lease ended |
| ExecutionFencing.LostLeaseIsLostForever | lipas/execution.py:1391-1419 | a superseded token is refused by every later call and changes nothing, for arbitrary clock values |
| ExecutionFencing.CheckpointBlocks | lipas/execution.py:1421-1473 | the checkpoints of a run fall into contiguous blocks, one owner each, in increasing attempt order |
| ExecutionSettlement.SettledIsFinal | lipas/execution.py:1734-2006 | the row of a COMPLETED or CANCELLED run never changes again |
| ExecutionSettlement.FailedStaysFailed | lipas/execution.py:1824-1889 | FAILED is left only by a reopen of that run |
| ExecutionSettlement.CancelBeatsCompletion | lipas/execution.py:1744-1757 | once cancellation is requested the run is never COMPLETED before a reopen |
| ExecutionSettlement.AllowedRunGoesOn | lipas/execution.py:1652-1732 | an allowed interrupt lets its run ever run again if and only if no cancel request is pending at that moment |
| ExecutionSettlement.SuspendedRunGoesOn | lipas/execution.py:1544-1568 | a suspended run that is allowed to go on can run again if and only if it was not flagged when it suspended |
| ExecutionSettlement.FlaggedPendingNeverRuns | lipas/execution.py:1320-1330 | a PENDING flagged run is never claimed again |
| ExecutionSettlement.ReopenIndexViolation | lipas/execution.py:1850-1866 | a valid reopen fails on the unique index if and only if another run of the task is active |
| ExecutionBudget.SpendIsConserved | lipas/execution.py:1005-1080 | in every reachable store, for each scope and bucket, spend is the sum of the admitted estimates and within the limit, and each handoff is admitted once |
| ExecutionBudget.LimitsAreFixed | lipas/execution.py:970-1003 | over any continuation limits never change and the admissions only grow at their end |
| ExecutionBudget.AdmissionIsExact | lipas/execution.py:1005-1080 | a new handoff is refused if and only if some bucket is undeclared or would exceed its limit; a repeat is a no-op or is refused for another estimate |
| ExecutionMirror.AuditMirror.RepairAudit | lipas/execution.py:737-815 | the bounded repair loop keeps the tape a picture of a prefix of the outbox and without a limit ends with all of it |
| ExecutionMirror.AuditMirror.Fold | lipas/exceptions.py:9-15 | a claim id already on the tape is folded into nothing |
| ExecutionMirror.KnownExactly | lipas/execution.py:737-815 | a wanted row is on the tape exactly when it belongs to the mirrored prefix |
| ExecutionMirror.OutboxGrows | lipas/execution.py:556-585 | over any history the outbox only grows and its identities stay distinct |
| ExecutionMirror.MirrorSurvives | lipas/execution.py:737-815 | over later calls and restarts each missing row is mirrored once and none twice |
| Durable.StateRoundTrip | lipas/durable.py:182-204 | an agent state survives its payload |
| Durable.FinalRoundTrip | lipas/durable.py:207-233 | a final result survives its payload |
| Durable.CheckpointRoundTrip | lipas/durable.py:1258-1281 | every memory the runner can write is read back exactly, in every phase |
| Durable.MigratePayload | lipas/durable.py:131-170 | the migration loop refuses newer schemas and otherwise applies the registered steps one version at a time |
| Durable.MigratedReachesTarget | lipas/durable.py:131-170 | a migrated payload is at the target version, and a missing step on the way refuses it |
| Durable.MigrationIsIdempotent | lipas/durable.py:131-170 | migrating a migrated payload changes nothing |
| ReactLoop.RunLoop | lipas/react.py:169-296 | the loop with its tool batches computes the reference function `Loop`: batching does not change the result |
| ReactLoop.RunTools | lipas/react.py:250-270 | the batches of one turn give each call its own answer, in order |
| RunnerInvariant.ScheduleKeeps | lipas/durable.py:480-984 | the invariant tying store, effect tape, workers and checkpoint chain holds after every schedule of crashes, renewals, takeovers, suspensions and answers |
| RunnerTheorems.EffectsAtMostOnce | lipas/durable.py:583-652 | over any owners and crashes each model call and each tool call is submitted live at most once; model submissions never exceed the iteration limit |
| RunnerTheorems.RequestsNeverConflict | lipas/durable.py:1283-1310 | the request behind an effect id is the same for every worker that ever builds it |
| RunnerTheorems.ApprovalGate | lipas/durable.py:720-895 | a tool call that ran and needs approval has an ALLOWED approval interrupt of exactly that run, iteration and index, and was not answered through the input policy |
| RunnerTheorems.InputNeverRuns | lipas/durable.py:724-828 | a call that was put to the input boundary never runs |
| RunnerTheorems.ResumeChecksHold | lipas/durable.py:724-870 | the checks a resumed owner makes on its interrupts cannot fail |
| RunnerTheorems.SuspensionsNeverCollide | lipas/durable.py:806-895 | a suspension never meets a taken interrupt id, a pending interrupt or a taken checkpoint version |
| RunnerRefinement.CrashRefinement | lipas/durable.py:480-984 | for every schedule and every oracle that agrees with the recorded outcomes, each checkpoint is a stop of the plain loop and each terminal one that is not a cancellation holds the plain loop's result |
| RunnerRefinement.RecordsAgree | lipas/durable.py:897-942 | such an oracle always exists: the one the records themselves define |
| RunnerRefinement.NaturalResultIsTheLoops | lipas/durable.py:549-581 | a COMPLETED run's stored result is the plain loop's result on the recorded outcomes |
| RunnerSettlement.CheckpointHistory | lipas/durable.py:583-984 | each checkpoint follows the one before by one turn, a suspension or a cancellation; in tool phases the results answer the first calls one by one |
| RunnerSettlement.SettledRunsRestore | lipas/durable.py:267-319 | `settled_result_from_run` never fails on a run the runner settled; a COMPLETED one restores to a natural result equal to its row |
| RunnerSettlement.TurnsComeCloser | lipas/durable.py:583-984 | every turn but a suspension decreases the lexicographic measure (iterations left, phase, calls left) |
| RunnerSettlement.SuspensionsStay | lipas/durable.py:720-895 | a suspension keeps that measure |
| RunnerChain.TurnOk | lipas/durable.py:583-984 | a turn from an orderly checkpoint saves an orderly successor that waits for nothing |
| RunnerChain.AskOk | lipas/durable.py:720-895 | a suspension saves the same state with exactly one named interrupt of the asked kind |
| DurableRunner.ScanBoundary | lipas/durable.py:786-805 | the scan finds the first call of the batch that the policy stops |
| DurableRunner.MakePlan | lipas/durable.py:720-895 | the plan of a tool turn: ask for input, ask for approval, or run a batch |
| DurableRunner.ReActRunner.CallEffect | lipas/durable.py:600-652 | a recorded outcome is replayed, an intent without an outcome refused, anything else submitted |
| DurableRunner.ReActRunner.Turn | lipas/durable.py:583-984 | one pass of the phase loop, with any calls by others between its statements, is a schedule of modelled moves and brings the run closer to its end |
| DurableRunner.ReActRunner.SettleNow | lipas/durable.py:1234-1256 | natural results complete the run, the others fail or cancel it |
| DurableRunner.ReActRunner.RunToCompletion | lipas/durable.py:480-984 | whatever others call in between, the phase loop terminates; a final result other than a cancellation is the plain loop's on every agreeing oracle, and the row is settled with it |
| Remote.RemoteServer.Arrive | lipas/dispatcher.py:686-709 | the first lock region: refuse, gone, replay, own or wait |
| Remote.RemoteServer.Publish | lipas/dispatcher.py:740-757 | the result is cached, and the oldest responses give way to tombstones |
| Remote.RemoteServer.Bury | lipas/dispatcher.py:759-774 | the exception path leaves a tombstone, the oldest making room |
| Remote.RemoteServer.Leave | lipas/dispatcher.py:775-780 | the in-flight entry goes |
| RemoteProtocol.NextKeeps | lipas/dispatcher.py:686-780 | every lock region of every handler thread keeps the invariant |
| RemoteProtocol.StartIsFresh | lipas/dispatcher.py:686-737 | `worker.execute` starts only for an id that is neither cached nor tombstoned and in flight for this thread alone; a second start needs an overflowed tombstone |
| RemoteProtocol.ExecutedIsRemembered | lipas/dispatcher.py:740-780 | an executed id stays in flight, cached or tombstoned unless overflow dropped it |
| RemoteProtocol.LostOnlyByOverflow | lipas/dispatcher.py:740-774 | an id is dropped only when the tombstones are full, at most one at a step |
| RemoteProtocol.RepliesAgree | lipas/dispatcher.py:686-780 | all success replies for an id that was never dropped carry the same result |
| RemoteProtocol.TablesAreBounded | lipas/dispatcher.py:567-582 | cache and tombstones stay within their bounds |
| RemoteProtocol.WaitersWakeExactly | lipas/dispatcher.py:710-731 | once the owner of an event has left, whoever waits on it can wake up if and only if the owner did not give up before its start |
| RemoteProtocol.AbandonedWaitersOnlyTimeOut | lipas/dispatcher.py:710-731 | after the owner gave up a waiter stays where it is until it times out, whatever else happens |
| RemoteProtocol.AbandonedWaiter | lipas/dispatcher.py:710-731 | two concrete requests with one id: the first gives up, the second waits in vain |
| Calculus.MergeClaims | lipas/calculus.py:427-502 | the field loop of `merge` computes the reference function `Merge` |
| Calculus.CounterMax | lipas/calculus.py:237-249 | the counter loop computes the pointwise maximum |
| Calculus.ExpectationsMerge | lipas/calculus.py:252-263 | the expectations loop computes the union per claim id |
| Calculus.StrategyRegistry.Register | lipas/calculus.py:129-131 | the registered entry is found under its name and no other lookup changes |
| Calculus.StrategyRegistry.SetDefault | lipas/calculus.py:133-141 | unregistered names fall back to the new default |
| CalculusAlgebra.BuiltInsAssociate | lipas/calculus.py:164-296 | all nine built-in strategies are associative at a fixed belief (`counter_max` on non-negative counters) |
| CalculusAlgebra.CounterMaxAssociatesExactly | lipas/calculus.py:237-249 | `counter_max` associates if and only if no counter is negative on both sides of one that lacks it |
| CalculusAlgebra.CounterMaxCommutesExactly | lipas/calculus.py:237-249 | `counter_max` commutes if and only if no count held by only one side is negative |
| CalculusAlgebra.CounterMaxOnNegatives | lipas/calculus.py:246-249 | concrete negative counters on which both laws fail |
| CalculusAlgebra.MergeAssociates | lipas/calculus.py:427-502 | merge is associative (tag, fields, kind, priority) for every registry of associative strategies |
| CalculusAlgebra.BottomIsIdentity | lipas/calculus.py:419-470 | the bottom claim is the identity on both sides |
| CalculusAlgebra.ReduceIsTwoMerges | lipas/calculus.py:505-527 | `reduce(b,c1,c2)` is `merge(merge(b,c1),c2)` |
| CalculusAlgebra.FoldFromSnapshot | lipas/calculus.py:427-527 | folding on from a snapshot of a prefix is folding the whole tape |
| CalculusOrder.OrderAndRepetitionVanish | lipas/calculus.py:479-497 | where the strategy of every field in use is a semilattice, two tapes of the same claims, in any order and with any repetition, fold to the same fields and priority; the rest of the registry and its fallback do not matter |
| CalculusOrder.TagOfFold | lipas/calculus.py:493-494 | the tag of a fold is that of the first claim of the highest priority |
| CalculusOrder.KindOfFold | lipas/calculus.py:495-497 | the kind of a fold is the first that says something |
| CalculusOrder.MergeCommutesExactly | lipas/calculus.py:427-502 | for every registry: merge commutes if and only if the strategies of the shared fields commute on their two values, priorities differ or tags agree, and the kinds agree; the docstring promises it always |
| CalculusOrder.TagDependsOnOrder | lipas/calculus.py:493-494 | two claims of one priority on which it does not commute |
| CoordinationPlan.Validate | lipas/coordination.py:494-527 | a plan is accepted if and only if its ids are distinct and its steps can be arranged after their dependencies; each refusal is the first that applies |
| CoordinationPlan.Acyclic | lipas/coordination.py:517-525 | the removal loop terminates and accepts exactly the dependency relations with a topological order |
| CoordinationPlan.ArrangementIsClosed | lipas/coordination.py:506-516 | an arrangement rules out unknown and self dependencies |
| CoordinationPlan.ReadyExists | lipas/coordination.py:518-521 | while an order exists and steps remain, one of them is ready |
| CoordinationEvents.Read | lipas/coordination.py:245-284 | the read loop computes the page: merged candidates cut at the limit, a cursor per event, the next cursor and has_more |
| CoordinationEvents.SortFacts | lipas/coordination.py:271 | sorting keeps the items and orders them by (created_at, run id, sequence) |
| CoordinationMerge.PrefixIsExact | lipas/coordination.py:245-284 | a page of any size delivers exactly the events between the old cursor and the new |
| CoordinationMerge.ExactIffChronological | lipas/coordination.py:271-284 | every page size is exact if and only if created_at never decreases along the runs of the coordination |
| CoordinationMerge.OutOfOrderIsSkipped | lipas/coordination.py:271-284 | where an event is dated before its predecessor, some page size passes over that predecessor |
| CoordinationMerge.SkippedIsLost | lipas/coordination.py:266-284 | what one page passes over no later page delivers |
| CoordinationMerge.ReadsAreExactlyOnce | lipas/coordination.py:245-284 | repeated reads of any sizes, with events appended in between, deliver every event up to the cursor exactly once and in per-run order |
| CoordinationMerge.CaughtUp | lipas/coordination.py:282-284 | when there is no more, every stored event of the coordination has been delivered |
| CoordinationMerge.ResumeGivesRemainder | lipas/coordination.py:274-281 | resuming from any delivered event's own cursor gives exactly the remainder, in the same order |
| CoordinationMerge.StoreOnlyExtends | lipas/execution.py:839-908 | every call of the store only appends to the event tables, as the merge assumes |
| Coordinator.AgentCoordinator.ClaimHandoff | lipas/coordination.py:1700-1804 | the claim protocol step by step on the store is the modelled atomic claim |
| Coordinator.AgentCoordinator.TakeLease | lipas/coordination.py:1789-1804 | the lease is taken, or the handoff is busy, or a flagged run is settled at once |
| Coordinator.AgentCoordinator.FinishCancelled | lipas/coordination.py:2244-2266 | flags the run and ends it where it is still owned |
| Coordinator.AgentCoordinator.Complete | lipas/coordination.py:1917-1939 | settles a returned value; lost leases, flags and other refusals as in the code |
| Coordinator.AgentCoordinator.Dispatch | lipas/coordination.py:1168-1221 | a dispatch is one schedule of modelled moves; its value is the recorded one or the handler's |
| Coordinator.AgentCoordinator.Sequential | lipas/coordination.py:1223-1270 | the whole call is one attempt's schedule of moves; each value is the recorded one or what the handler made of the value before |
| CoordinationReplay.ClaimIsOk | lipas/coordination.py:1700-1804 | a claim with the recorded payload never conflicts, replays the recorded value, and claims only what is not completed |
| CoordinationReplay.MoveGoes | lipas/coordination.py:1168-1270 | every move of any attempt, and anything else called on the store, keeps the chain of requests and values |
| CoordinationTheorems.NeverConflicts | lipas/coordination.py:1720-1723 | re-running `sequential` with the same arguments, through any crashes and interleavings, never meets an identity conflict |
| CoordinationTheorems.ConflictIffDifferent | lipas/coordination.py:372-418 | a handoff identity does not cover the payload: dispatching it again conflicts if and only if the payload differs |
| CoordinationTheorems.AttemptsAgree | lipas/coordination.py:1223-1270 | any two attempts hold the same values as far as both have come; two that finish give the same final value |
| CoordinationTheorems.CallsAgree | lipas/coordination.py:2146-2178 | every invocation of a step's handler gets the same payload |
| CoordinationTheorems.CompletedNeverCalledAgain | lipas/coordination.py:1736-1737 | a completed step's handler is never invoked again |
| CoordinationTheorems.ReplaysPrefix | lipas/coordination.py:2180-2242 | a new attempt replays exactly the completed prefix with its recorded values and leaves store and handlers alone |
| CoordinationTheorems.OnlyResetsPutBack | lipas/execution.py:1652-1889 | a run that had begun is pending again only by its own reopening or an allowed answer to its own interrupt |
| CoordinationTheorems.UnsafeMembersAreCalledOnce | lipas/coordination.py:1767-1789 | a member that is not redelivery safe is invoked at most once per step, plus once for each time the step's own run is put back to pending |
| Policy.CoverageIsPointwise | lipas/coordination_policy.py:59-70 | checking the listed scopes one by one is exactly checking every scope they stand for, wildcards included |
| Policy.StepOk | lipas/coordination_policy.py:204-331 | every call keeps the tables in order and loses nothing; audit rows never clash and no delegation points at a missing identity |
| Policy.NothingIsRewritten | lipas/coordination_policy.py:204-331 | over any continuation stored identities and delegations stay as they were, but for revocation |
| Policy.DelegationsAreAttenuated | lipas/coordination_policy.py:271-276 | a delegation its grantor created never allows a scope that the stored grantor cannot hold |
| Policy.ExceedsOnlyInSystemsName | lipas/coordination_policy.py:271-276 | a stored delegation exceeds its grantor if and only if it was put in the system's name with a scope the grantor does not hold |
| Policy.SystemExceeds | lipas/coordination_policy.py:271-276 | a concrete delegation in the system's name beyond its grantor, with or without an expiry |
| Policy.RevocationIsFinal | lipas/coordination_policy.py:311-341 | once revoked a delegation is never returned as active again, even after being put again |
| Policy.PuttingAgainSucceeds | lipas/coordination_policy.py:285-288 | putting a stored delegation again succeeds and changes nothing, revoked or not |
| Policy.OnlyTheEntitledAct | lipas/coordination_policy.py:271-329 | only the grantor or the system ever created or revoked a delegation, and the audit trail says who |
| Policy.WorkspacePolicyStore.PutIdentity | lipas/coordination_policy.py:204-243 | inserts a new identity with its audit row, accepts a repeat, refuses other data |
| Policy.WorkspacePolicyStore.PutDelegation | lipas/coordination_policy.py:263-309 | checks the actor and the scopes, then writes identities and delegation one after the other |
| Policy.WorkspacePolicyStore.RevokeDelegation | lipas/coordination_policy.py:311-329 | marks the delegation revoked once, for its grantor or the system |
| Policy.WorkspacePolicyStore.GetDelegation | lipas/coordination_policy.py:331-341 | returns the stored delegation unless it is missing or revoked and revoked ones are not asked for |

## Left out

- SQLite, WAL, schema creation, version stamps and the seeding of legacy audit rows: a transaction is one atomic step that is rolled back on error.
- Row timestamps (`created_at`, `updated_at`), except the event times that the merged stream sorts by.
- Normalisation and type checks of arguments (stripping, non-empty text, integer ranges of SQLite); identifiers and scopes are taken in normalised form.
- Hashes and UUIDs: derived identifiers are injective terms, lease tokens are fresh where fencing needs it, audit identities are tuples and not colon-joined strings.
- JSON text, codecs and size limits: payloads are JSON trees; the aggregate cursor is the map it encodes, and its decoding errors are not modelled.
- Floating point: amounts and times are reals.
- The check that a task's workspace directory exists.
- Heartbeats as timers (in every schedule a renewal may happen at any time, and any number of times), event sinks, HTTP parsing, TLS, attestation and payload limits of the remote server.
- Supervisors, observers, phase timeouts and the deadline path of `_finish_controlled`; the agent events that the runner emits.
- The harness is its contract: an effect with a recorded outcome is replayed, one with an intent and no outcome is refused, and the check together with the recording of the intent is one step.
- A second process on the same run is part of the schedules; the phase loop as an object meets it only through its calls on the store.
- Approval and input policies are functions of the call, and a batch of more than one call holds only registered tools.
- Malformed checkpoints are one error; the individual exceptions are not told apart.
- Claim metadata, `with_field` and printing in the claim calculus; the belief is fixed during a fold, as the documentation requires.
- The two dictionaries behind an in-flight request's event and fingerprint are one table each; the wait for an event may end at any time.
- Members that are durable agents: their replay goes through `settled_result_from_run`, proved for the runner; handoffs here have plain async handlers.
- In `dispatch`, the shared-budget reservation (proved for the store), payload limits, handoff events and the parent context are left to the crash and give-up moves.
- `round_robin`, `parallel`, `select`, `map_reduce` and `swarm`: they compose the same dispatch, and external runs are hosted elsewhere.
- `_claim_handoff` is one atomic step with one clock reading; interleavings inside a claim are not modelled.
- `TaskDispatcher`, `RemoteWorkerRunner`, `CapabilityPolicy`, conversation store, command line, deployment and document tools: glue, input and output, or easier copies of what is modelled.
