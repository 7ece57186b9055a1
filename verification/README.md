# Scipio saga orchestrator: verified model

Scipio runs sagas. A saga is a list of steps; a worker calls a participant's Execute for each step in
order, and a cancelled saga is unwound with Compensate calls. Claims of steps are handed out without a
lock, go stale and are handed out again, while workers and cancellers update a saga only under its lock,
whose lease may be lost. This project models that protocol, the stores underneath it and the machinery
around it, and proves what every run guarantees.

`dafny verify dfyconfig.toml` checks everything.

## Layout

| file | content |
|---|---|
| Domain.dfy | saga records, the status graph and walks along it |
| SagaLogic.dfy | the rules for claiming, starting, recording and cancelling, as functions on sagas |
| Shape.dfy | the shape of a saga that every operation keeps, and what of it takes the lock |
| Protocol.dfy | the concurrent protocol: state, actions, runs |
| History.dfy | what every run keeps with any locker: monotone history, one outcome per branch, repeated starts, claims |
| LocalInvariant.dfy, GlobalInvariant.dfy | the invariant under the exclusive lock, per saga and for the whole system, and progress |
| AnyLocker.dfy | shape, order of execution and COMPLETED sagas with any locker |
| ProtocolTheorems.dfy | the main theorems, and what of them takes the exclusive lock: atomicity, mode agreement, shape, order of execution, frozen ends |
| ReverseOrder.dfy, LateCall.dfy | in which order a saga is unwound, and what of it takes the lock |
| AttemptBound.dfy, AttemptLimits.dfy | how often a step can be handed out in either store, and how good the bounds are |
| CallBound.dfy | how often a participant can be called |
| Witnesses.dfy | runs that show which hypotheses are needed |
| SagaOrder.dfy, MemoryStore.dfy | the in-memory store with its scans, sorted lists and claims |
| StepRunner.dfy | the callbacks that change a stored saga in place |
| Service.dfy | starting, cancelling, listing and paging |
| Drain.dfy | serving claims until nothing is left |
| SharedWork.dfy | what is left to do while workers run side by side |
| Completion.dfy | how every run can be brought to an end |
| StepRows.dfy, SqlClaim.dfy | step rows in SQL, and the claim query against the scan |
| Watchdog.dfy | the lock watchdog in time |
| WorkerPool.dfy | the worker pool as interleaved steps |
| Clone.dfy | deep copies of saga contexts on the heap |

## How the protocol is modelled

The state holds the sagas by id, a multiset of claims that have not got the lock yet, the phase of each
worker, the lock owners, the clock, and as history the calls of each saga and the first claim time of
each step. `Protocol.Enabled` and `Protocol.Apply` give the actions: start, claim, drop a claim, acquire,
load, dispatch, record, the two halves of a cancel, release, abandon (crash or early return), lose a
lease, and let time pass. A `Config` says which store is used, how long a claim takes to go stale, and
whether the locker is exclusive or the no-op one. A run (`Protocol.IsRun`) is any sequence of enabled
actions from the empty system.

The same functions (`Claimable`, `ClaimWrite`, `DispatchMode`, `Recorded`, `Canceled`, `NewSaga`) are used
by the protocol and are what the imperative methods of the store, the callbacks and the service are proved
to compute. An exclusive lock means that an acquire waits until no lease on the saga is alive, and that a
worker whose lease is lost cannot dispatch or update any more, because its context is cancelled.

The calls of a saga are the dispatches of the worker. A call that is logged as failed may or may not have
reached the participant, so "never executed" means that not even a failed Execute was attempted.

## Where the code and an expected reading of it differ

- All steps COMPLETED does not imply COMPLETED: a COMPLETED saga that is cancelled is CANCELING with all
  steps COMPLETED until the first compensation claim. `Shape.StatusReflectsSteps` states the exact
  equivalence and `Shape.CanceledCompletedSaga` the case.
- A claim carries an attempt number that is never compared when it is loaded or recorded. A superseded
  claim may therefore compensate a lower step before a higher one
  (`Witnesses.SupersededClaimBreaksReverseOrder`). `ReverseOrder.CallInOrderIff` says exactly when one call
  is in order, `ReverseOrder.ReverseOrderIff` when a whole run is, and `ReverseOrder.UnwindsInReverse` that
  runs without superseded claims are. With the no-op locker the calls of such a run are in order too, but may
  go back up (`LateCall.LastAct`).
- With the no-op locker, an Execute result may be recorded as a compensation
  (`Witnesses.NoopLockerBreaksAtomicity`), so the exclusive lock is exactly what atomicity takes
  (`Witnesses.AtomicIffExclusive`). With it a participant may still be called for a COMPENSATED saga
  (`Witnesses.NoopLockerCallsAfterEnd`), and a FAILED saga may change and get a second FAILED step
  (`Witnesses.NoopLockerFailsTwice`): exactly one FAILED step is exactly what the lock adds to the shape
  (`Witnesses.ShapedIffExclusive`). Everything in `History`, `AnyLocker`, `AttemptBound`, `AttemptLimits`,
  `CallBound`, `Drain` and `SharedWork.WorkIsShared` holds with any locker.
- A saga that fails while executing is FAILED at once; the steps it completed are not compensated
  (`ProtocolTheorems.Atomic`).
- The SQL store keeps the first start time of a step, so the bound on attempts of the memory store holds
  there exactly until that time is stale; from then on there is no bound (`AttemptLimits.SqlBoundIff`).
- An accepted task of the worker pool may be left without a result exactly if a Submit is in progress when
  Shutdown starts (`WorkerPool.LostIffSubmitInProgress`).
- `Update` of the memory store keeps the callback's own object. A callback that puts a map of its own into
  the context it was given, or holds on to a part of it, shares nodes with the store
  (`Clone.GraftReachesStore`, `Clone.KeptPartReachesStore`); sharing none is exactly what isolation takes
  (`Clone.CallbackIsIsolated`, `Clone.CallbackReachesStore`). The callbacks of this repository leave the
  context alone.
- A cancel may report an error although the saga was cancelled, when the renewal of the lock fails after the
  update (`Service.SagaService.CancelSaga`).
- The watchdog is in time exactly for leases of two nanoseconds or more
  (`Watchdog.SafeIffTwoNanoseconds`). If Extend fails with an error that reports cancellation, the loop
  ends without cancelling the protected context (the `StoppedSilently` ending of `Watchdog.Watch`).

## Model

| member | source | states |
|---|---|---|
| ProtocolTheorems.Atomicity | internal/service/step_runner.go:176-329 | in every run, with stale reclaims, dropped claims, crashes, lost leases and cancels: with any locker, COMPLETED means every step has a successful Execute and none a Compensate; under the exclusive lock, COMPENSATED means each step has no Execute call or a successful Compensate after its last one, and FAILED means exactly one step failed, with the saga's last call, and nothing was compensated if that was an Execute |
| ProtocolTheorems.ModeAgreement | internal/service/step_runner.go:200-271 | under the exclusive lock, whatever claims interleave between load, dispatch and update, an Execute outcome is recorded by the forward branch on a RUNNING step of a CREATED or RUNNING saga, a Compensate outcome by the compensation branch on an unsettled step of a CANCELING saga |
| ProtocolTheorems.ReachableShape | internal/service/step_runner.go:243-363 | with any locker, every reachable saga has the shape of Shape.WeakShaped, and a claim that is still around, queued or held, points at an existing step that is not PENDING and was handed out at least that often; under the exclusive lock the shape is that of Shape.Shaped, with exactly one FAILED step in a FAILED saga |
| ProtocolTheorems.ExecutionInOrder | internal/service/step_runner.go:223-241 | with any locker, an Execute of a step is logged only after a successful Execute of each earlier step, duplicates of stale claims included; under the exclusive lock, never after a Compensate, and never again once the saga has left CREATED and RUNNING |
| ProtocolTheorems.EndsAreFrozen | internal/service/step_runner.go:223-271 | with any locker, a COMPENSATED saga never changes again except for its update time; under the exclusive lock nor does a FAILED one, and nobody is called for either any more |
| AnyLocker.RunIsSound | internal/service/step_runner.go:176-329 | with any locker, every state of every run keeps the shape, executions in order, an Execute for each COMPLETED step of a saga that has not FAILED, a call behind each final step status, and what each worker knows from its load |
| AnyLocker.CompletedTookEffect | internal/service/step_runner.go:289-300 | with any locker, a COMPLETED saga has a successful Execute of every step and no Compensate |
| AnyLocker.OutcomesAreBacked | internal/service/step_runner.go:243-329 | with any locker, a FAILED step has a failed call, a COMPLETED step a successful one, and a COMPENSATED step a successful one unless it was never handed out |
| AnyLocker.CompensatedStays | internal/service/step_runner.go:223-271 | with any locker, nothing but the update time of a COMPENSATED saga ever changes |
| AnyLocker.LoadSound | internal/service/step_runner.go:200-221 | with any locker, a step that is loaded for execution has every earlier step executed |
| History.MonotoneHistory | internal/statemachine/statemachine.go:5-22 | with any locker, between any two moments of a run a saga keeps its identity, its status moves along paths of the status graph, no step moves back, attempts grow and calls are only added |
| History.OneOutcomePerBranch | internal/service/step_runner.go:243-329 | with any locker, each branch of the callback writes one outcome at most for a step, however often it is handed out |
| History.OutcomeStays | internal/service/step_runner.go:243-271 | with any locker, a written outcome leaves the step past the statuses from which the same branch writes, for good |
| History.RepeatedStart | internal/service/service.go:68-118 | with any locker, a second start under an id changes nothing, and the saga is still the one that the first start created |
| GlobalInvariant.StepKeeps | internal/service/step_runner.go:170-198 | under the exclusive lock, every action of the protocol keeps the invariant of all sagas, lock holders and claims, and only makes progress |
| GlobalInvariant.RunKeeps | internal/service/step_runner.go:92-155 | under the exclusive lock, the invariant holds in every state of every run |
| GlobalInvariant.RunProgresses | internal/service/step_runner.go:92-155 | under the exclusive lock, progress between any two states of a run |
| GlobalInvariant.OtherSagasUntouched | internal/service/saga_locker.go:28-51 | an action about one saga leaves every other saga, its calls and its lock holder as they were |
| GlobalInvariant.SubjectProjects | internal/service/step_runner.go:170-271 | under the exclusive lock, what an action does to its saga is one event of the per-saga system |
| History.QueueFlow | internal/store/memory.go:201-206 | a queued claim was queued before or was just handed out |
| History.WorkerFlow | internal/service/step_runner.go:170-198 | a worker's claim was its own before or has just been taken from the queue, and a recorded claim is put away |
| History.ClaimsArePlausible | internal/store/memory.go:194-206 | with any locker, a claim that is still around points at a step that was handed out at least that often, so never at a PENDING one |
| History.RecordedStatus | internal/service/step_runner.go:289-300 | whatever the stored saga, recording moves its status along a path of the status graph, of one or two edges |
| History.CanceledHistory | internal/service/service.go:140-200 | whatever the stored saga, so does cancelling, and no step moves back |
| LocalInvariant.LocalStep | internal/service/step_runner.go:176-271 | each event keeps the shape, the account of the calls and the agreement of the lock holder with the stored saga |
| LocalInvariant.ClaimLocal | internal/store/memory.go:136-180 | a claim that is handed out while a worker holds the lock disturbs neither the worker's mode nor the account of the calls |
| LocalInvariant.LoadLocal | internal/service/step_runner.go:200-221 | a mode that is loaded agrees with the stored saga |
| LocalInvariant.DispatchLocal | internal/service/step_runner.go:185-185 | logging the dispatched call keeps the account of the calls and their order |
| LocalInvariant.RecordTakesItsBranch | internal/service/step_runner.go:243-271 | the callback, which never sees the dispatched mode, takes the branch of that mode |
| LocalInvariant.RecordLocal | internal/service/step_runner.go:243-329 | recording keeps the account: COMPLETED has its Execute, COMPENSATED its Compensate, FAILED its failed last call |
| LocalInvariant.CancelLocal | internal/service/service.go:138-170 | cancelling keeps the account: a skipped step was never called |
| ReverseOrder.ClaimsTakeTheTop | internal/store/memory.go:212-242 | in every run, with any locker, a compensation claim takes the highest unsettled step |
| ReverseOrder.CallInOrderIff | internal/service/step_runner.go:223-234 | a Compensate call finds every higher step COMPENSATED if and only if the guard that claims check holds for its step, with any locker if the saga has not FAILED, else under the exclusive lock; it always does if it finds the step in flight in a CANCELING saga, and under the lock if the step is not COMPLETED |
| ReverseOrder.ReverseOrderIff | internal/store/memory.go:260-270 | under the exclusive lock, all Compensate calls of a run find every higher step COMPENSATED if and only if the guard holds at each of them, and then the calls of a saga never go back up |
| ReverseOrder.GuardedLoadsSuffice | internal/service/step_runner.go:200-221 | with any locker, checking the guard when a step is loaded puts every Compensate call in order; under the exclusive lock the calls of a saga then never go back up |
| ReverseOrder.UnwindsInReverse | internal/service/step_runner.go:200-271 | with any locker, in runs that process only claims with the current attempt number, every Compensate call finds every higher step COMPENSATED; under the exclusive lock the calls of a saga never go back up |
| ReverseOrder.FencedRunKeeps | internal/domain/saga.go:37-42 | in such runs, with any locker, a current claim exists once and the claim that completed a step is gone |
| LateCall.DescendsIffExclusive | internal/service/saga_locker.go:17-26 | that the Compensate calls of such runs never go back up holds for a configuration if and only if its lock is exclusive |
| LateCall.LastAct | internal/service/step_runner.go:176-185 | with the no-op locker, such a run in which step 1, step 0 and then step 1 again are compensated, the last by a worker that loaded it in time |
| Witnesses.SupersededClaimBreaksReverseOrder | internal/service/step_runner.go:200-221 | a reachable state under the exclusive lock in which step 0 was compensated while step 1 is RUNNING |
| Witnesses.NoopLockerBreaksAtomicity | internal/lock/lock.go:26-36 | with the no-op locker, a reachable COMPENSATED saga whose step was executed and never compensated |
| Witnesses.AtomicIffExclusive | internal/service/saga_locker.go:17-26 | every reachable saga of a configuration is atomic if and only if its lock is exclusive |
| Witnesses.NoopLockerCallsAfterEnd | internal/lock/lock.go:26-36 | with the no-op locker, a reachable COMPENSATED saga for which a participant is still called |
| Witnesses.NoopLockerFailsTwice | internal/service/step_runner.go:259-271 | with the no-op locker, a reachable FAILED saga with one FAILED step that a recorded failure changes into one with two |
| Witnesses.ShapedIffExclusive | internal/service/saga_locker.go:17-26 | every reachable FAILED saga of a configuration has exactly one FAILED step, and every other saga its shape, if and only if its lock is exclusive |
| AttemptBound.AttemptsBounded | internal/store/memory.go:182-248 | with the memory store and any locker, a step first handed out a time T ago has at most 2 + T / staleAfter attempts, and none if it never was |
| AttemptBound.ClaimsSpaced | internal/store/memory.go:244-248 | with the memory store and any locker, two claims of one step in the same phase are at least staleAfter apart |
| AttemptLimits.MemoryBoundIsAttained | internal/store/memory.go:182-248 | at every age T of a step some run has exactly 2 + T / staleAfter attempts, so no better bound holds |
| AttemptLimits.SqlBoundIff | sql/query/sagas.sql:131-141 | in the SQL store the bound holds for steps first handed out a time T ago if and only if T < staleAfter; after that every number of attempts is exceeded in some run |
| CallBound.CallsBounded | internal/service/step_runner.go:176-198 | in every run, with either store and any locker, a participant is called for a step at most as often as the step was handed out |
| CallBound.CallsBoundedInTime | internal/store/memory.go:182-248 | with the memory store and any locker, at most 2 + T / staleAfter times for a step first handed out a time T ago, and never before |
| CallBound.RunIsOpenOnce | internal/service/step_runner.go:119-154 | with any locker, a claim that has not been dispatched exists once, in the queue or with one worker |
| Shape.StatusReflectsSteps | internal/service/step_runner.go:289-328 | the saga status against the step statuses in both directions, and at most one step in flight unless FAILED |
| Shape.StartShaped | internal/service/service.go:260-283 | a started saga has the shape, with all steps PENDING |
| Shape.ClaimKeepsShape | internal/store/memory.go:182-242 | a claim takes the one open step, or the highest unsettled one, and keeps the shape |
| Shape.ExecutionKeepsShape | internal/service/step_runner.go:273-301 | recording an execution keeps the shape and ends in FAILED, RUNNING or COMPLETED as the outcome and the position of the step say |
| Shape.CompensationKeepsShape | internal/service/step_runner.go:303-329 | recording a compensation, in whatever order, keeps the shape |
| Shape.RecordKeepsShape | internal/service/step_runner.go:243-329 | whatever outcome is recorded on a step that was handed out, even of a FAILED saga, the shape is kept |
| Shape.CancelKeepsShape | internal/service/service.go:140-200 | cancelling keeps the shape and ends in CANCELING or COMPENSATED |
| Shape.CancelIsIdempotent | internal/service/service.go:133-212 | cancelling twice is cancelling once, never FAILED, refused exactly for FAILED, and COMPENSATED exactly when nothing was ever handed out or the unwinding was over |
| Shape.CanceledCompletedSaga | internal/service/service.go:142-149 | cancelling a COMPLETED saga leaves all its steps COMPLETED |
| Shape.UnfinishedIsClaimable | internal/store/memory.go:161-177 | a saga that is not terminal offers a step once its steps in flight are stale |
| Domain.DeadEnds | internal/statemachine/statemachine.go:10-21 | where paths of the status graph can and cannot lead |
| Domain.EdgesAre | internal/statemachine/statemachine.go:5-26 | the graph has exactly nine edges and three terminal statuses |
| Domain.ReachesIff | internal/statemachine/statemachine.go:5-22 | walks lead exactly from lower to higher levels of CREATED, RUNNING, COMPLETED, CANCELING, COMPENSATED or FAILED |
| Claiming.ClaimableIsUnique | internal/store/memory.go:250-270 | a saga never offers two steps at once |
| Claiming.OfferedIs | internal/store/memory.go:161-270 | what a saga offers in each status, with the boundary of staleness |
| Recording.DispatchedIs | internal/service/step_runner.go:223-241 | in which statuses a step is dispatched for compensation, and in which for execution |
| MemoryStore.AllPreviousStepsAreCompleted | internal/store/memory.go:250-258 | the loop decides whether all earlier steps are COMPLETED |
| MemoryStore.AllNextStepsAreSettled | internal/store/memory.go:260-270 | the loop decides whether no later step is unsettled |
| MemoryStore.ClaimExecutionStep | internal/store/memory.go:182-210 | the upward scan finds the claimable step if there is one and writes exactly the claim |
| MemoryStore.ClaimCompensationStep | internal/store/memory.go:212-242 | the downward scan finds the claimable step if there is one and writes exactly the claim |
| MemoryStore.Memory.Create | internal/store/memory.go:28-45 | refuses a done context and an existing id, otherwise adds the saga |
| MemoryStore.Memory.Get | internal/store/memory.go:47-63 | returns the stored saga or the error |
| MemoryStore.Memory.Update | internal/store/memory.go:110-134 | stores the callback's result with the new update time, changes nothing on any error, and keeps the store keyed by id exactly if the callback leaves the id alone |
| MemoryStore.Memory.List | internal/store/memory.go:65-108 | for any map iteration order, the asked-for slice of all sagas with the status: older ones first, those of the same age in the dictionary order of their ids |
| MemoryStore.Memory.ClaimNextStep | internal/store/memory.go:136-180 | hands out a step that is due, column by column, from the oldest saga that offers one, at equal ages the one whose id comes first in dictionary order, and reports none only when none does |
| MemoryStore.ListingIsUnique | internal/store/memory.go:88-96 | the sorted list of matching sagas does not depend on the iteration order |
| MemoryStore.ListingIsWhole | internal/store/memory.go:79-96 | a listing holds every saga with the status, and no other, in that order |
| SagaOrder.SortedIsUnique | internal/store/memory.go:151-159 | a strictly sorted list is fixed by its elements |
| SagaOrder.SortSagas | internal/store/memory.go:151-159 | sorting yields the same sagas, older ones first and those of the same age in the dictionary order of their ids |
| SagaOrder.BeforeIsOlder | internal/store/memory.go:88-96 | the comparison decides exactly that order |
| SagaOrder.LexIsDictionary | internal/store/memory.go:155-155 | the recursive comparison of ids is dictionary order: a proper prefix, or a smaller first differing character |
| SqlClaim.CandidateIffClaimable | sql/query/sagas.sql:90-126 | a row is a candidate of the query if and only if the scan would claim its step |
| SqlClaim.ScanAgreesWithQuery | sql/query/sagas.sql:89-142 | the scan finds nothing exactly when the query has no candidate, what it picks is a candidate, and each saga has one candidate at most |
| SqlClaim.WritesAgree | sql/query/sagas.sql:131-142 | both stores hand out the same claim and write the same status, attempt, finish time and error; what the SQL update writes, column by column |
| StepRunner.Candidate.UpdateAfterDispatch | internal/service/step_runner.go:243-271 | which steps take an outcome in which status, and what such a step then is: FAILED with the error of the call, or COMPLETED or COMPENSATED with none, finished now, its name, target, attempt and start time as before; all other steps stay, and without a step to take it nothing changes |
| StepRunner.Candidate.ApplyDispatchResult | internal/service/step_runner.go:273-301 | the step becomes FAILED with the error of the call, or COMPLETED with none, finished now, all else about it and all other steps as before; the saga status by the one before and the steps |
| StepRunner.Candidate.ApplyCompensationResult | internal/service/step_runner.go:303-329 | the step becomes FAILED with the error of the call, or COMPENSATED with none, finished now, all else about it and all other steps as before; the saga status by the one before and the steps |
| StepRunner.Candidate.ScanAllCompleted | internal/service/step_runner.go:341-353 | the loop decides whether there are steps and all are COMPLETED |
| StepRunner.Candidate.ScanFailed | internal/service/step_runner.go:355-363 | the loop decides whether a step FAILED |
| StepRunner.Candidate.ScanPendingCompensation | internal/service/service.go:202-212 | the loop decides whether a step is unsettled |
| StepRunner.Candidate.NormalizeForCancellation | internal/service/service.go:173-200 | exactly the PENDING steps become COMPENSATED, finished now, with no error |
| StepRunner.Candidate.Cancel | internal/service/service.go:140-159 | a FAILED saga refuses and a COMPENSATED one stays; else exactly the PENDING steps become COMPENSATED, finished now, and the saga is FAILED, COMPENSATED or CANCELING as its steps then say |
| Service.ValidateStartSagaSteps | internal/service/service.go:260-283 | the error of the first step that lacks its name or else its target; otherwise a PENDING step with no attempt for each requested one, with its name and target |
| Service.SagaService.StartSaga | internal/service/service.go:68-118 | a start succeeds exactly for a valid request whose id is new, or derived from a key and there already, and returns that id; otherwise it returns the first error in the order of the checks; it adds the saga, field by field, with all steps PENDING, or changes nothing |
| Service.SagaService.CancelSaga | internal/service/service.go:133-171 | what is returned and stored for each status, for a missing saga, when the lock is not granted, and when its renewal fails: an error goes with a changed store exactly if the renewal failed after the update |
| Service.SagaService.ListSagas | internal/service/service.go:214-235 | refuses a bad page, then a bad filter, then a done context, each with its error; otherwise the slice, of 50 sagas unless a limit is given and of 200 at most, of the whole list of the sagas that have the asked-for status |
| Service.PagesTile | internal/service/service.go:303-321 | for any filter and any requested limit, the pages at offsets 0, L, 2L, ... join up, without repeats or gaps, to exactly the sagas that have the asked-for status, older ones first |
| Drain.RoundMakesProgress | internal/service/step_runner.go:176-198 | a handed-out step is dispatched in the mode it was claimed for, and any answer leaves less work |
| Drain.NoClaimMeansTerminal | internal/store/memory.go:161-179 | when no claim is found and every step in flight is stale, every saga is terminal |
| Drain.ProcessClaimedStep | internal/service/step_runner.go:176-198 | load, dispatch and record for a fresh claim |
| Drain.DrainStore | internal/service/step_runner.go:119-154 | serving claims one after the other, at any poll times and with any answers, terminates with every saga terminal, after at most as many served claims as there was work |
| Drain.ReachableIsDrainable | internal/store/memory.go:136-180 | every store reached by a run, with any locker, can be drained |
| Drain.IdleMeansTerminal | internal/service/step_runner.go:134-139 | no state of any run, with any locker and either store, is stuck: if it offers no claim once its claims have gone stale, every saga is terminal |
| Drain.OutcomeLeavesLess | internal/service/step_runner.go:243-329 | every outcome that is written to a saga that has not FAILED leaves it less to do |
| SharedWork.WorkIsShared | internal/service/step_runner.go:119-154 | between any two moments of any run, with any locker, workers and answers, what is left plus the outcomes written meanwhile is at most what was left before plus what was started meanwhile; a second measure allows for cancels |
| SharedWork.EveryWriteCounts | internal/service/step_runner.go:243-271 | under the exclusive lock every outcome that is written counts: none goes to a FAILED saga |
| SharedWork.CancelKeepsEffort | internal/service/service.go:140-200 | a cancel never leaves more outcomes to come than there were |
| Completion.EveryRunCanFinish | internal/service/step_runner.go:119-198 | from every reachable state, with any locker, either store and whatever the participants answer, some continuation of the run makes every saga terminal |
| Completion.SagaGetsOn | internal/service/step_runner.go:119-198 | and some continuation leaves less to do for any saga that is not terminal |
| Completion.GivingUp | internal/service/saga_locker.go:94-101 | what a release, a lost lease, an abandoned worker and a dropped claim free, and that nothing else changes |
| StepRows.RowRoundTrip | internal/store/postgres.go:379-402 | a step read back from its row is the written step, with a blank error emptied, and once more so |
| StepRows.ReadAsWritten | internal/store/postgres.go:472-486 | a step is read back exactly as written unless its error is made of the 25 Unicode spaces alone; exactly such an error is stored as NULL, and read back empty |
| StepRows.PrintableErrorsAreKept | internal/store/postgres.go:480-485 | an error with a character from ! to ~ is read back as written, one of blanks, tabs and newlines is not |
| StepRows.StepTable.ReplacedColumns | internal/store/postgres.go:404-418 | the rows of a replacement, column by column |
| StepRows.ReplaceRoundTrip | internal/store/postgres.go:282-289 | whatever rows were there before, an index-ordered read after a replacement returns exactly the written steps, except for errors that are spaces alone |
| StepRows.RewriteChangesNothing | sql/query/sagas.sql:64-74 | writing what was read changes no row, not even its update time |
| StepRows.StepTable.UpsertSagaStep | sql/query/sagas.sql:42-74 | the row gets the new values, column by column, and a new update time exactly if one of them is distinct; all other rows stay |
| StepRows.StepTable.DeleteSagaStepsFromIndex | sql/query/sagas.sql:37-40 | the tail of one saga goes, everything else stays |
| StepRows.StepTable.ReplaceSteps | internal/store/postgres.go:404-425 | the saga's rows become exactly the written steps, other sagas' rows stay; a failing statement ends it there |
| StepRows.StepTable.FetchSteps | internal/store/postgres.go:282-289 | maps the ordered rows to steps, column by column, NULL errors to empty ones |
| Watchdog.Watch | internal/service/saga_locker.go:53-92 | the k-th renewal starts exactly at tick k, within the lease, and a failed renewal cancels the protected context no later than the lease ends |
| Watchdog.SafeIffTwoNanoseconds | internal/service/saga_locker.go:131-147 | every renewal is over before the lease it prolongs ends, exactly for leases of at least two nanoseconds |
| Watchdog.HalvesOfTheLease | internal/service/saga_locker.go:131-147 | renewals are half a lease apart and may take half a lease, rounded down, or one nanosecond |
| Watchdog.TicksAreMultiples | internal/service/saga_locker.go:60-66 | tick k is k intervals after the start |
| WorkerPool.Conservation | pkg/workerpool/workerpool.go:53-110 | in every interleaving and for every task, the accepted copies are those queued, in handlers and among the results sent |
| WorkerPool.FirstInFirstOut | pkg/workerpool/workerpool.go:53-75 | in every interleaving, tasks are taken in the order in which they were accepted, and results received in the order in which they were sent |
| WorkerPool.NothingAfterClose | pkg/workerpool/workerpool.go:116-126 | after the results channel is closed nothing is taken or sent, and it is not closed again |
| WorkerPool.EveryAcceptedTaskAnswered | pkg/workerpool/workerpool.go:95-126 | if no Submit was in progress when Shutdown started, then at the close the queue is empty and every accepted task has exactly one result |
| WorkerPool.LostIffSubmitInProgress | pkg/workerpool/workerpool.go:95-126 | from every reachable pool, a Shutdown can leave an accepted task without a result if and only if a Submit is in progress and there is a worker |
| WorkerPool.SubmitComesTooLate | pkg/workerpool/workerpool.go:95-110 | any task whose Submit is in progress when Shutdown starts can be accepted and never answered |
| Clone.CloneValue | internal/domain/saga.go:81-94 | a copy of new nodes: equal scalars, arrays of the same length in the same order, maps with the same keys, an empty map for a nil one, and the very same tree if there is no nil map |
| Clone.CloneMap | internal/domain/saga.go:68-79 | the same for a map, in any key order |
| Clone.ClonedTwice | internal/domain/saga.go:68-72 | a copy of a copy is structurally equal to it |
| Clone.ClonedIsSame | internal/domain/saga.go:68-94 | a copy has equal scalars, arrays of the same length in the same order, maps with the same keys, and an empty map for a nil one |
| Clone.SameIsEqual | internal/domain/saga.go:68-94 | without nil maps that is the very same tree |
| Clone.OneTree | internal/domain/saga.go:81-94 | a value on the heap denotes one tree at most |
| Clone.ContextStore.Create | internal/store/memory.go:28-45 | an existing id is refused, otherwise such a copy of new nodes goes in |
| Clone.ContextStore.Get | internal/store/memory.go:47-63 | what comes out is such a copy of new nodes |
| Clone.ContextStore.List | internal/store/memory.go:65-108 | so is each context that is listed |
| Clone.ContextStore.Update | internal/store/memory.go:110-134 | for any callback that leaves a tree and holds no node of what is stored: it works on a copy of new nodes, the store adopts the nodes that it leaves, and what is returned is another copy that shares none with the store or the callback; a failing callback changes nothing |
| Clone.CreateIsIsolated | internal/store/memory.go:28-45 | writes to what went into Create leave the stored trees as they are |
| Clone.GetIsIsolated | internal/store/memory.go:47-63 | writing to what Get returned touches nothing that existed before |
| Clone.ListIsIsolated | internal/store/memory.go:65-108 | nor does writing to what List returned |
| Clone.UpdateIsIsolated | internal/store/memory.go:122-133 | whatever such a callback does, writes to what Update returned leave the stored trees as they are |
| Clone.CallbackIsIsolated | internal/store/memory.go:122-131 | a callback of which no node occurs in what the store holds may write to all of them, and the store holds the same |
| Clone.ApartIsIsolated | internal/domain/saga.go:54-66 | a client that can reach no node of what the store holds cannot change it |
| Clone.SharedIsNotIsolated | internal/domain/saga.go:54-66 | through any single shared node, wherever it occurs, a client can change what the store holds |
| Clone.CallbackReachesStore | internal/store/memory.go:122-131 | through any node of a callback that occurs in what the store holds, the stored context can be changed without the store |
| Clone.GraftReachesStore | internal/store/memory.go:122-131 | this is so after the Update of a callback that puts a map of its own under a key of the context |
| Clone.KeptPartReachesStore | internal/store/memory.go:122-131 | and after that of a callback that holds on to any map or slice in the context |
| Clone.Corrupted | internal/domain/saga.go:68-94 | resizing one node that a value is made of changes the tree that the value is |

## Left out

- Transports, the client SDK, configuration and process wiring.
- The network side of a dispatch: a dispatch is an arbitrary success or failure and a log entry. A dispatch
  is assumed to take effect only while the lease is held, and the context of a worker whose lease is lost to
  be cancelled from then on.
- Redis itself and the retry loop of Acquire: the lock is an exclusive holder whose lease may be lost.
- PostgreSQL isolation levels, SKIP LOCKED contention and transactions: tables are maps and no row is locked.
- JSON parsing, SHA-256 and random ids: contexts are trees, the derivation of an id from a key is an
  arbitrary function, and a parse failure is an input.
- Trimming and letter case of keys, filters and statuses read from text.
- Attempt overflow: attempts are unbounded naturals.
- Strings are compared character by character, as the store compares bytes.
- MemoryStore.Memory.Update: the callback is a pure function from saga to result; the callbacks that change a
  saga in place are in StepRunner.Candidate, and what a callback may share with the store in Clone.
- Clone.ContextStore.Update: a callback leaves a finite tree behind, and holds no node of what is stored
  when it starts; copies of step lists and of times are not modelled on the heap.
- SharedWork.WorkIsShared: bounds the outcomes of any run and does not say that workers go on polling.
- Service.SagaService.CancelSaga: taking the lock and whether its renewal fails are inputs; the protocol has
  the interleavings.
- Watchdog.Watch: no scheduling delay; a refused or cancelled Extend does not change the lease.
- Drain.DrainStore: one worker that serves each claim before it polls again; claims lost before it starts are
  not processed.
- The order in which the SQL query picks among candidates of different sagas.
