/** Which step may be claimed, and what a claim writes
    (internal/store/memory.go, sql/query/sagas.sql). */
module Claiming {
  import opened Domain

  /** The two stores write different start times: memory stamps every claim,
      SQL keeps the first start time through COALESCE. */
  datatype StoreKind = MemoryStore | PostgresStore

  /** Step still needs a compensation call (or is in one). */
  predicate Unsettled(status: StepStatus) {
    status == StepCompleted || status == StepRunning || status == StepCompensating
  }

  predicate AllPreviousCompleted(steps: seq<Step>, index: int)
    requires index <= |steps|
  {
    forall j :: 0 <= j < index ==> steps[j].status == StepCompleted
  }

  predicate AllNextSettled(steps: seq<Step>, index: int)
    requires 0 <= index
  {
    forall j :: index < j < |steps| ==> !Unsettled(steps[j].status)
  }

  predicate IsStale(step: Step, expected: StepStatus, staleAfter: Time, now: Time) {
    step.status == expected && step.startedAt.Some? && now - step.startedAt.value >= staleAfter
  }

  predicate ClaimableForExecution(steps: seq<Step>, index: int, staleAfter: Time, now: Time)
    requires 0 <= index < |steps|
  {
    && AllPreviousCompleted(steps, index)
    && (steps[index].status == StepPending || IsStale(steps[index], StepRunning, staleAfter, now))
  }

  predicate ClaimableForCompensation(steps: seq<Step>, index: int, staleAfter: Time, now: Time)
    requires 0 <= index < |steps|
  {
    && AllNextSettled(steps, index)
    && (|| steps[index].status == StepCompleted
        || steps[index].status == StepRunning
        || IsStale(steps[index], StepCompensating, staleAfter, now))
  }

  predicate Claimable(saga: Saga, index: int, staleAfter: Time, now: Time) {
    && 0 <= index < |saga.steps|
    && match saga.status
       case Created => ClaimableForExecution(saga.steps, index, staleAfter, now)
       case Running => ClaimableForExecution(saga.steps, index, staleAfter, now)
       case Canceling => ClaimableForCompensation(saga.steps, index, staleAfter, now)
       case _ => false
  }

  /** What a saga offers, status by status. */
  lemma OfferedIs(saga: Saga, i: int, staleAfter: Time, now: Time)
    ensures Claimable(saga, i, staleAfter, now) <==>
      && 0 <= i < |saga.steps|
      && var step := saga.steps[i];
         var stale := step.startedAt.Some? && now >= step.startedAt.value + staleAfter;
         if saga.status in {Created, Running} then
           && (step.status == StepPending || (step.status == StepRunning && stale))
           && !exists j :: 0 <= j < i && saga.steps[j].status != StepCompleted
         else
           && saga.status == Canceling
           && (step.status in {StepCompleted, StepRunning} || (step.status == StepCompensating && stale))
           && !exists j :: i < j < |saga.steps|
                           && saga.steps[j].status in {StepCompleted, StepRunning, StepCompensating}
  {
  }

  /** No saga ever offers two steps at once. */
  lemma ClaimableIsUnique(saga: Saga, i: int, j: int, staleAfter: Time, now: Time)
    requires Claimable(saga, i, staleAfter, now) && Claimable(saga, j, staleAfter, now)
    ensures i == j
  {
    if i < j { assert false; }
    if j < i { assert false; }
  }

  function ClaimedStep(kind: StoreKind, step: Step, to: StepStatus, now: Time): Step {
    step.(
      status := to,
      attempt := step.attempt + 1,
      startedAt := if kind == PostgresStore && step.startedAt.Some? then step.startedAt else Some(now),
      finishedAt := None,
      error := "")
  }

  /** The saga after step `index` has been handed out. */
  function ClaimWrite(kind: StoreKind, saga: Saga, index: int, now: Time): Saga
    requires 0 <= index < |saga.steps|
  {
    var to := if saga.status == Canceling then StepCompensating else StepRunning;
    saga.(
      steps := saga.steps[index := ClaimedStep(kind, saga.steps[index], to, now)],
      updatedAt := if kind == MemoryStore then now else saga.updatedAt)
  }

  /** The claim that goes with ClaimWrite. */
  function ClaimFor(saga: Saga, index: int): Claim
    requires 0 <= index < |saga.steps|
  {
    Claim(saga.id, index, saga.steps[index].name, saga.steps[index].attempt + 1)
  }
}

/** Starting a saga (internal/service/service.go). */
module Starting {
  import opened Domain

  datatype StartStep = StartStep(name: string, grpcTarget: string)

  function PendingStep(requested: StartStep): Step {
    Step(requested.name, requested.grpcTarget, StepPending, 0, None, None, "")
  }

  predicate ValidRequest(workflow: string, requested: seq<StartStep>) {
    && workflow != ""
    && |requested| > 0
    && forall i :: 0 <= i < |requested| ==> requested[i].name != "" && requested[i].grpcTarget != ""
  }

  function NewSaga(id: string, workflow: string, context: Json, requested: seq<StartStep>, now: Time): Saga {
    Saga(id, workflow, Created, context, seq(|requested|, i requires 0 <= i < |requested| => PendingStep(requested[i])),
         now, now)
  }
}

/** What a worker dispatches and how it records the outcome
    (internal/service/step_runner.go). */
module Recording {
  import opened Domain
  import opened Claiming

  datatype Mode = Execute | Compensate

  /** resolveClaimedStepDispatchMode: None means that nothing is dispatched. */
  function DispatchMode(saga: SagaStatus, step: StepStatus): Option<Mode> {
    match saga
    case Canceling => if Unsettled(step) then Some(Compensate) else None
    case Compensated => None
    case Failed => None
    case _ => if step == StepPending || step == StepRunning then Some(Execute) else None
  }

  /** What is dispatched, mode by mode. */
  lemma DispatchedIs(saga: SagaStatus, step: StepStatus)
    ensures DispatchMode(saga, step) == Some(Compensate) <==>
      saga == Canceling && step in {StepRunning, StepCompleted, StepCompensating}
    ensures DispatchMode(saga, step) == Some(Execute) <==>
      saga in {Created, Running, Completed} && step in {StepPending, StepRunning}
  {
  }

  predicate AllStepsCompleted(steps: seq<Step>) {
    |steps| > 0 && forall i :: 0 <= i < |steps| ==> steps[i].status == StepCompleted
  }

  predicate HasFailedStep(steps: seq<Step>) {
    exists i :: 0 <= i < |steps| && steps[i].status == StepFailed
  }

  predicate HasPendingCompensation(steps: seq<Step>) {
    exists i :: 0 <= i < |steps| && Unsettled(steps[i].status)
  }

  function Advance(from: SagaStatus, to: SagaStatus): SagaStatus {
    if CanTransition(from, to) then to else from
  }

  function Finished(saga: Saga, index: int, to: StepStatus, error: string, now: Time): Saga
    requires 0 <= index < |saga.steps|
  {
    saga.(steps := saga.steps[index := saga.steps[index].(status := to, finishedAt := Some(now), error := error)])
  }

  /** applyClaimedStepDispatchResult. */
  function ExecutionRecorded(saga: Saga, index: int, failure: Option<string>, now: Time): Saga
    requires 0 <= index < |saga.steps|
  {
    if failure.Some? then
      var s := Finished(saga, index, StepFailed, failure.value, now);
      s.(status := Advance(s.status, Failed))
    else
      var s := Finished(saga, index, StepCompleted, "", now);
      var status := if s.status == Created then Running else s.status;
      s.(status :=
        if HasFailedStep(s.steps) && CanTransition(status, Failed) then Failed
        else if AllStepsCompleted(s.steps) then Advance(status, Completed)
        else status)
  }

  /** applyClaimedStepCompensationResult. */
  function CompensationRecorded(saga: Saga, index: int, failure: Option<string>, now: Time): Saga
    requires 0 <= index < |saga.steps|
  {
    if failure.Some? then
      var s := Finished(saga, index, StepFailed, failure.value, now);
      s.(status := Advance(s.status, Failed))
    else
      var s := Finished(saga, index, StepCompensated, "", now);
      s.(status :=
        if HasFailedStep(s.steps) then Advance(s.status, Failed)
        else if !HasPendingCompensation(s.steps) then Advance(s.status, Compensated)
        else s.status)
  }

  /** The branch of updateClaimedStepAfterDispatch that writes an outcome, if one does. It depends on the
      stored statuses alone: neither the dispatched mode nor the claim's attempt number takes part. */
  function RecordingBranch(saga: SagaStatus, step: StepStatus): Option<Mode> {
    if saga == Canceling then if Unsettled(step) then Some(Compensate) else None
    else if step == StepPending || step == StepRunning then Some(Execute) else None
  }

  /** The Update callback of updateClaimedStepAfterDispatch. */
  function Recorded(saga: Saga, index: int, failure: Option<string>, now: Time): Saga
    requires 0 <= index < |saga.steps|
  {
    match RecordingBranch(saga.status, saga.steps[index].status)
    case Some(Execute) => ExecutionRecorded(saga, index, failure, now)
    case Some(Compensate) => CompensationRecorded(saga, index, failure, now)
    case None => saga
  }
}

/** Cancelling a saga (internal/service/service.go). */
module Cancellation {
  import opened Domain
  import opened Recording

  datatype CancelError = CancelNotAllowed

  function SkipPending(step: Step, now: Time): Step {
    if step.status == StepPending then step.(status := StepCompensated, finishedAt := Some(now), error := "")
    else step
  }

  /** normalizeSagaForCancellation. */
  function Normalized(saga: Saga, now: Time): Saga {
    var s := saga.(steps := seq(|saga.steps|, i requires 0 <= i < |saga.steps| => SkipPending(saga.steps[i], now)));
    if s.status != Canceling then s
    else if HasFailedStep(s.steps) then s.(status := Advance(s.status, Failed))
    else if !HasPendingCompensation(s.steps) then s.(status := Advance(s.status, Compensated))
    else s
  }

  /** The Update callback of CancelSaga. */
  function Canceled(saga: Saga, now: Time): Result<Saga, CancelError> {
    match saga.status
    case Compensated => Ok(saga)
    case Failed => Err(CancelNotAllowed)
    case _ => Ok(Normalized(saga.(status := Canceling), now))
  }
}
