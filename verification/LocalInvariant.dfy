/** One saga with its calls and the phase of its lock holder: the invariant that ties them together,
    and what each protocol action does to them. */
module LocalInvariant {
  import opened Domain
  import opened Claiming
  import opened Starting
  import opened Recording
  import opened Cancellation
  import opened Shape
  import opened Protocol
  import opened History

  datatype Local = Local(saga: Saga, calls: seq<Call>, holder: Phase)

  predicate IsForward(status: SagaStatus) { status == Created || status == Running }

  // ----- the calls of a saga -----

  ghost predicate Executed(calls: seq<Call>, step: int) {
    exists p :: 0 <= p < |calls| && calls[p] == Call(step, Execute, true)
  }

  predicate NeverExecuted(calls: seq<Call>, step: int) {
    forall p :: 0 <= p < |calls| ==> !(calls[p].step == step && calls[p].mode == Execute)
  }

  /** A successful Compensate comes after the last Execute of the step. */
  ghost predicate CompensatedAfterExecute(calls: seq<Call>, step: int) {
    exists p :: 0 <= p < |calls| && calls[p] == Call(step, Compensate, true) && NeverExecuted(calls[p..], step)
  }

  /** An Execute of a step comes after a successful Execute of each earlier step. */
  ghost predicate ExecutedInOrder(calls: seq<Call>) {
    forall p, i :: 0 <= p < |calls| && 0 <= i < calls[p].step && calls[p].mode == Execute ==> Executed(calls[..p], i)
  }

  predicate OnlyExecutes(calls: seq<Call>) {
    forall p :: 0 <= p < |calls| ==> calls[p].mode == Execute
  }

  predicate NoExecuteAfterCompensate(calls: seq<Call>) {
    forall p, q :: 0 <= p < q < |calls| && calls[p].mode == Compensate ==> calls[q].mode == Compensate
  }

  ghost predicate CallsMatchSteps(saga: Saga, calls: seq<Call>) {
    && (forall p :: 0 <= p < |calls| ==>
          0 <= calls[p].step < |saga.steps| && saga.steps[calls[p].step].status != StepPending)
    && (forall i :: 0 <= i < |saga.steps| && saga.steps[i].status == StepCompleted ==> Executed(calls, i))
    && (forall i :: 0 <= i < |saga.steps| && saga.steps[i].status == StepCompensated ==>
          NeverExecuted(calls, i) || CompensatedAfterExecute(calls, i))
  }

  ghost predicate CallsMatchStatus(saga: Saga, calls: seq<Call>) {
    && (IsForward(saga.status) || saga.status == Completed ==> OnlyExecutes(calls))
    && (saga.status == Failed ==> FailedByLastCall(saga, calls))
  }

  /** The saga failed because its last call failed, and nothing was called since. */
  predicate FailedByLastCall(saga: Saga, calls: seq<Call>) {
    && |calls| > 0
    && var last := calls[|calls| - 1];
       !last.ok && 0 <= last.step < |saga.steps| && saga.steps[last.step].status == StepFailed
  }

  ghost predicate CallsOk(saga: Saga, calls: seq<Call>) {
    && CallsMatchSteps(saga, calls)
    && CallsMatchStatus(saga, calls)
    && ExecutedInOrder(calls)
    && NoExecuteAfterCompensate(calls)
  }

  // ----- the lock holder -----

  /** The stored saga is still where the loaded mode came from. */
  predicate ModeAgrees(saga: Saga, index: int, mode: Mode) {
    && 0 <= index < |saga.steps|
    && match mode
       case Execute => IsForward(saga.status) && saga.steps[index].status == StepRunning
       case Compensate => saga.status == Canceling && Unsettled(saga.steps[index].status)
  }

  predicate HolderOk(l: Local) {
    match l.holder
    case Loaded(claim, mode) => ModeAgrees(l.saga, claim.stepIndex, mode)
    case Dispatched(claim, mode, failure) =>
      && ModeAgrees(l.saga, claim.stepIndex, mode)
      && |l.calls| > 0 && l.calls[|l.calls| - 1] == Call(claim.stepIndex, mode, failure.None?)
    case _ => true
  }

  ghost predicate SagaOk(saga: Saga, calls: seq<Call>) {
    Shaped(saga) && AttemptsCounted(saga.steps) && CallsOk(saga, calls)
  }

  ghost predicate LocalInv(l: Local) {
    SagaOk(l.saga, l.calls) && HolderOk(l)
  }

  // ----- progress -----

  /** On top of its history, a saga that is COMPENSATED or FAILED is frozen. */
  ghost predicate SagaProgress(a: Saga, b: Saga) {
    && SagaHistory(a, b)
    && (a.status == Compensated || a.status == Failed ==> b == a.(updatedAt := b.updatedAt))
  }

  /** Calls are only added, no Execute is added once the saga has left CREATED and RUNNING, and none
      at all once it is COMPENSATED or FAILED. */
  predicate CallsProgress(status: SagaStatus, a: seq<Call>, b: seq<Call>) {
    && a <= b
    && (!IsForward(status) ==> forall p :: |a| <= p < |b| ==> b[p].mode == Compensate)
    && (status == Compensated || status == Failed ==> b == a)
  }

  ghost predicate LocalProgress(a: Local, b: Local) {
    SagaProgress(a.saga, b.saga) && CallsProgress(a.saga.status, a.calls, b.calls)
  }

  lemma StutterProgress(l: Local, holder: Phase)
    ensures LocalProgress(l, l.(holder := holder))
  {
    StutterHistory(l.saga);
  }

  lemma SagaProgressTransitive(a: Saga, b: Saga, c: Saga)
    requires SagaProgress(a, b) && SagaProgress(b, c)
    ensures SagaProgress(a, c)
  {
    HistoryTransitive(a, b, c);
  }

  lemma CallsProgressTransitive(a: Local, b: Local, c: Local)
    requires Reaches(a.saga.status, b.saga.status)
    requires CallsProgress(a.saga.status, a.calls, b.calls) && CallsProgress(b.saga.status, b.calls, c.calls)
    ensures CallsProgress(a.saga.status, a.calls, c.calls)
  {
    DeadEnds(a.saga.status, b.saga.status);
    forall p | |a.calls| <= p < |c.calls| && !IsForward(a.saga.status)
      ensures c.calls[p].mode == Compensate
    {
      if p < |b.calls| { assert c.calls[p] == b.calls[p]; }
    }
  }

  lemma ProgressTransitive(a: Local, b: Local, c: Local)
    requires LocalProgress(a, b) && LocalProgress(b, c)
    ensures LocalProgress(a, c)
  {
    SagaProgressTransitive(a.saga, b.saga, c.saga);
    CallsProgressTransitive(a, b, c);
  }

  // ----- the actions, one saga at a time -----

  lemma StartLocal(id: string, workflow: string, context: Json, requested: seq<StartStep>, now: Time)
    requires ValidRequest(workflow, requested)
    ensures LocalInv(Local(NewSaga(id, workflow, context, requested, now), [], Idle))
  {
    StartShaped(id, workflow, context, requested, now);
  }

  lemma ClaimKeepsCalls(kind: StoreKind, saga: Saga, calls: seq<Call>, index: int, staleAfter: Time, now: Time)
    requires SagaOk(saga, calls) && Claimable(saga, index, staleAfter, now)
    ensures SagaOk(ClaimWrite(kind, saga, index, now), calls)
  {
    ClaimKeepsShape(kind, saga, index, staleAfter, now);
    OneStepKeepsCalls(saga, ClaimWrite(kind, saga, index, now), index, calls);
  }

  /** A claim never disturbs the lock holder, whatever it is doing. */
  lemma ClaimLocal(kind: StoreKind, l: Local, index: int, staleAfter: Time, now: Time)
    requires LocalInv(l) && Claimable(l.saga, index, staleAfter, now)
    ensures var l' := l.(saga := ClaimWrite(kind, l.saga, index, now));
            LocalInv(l') && LocalProgress(l, l')
  {
    ClaimKeepsCalls(kind, l.saga, l.calls, index, staleAfter, now);
    ClaimHistory(kind, l.saga, index, staleAfter, now);
  }

  lemma LoadLocal(l: Local, claim: Claim)
    requires LocalInv(l)
    requires 0 <= claim.stepIndex < |l.saga.steps| && l.saga.steps[claim.stepIndex].status != StepPending
    requires DispatchMode(l.saga.status, l.saga.steps[claim.stepIndex].status).Some?
    ensures var mode := DispatchMode(l.saga.status, l.saga.steps[claim.stepIndex].status).value;
            var l' := l.(holder := Loaded(claim, mode));
            LocalInv(l') && LocalProgress(l, l')
  {
    StutterProgress(l, Loaded(claim, DispatchMode(l.saga.status, l.saga.steps[claim.stepIndex].status).value));
  }

  lemma DispatchLocal(l: Local, failure: Option<string>)
    requires LocalInv(l) && l.holder.Loaded?
    ensures var Loaded(claim, mode) := l.holder;
            var l' := l.(calls := l.calls + [Call(claim.stepIndex, mode, failure.None?)],
                         holder := Dispatched(claim, mode, failure));
            LocalInv(l') && LocalProgress(l, l')
  {
    var Loaded(claim, mode) := l.holder;
    var call := Call(claim.stepIndex, mode, failure.None?);
    StutterProgress(l, Dispatched(claim, mode, failure));
    AddCallKeepsSteps(l, call);
    AddCallKeepsOrder(l, call);
  }

  lemma AddCallKeepsSteps(l: Local, call: Call)
    requires LocalInv(l) && ModeAgrees(l.saga, call.step, call.mode)
    ensures CallsMatchSteps(l.saga, l.calls + [call])
  {
    var calls' := l.calls + [call];
    forall i | 0 <= i < |l.saga.steps| && l.saga.steps[i].status == StepCompleted
      ensures Executed(calls', i)
    {
      var p :| 0 <= p < |l.calls| && l.calls[p] == Call(i, Execute, true);
      assert calls'[p] == Call(i, Execute, true);
    }
    forall i | 0 <= i < |l.saga.steps| && l.saga.steps[i].status == StepCompensated
      ensures NeverExecuted(calls', i) || CompensatedAfterExecute(calls', i)
    {
      assert i != call.step;
      if !NeverExecuted(l.calls, i) {
        var p :| 0 <= p < |l.calls| && l.calls[p] == Call(i, Compensate, true) && NeverExecuted(l.calls[p..], i);
        assert calls'[p..] == l.calls[p..] + [call];
        assert calls'[p] == Call(i, Compensate, true) && NeverExecuted(calls'[p..], i);
      }
    }
  }

  lemma AddCallKeepsOrder(l: Local, call: Call)
    requires LocalInv(l) && ModeAgrees(l.saga, call.step, call.mode)
    ensures ExecutedInOrder(l.calls + [call]) && NoExecuteAfterCompensate(l.calls + [call])
  {
    var calls' := l.calls + [call];
    forall p, i | 0 <= p < |calls'| && 0 <= i < calls'[p].step && calls'[p].mode == Execute
      ensures Executed(calls'[..p], i)
    {
      assert calls'[..p] == l.calls[..p];
      if p == |l.calls| {
        var k := OpenStep(l.saga);
        assert l.calls[..p] == l.calls;
        assert l.saga.steps[i].status == StepCompleted;
      } else {
        assert calls'[p] == l.calls[p];
      }
    }
  }

  /** Mode agreement: the update takes the branch of the mode that was dispatched. */
  lemma RecordTakesItsBranch(l: Local, now: Time)
    requires LocalInv(l) && l.holder.Dispatched?
    ensures 0 <= l.holder.claim.stepIndex < |l.saga.steps|
    ensures Recorded(l.saga, l.holder.claim.stepIndex, l.holder.failure, now) ==
      match l.holder.mode
      case Execute => ExecutionRecorded(l.saga, l.holder.claim.stepIndex, l.holder.failure, now)
      case Compensate => CompensationRecorded(l.saga, l.holder.claim.stepIndex, l.holder.failure, now)
  {
  }

  /** One step gets an outcome that the calls account for. */
  lemma OneStepKeepsCalls(saga: Saga, saga': Saga, i: int, calls: seq<Call>)
    requires CallsMatchSteps(saga, calls) && 0 <= i < |saga.steps| == |saga'.steps|
    requires forall j :: 0 <= j < |saga.steps| && j != i ==> saga'.steps[j] == saga.steps[j]
    requires saga'.steps[i].status != StepPending
    requires saga'.steps[i].status == StepCompleted ==> Executed(calls, i)
    requires saga'.steps[i].status == StepCompensated ==> CompensatedAfterExecute(calls, i)
    ensures CallsMatchSteps(saga', calls)
  {
  }

  /** What recording writes: one step, in its final status, and a saga status that follows. */
  predicate OutcomeWritten(saga: Saga, saga': Saga, i: int, mode: Mode, ok: bool)
    requires 0 <= i < |saga.steps|
  {
    && |saga'.steps| == |saga.steps|
    && (forall j :: 0 <= j < |saga.steps| && j != i ==> saga'.steps[j] == saga.steps[j])
    && saga'.steps[i].status == (if !ok then StepFailed else if mode == Execute then StepCompleted else StepCompensated)
    && (if !ok then saga'.status == Failed
        else if mode == Execute then saga'.status == Running || saga'.status == Completed
        else saga'.status == Canceling || saga'.status == Compensated)
  }

  /** The calls account for the recorded outcome: its call was the last one. */
  lemma OutcomeMatchesSteps(saga: Saga, saga': Saga, calls: seq<Call>, i: int, mode: Mode, ok: bool)
    requires CallsMatchSteps(saga, calls) && 0 <= i < |saga.steps| && OutcomeWritten(saga, saga', i, mode, ok)
    requires |calls| > 0 && calls[|calls| - 1] == Call(i, mode, ok)
    ensures CallsMatchSteps(saga', calls)
  {
    if mode == Compensate && ok { LastCallCompensates(calls, i); }
    OneStepKeepsCalls(saga, saga', i, calls);
  }

  lemma OutcomeMatchesStatus(saga: Saga, saga': Saga, calls: seq<Call>, i: int, mode: Mode, ok: bool)
    requires CallsMatchStatus(saga, calls) && ModeAgrees(saga, i, mode) && OutcomeWritten(saga, saga', i, mode, ok)
    requires |calls| > 0 && calls[|calls| - 1] == Call(i, mode, ok)
    ensures CallsMatchStatus(saga', calls)
  {
  }

  lemma OutcomeKeepsCalls(l: Local, saga': Saga)
    requires LocalInv(l) && l.holder.Dispatched?
    requires OutcomeWritten(l.saga, saga', l.holder.claim.stepIndex, l.holder.mode, l.holder.failure.None?)
    ensures CallsOk(saga', l.calls)
  {
    var Dispatched(claim, mode, failure) := l.holder;
    OutcomeMatchesSteps(l.saga, saga', l.calls, claim.stepIndex, mode, failure.None?);
    OutcomeMatchesStatus(l.saga, saga', l.calls, claim.stepIndex, mode, failure.None?);
  }

  lemma RecordExecution(l: Local, now: Time)
    requires LocalInv(l) && l.holder.Dispatched? && l.holder.mode == Execute
    ensures SagaOk(ExecutionRecorded(l.saga, l.holder.claim.stepIndex, l.holder.failure, now), l.calls)
  {
    ExecutionKeepsShape(l.saga, l.holder.claim.stepIndex, l.holder.failure, now);
    OutcomeKeepsCalls(l, ExecutionRecorded(l.saga, l.holder.claim.stepIndex, l.holder.failure, now));
  }

  lemma RecordCompensation(l: Local, now: Time)
    requires LocalInv(l) && l.holder.Dispatched? && l.holder.mode == Compensate
    ensures SagaOk(CompensationRecorded(l.saga, l.holder.claim.stepIndex, l.holder.failure, now), l.calls)
  {
    CompensationKeepsShape(l.saga, l.holder.claim.stepIndex, l.holder.failure, now);
    OutcomeKeepsCalls(l, CompensationRecorded(l.saga, l.holder.claim.stepIndex, l.holder.failure, now));
  }

  /** The update time plays no part in it. */
  lemma StampKeeps(saga: Saga, calls: seq<Call>, now: Time)
    requires SagaOk(saga, calls)
    ensures SagaOk(saga.(updatedAt := now), calls)
  {
  }

  lemma RecordLocal(l: Local, now: Time)
    requires LocalInv(l) && l.holder.Dispatched?
    ensures 0 <= l.holder.claim.stepIndex < |l.saga.steps|
    ensures var l' := Local(Recorded(l.saga, l.holder.claim.stepIndex, l.holder.failure, now).(updatedAt := now),
                            l.calls, Done(l.holder.claim.sagaId));
            LocalInv(l') && LocalProgress(l, l')
  {
    RecordTakesItsBranch(l, now);
    if l.holder.mode == Execute { RecordExecution(l, now); } else { RecordCompensation(l, now); }
    StampKeeps(Recorded(l.saga, l.holder.claim.stepIndex, l.holder.failure, now), l.calls, now);
    RecordedHistory(l.saga, l.holder.claim.stepIndex, l.holder.failure, now);
  }

  lemma LastCallCompensates(calls: seq<Call>, step: int)
    requires |calls| > 0 && calls[|calls| - 1] == Call(step, Compensate, true)
    ensures CompensatedAfterExecute(calls, step)
  {
    var p := |calls| - 1;
    assert calls[p] == Call(step, Compensate, true) && NeverExecuted(calls[p..], step);
  }

  /** Skipping the PENDING steps is safe: none of them was ever called. */
  lemma SkippingKeepsCalls(saga: Saga, saga': Saga, calls: seq<Call>, now: Time)
    requires CallsMatchSteps(saga, calls) && |saga'.steps| == |saga.steps|
    requires forall j :: 0 <= j < |saga.steps| ==> saga'.steps[j] == SkipPending(saga.steps[j], now)
    ensures CallsMatchSteps(saga', calls)
  {
  }

  lemma CancelKeepsCalls(saga: Saga, calls: seq<Call>, now: Time)
    requires SagaOk(saga, calls) && saga.status != Failed
    ensures Canceled(saga, now).Ok? && SagaOk(Canceled(saga, now).value, calls)
  {
    CancelKeepsShape(saga, now);
    if saga.status != Compensated {
      NormalizedSteps(saga.(status := Canceling), now);
      SkippingKeepsCalls(saga, Canceled(saga, now).value, calls, now);
    }
  }

  lemma CancelLocal(l: Local, now: Time)
    requires LocalInv(l) && l.holder.Canceller? && l.saga.status != Failed
    ensures Canceled(l.saga, now).Ok?
    ensures var l' := Local(Canceled(l.saga, now).value.(updatedAt := now), l.calls, Done(l.holder.target));
            LocalInv(l') && LocalProgress(l, l')
  {
    CancelKeepsCalls(l.saga, l.calls, now);
    StampKeeps(Canceled(l.saga, now).value, l.calls, now);
    CanceledHistory(l.saga, now);
  }

  // ----- all of them as one step relation -----

  /** What an action of the protocol means for the saga it is about. */
  datatype Event =
    | Claimed(index: int)
    | Loads(claim: Claim)
    | Dispatches(failure: Option<string>)
    | Records
    | Cancels
    | HolderBecomes(phase: Phase)

  predicate Possible(cfg: Config, now: Time, l: Local, e: Event) {
    match e
    case Claimed(index) => Claimable(l.saga, index, cfg.staleAfter, now)
    case Loads(claim) =>
      && 0 <= claim.stepIndex < |l.saga.steps| && l.saga.steps[claim.stepIndex].status != StepPending
      && DispatchMode(l.saga.status, l.saga.steps[claim.stepIndex].status).Some?
    case Dispatches(_) => l.holder.Loaded?
    case Records => l.holder.Dispatched? && 0 <= l.holder.claim.stepIndex < |l.saga.steps|
    case Cancels => l.holder.Canceller?
    case HolderBecomes(phase) => phase == l.holder || !(phase.Loaded? || phase.Dispatched?)
  }

  function After(cfg: Config, now: Time, l: Local, e: Event): Local
    requires Possible(cfg, now, l, e)
  {
    match e
    case Claimed(index) => l.(saga := ClaimWrite(cfg.store, l.saga, index, now))
    case Loads(claim) =>
      l.(holder := Loaded(claim, DispatchMode(l.saga.status, l.saga.steps[claim.stepIndex].status).value))
    case Dispatches(failure) =>
      var Loaded(claim, mode) := l.holder;
      l.(calls := l.calls + [Call(claim.stepIndex, mode, failure.None?)], holder := Dispatched(claim, mode, failure))
    case Records =>
      var Dispatched(claim, _, failure) := l.holder;
      Local(Recorded(l.saga, claim.stepIndex, failure, now).(updatedAt := now), l.calls, Done(claim.sagaId))
    case Cancels =>
      var canceled := Canceled(l.saga, now);
      if canceled.Ok? then Local(canceled.value.(updatedAt := now), l.calls, Done(l.holder.target))
      else l.(holder := Done(l.holder.target))
    case HolderBecomes(phase) => l.(holder := phase)
  }

  lemma LocalStep(cfg: Config, now: Time, l: Local, e: Event)
    requires LocalInv(l) && Possible(cfg, now, l, e)
    ensures LocalInv(After(cfg, now, l, e)) && LocalProgress(l, After(cfg, now, l, e))
  {
    match e
    case Claimed(index) => ClaimLocal(cfg.store, l, index, cfg.staleAfter, now);
    case Loads(claim) => LoadLocal(l, claim);
    case Dispatches(failure) => DispatchLocal(l, failure);
    case Records => RecordLocal(l, now);
    case Cancels =>
      if l.saga.status == Failed { StutterProgress(l, Done(l.holder.target)); } else { CancelLocal(l, now); }
    case HolderBecomes(phase) => StutterProgress(l, phase);
  }
}
