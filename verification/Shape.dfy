/** The shape that every saga keeps. Only how many steps of a FAILED saga are FAILED depends on the lock. */
module Shape {
  import opened Domain
  import opened Claiming
  import opened Starting
  import opened Recording
  import opened Cancellation

  /** COMPLETED*, then one open step, then PENDING*. */
  predicate ForwardAt(steps: seq<Step>, k: int) {
    && 0 <= k < |steps|
    && (forall j :: 0 <= j < k ==> steps[j].status == StepCompleted)
    && (steps[k].status == StepPending || steps[k].status == StepRunning)
    && (forall j :: k < j < |steps| ==> steps[j].status == StepPending)
  }

  /** `m` is the highest unsettled step, everything above it is COMPENSATED. */
  predicate UnwindingAt(steps: seq<Step>, m: int) {
    && 0 <= m < |steps|
    && Unsettled(steps[m].status)
    && (forall j :: m < j < |steps| ==> steps[j].status == StepCompensated)
    && (forall j :: 0 <= j < m ==> steps[j].status == StepCompleted || steps[j].status == StepCompensated)
  }

  predicate AllAre(steps: seq<Step>, status: StepStatus) {
    forall j :: 0 <= j < |steps| ==> steps[j].status == status
  }

  predicate OnlyFailureAt(steps: seq<Step>, f: int) {
    0 <= f < |steps| && forall j :: 0 <= j < |steps| ==> (steps[j].status == StepFailed <==> j == f)
  }

  /** The shape that every locker keeps: a FAILED saga has a FAILED step. */
  ghost predicate WeakShaped(saga: Saga) {
    && |saga.steps| > 0
    && match saga.status
       case Created => ForwardAt(saga.steps, 0)
       case Running => exists k :: k > 0 && ForwardAt(saga.steps, k)
       case Completed => AllAre(saga.steps, StepCompleted)
       case Canceling => exists m :: UnwindingAt(saga.steps, m)
       case Compensated => AllAre(saga.steps, StepCompensated)
       case Failed => HasFailedStep(saga.steps)
  }

  /** The shape that the exclusive lock keeps: a FAILED saga has exactly one. */
  ghost predicate Shaped(saga: Saga) {
    WeakShaped(saga) && (saga.status == Failed ==> exists f :: OnlyFailureAt(saga.steps, f))
  }

  /** A step has been handed out at least once unless it is PENDING or was skipped by a cancel. */
  predicate AttemptsCounted(steps: seq<Step>) {
    forall j :: 0 <= j < |steps| ==>
      && (steps[j].status == StepPending ==> steps[j].attempt == 0)
      && (Unsettled(steps[j].status) || steps[j].status == StepFailed ==> steps[j].attempt > 0)
  }

  // ----- what the shape says -----

  /** In flight: handed out and not yet reported. */
  predicate InFlight(status: StepStatus) {
    status == StepRunning || status == StepCompensating
  }

  /** What the saga status says about the steps, both ways, and that one step at most is in flight. */
  lemma StatusReflectsSteps(saga: Saga)
    requires WeakShaped(saga)
    ensures saga.status == Completed <==> AllAre(saga.steps, StepCompleted) && saga.status != Canceling
    ensures saga.status == Compensated <==> AllAre(saga.steps, StepCompensated)
    ensures saga.status == Failed <==> HasFailedStep(saga.steps)
    ensures Shaped(saga) && saga.status == Failed ==> exists f :: OnlyFailureAt(saga.steps, f)
    ensures saga.status != Failed ==>
      forall i, j :: 0 <= i < |saga.steps| && 0 <= j < |saga.steps| ==>
        InFlight(saga.steps[i].status) && InFlight(saga.steps[j].status) ==> i == j
  {
    var first := saga.steps[0];
    match saga.status
    case Running =>
      var k :| k > 0 && ForwardAt(saga.steps, k);
      assert saga.steps[k].status != StepCompleted;
    case Canceling =>
      var m :| UnwindingAt(saga.steps, m);
      assert saga.steps[m].status != StepCompensated;
    case _ =>
  }

  /** The one open step of a CREATED or RUNNING saga. */
  lemma OpenStep(saga: Saga) returns (k: int)
    requires WeakShaped(saga) && (saga.status == Created || saga.status == Running)
    ensures ForwardAt(saga.steps, k) && (saga.status == Created <==> k == 0)
  {
    if saga.status == Created { k := 0; } else { k :| k > 0 && ForwardAt(saga.steps, k); }
  }

  lemma TopStep(saga: Saga) returns (m: int)
    requires WeakShaped(saga) && saga.status == Canceling
    ensures UnwindingAt(saga.steps, m)
  {
    m :| UnwindingAt(saga.steps, m);
  }

  lemma TopIsUnique(steps: seq<Step>, m: int, n: int)
    requires UnwindingAt(steps, m) && UnwindingAt(steps, n)
    ensures m == n
  {
    if m < n { assert false; }
    if n < m { assert false; }
  }

  // ----- every operation keeps it -----

  lemma StartShaped(id: string, workflow: string, context: Json, requested: seq<StartStep>, now: Time)
    requires ValidRequest(workflow, requested)
    ensures var saga := NewSaga(id, workflow, context, requested, now);
            Shaped(saga) && AttemptsCounted(saga.steps) && AllAre(saga.steps, StepPending)
  {
  }

  /** A claim takes the open step of a forward saga and the top step of an unwinding one. */
  lemma ClaimKeepsShape(kind: StoreKind, saga: Saga, index: int, staleAfter: Time, now: Time)
    requires WeakShaped(saga) && AttemptsCounted(saga.steps) && Claimable(saga, index, staleAfter, now)
    ensures var saga' := ClaimWrite(kind, saga, index, now);
            && Shaped(saga') && AttemptsCounted(saga'.steps)
            && (saga.status == Canceling ==> UnwindingAt(saga.steps, index) && UnwindingAt(saga'.steps, index))
            && (saga.status != Canceling ==> ForwardAt(saga.steps, index) && ForwardAt(saga'.steps, index))
  {
    var saga' := ClaimWrite(kind, saga, index, now);
    if saga.status == Canceling {
      var m := TopStep(saga);
      assert index == m;
      assert UnwindingAt(saga'.steps, m);
    } else {
      var k := OpenStep(saga);
      assert index == k;
      assert ForwardAt(saga'.steps, k);
    }
  }

  lemma ExecutionKeepsShape(saga: Saga, index: int, failure: Option<string>, now: Time)
    requires WeakShaped(saga) && AttemptsCounted(saga.steps) && 0 <= index < |saga.steps|
    requires saga.status == Created || saga.status == Running
    requires saga.steps[index].status == StepRunning
    ensures var saga' := ExecutionRecorded(saga, index, failure, now);
            && Shaped(saga') && AttemptsCounted(saga'.steps)
            && (failure.Some? ==> saga'.status == Failed && OnlyFailureAt(saga'.steps, index))
            && (failure.None? ==> saga'.status == if index == |saga.steps| - 1 then Completed else Running)
  {
    var saga' := ExecutionRecorded(saga, index, failure, now);
    var k := OpenStep(saga);
    assert index == k;
    if failure.Some? {
      assert saga'.steps[index].status == StepFailed;
      assert OnlyFailureAt(saga'.steps, index);
    } else if k == |saga.steps| - 1 {
      assert AllStepsCompleted(saga'.steps);
    } else {
      assert saga'.steps[k + 1].status == StepPending;
      assert ForwardAt(saga'.steps, k + 1);
    }
  }

  lemma CompensationKeepsShape(saga: Saga, index: int, failure: Option<string>, now: Time)
    requires WeakShaped(saga) && AttemptsCounted(saga.steps) && 0 <= index < |saga.steps|
    requires saga.status == Canceling && Unsettled(saga.steps[index].status)
    ensures var saga' := CompensationRecorded(saga, index, failure, now);
            && Shaped(saga') && AttemptsCounted(saga'.steps)
            && (failure.Some? ==> saga'.status == Failed && OnlyFailureAt(saga'.steps, index))
            && (failure.None? ==> saga'.status == Canceling || saga'.status == Compensated)
  {
    var saga' := CompensationRecorded(saga, index, failure, now);
    var m := TopStep(saga);
    if failure.Some? {
      assert saga'.steps[index].status == StepFailed;
      assert OnlyFailureAt(saga'.steps, index);
    } else {
      SettlingKeepsUnwinding(saga.steps, saga'.steps, m, index);
    }
  }

  /** Compensating any unsettled step leaves a highest unsettled step, or none. */
  lemma SettlingKeepsUnwinding(steps: seq<Step>, steps': seq<Step>, m: int, index: int)
    requires UnwindingAt(steps, m) && 0 <= index < |steps| == |steps'|
    requires forall j :: 0 <= j < |steps| ==>
      steps'[j].status == if j == index then StepCompensated else steps[j].status
    ensures if HasPendingCompensation(steps') then exists n :: UnwindingAt(steps', n)
            else AllAre(steps', StepCompensated)
    ensures !HasFailedStep(steps')
  {
    if HasPendingCompensation(steps') {
      var n := HighestUnsettled(steps', |steps'|);
      assert UnwindingAt(steps', n);
    }
  }

  /** With the no-op locker an outcome may be recorded on a RUNNING step of a FAILED saga. */
  lemma FailedKeepsShape(saga: Saga, index: int, failure: Option<string>, now: Time)
    requires WeakShaped(saga) && AttemptsCounted(saga.steps) && saga.status == Failed
    requires 0 <= index < |saga.steps| && saga.steps[index].status == StepRunning
    ensures var saga' := ExecutionRecorded(saga, index, failure, now);
            WeakShaped(saga') && AttemptsCounted(saga'.steps) && saga'.status == Failed
  {
    var saga' := ExecutionRecorded(saga, index, failure, now);
    var f :| 0 <= f < |saga.steps| && saga.steps[f].status == StepFailed;
    assert saga'.steps[f].status == StepFailed;
  }

  /** Whatever outcome is recorded on a step that was handed out, whoever holds the lock. */
  lemma RecordKeepsShape(saga: Saga, index: int, failure: Option<string>, now: Time)
    requires WeakShaped(saga) && AttemptsCounted(saga.steps)
    requires 0 <= index < |saga.steps| && saga.steps[index].status != StepPending
    ensures var saga' := Recorded(saga, index, failure, now);
            WeakShaped(saga') && AttemptsCounted(saga'.steps) && (saga.status != Failed ==> Shaped(saga'))
  {
    match RecordingBranch(saga.status, saga.steps[index].status)
    case Some(Execute) =>
      if saga.status == Failed {
        FailedKeepsShape(saga, index, failure, now);
      } else {
        ExecutionKeepsShape(saga, index, failure, now);
      }
    case Some(Compensate) => CompensationKeepsShape(saga, index, failure, now);
    case None =>
  }

  lemma HighestUnsettled(steps: seq<Step>, bound: nat) returns (n: int)
    requires bound <= |steps|
    requires exists i :: 0 <= i < bound && Unsettled(steps[i].status)
    ensures 0 <= n < bound && Unsettled(steps[n].status)
    ensures forall j :: n < j < bound ==> !Unsettled(steps[j].status)
  {
    if Unsettled(steps[bound - 1].status) { n := bound - 1; } else { n := HighestUnsettled(steps, bound - 1); }
  }

  /** What normalisation does to each step, and when it settles the saga. */
  lemma NormalizedSteps(saga: Saga, now: Time)
    requires saga.status == Canceling
    ensures var saga' := Normalized(saga, now);
      && |saga'.steps| == |saga.steps|
      && (forall j :: 0 <= j < |saga.steps| ==> saga'.steps[j] == SkipPending(saga.steps[j], now))
      && saga' == saga.(steps := saga'.steps, status := saga'.status)
      && saga'.status == if HasFailedStep(saga'.steps) then Failed
                         else if HasPendingCompensation(saga'.steps) then Canceling
                         else Compensated
  {
  }

  lemma CancelForwardKeepsShape(saga: Saga, now: Time)
    requires WeakShaped(saga) && (saga.status == Created || saga.status == Running)
    ensures var saga' := Normalized(saga.(status := Canceling), now);
            Shaped(saga') && (saga'.status == Canceling || saga'.status == Compensated)
  {
    NormalizedSteps(saga.(status := Canceling), now);
    var saga' := Normalized(saga.(status := Canceling), now);
    var k := OpenStep(saga);
    if saga.steps[k].status == StepRunning {
      assert UnwindingAt(saga'.steps, k);
    } else if k > 0 {
      assert UnwindingAt(saga'.steps, k - 1);
    }
  }

  lemma CancelKeepsShape(saga: Saga, now: Time)
    requires WeakShaped(saga) && AttemptsCounted(saga.steps) && saga.status != Failed
    ensures Canceled(saga, now).Ok?
    ensures var saga' := Canceled(saga, now).value;
            && Shaped(saga') && AttemptsCounted(saga'.steps)
            && (saga'.status == Canceling || saga'.status == Compensated)
  {
    if saga.status != Compensated {
      NormalizedSteps(saga.(status := Canceling), now);
      var saga' := Canceled(saga, now).value;
      if saga.status == Created || saga.status == Running {
        CancelForwardKeepsShape(saga, now);
      } else {
        var m := |saga.steps| - 1;
        if saga.status == Canceling { m := TopStep(saga); }
        assert UnwindingAt(saga'.steps, m);
        assert Unsettled(saga'.steps[m].status);
      }
    }
  }

  // ----- cancelling -----

  /** Cancelling again changes nothing more, a cancel never ends in FAILED, and it ends in
      COMPENSATED at once exactly when nothing was ever handed out or the unwinding is over. */
  lemma CancelIsIdempotent(saga: Saga, now: Time, later: Time)
    requires WeakShaped(saga) && AttemptsCounted(saga.steps)
    ensures Canceled(saga, now).Err? <==> saga.status == Failed
    ensures Canceled(saga, now).Ok? ==>
      var saga' := Canceled(saga, now).value;
      && Canceled(saga', later) == Ok(saga')
      && (saga'.status == Canceling || saga'.status == Compensated)
      && (saga'.status == Compensated <==>
          saga.status == Compensated || forall j :: 0 <= j < |saga.steps| ==> saga.steps[j].attempt == 0)
  {
    if saga.status != Failed {
      CancelKeepsShape(saga, now);
      var saga' := Canceled(saga, now).value;
      if saga'.status == Canceling {
        var m := TopStep(saga');
        NormalizedSteps(saga.(status := Canceling), now);
        NormalizedSteps(saga', later);
        var saga'' := Canceled(saga', later).value;
        assert saga''.steps == saga'.steps;
        assert saga'.steps[m].attempt == saga.steps[m].attempt > 0;
      } else if saga.status != Compensated {
        NormalizedSteps(saga.(status := Canceling), now);
      }
    }
  }

  /** All steps COMPLETED does not mean COMPLETED: cancelling a COMPLETED saga leaves every step as it is
      until the first compensation claim. */
  lemma CanceledCompletedSaga(saga: Saga, now: Time)
    requires |saga.steps| > 0 && saga.status == Completed && AllAre(saga.steps, StepCompleted)
    ensures Canceled(saga, now) == Ok(saga.(status := Canceling))
  {
    NormalizedSteps(saga.(status := Canceling), now);
    assert Normalized(saga.(status := Canceling), now).steps == saga.steps;
    assert Unsettled(saga.steps[0].status);
  }

  // ----- no saga is stuck -----

  /** A saga that is not terminal offers a step as soon as its claimed steps have gone stale. */
  lemma UnfinishedIsClaimable(saga: Saga, staleAfter: Time, now: Time) returns (index: int)
    requires WeakShaped(saga) && !IsTerminal(saga.status)
    requires forall j :: 0 <= j < |saga.steps| ==>
      && (saga.steps[j].status == StepRunning ==> IsStale(saga.steps[j], StepRunning, staleAfter, now))
      && (saga.steps[j].status == StepCompensating ==> IsStale(saga.steps[j], StepCompensating, staleAfter, now))
    ensures Claimable(saga, index, staleAfter, now)
  {
    if saga.status == Canceling { index := TopStep(saga); } else { index := OpenStep(saga); }
  }
}
