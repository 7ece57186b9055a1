/** The callbacks that change a stored saga in place (internal/service/step_runner.go,
    internal/service/service.go). Each is proved against the function that the protocol uses. */
module StepRunner {
  import opened Domain
  import opened Claiming
  import opened Recording
  import opened Cancellation

  datatype RunnerError = ClaimedStepIndexOutOfBounds

  /** The saga that a store hands to an update callback: status and steps change, the rest does not. */
  class Candidate {
    const rest: Saga
    var status: SagaStatus
    var steps: seq<Step>

    constructor (saga: Saga)
      ensures Value() == saga
    {
      rest := saga;
      status := saga.status;
      steps := saga.steps;
    }

    function Value(): Saga
      reads this
    {
      rest.(status := status, steps := steps)
    }

    // ----- scans -----

    method ScanAllCompleted() returns (all: bool)
      ensures all <==> AllStepsCompleted(steps)
      ensures all <==> |steps| > 0 && forall j :: 0 <= j < |steps| ==> steps[j].status == StepCompleted
    {
      if |steps| == 0 { return false; }
      for i := 0 to |steps|
        invariant forall j :: 0 <= j < i ==> steps[j].status == StepCompleted
      {
        if steps[i].status != StepCompleted { return false; }
      }
      return true;
    }

    method ScanFailed() returns (found: bool)
      ensures found <==> HasFailedStep(steps)
      ensures found <==> exists j :: 0 <= j < |steps| && steps[j].status == StepFailed
    {
      for i := 0 to |steps|
        invariant forall j :: 0 <= j < i ==> steps[j].status != StepFailed
      {
        if steps[i].status == StepFailed { return true; }
      }
      return false;
    }

    method ScanPendingCompensation() returns (found: bool)
      ensures found <==> HasPendingCompensation(steps)
      ensures found <==>
        exists j :: 0 <= j < |steps| && steps[j].status in {StepCompleted, StepRunning, StepCompensating}
    {
      for i := 0 to |steps|
        invariant forall j :: 0 <= j < i ==> !Unsettled(steps[j].status)
      {
        if || steps[i].status == StepCompleted || steps[i].status == StepRunning
           || steps[i].status == StepCompensating { return true; }
      }
      return false;
    }

    // ----- recording an outcome -----

    method FinishStep(index: nat, to: StepStatus, error: string, now: Time)
      requires index < |steps|
      modifies this`steps
      ensures Value() == Finished(old(Value()), index, to, error, now)
      ensures |steps| == |old(steps)| && forall j :: 0 <= j < |steps| && j != index ==> steps[j] == old(steps)[j]
      ensures steps[index] == old(steps)[index].(status := to, finishedAt := Some(now), error := error)
    {
      steps := steps[index := steps[index].(status := to, finishedAt := Some(now), error := error)];
    }

    method ApplyDispatchResult(index: nat, failure: Option<string>, now: Time)
      requires index < |steps|
      modifies this
      ensures Value() == ExecutionRecorded(old(Value()), index, failure, now)
      ensures |steps| == |old(steps)| && forall j :: 0 <= j < |steps| && j != index ==> steps[j] == old(steps)[j]
      ensures steps[index] == old(steps)[index].(
        status := if failure.Some? then StepFailed else StepCompleted,
        finishedAt := Some(now),
        error := if failure.Some? then failure.value else "")
      ensures var forward := if old(status) == Created && failure.None? then Running else old(status);
        status == if exists j :: 0 <= j < |steps| && steps[j].status == StepFailed
                  then if forward == Completed || forward == Compensated then forward else Failed
                  else if forward == Running && forall j :: 0 <= j < |steps| ==> steps[j].status == StepCompleted
                  then Completed else forward
    {
      if failure.Some? {
        FinishStep(index, StepFailed, failure.value, now);
        if CanTransition(status, Failed) { status := Failed; }
        return;
      }
      FinishStep(index, StepCompleted, "", now);
      if status == Created && CanTransition(status, Running) { status := Running; }
      var failed := ScanFailed();
      if failed && CanTransition(status, Failed) {
        status := Failed;
        return;
      }
      var completed := ScanAllCompleted();
      if completed && CanTransition(status, Completed) { status := Completed; }
    }

    method ApplyCompensationResult(index: nat, failure: Option<string>, now: Time)
      requires index < |steps|
      modifies this
      ensures Value() == CompensationRecorded(old(Value()), index, failure, now)
      ensures |steps| == |old(steps)| && forall j :: 0 <= j < |steps| && j != index ==> steps[j] == old(steps)[j]
      ensures steps[index] == old(steps)[index].(
        status := if failure.Some? then StepFailed else StepCompensated,
        finishedAt := Some(now),
        error := if failure.Some? then failure.value else "")
      ensures status == if exists j :: 0 <= j < |steps| && steps[j].status == StepFailed
                        then if old(status) == Completed || old(status) == Compensated then old(status) else Failed
                        else if old(status) == Canceling && forall j :: 0 <= j < |steps| ==>
                                  steps[j].status !in {StepCompleted, StepRunning, StepCompensating}
                        then Compensated else old(status)
    {
      if failure.Some? {
        FinishStep(index, StepFailed, failure.value, now);
        if CanTransition(status, Failed) { status := Failed; }
        return;
      }
      FinishStep(index, StepCompensated, "", now);
      var failed := ScanFailed();
      if failed {
        if CanTransition(status, Failed) { status := Failed; }
        return;
      }
      var pending := ScanPendingCompensation();
      if !pending && CanTransition(status, Compensated) { status := Compensated; }
    }

    /** Which steps take an outcome: any that is not settled while the saga is CANCELING, else one that is
        PENDING or RUNNING. */
    ghost predicate Takes(index: int)
      reads this
    {
      && 0 <= index < |steps|
      && var step := steps[index].status;
         if status == Canceling then step != StepPending && step != StepCompensated && step != StepFailed
         else step == StepPending || step == StepRunning
    }

    /** The callback of updateClaimedStepAfterDispatch. */
    method UpdateAfterDispatch(index: int, failure: Option<string>, now: Time) returns (err: Option<RunnerError>)
      modifies this
      ensures err.None? <==> 0 <= index < old(|steps|)
      ensures err.None? ==> Value() == Recorded(old(Value()), index, failure, now)
      ensures !old(Takes(index)) ==> Value() == old(Value())
      ensures old(Takes(index)) ==>
        && |steps| == |old(steps)| && (forall j :: 0 <= j < |steps| && j != index ==> steps[j] == old(steps)[j])
        && steps[index] == old(steps)[index].(
             status := if failure.Some? then StepFailed
                       else if old(status) == Canceling then StepCompensated else StepCompleted,
             finishedAt := Some(now),
             error := if failure.Some? then failure.value else "")
    {
      if !(0 <= index < |steps|) { return Some(ClaimedStepIndexOutOfBounds); }
      if status == Canceling {
        if && steps[index].status != StepRunning && steps[index].status != StepCompleted
           && steps[index].status != StepCompensating { return None; }
        ApplyCompensationResult(index, failure, now);
        return None;
      }
      if steps[index].status != StepPending && steps[index].status != StepRunning { return None; }
      ApplyDispatchResult(index, failure, now);
      return None;
    }

    // ----- cancelling -----

    method NormalizeForCancellation(now: Time)
      modifies this
      ensures Value() == Normalized(old(Value()), now)
      ensures |steps| == |old(steps)| && forall j :: 0 <= j < |steps| ==>
        steps[j] == if old(steps)[j].status == StepPending
                    then old(steps)[j].(status := StepCompensated, finishedAt := Some(now), error := "")
                    else old(steps)[j]
    {
      for i := 0 to |steps|
        invariant status == old(status) && |steps| == |old(steps)|
        invariant forall j :: 0 <= j < i ==> steps[j] == SkipPending(old(steps)[j], now)
        invariant forall j :: i <= j < |steps| ==> steps[j] == old(steps)[j]
      {
        if steps[i].status != StepPending { continue; }
        steps := steps[i := steps[i].(status := StepCompensated, finishedAt := Some(now), error := "")];
      }
      ghost var was := old(Value());
      assert steps == seq(|was.steps|, i requires 0 <= i < |was.steps| => SkipPending(was.steps[i], now));
      if status != Canceling { return; }
      var failed := ScanFailed();
      if failed {
        if CanTransition(status, Failed) { status := Failed; }
        return;
      }
      var pending := ScanPendingCompensation();
      if !pending && CanTransition(status, Compensated) { status := Compensated; }
    }

    /** The callback of CancelSaga. */
    method Cancel(now: Time) returns (err: Option<CancelError>)
      modifies this
      ensures err == match Canceled(old(Value()), now) case Ok(_) => None case Err(e) => Some(e)
      ensures err.None? ==> Value() == Canceled(old(Value()), now).value
      ensures err == if old(status) == Failed then Some(CancelNotAllowed) else None
      ensures old(status) == Failed || old(status) == Compensated ==> Value() == old(Value())
      ensures old(status) != Failed && old(status) != Compensated ==>
        && |steps| == |old(steps)|
        && (forall j :: 0 <= j < |steps| ==>
              steps[j] == if old(steps)[j].status == StepPending
                          then old(steps)[j].(status := StepCompensated, finishedAt := Some(now), error := "")
                          else old(steps)[j])
        && status == (if exists j :: 0 <= j < |steps| && steps[j].status == StepFailed then Failed
                      else if forall j :: 0 <= j < |steps| ==> steps[j].status == StepCompensated then Compensated
                      else Canceling)
    {
      if status == Compensated { return None; }
      if status == Failed { return Some(CancelNotAllowed); }
      if status != Canceling && CanTransition(status, Canceling) { status := Canceling; }
      NormalizeForCancellation(now);
      return None;
    }
  }
}
