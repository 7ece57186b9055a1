/** Runs that show which hypotheses of the theorems are needed. */
module Witnesses {
  import opened Domain
  import opened Claiming
  import opened Starting
  import opened Recording
  import opened Cancellation
  import opened Shape
  import opened Protocol
  import opened LocalInvariant
  import opened ProtocolTheorems

  ghost predicate Reachable(cfg: Config, s: State) {
    exists states, actions :: IsRun(cfg, states, actions) && states[|actions|] == s
  }

  lemma InitReachable(cfg: Config, s: State)
    requires Init(s)
    ensures Reachable(cfg, s)
  {
    var none: seq<Action> := [];
    assert IsRun(cfg, [s], none) && [s][|none|] == s;
  }

  lemma RunGrows(cfg: Config, states: seq<State>, actions: seq<Action>, a: Action, s': State)
    requires IsRun(cfg, states, actions)
    requires Enabled(cfg, states[|actions|], a) && s' == Apply(cfg, states[|actions|], a)
    ensures IsRun(cfg, states + [s'], actions + [a])
  {
    forall k | 0 <= k < |actions| + 1
      ensures StepAt(cfg, states + [s'], actions + [a], k)
    {
      if k < |actions| { assert StepAt(cfg, states, actions, k); }
    }
  }

  lemma StepReachable(cfg: Config, s: State, a: Action)
    requires Reachable(cfg, s) && Enabled(cfg, s, a)
    ensures Reachable(cfg, Apply(cfg, s, a))
  {
    var states, actions :| IsRun(cfg, states, actions) && states[|actions|] == s;
    var s' := Apply(cfg, s, a);
    RunGrows(cfg, states, actions, a, s');
    assert IsRun(cfg, states + [s'], actions + [a]) && (states + [s'])[|actions + [a]|] == s';
  }

  /** One saga with this many PENDING steps, nothing else. */
  function Fresh(steps: seq<StartStep>): State {
    State(map["A" := NewSaga("A", "flow", NilMap, steps, 0)], multiset{}, map[], map[], map[], map[], 0)
  }

  lemma FreshReachable(cfg: Config, steps: seq<StartStep>)
    requires ValidRequest("flow", steps)
    ensures Reachable(cfg, Fresh(steps))
  {
    var s := State(map[], multiset{}, map[], map[], map[], map[], 0);
    InitReachable(cfg, s);
    StepReachable(cfg, s, Start("A", "flow", NilMap, steps));
    assert Apply(cfg, s, Start("A", "flow", NilMap, steps)) == Fresh(steps);
  }

  function TakeLock(cfg: Config, s: State, w: WorkerId, id: SagaId): State {
    if cfg.exclusive then s.(locks := s.locks[id := w]) else s
  }

  function AfterAcquire(cfg: Config, s: State, w: WorkerId, c: Claim): State {
    TakeLock(cfg, s, w, c.sagaId).(queue := s.queue - multiset{c}, workers := s.workers[w := Holding(c)])
  }

  function AfterDispatch(cfg: Config, s: State, w: WorkerId, c: Claim, mode: Mode, failure: Option<string>): State {
    AfterAcquire(cfg, s, w, c).(
      workers := s.workers[w := Dispatched(c, mode, failure)],
      calls := s.calls[c.sagaId := s.CallsOf(c.sagaId) + [Call(c.stepIndex, mode, failure.None?)]])
  }

  lemma AcquireEffect(cfg: Config, s: State, w: WorkerId, c: Claim)
    requires c in s.queue && s.PhaseOf(w).Idle? && LockFree(cfg, s, c.sagaId)
    ensures Enabled(cfg, s, Acquire(w, c)) && Apply(cfg, s, Acquire(w, c)) == AfterAcquire(cfg, s, w, c)
  {
  }

  lemma LoadEffect(cfg: Config, s: State, w: WorkerId, c: Claim, mode: Mode)
    requires s.PhaseOf(w) == Holding(c) && LeaseHeld(cfg, s, w, c.sagaId)
    requires ClaimResolves(s, c) && ModeFor(s, c) == Some(mode)
    ensures Enabled(cfg, s, Load(w)) && Apply(cfg, s, Load(w)) == s.(workers := s.workers[w := Loaded(c, mode)])
  {
  }

  lemma DispatchEffect(cfg: Config, s: State, w: WorkerId, c: Claim, mode: Mode, failure: Option<string>)
    requires s.PhaseOf(w) == Loaded(c, mode) && LeaseHeld(cfg, s, w, c.sagaId)
    ensures Enabled(cfg, s, Dispatch(w, failure))
    ensures Apply(cfg, s, Dispatch(w, failure)) == s.(
      workers := s.workers[w := Dispatched(c, mode, failure)],
      calls := s.calls[c.sagaId := s.CallsOf(c.sagaId) + [Call(c.stepIndex, mode, failure.None?)]])
  {
  }

  /** A worker takes the lock for its claim, loads the step and calls the participant. */
  lemma Serve(cfg: Config, s: State, w: WorkerId, c: Claim, mode: Mode, failure: Option<string>)
    requires Reachable(cfg, s) && c in s.queue && s.PhaseOf(w).Idle? && LockFree(cfg, s, c.sagaId)
    requires ClaimResolves(s, c) && ModeFor(s, c) == Some(mode)
    ensures Reachable(cfg, AfterDispatch(cfg, s, w, c, mode, failure))
  {
    var s1 := AfterAcquire(cfg, s, w, c);
    AcquireEffect(cfg, s, w, c);
    StepReachable(cfg, s, Acquire(w, c));
    LoadEffect(cfg, s1, w, c, mode);
    StepReachable(cfg, s1, Load(w));
    var s2 := s1.(workers := s1.workers[w := Loaded(c, mode)]);
    DispatchEffect(cfg, s2, w, c, mode, failure);
    StepReachable(cfg, s2, Dispatch(w, failure));
    assert s2.workers[w := Dispatched(c, mode, failure)] == s.workers[w := Dispatched(c, mode, failure)];
  }

  /** Someone cancels the saga: lock, update, and no release yet. */
  lemma CancelBy(cfg: Config, s: State, w: WorkerId, id: SagaId) returns (s': State)
    requires Reachable(cfg, s) && s.PhaseOf(w).Idle? && LockFree(cfg, s, id)
    requires id in s.sagas && Canceled(s.sagas[id], s.now).Ok?
    ensures Reachable(cfg, s')
    ensures s' == TakeLock(cfg, s, w, id).(
      workers := s.workers[w := Done(id)],
      sagas := s.sagas[id := Canceled(s.sagas[id], s.now).value.(updatedAt := s.now)])
  {
    StepReachable(cfg, s, CancelAcquire(w, id));
    var s1 := Apply(cfg, s, CancelAcquire(w, id));
    StepReachable(cfg, s1, CancelUpdate(w));
    s' := Apply(cfg, s1, CancelUpdate(w));
    assert s'.workers == s.workers[w := Done(id)];
  }

  predicate LostCompensation(s: State) {
    && "A" in s.sagas && s.sagas["A"].status == Compensated && |s.sagas["A"].steps| == 1
    && s.CallsOf("A") == [Call(0, Execute, true)]
  }

  /** With the no-op locker a cancel may slip in between an Execute call and its record. The record then
      takes the compensation branch: the saga ends COMPENSATED, its step executed and never compensated. */
  lemma NoopLockerBreaksAtomicity(cfg: Config)
    requires !cfg.exclusive
    ensures exists s :: Reachable(cfg, s) && LostCompensation(s)
  {
    var s := CanceledMeanwhile(cfg);
    StepReachable(cfg, s, Record(1));
    RecordsAsCompensation(cfg, s);
  }

  ghost predicate AlwaysAtomic(cfg: Config) {
    forall s, id :: Reachable(cfg, s) && id in s.sagas ==> Atomic(s.sagas[id], s.CallsOf(id))
  }

  lemma LostIsNotAtomic(s: State)
    requires LostCompensation(s)
    ensures !Atomic(s.sagas["A"], s.CallsOf("A"))
  {
    var calls := s.CallsOf("A");
    assert calls[0].step == 0 && calls[0].mode == Execute;
    assert !NeverExecuted(calls, 0) && !CompensatedAfterExecute(calls, 0);
  }

  /** The exclusive lock is what atomicity takes, no more and no less. */
  lemma AtomicIffExclusive(cfg: Config)
    ensures AlwaysAtomic(cfg) <==> cfg.exclusive
  {
    if cfg.exclusive {
      forall s, id | Reachable(cfg, s) && id in s.sagas
        ensures Atomic(s.sagas[id], s.CallsOf(id))
      {
        var states, actions :| IsRun(cfg, states, actions) && states[|actions|] == s;
        Atomicity(cfg, states, actions, |actions|, id);
      }
    } else {
      NoopLockerBreaksAtomicity(cfg);
      var s :| Reachable(cfg, s) && LostCompensation(s);
      LostIsNotAtomic(s);
    }
  }

  /** A participant of saga A is called although the saga is COMPENSATED. */
  ghost predicate CalledAfterEnd(cfg: Config, s: State, a: Action) {
    && Enabled(cfg, s, a) && "A" in s.sagas && s.sagas["A"].status == Compensated
    && |Apply(cfg, s, a).CallsOf("A")| > |s.CallsOf("A")|
  }

  /** Saga A is being unwound, its one step was handed out `n` times, and worker 1 has executed it but not
      recorded that yet. */
  predicate ExecutedUnrecorded(s: State, step: StepStatus, n: nat) {
    && "A" in s.sagas && s.PhaseOf(1) == Dispatched(First, Execute, None)
    && var saga := s.sagas["A"];
       && saga.id == "A" && saga.status == Canceling && |saga.steps| == 1
       && saga.steps[0].name == "charge" && saga.steps[0].status == step && saga.steps[0].attempt == n
  }

  lemma CanceledMeanwhile(cfg: Config) returns (s: State)
    requires !cfg.exclusive
    ensures Reachable(cfg, s) && ExecutedUnrecorded(s, StepRunning, 1) && s.PhaseOf(3).Idle?
    ensures s.CallsOf("A") == [Call(0, Execute, true)]
  {
    var s1 := OneClaimed(cfg, [StartStep("charge", "billing:9000")]);
    Serve(cfg, s1, 1, First, Execute, None);
    var s2 := AfterDispatch(cfg, s1, 1, First, Execute, None);
    UnwindsOneStep(s2.sagas["A"], s2.now);
    s := CancelBy(cfg, s2, 2, "A");
  }

  lemma ClaimedMeanwhile(cfg: Config, s: State) returns (s': State)
    requires !cfg.exclusive && Reachable(cfg, s) && ExecutedUnrecorded(s, StepRunning, 1) && s.PhaseOf(3).Idle?
    ensures Reachable(cfg, s') && ExecutedUnrecorded(s', StepCompensating, 2) && s'.PhaseOf(3).Idle?
    ensures Second in s'.queue
  {
    StepReachable(cfg, s, ClaimStep("A", 0));
    s' := Apply(cfg, s, ClaimStep("A", 0));
  }

  lemma LoadedMeanwhile(cfg: Config, s: State) returns (s': State)
    requires !cfg.exclusive && Reachable(cfg, s) && ExecutedUnrecorded(s, StepCompensating, 2) && s.PhaseOf(3).Idle?
    requires Second in s.queue
    ensures Reachable(cfg, s') && ExecutedUnrecorded(s', StepCompensating, 2)
    ensures s'.PhaseOf(3) == Loaded(Second, Compensate)
  {
    AcquireEffect(cfg, s, 3, Second);
    StepReachable(cfg, s, Acquire(3, Second));
    var s1 := AfterAcquire(cfg, s, 3, Second);
    LoadEffect(cfg, s1, 3, Second, Compensate);
    StepReachable(cfg, s1, Load(3));
    s' := s1.(workers := s1.workers[3 := Loaded(Second, Compensate)]);
  }

  /** With the no-op locker a COMPENSATED saga is not frozen: a worker that loaded its step before another one
      recorded the last outcome still makes its call. */
  lemma NoopLockerCallsAfterEnd(cfg: Config)
    requires !cfg.exclusive
    ensures exists s, a :: Reachable(cfg, s) && CalledAfterEnd(cfg, s, a)
  {
    var s1 := CanceledMeanwhile(cfg);
    var s2 := ClaimedMeanwhile(cfg, s1);
    var s3 := LoadedMeanwhile(cfg, s2);
    var s4 := AfterRecord(cfg, s3, 1, First, Execute, None);
    DispatchEffect(cfg, s4, 3, Second, Compensate, None);
    assert CalledAfterEnd(cfg, s4, Dispatch(3, None));
  }

  lemma OneClaimed(cfg: Config, steps: seq<StartStep>) returns (s: State)
    requires ValidRequest("flow", steps)
    ensures Reachable(cfg, s)
    ensures var saga := NewSaga("A", "flow", NilMap, steps, 0);
      s == Fresh(steps).(
        sagas := map["A" := ClaimWrite(cfg.store, saga, 0, 0)],
        queue := multiset{ClaimFor(saga, 0)}, firstClaim := map[("A", 0) := 0])
  {
    FreshReachable(cfg, steps);
    StepReachable(cfg, Fresh(steps), ClaimStep("A", 0));
    s := Apply(cfg, Fresh(steps), ClaimStep("A", 0));
  }

  lemma RecordsAsCompensation(cfg: Config, s: State)
    requires Enabled(cfg, s, Record(1)) && ExecutedUnrecorded(s, StepRunning, 1)
    requires s.CallsOf("A") == [Call(0, Execute, true)]
    ensures LostCompensation(Apply(cfg, s, Record(1)))
  {
  }

  lemma UnwindsOneStep(saga: Saga, now: Time)
    requires |saga.steps| == 1 && saga.steps[0].status == StepRunning && saga.status == Created
    ensures Canceled(saga, now) == Ok(saga.(status := Canceling))
  {
    var saga' := Normalized(saga.(status := Canceling), now);
    assert saga'.steps == saga.steps;
    assert Unsettled(saga.steps[0].status);
  }

  // ----- a superseded claim compensates a lower step first -----

  const First: Claim := Claim("A", 0, "charge", 1)
  const Second: Claim := Claim("A", 0, "charge", 2)

  /** Saga A alone, with two steps, in these statuses, and nobody holding its lock. */
  predicate Stage(s: State, status: SagaStatus, lower: StepStatus, upper: StepStatus, calls: seq<Call>) {
    && "A" in s.sagas && "A" !in s.locks
    && s.PhaseOf(1).Idle? && s.PhaseOf(2).Idle? && s.CallsOf("A") == calls
    && var saga := s.sagas["A"];
       && saga.id == "A" && saga.status == status && |saga.steps| == 2
       && saga.steps[0].status == lower && saga.steps[1].status == upper
  }

  /** Step 0 was handed out, went stale and was handed out again: both claims are still queued. */
  lemma HandedOutTwice(cfg: Config) returns (s: State)
    ensures Reachable(cfg, s) && Stage(s, Created, StepRunning, StepPending, [])
    ensures First in s.queue && Second in s.queue
  {
    var steps := [StartStep("charge", "billing:9000"), StartStep("reserve", "inventory:9000")];
    var s1 := OneClaimed(cfg, steps);
    var stale := if cfg.staleAfter > 0 then cfg.staleAfter else 0;
    StepReachable(cfg, s1, Tick(stale));
    var s2 := s1.(now := stale);
    ClaimedAgain(cfg, s2);
    StepReachable(cfg, s2, ClaimStep("A", 0));
    s := Apply(cfg, s2, ClaimStep("A", 0));
  }

  lemma ClaimedAgain(cfg: Config, s: State)
    requires Stage(s, Created, StepRunning, StepPending, []) && First in s.queue
    requires var step := s.sagas["A"].steps[0];
      step.name == "charge" && step.attempt == 1 && IsStale(step, StepRunning, cfg.staleAfter, s.now)
    ensures Enabled(cfg, s, ClaimStep("A", 0))
    ensures var s' := Apply(cfg, s, ClaimStep("A", 0));
      Stage(s', Created, StepRunning, StepPending, []) && First in s'.queue && Second in s'.queue
  {
  }

  lemma RecordAndRelease(cfg: Config, s: State, w: WorkerId, c: Claim, mode: Mode, failure: Option<string>)
    returns (s': State)
    requires Reachable(cfg, s) && ClaimResolves(s, c)
    requires s.PhaseOf(w) == Dispatched(c, mode, failure) && LeaseHeld(cfg, s, w, c.sagaId)
    ensures Reachable(cfg, s')
    ensures s' == s.(
      sagas := s.sagas[c.sagaId := Recorded(s.sagas[c.sagaId], c.stepIndex, failure, s.now).(updatedAt := s.now)],
      locks := s.locks - {c.sagaId},
      workers := s.workers[w := Idle])
  {
    var s1 := AfterRecord(cfg, s, w, c, mode, failure);
    s' := AfterRelease(cfg, s1, w, c.sagaId);
    assert s'.workers == s.workers[w := Idle];
  }

  lemma AfterRecord(cfg: Config, s: State, w: WorkerId, c: Claim, mode: Mode, failure: Option<string>)
    returns (s': State)
    requires Reachable(cfg, s) && ClaimResolves(s, c)
    requires s.PhaseOf(w) == Dispatched(c, mode, failure) && LeaseHeld(cfg, s, w, c.sagaId)
    ensures Reachable(cfg, s')
    ensures s' == s.(
      sagas := s.sagas[c.sagaId := Recorded(s.sagas[c.sagaId], c.stepIndex, failure, s.now).(updatedAt := s.now)],
      workers := s.workers[w := Done(c.sagaId)])
  {
    StepReachable(cfg, s, Record(w));
    s' := Apply(cfg, s, Record(w));
  }

  lemma AfterRelease(cfg: Config, s: State, w: WorkerId, id: SagaId) returns (s': State)
    requires Reachable(cfg, s) && s.PhaseOf(w) == Done(id) && LeaseHeld(cfg, s, w, id)
    ensures Reachable(cfg, s')
    ensures s' == s.(locks := s.locks - {id}, workers := s.workers[w := Idle])
  {
    StepReachable(cfg, s, Release(w));
    s' := Apply(cfg, s, Release(w));
  }

  /** The first claim executes step 0, although it has been superseded. */
  lemma FirstExecutes(cfg: Config, s: State) returns (s': State)
    requires Reachable(cfg, s) && Stage(s, Created, StepRunning, StepPending, [])
    requires First in s.queue && Second in s.queue
    ensures Reachable(cfg, s') && Stage(s', Running, StepCompleted, StepPending, [Call(0, Execute, true)])
    ensures Second in s'.queue
  {
    Serve(cfg, s, 1, First, Execute, None);
    LowerRecorded(s.sagas["A"], s.now);
    s' := RecordAndRelease(cfg, AfterDispatch(cfg, s, 1, First, Execute, None), 1, First, Execute, None);
  }

  lemma LowerRecorded(saga: Saga, now: Time)
    requires |saga.steps| == 2 && saga.status == Created && saga.id == "A"
    requires saga.steps[0].status == StepRunning && saga.steps[1].status == StepPending
    ensures var saga' := Recorded(saga, 0, None, now);
      && saga'.id == "A" && saga'.status == Running && |saga'.steps| == 2
      && saga'.steps[0].status == StepCompleted && saga'.steps[1].status == StepPending
  {
    var saga' := Finished(saga, 0, StepCompleted, "", now);
    assert saga'.steps[1].status == StepPending;
  }

  /** Step 1 is handed out and the saga cancelled. */
  lemma UpperClaimedThenCanceled(cfg: Config, s: State) returns (s': State)
    requires Reachable(cfg, s)
    requires Stage(s, Running, StepCompleted, StepPending, [Call(0, Execute, true)]) && Second in s.queue
    ensures Reachable(cfg, s') && Stage(s', Canceling, StepCompleted, StepRunning, [Call(0, Execute, true)])
    ensures Second in s'.queue
  {
    var s1, c := UpperClaimed(cfg, s);
    CancelsTwoSteps(s1.sagas["A"], s1.now);
    var s2 := CancelBy(cfg, s1, 2, "A");
    s' := AfterRelease(cfg, s2, 2, "A");
  }

  lemma UpperClaimed(cfg: Config, s: State) returns (s': State, c: Claim)
    requires Reachable(cfg, s)
    requires Stage(s, Running, StepCompleted, StepPending, [Call(0, Execute, true)]) && Second in s.queue
    ensures Reachable(cfg, s') && Stage(s', Running, StepCompleted, StepRunning, [Call(0, Execute, true)])
    ensures Second in s'.queue && c in s'.queue && c.sagaId == "A" && c.stepIndex == 1
  {
    c := ClaimFor(s.sagas["A"], 1);
    StepReachable(cfg, s, ClaimStep("A", 1));
    s' := Apply(cfg, s, ClaimStep("A", 1));
  }

  lemma CancelsTwoSteps(saga: Saga, now: Time)
    requires |saga.steps| == 2 && saga.steps[0].status == StepCompleted && saga.steps[1].status == StepRunning
    requires saga.status == Running
    ensures Canceled(saga, now) == Ok(saga.(status := Canceling))
  {
    var saga' := Normalized(saga.(status := Canceling), now);
    assert saga'.steps == saga.steps;
    assert Unsettled(saga.steps[1].status);
  }

  /** Under an exclusive lock, a superseded claim of step 0 that is processed after the cancel compensates
      step 0 while step 1 is still RUNNING. */
  lemma SupersededClaimBreaksReverseOrder(cfg: Config)
    requires cfg.exclusive
    ensures exists s :: Reachable(cfg, s) && LowerCompensatedFirst(s)
  {
    var s1 := HandedOutTwice(cfg);
    var s2 := FirstExecutes(cfg, s1);
    var s3 := UpperClaimedThenCanceled(cfg, s2);
    Serve(cfg, s3, 1, Second, Compensate, None);
    assert LowerCompensatedFirst(AfterDispatch(cfg, s3, 1, Second, Compensate, None));
  }

  predicate LowerCompensatedFirst(s: State) {
    && "A" in s.sagas && |s.sagas["A"].steps| == 2 && s.sagas["A"].steps[1].status == StepRunning
    && s.CallsOf("A") == [Call(0, Execute, true), Call(0, Compensate, true)]
  }

  // ----- with the no-op locker a FAILED saga may fail again -----

  const Refused: Option<string> := Some("refused")

  /** Saga A has two steps in these statuses, worker 1 is free, and worker 2 has executed step 1 without
      success but not recorded that yet. */
  predicate UpperRefused(s: State, c: Claim, status: SagaStatus, lower: StepStatus) {
    && "A" in s.sagas && c.sagaId == "A" && c.stepIndex == 1
    && s.PhaseOf(1).Idle? && s.PhaseOf(2) == Dispatched(c, Execute, Refused)
    && var saga := s.sagas["A"];
       && saga.id == "A" && saga.status == status && |saga.steps| == 2
       && saga.steps[0].status == lower && saga.steps[1].status == StepRunning
  }

  lemma UpperServed(cfg: Config) returns (s: State, c: Claim)
    requires !cfg.exclusive
    ensures Reachable(cfg, s) && UpperRefused(s, c, Running, StepCompleted) && Second in s.queue
  {
    var s1 := HandedOutTwice(cfg);
    var s2 := FirstExecutes(cfg, s1);
    var s3;
    s3, c := UpperClaimed(cfg, s2);
    Serve(cfg, s3, 2, c, Execute, Refused);
    s := AfterDispatch(cfg, s3, 2, c, Execute, Refused);
  }

  lemma CanceledWhileServed(cfg: Config, s: State, c: Claim) returns (s': State)
    requires !cfg.exclusive && Reachable(cfg, s) && UpperRefused(s, c, Running, StepCompleted) && Second in s.queue
    ensures Reachable(cfg, s') && UpperRefused(s', c, Canceling, StepCompleted) && Second in s'.queue
  {
    CancelsTwoSteps(s.sagas["A"], s.now);
    var s1 := CancelBy(cfg, s, 1, "A");
    s' := AfterRelease(cfg, s1, 1, "A");
  }

  lemma LowerCompensationFails(cfg: Config, s: State, c: Claim) returns (s': State)
    requires !cfg.exclusive && Reachable(cfg, s) && UpperRefused(s, c, Canceling, StepCompleted) && Second in s.queue
    ensures Reachable(cfg, s') && UpperRefused(s', c, Failed, StepFailed)
  {
    Serve(cfg, s, 1, Second, Compensate, Refused);
    var s1 := AfterDispatch(cfg, s, 1, Second, Compensate, Refused);
    s' := RecordAndRelease(cfg, s1, 1, Second, Compensate, Refused);
  }

  predicate FailedTwice(s: State) {
    && "A" in s.sagas && s.sagas["A"].status == Failed && |s.sagas["A"].steps| == 2
    && s.sagas["A"].steps[0].status == StepFailed && s.sagas["A"].steps[1].status == StepFailed
  }

  /** With the no-op locker, a worker may record its failure on a saga that has FAILED: the FAILED saga
      changes, and has two FAILED steps. */
  lemma NoopLockerFailsTwice(cfg: Config) returns (s: State, s': State)
    requires !cfg.exclusive
    ensures Reachable(cfg, s) && "A" in s.sagas && s.sagas["A"].status == Failed && Shaped(s.sagas["A"])
    ensures Reachable(cfg, s') && FailedTwice(s')
    ensures Enabled(cfg, s, Record(2)) && s' == Apply(cfg, s, Record(2))
  {
    var s1, c := UpperServed(cfg);
    var s2 := CanceledWhileServed(cfg, s1, c);
    s := LowerCompensationFails(cfg, s2, c);
    assert OnlyFailureAt(s.sagas["A"].steps, 0);
    s' := AfterRecord(cfg, s, 2, c, Execute, Refused);
  }

  ghost predicate AlwaysShaped(cfg: Config) {
    forall s, id :: Reachable(cfg, s) && id in s.sagas ==> Shaped(s.sagas[id])
  }

  /** Exactly one FAILED step in a FAILED saga: that is exactly what the lock adds to the shape. */
  lemma ShapedIffExclusive(cfg: Config)
    ensures AlwaysShaped(cfg) <==> cfg.exclusive
  {
    if cfg.exclusive {
      forall s, id | Reachable(cfg, s) && id in s.sagas
        ensures Shaped(s.sagas[id])
      {
        var states, actions :| IsRun(cfg, states, actions) && states[|actions|] == s;
        ReachableShape(cfg, states, actions, |actions|, id);
      }
    } else {
      var s, s' := NoopLockerFailsTwice(cfg);
      FailedTwiceIsUnshaped(s');
    }
  }

  lemma FailedTwiceIsUnshaped(s: State)
    requires FailedTwice(s)
    ensures !Shaped(s.sagas["A"])
  {
    var steps := s.sagas["A"].steps;
    assert steps[0].status == StepFailed && steps[1].status == StepFailed;
  }
}
