/** A run without superseded claims whose Compensate calls go back up: with the no-op locker a call that was
    loaded in time may be made late. */
module LateCall {
  import opened Domain
  import opened Claiming
  import opened Starting
  import opened Recording
  import opened Protocol
  import opened ReverseOrder
  import opened Witnesses

  /** Some run without superseded claims leads here. */
  ghost predicate FencedReachable(cfg: Config, s: State) {
    exists states, actions :: IsRun(cfg, states, actions) && states[|actions|] == s && AllFenced(states, actions)
  }

  lemma StepFenced(cfg: Config, s: State, a: Action)
    requires FencedReachable(cfg, s) && Enabled(cfg, s, a) && Fenced(s, a)
    ensures FencedReachable(cfg, Apply(cfg, s, a))
  {
    var states, actions :| IsRun(cfg, states, actions) && states[|actions|] == s && AllFenced(states, actions);
    var s' := Apply(cfg, s, a);
    RunGrows(cfg, states, actions, a, s');
    var states', actions' := states + [s'], actions + [a];
    forall k | 0 <= k < |actions'|
      ensures Fenced(states'[k], actions'[k])
    {
      if k < |actions| { assert Fenced(states[k], actions[k]); }
    }
    assert IsRun(cfg, states', actions') && states'[|actions'|] == s' && AllFenced(states', actions');
  }

  // ----- two steps, one of which is compensated twice -----

  const TwoSteps: seq<StartStep> := [StartStep("charge", "billing:9000"), StartStep("reserve", "inventory:9000")]

  /** Saga A with its two steps. */
  predicate Scene(s: State, status: SagaStatus, lower: StepStatus, upper: StepStatus) {
    && "A" in s.sagas
    && var saga := s.sagas["A"];
       && saga.id == "A" && saga.status == status && |saga.steps| == 2
       && saga.steps[0].status == lower && saga.steps[1].status == upper
  }

  predicate Free(s: State, w: WorkerId) {
    s.PhaseOf(w).Idle?
  }

  /** A claim of saga A that is current and still queued. */
  predicate Offered(s: State, c: Claim, i: int) {
    c in s.queue && c.sagaId == "A" && c.stepIndex == i && IsCurrent(s, c)
  }

  lemma Opening(cfg: Config) returns (s: State)
    ensures FencedReachable(cfg, s) && Scene(s, Created, StepPending, StepPending)
    ensures s.workers == map[] && s.CallsOf("A") == []
  {
    var s0 := State(map[], multiset{}, map[], map[], map[], map[], 0);
    var none: seq<Action> := [];
    assert IsRun(cfg, [s0], none) && [s0][|none|] == s0 && AllFenced([s0], none);
    StepFenced(cfg, s0, Start("A", "flow", NilMap, TwoSteps));
    s := Apply(cfg, s0, Start("A", "flow", NilMap, TwoSteps));
  }

  /** A claim hands out step i and touches nothing else that matters here. */
  lemma HandsOut(cfg: Config, s: State, i: int) returns (s': State, c: Claim)
    requires FencedReachable(cfg, s) && "A" in s.sagas && s.sagas["A"].id == "A" && Enabled(cfg, s, ClaimStep("A", i))
    ensures FencedReachable(cfg, s') && Offered(s', c, i)
    ensures s'.workers == s.workers && s'.CallsOf("A") == s.CallsOf("A")
    ensures "A" in s'.sagas && s'.sagas["A"] == ClaimWrite(cfg.store, s.sagas["A"], i, s.now)
  {
    c := ClaimFor(s.sagas["A"], i);
    StepFenced(cfg, s, ClaimStep("A", i));
    s' := Apply(cfg, s, ClaimStep("A", i));
  }

  /** A worker takes a current claim and loads its step. */
  lemma Loads(cfg: Config, s: State, w: WorkerId, c: Claim, i: int, mode: Mode) returns (s': State)
    requires !cfg.exclusive && FencedReachable(cfg, s) && Free(s, w) && Offered(s, c, i)
    requires ModeFor(s, c) == Some(mode)
    ensures FencedReachable(cfg, s') && s'.workers == s.workers[w := Loaded(c, mode)]
    ensures s'.sagas == s.sagas && s'.calls == s.calls && s'.now == s.now
  {
    AcquireEffect(cfg, s, w, c);
    StepFenced(cfg, s, Acquire(w, c));
    var s1 := AfterAcquire(cfg, s, w, c);
    LoadEffect(cfg, s1, w, c, mode);
    StepFenced(cfg, s1, Load(w));
    s' := s1.(workers := s1.workers[w := Loaded(c, mode)]);
  }

  /** Then it makes its call, with success. */
  lemma Calls(cfg: Config, s: State, w: WorkerId, c: Claim, mode: Mode) returns (s': State)
    requires !cfg.exclusive && FencedReachable(cfg, s) && s.PhaseOf(w) == Loaded(c, mode) && c.sagaId == "A"
    ensures FencedReachable(cfg, s') && s'.workers == s.workers[w := Dispatched(c, mode, None)]
    ensures s'.sagas == s.sagas && s'.now == s.now
    ensures s'.CallsOf("A") == s.CallsOf("A") + [Call(c.stepIndex, mode, true)]
  {
    DispatchEffect(cfg, s, w, c, mode, None);
    StepFenced(cfg, s, Dispatch(w, None));
    s' := Apply(cfg, s, Dispatch(w, None));
  }

  /** And it records the outcome. */
  lemma Records(cfg: Config, s: State, w: WorkerId, c: Claim, mode: Mode) returns (s': State)
    requires !cfg.exclusive && FencedReachable(cfg, s) && s.PhaseOf(w) == Dispatched(c, mode, None)
    requires c.sagaId == "A" && IsCurrent(s, c)
    ensures FencedReachable(cfg, s') && s'.workers == s.workers[w := Done("A")]
    ensures s'.CallsOf("A") == s.CallsOf("A")
    ensures "A" in s'.sagas
    ensures s'.sagas["A"] == Recorded(s.sagas["A"], c.stepIndex, None, s.now).(updatedAt := s.now)
  {
    StepFenced(cfg, s, Record(w));
    s' := Apply(cfg, s, Record(w));
  }

  lemma Cancels(cfg: Config, s: State, w: WorkerId) returns (s': State)
    requires !cfg.exclusive && FencedReachable(cfg, s) && Free(s, w) && Scene(s, Running, StepCompleted, StepRunning)
    ensures FencedReachable(cfg, s') && s'.workers == s.workers[w := Done("A")]
    ensures s'.CallsOf("A") == s.CallsOf("A") && s'.queue == s.queue
    ensures "A" in s'.sagas && s'.sagas["A"] == s.sagas["A"].(status := Canceling, updatedAt := s.now)
  {
    StepFenced(cfg, s, CancelAcquire(w, "A"));
    var s1 := Apply(cfg, s, CancelAcquire(w, "A"));
    CancelsTwoSteps(s.sagas["A"], s.now);
    StepFenced(cfg, s1, CancelUpdate(w));
    s' := Apply(cfg, s1, CancelUpdate(w));
  }

  // ----- the run, in acts -----

  /** Step 0 is executed. */
  lemma FirstAct(cfg: Config) returns (s: State)
    requires !cfg.exclusive
    ensures FencedReachable(cfg, s) && Scene(s, Running, StepCompleted, StepPending)
    ensures s.workers.Keys == {1} && s.CallsOf("A") == [Call(0, Execute, true)]
  {
    var s1 := Opening(cfg);
    var s2, c := HandsOut(cfg, s1, 0);
    var s3 := Loads(cfg, s2, 1, c, 0, Execute);
    var s4 := Calls(cfg, s3, 1, c, Execute);
    LowerRecorded(s4.sagas["A"], s4.now);
    s := Records(cfg, s4, 1, c, Execute);
  }

  /** Step 1 is handed out, the saga cancelled, and worker 3 loads step 1 for compensation. */
  lemma SecondAct(cfg: Config) returns (s: State, c: Claim)
    requires !cfg.exclusive
    ensures FencedReachable(cfg, s) && Scene(s, Canceling, StepCompleted, StepRunning)
    ensures s.workers.Keys == {1, 2, 3} && s.workers[3] == Loaded(c, Compensate)
    ensures c.sagaId == "A" && c.stepIndex == 1 && s.CallsOf("A") == [Call(0, Execute, true)]
  {
    var s1 := FirstAct(cfg);
    var s2;
    s2, c := HandsOut(cfg, s1, 1);
    var s3 := Cancels(cfg, s2, 2);
    s := Loads(cfg, s3, 3, c, 1, Compensate);
  }

  /** Step 1 is handed out again, and worker 4 compensates it. */
  lemma ThirdAct(cfg: Config) returns (s: State, c: Claim)
    requires !cfg.exclusive
    ensures FencedReachable(cfg, s) && Scene(s, Canceling, StepCompleted, StepCompensated)
    ensures s.workers.Keys == {1, 2, 3, 4} && s.workers[3] == Loaded(c, Compensate)
    ensures c.sagaId == "A" && c.stepIndex == 1
    ensures s.CallsOf("A") == [Call(0, Execute, true), Call(1, Compensate, true)]
  {
    var s1;
    s1, c := SecondAct(cfg);
    var s2, d := HandsOut(cfg, s1, 1);
    var s3 := Loads(cfg, s2, 4, d, 1, Compensate);
    var s4 := Calls(cfg, s3, 4, d, Compensate);
    UpperRecorded(s4.sagas["A"], s4.now);
    s := Records(cfg, s4, 4, d, Compensate);
  }

  lemma UpperRecorded(saga: Saga, now: Time)
    requires |saga.steps| == 2 && saga.status == Canceling && saga.id == "A"
    requires saga.steps[0].status == StepCompleted && saga.steps[1].status == StepCompensating
    ensures var saga' := Recorded(saga, 1, None, now);
      && saga'.id == "A" && saga'.status == Canceling && |saga'.steps| == 2
      && saga'.steps[0].status == StepCompleted && saga'.steps[1].status == StepCompensated
  {
    var saga' := Finished(saga, 1, StepCompensated, "", now);
    assert saga'.steps[0].status == StepCompleted;
  }

  /** Worker 5 calls Compensate for step 0, and then worker 3 makes its late call for step 1. */
  lemma LastAct(cfg: Config) returns (s: State)
    requires !cfg.exclusive
    ensures FencedReachable(cfg, s) && "A" in s.sagas
    ensures s.CallsOf("A") ==
      [Call(0, Execute, true), Call(1, Compensate, true), Call(0, Compensate, true), Call(1, Compensate, true)]
  {
    var s1, c := ThirdAct(cfg);
    var s2, d := HandsOut(cfg, s1, 0);
    var s3 := Loads(cfg, s2, 5, d, 0, Compensate);
    var s4 := Calls(cfg, s3, 5, d, Compensate);
    s := Calls(cfg, s4, 3, c, Compensate);
  }

  ghost predicate AlwaysDescends(cfg: Config) {
    forall s, id :: FencedReachable(cfg, s) && id in s.sagas ==> CompensatesDescend(s.CallsOf(id))
  }

  /** That the Compensate calls of runs without superseded claims never go back up is exactly what the lock
      adds to reverse order. */
  lemma DescendsIffExclusive(cfg: Config)
    ensures AlwaysDescends(cfg) <==> cfg.exclusive
  {
    if cfg.exclusive {
      forall s, id | FencedReachable(cfg, s) && id in s.sagas
        ensures CompensatesDescend(s.CallsOf(id))
      {
        var states, actions :| IsRun(cfg, states, actions) && states[|actions|] == s && AllFenced(states, actions);
        UnwindsInReverse(cfg, states, actions);
      }
    } else {
      var s := LastAct(cfg);
      assert s.CallsOf("A")[2].step < s.CallsOf("A")[3].step;
    }
  }
}
