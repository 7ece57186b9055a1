/** In which order a saga is unwound. A claim of a step that is being unwound always takes the highest
    unsettled step, but a worker checks neither that guard again nor its claim's attempt number, so a
    superseded claim may reach a lower step early. A run unwinds in reverse if the guard holds at every load,
    and so if it processes no superseded claim, whatever the locker; under the exclusive lock exactly when it
    holds at every Compensate call. */
module ReverseOrder {
  import opened Domain
  import opened Claiming
  import opened Recording
  import opened Cancellation
  import opened Shape
  import opened Protocol
  import opened History
  import opened LocalInvariant
  import opened AnyLocker
  import opened GlobalInvariant

  // ----- without any hypothesis -----

  /** Whatever the locker, every compensation claim takes the highest unsettled step. */
  lemma ClaimsTakeTheTop(cfg: Config, states: seq<State>, actions: seq<Action>, k: nat)
    requires IsRun(cfg, states, actions) && StepAt(cfg, states, actions, k)
    requires actions[k].ClaimStep? && states[k].sagas[actions[k].id].status == Canceling
    ensures UnwindingAt(states[k].sagas[actions[k].id].steps, actions[k].index)
  {
    var id := actions[k].id;
    SagaIsSound(cfg, states, actions, k, id);
    ClaimKeepsShape(cfg.store, states[k].sagas[id], actions[k].index, cfg.staleAfter, states[k].now);
  }

  /** The action calls Compensate for a step. */
  predicate Compensates(s: State, a: Action) {
    a.Dispatch? && s.PhaseOf(a.w).Loaded? && s.PhaseOf(a.w).mode == Compensate
  }

  predicate HigherCompensated(steps: seq<Step>, index: int)
    requires 0 <= index
  {
    forall j :: index < j < |steps| ==> steps[j].status == StepCompensated
  }

  /** Every higher step is COMPENSATED when a Compensate call is made. */
  predicate CallInOrder(s: State, a: Action) {
    Compensates(s, a) ==>
      var claim := s.PhaseOf(a.w).claim;
      ClaimResolves(s, claim) && HigherCompensated(s.sagas[claim.sagaId].steps, claim.stepIndex)
  }

  /** The guard that claims use holds for the step when a Compensate call is made. */
  predicate GuardedCall(s: State, a: Action) {
    Compensates(s, a) ==>
      var claim := s.PhaseOf(a.w).claim;
      ClaimResolves(s, claim) && AllNextSettled(s.sagas[claim.sagaId].steps, claim.stepIndex)
  }

  /** What the lock holder is about to call Compensate for. */
  lemma CallerUnwinds(cfg: Config, s: State, a: Action)
    requires cfg.exclusive && LocalsOk(s) && ClaimsOk(s) && Enabled(cfg, s, a) && Compensates(s, a)
    ensures var claim := s.PhaseOf(a.w).claim;
      && ClaimResolves(s, claim)
      && var saga := s.sagas[claim.sagaId];
         Shaped(saga) && saga.status == Canceling && Unsettled(saga.steps[claim.stepIndex].status)
  {
    var claim := s.PhaseOf(a.w).claim;
    assert ClaimOk(s.sagas, claim);
    assert HolderOf(s, claim.sagaId) == s.PhaseOf(a.w);
    assert LocalInv(View(s, claim.sagaId));
  }

  /** A Compensate call finds every higher step COMPENSATED exactly when the guard that claims use holds
      for its step, under the exclusive lock, or if the saga has not FAILED. The worker does not check that
      guard. A call that finds the step in flight in a saga that is being unwound is always in order; under
      the lock so is any call for a step that is not COMPLETED. */
  lemma CallInOrderIff(cfg: Config, states: seq<State>, actions: seq<Action>, k: nat)
    requires IsRun(cfg, states, actions) && StepAt(cfg, states, actions, k)
    ensures CallInOrder(states[k], actions[k]) ==> GuardedCall(states[k], actions[k])
    ensures Compensates(states[k], actions[k]) ==>
      var claim := states[k].PhaseOf(actions[k].w).claim;
      && ClaimResolves(states[k], claim)
      && var saga := states[k].sagas[claim.sagaId];
         var step := saga.steps[claim.stepIndex].status;
         && (cfg.exclusive || saga.status != Failed ==>
               (CallInOrder(states[k], actions[k]) <==> GuardedCall(states[k], actions[k])))
         && (saga.status == Canceling && InFlight(step) ==> CallInOrder(states[k], actions[k]))
         && (cfg.exclusive && step != StepCompleted ==> CallInOrder(states[k], actions[k]))
  {
    RunIsSound(cfg, states, actions, k);
    if Compensates(states[k], actions[k]) {
      CallerGivesUp(cfg, states[k], actions[k]);
      if cfg.exclusive {
        RunKeeps(cfg, states, actions, k);
        CallerUnwinds(cfg, states[k], actions[k]);
      }
      var claim := states[k].PhaseOf(actions[k].w).claim;
      CallerSettled(states[k].sagas[claim.sagaId], claim.stepIndex);
    }
  }

  /** What a worker is about to call Compensate for, with any locker. */
  lemma CallerGivesUp(cfg: Config, s: State, a: Action)
    requires SagasSound(s) && PhasesSound(s) && ClaimsOk(s) && Enabled(cfg, s, a) && Compensates(s, a)
    ensures var claim := s.PhaseOf(a.w).claim;
      && ClaimResolves(s, claim)
      && WeakShaped(s.sagas[claim.sagaId]) && GivenUp(s.sagas[claim.sagaId].status)
  {
    var claim := s.PhaseOf(a.w).claim;
    assert PhaseSound(s, s.workers[a.w]) && ClaimOk(s.sagas, claim);
    assert SagaSound(s.sagas[claim.sagaId], s.CallsOf(claim.sagaId));
  }

  lemma CallerSettled(saga: Saga, index: int)
    requires WeakShaped(saga) && GivenUp(saga.status) && 0 <= index < |saga.steps|
    ensures HigherCompensated(saga.steps, index) ==> AllNextSettled(saga.steps, index)
    ensures saga.status != Failed && AllNextSettled(saga.steps, index) ==> HigherCompensated(saga.steps, index)
    ensures saga.status == Canceling && Unsettled(saga.steps[index].status) ==>
      saga.steps[index].status == StepCompleted || HigherCompensated(saga.steps, index)
  {
    if saga.status == Canceling { UnwindingSettled(saga, index); }
  }

  lemma UnwindingSettled(saga: Saga, index: int)
    requires WeakShaped(saga) && saga.status == Canceling && 0 <= index < |saga.steps|
    ensures AllNextSettled(saga.steps, index) <==> HigherCompensated(saga.steps, index)
    ensures Unsettled(saga.steps[index].status) && AllNextSettled(saga.steps, index) ==> UnwindingAt(saga.steps, index)
    ensures Unsettled(saga.steps[index].status) && saga.steps[index].status != StepCompleted ==>
      UnwindingAt(saga.steps, index)
  {
    var m := TopStep(saga);
    forall j | 0 <= j < |saga.steps|
      ensures Unsettled(saga.steps[j].status) || saga.steps[j].status == StepCompensated
    {
      if j != m { assert j < m || m < j; }
    }
  }

  // ----- runs whose Compensate calls are guarded -----

  predicate CompensatesDescend(calls: seq<Call>) {
    forall p, q :: 0 <= p < q < |calls| && calls[p].mode == Compensate && calls[q].mode == Compensate ==>
      calls[p].step >= calls[q].step
  }

  predicate CompensatesAtLeast(calls: seq<Call>, m: int) {
    forall p :: 0 <= p < |calls| && calls[p].mode == Compensate ==> calls[p].step >= m
  }

  /** No Compensate call so far was for a step below the highest unsettled one. */
  ghost predicate UnwindsInOrder(l: Local) {
    && CompensatesDescend(l.calls)
    && (l.saga.status == Canceling ==>
          forall m :: UnwindingAt(l.saga.steps, m) ==> CompensatesAtLeast(l.calls, m))
  }

  /** The highest unsettled step can only move down. */
  lemma LowerTopUnwinds(l: Local, l': Local, m: int)
    requires UnwindsInOrder(l) && l'.calls == l.calls
    requires l.saga.status == Canceling && UnwindingAt(l.saga.steps, m)
    requires forall n :: UnwindingAt(l'.saga.steps, n) ==> n <= m
    ensures UnwindsInOrder(l')
  {
    assert CompensatesAtLeast(l.calls, m);
    forall n | UnwindingAt(l'.saga.steps, n)
      ensures CompensatesAtLeast(l'.calls, n)
    {
    }
  }

  lemma ClaimUnwinds(kind: StoreKind, l: Local, index: int, staleAfter: Time, now: Time)
    requires LocalInv(l) && UnwindsInOrder(l) && Claimable(l.saga, index, staleAfter, now)
    ensures UnwindsInOrder(l.(saga := ClaimWrite(kind, l.saga, index, now)))
  {
    var l' := l.(saga := ClaimWrite(kind, l.saga, index, now));
    if l.saga.status == Canceling {
      ClaimKeepsShape(kind, l.saga, index, staleAfter, now);
      forall n | UnwindingAt(l'.saga.steps, n)
        ensures n <= index
      {
        TopIsUnique(l'.saga.steps, n, index);
      }
      LowerTopUnwinds(l, l', index);
    }
  }

  lemma DispatchUnwinds(l: Local, failure: Option<string>)
    requires LocalInv(l) && UnwindsInOrder(l) && l.holder.Loaded?
    requires l.holder.mode == Compensate ==> UnwindingAt(l.saga.steps, l.holder.claim.stepIndex)
    ensures var Loaded(claim, mode) := l.holder;
            UnwindsInOrder(l.(calls := l.calls + [Call(claim.stepIndex, mode, failure.None?)],
                              holder := Dispatched(claim, mode, failure)))
  {
    var i := l.holder.claim.stepIndex;
    if l.holder.mode == Compensate {
      assert CompensatesAtLeast(l.calls, i);
      forall m | UnwindingAt(l.saga.steps, m)
        ensures m == i
      {
        TopIsUnique(l.saga.steps, m, i);
      }
    }
  }

  lemma RecordUnwinds(l: Local, now: Time)
    requires LocalInv(l) && UnwindsInOrder(l) && l.holder.Dispatched?
    ensures 0 <= l.holder.claim.stepIndex < |l.saga.steps|
    ensures UnwindsInOrder(Local(Recorded(l.saga, l.holder.claim.stepIndex, l.holder.failure, now).(updatedAt := now),
                                 l.calls, Done(l.holder.claim.sagaId)))
  {
    RecordTakesItsBranch(l, now);
    var i := l.holder.claim.stepIndex;
    var saga' := Recorded(l.saga, i, l.holder.failure, now).(updatedAt := now);
    var l' := Local(saga', l.calls, Done(l.holder.claim.sagaId));
    if l.saga.status == Canceling {
      var m := TopStep(l.saga);
      forall j | m < j < |l.saga.steps|
        ensures !Unsettled(l'.saga.steps[j].status)
      {
        if j != i { assert l'.saga.steps[j] == l.saga.steps[j]; }
      }
      LowerTopUnwinds(l, l', m);
    }
  }

  lemma CancelUnwinds(l: Local, now: Time)
    requires LocalInv(l) && UnwindsInOrder(l) && l.holder.Canceller? && Canceled(l.saga, now).Ok?
    ensures UnwindsInOrder(Local(Canceled(l.saga, now).value.(updatedAt := now), l.calls, Done(l.holder.target)))
  {
    var l' := Local(Canceled(l.saga, now).value.(updatedAt := now), l.calls, Done(l.holder.target));
    if l.saga.status == Canceling {
      NormalizedSteps(l.saga, now);
      var m := TopStep(l.saga);
      assert l'.saga.steps == l.saga.steps;
      forall n | UnwindingAt(l'.saga.steps, n)
        ensures n <= m
      {
        TopIsUnique(l.saga.steps, n, m);
      }
      LowerTopUnwinds(l, l', m);
    }
  }

  lemma EventUnwinds(cfg: Config, now: Time, l: Local, e: Event)
    requires LocalInv(l) && UnwindsInOrder(l) && Possible(cfg, now, l, e)
    requires e.Dispatches? && l.holder.mode == Compensate ==> UnwindingAt(l.saga.steps, l.holder.claim.stepIndex)
    ensures UnwindsInOrder(After(cfg, now, l, e))
  {
    match e
    case Claimed(index) => ClaimUnwinds(cfg.store, l, index, cfg.staleAfter, now);
    case Loads(claim) =>
    case Dispatches(failure) => DispatchUnwinds(l, failure);
    case Records => RecordUnwinds(l, now);
    case Cancels => if Canceled(l.saga, now).Ok? { CancelUnwinds(l, now); }
    case HolderBecomes(phase) =>
  }

  ghost predicate AllUnwindInOrder(s: State) {
    forall id :: id in s.sagas ==> UnwindsInOrder(View(s, id))
  }

  lemma GuardedCallIsOnTop(cfg: Config, s: State, a: Action)
    requires cfg.exclusive && LocalsOk(s) && ClaimsOk(s) && Enabled(cfg, s, a) && GuardedCall(s, a) && Compensates(s, a)
    ensures var claim := s.PhaseOf(a.w).claim;
      ClaimResolves(s, claim) && UnwindingAt(s.sagas[claim.sagaId].steps, claim.stepIndex)
  {
    CallerUnwinds(cfg, s, a);
    var claim := s.PhaseOf(a.w).claim;
    UnwindingSettled(s.sagas[claim.sagaId], claim.stepIndex);
  }

  lemma SubjectUnwinds(cfg: Config, s: State, a: Action, id: SagaId)
    requires cfg.exclusive && Inv(s) && Enabled(cfg, s, a) && GuardedCall(s, a)
    requires id in s.sagas && UnwindsInOrder(View(s, id)) && Subject(s, a) == Some(id)
    ensures id in Apply(cfg, s, a).sagas && UnwindsInOrder(View(Apply(cfg, s, a), id))
  {
    if Compensates(s, a) {
      GuardedCallIsOnTop(cfg, s, a);
      assert HolderOf(s, id) == s.PhaseOf(a.w);
    }
    SubjectProjects(cfg, s, a, id);
    EventUnwinds(cfg, s.now, View(s, id), EventOf(s, a, Apply(cfg, s, a), id));
  }

  lemma GuardedStepKeeps(cfg: Config, s: State, a: Action)
    requires cfg.exclusive && Inv(s) && AllUnwindInOrder(s) && Enabled(cfg, s, a) && GuardedCall(s, a)
    ensures AllUnwindInOrder(Apply(cfg, s, a))
  {
    var s' := Apply(cfg, s, a);
    forall id | id in s'.sagas
      ensures UnwindsInOrder(View(s', id))
    {
      if id !in s.sagas {
        NewSagaKeeps(cfg, s, a, id);
      } else if Subject(s, a) == Some(id) {
        SubjectUnwinds(cfg, s, a, id);
      } else {
        OtherSagasUntouched(cfg, s, a, id);
      }
    }
  }

  ghost predicate AllCallsGuarded(states: seq<State>, actions: seq<Action>)
    requires |states| == |actions| + 1
  {
    forall k :: 0 <= k < |actions| ==> GuardedCall(states[k], actions[k])
  }

  ghost predicate AllCallsInOrder(states: seq<State>, actions: seq<Action>)
    requires |states| == |actions| + 1
  {
    forall k :: 0 <= k < |actions| ==> CallInOrder(states[k], actions[k])
  }

  ghost predicate AllDescend(states: seq<State>) {
    forall k, id :: 0 <= k < |states| && id in states[k].sagas ==> CompensatesDescend(states[k].CallsOf(id))
  }

  lemma GuardedRunStep(cfg: Config, states: seq<State>, actions: seq<Action>, k: nat)
    requires cfg.exclusive && IsRun(cfg, states, actions) && k < |actions|
    requires GuardedCall(states[k], actions[k]) && AllUnwindInOrder(states[k])
    ensures AllUnwindInOrder(states[k + 1])
  {
    RunKeeps(cfg, states, actions, k);
    assert StepAt(cfg, states, actions, k);
    GuardedStepKeeps(cfg, states[k], actions[k]);
  }

  lemma {:induction false} GuardedRunKeeps(cfg: Config, states: seq<State>, actions: seq<Action>, k: nat)
    requires cfg.exclusive && IsRun(cfg, states, actions) && AllCallsGuarded(states, actions) && k < |states|
    ensures AllUnwindInOrder(states[k])
  {
    if k > 0 {
      GuardedRunKeeps(cfg, states, actions, k - 1);
      GuardedRunStep(cfg, states, actions, k - 1);
    }
  }

  /** Reverse order, with its exact condition: under the exclusive lock, the Compensate calls of a run all find
      every higher step COMPENSATED if and only if all of them are guarded, and then the calls of each saga
      never go back up. */
  lemma ReverseOrderIff(cfg: Config, states: seq<State>, actions: seq<Action>)
    requires IsRun(cfg, states, actions)
    ensures AllCallsInOrder(states, actions) ==> AllCallsGuarded(states, actions)
    ensures cfg.exclusive ==> (AllCallsInOrder(states, actions) <==> AllCallsGuarded(states, actions))
    ensures cfg.exclusive && AllCallsInOrder(states, actions) ==> AllDescend(states)
  {
    forall k | 0 <= k < |actions|
      ensures CallInOrder(states[k], actions[k]) ==> GuardedCall(states[k], actions[k])
      ensures cfg.exclusive && GuardedCall(states[k], actions[k]) ==> CallInOrder(states[k], actions[k])
    {
      assert StepAt(cfg, states, actions, k);
      CallInOrderIff(cfg, states, actions, k);
    }
    if cfg.exclusive && AllCallsGuarded(states, actions) {
      forall k, id | 0 <= k < |states| && id in states[k].sagas
        ensures CompensatesDescend(states[k].CallsOf(id))
      {
        GuardedRunKeeps(cfg, states, actions, k);
        assert UnwindsInOrder(View(states[k], id));
      }
    }
  }

  // ----- runs that check the guard when they load a step -----

  /** The guard holds when a step is loaded for compensation. */
  predicate GuardedLoad(s: State, a: Action) {
    a.Load? && s.PhaseOf(a.w).Holding? ==>
      var claim := s.PhaseOf(a.w).claim;
      ClaimResolves(s, claim) && s.sagas[claim.sagaId].status == Canceling ==>
        AllNextSettled(s.sagas[claim.sagaId].steps, claim.stepIndex)
  }

  /** A step that was loaded for compensation has every higher step COMPENSATED. This stays so, since
      COMPENSATED is final. */
  predicate LoadedInOrder(s: State, phase: Phase) {
    phase.Loaded? && phase.mode == Compensate ==>
      && ClaimResolves(s, phase.claim)
      && HigherCompensated(s.sagas[phase.claim.sagaId].steps, phase.claim.stepIndex)
  }

  predicate AllLoadedInOrder(s: State) {
    forall w :: w in s.workers ==> LoadedInOrder(s, s.workers[w])
  }

  lemma LoadedStaysInOrder(cfg: Config, s: State, a: Action, phase: Phase)
    requires Enabled(cfg, s, a) && LoadedInOrder(s, phase)
    ensures LoadedInOrder(Apply(cfg, s, a), phase)
  {
    if phase.Loaded? && phase.mode == Compensate {
      var id := phase.claim.sagaId;
      ActionHistory(cfg, s, a, id);
      var steps, steps' := s.sagas[id].steps, SagasAfter(cfg, s, a)[id].steps;
      forall j | phase.claim.stepIndex < j < |steps'|
        ensures steps'[j].status == StepCompensated
      {
        assert StepProgress(steps[j], steps'[j]);
      }
    }
  }

  lemma GuardedLoadInOrder(cfg: Config, s: State, w: WorkerId)
    requires SagasSound(s) && Enabled(cfg, s, Load(w)) && GuardedLoad(s, Load(w))
    ensures LoadedInOrder(s, Loaded(s.PhaseOf(w).claim, ModeFor(s, s.PhaseOf(w).claim).value))
  {
    var claim := s.PhaseOf(w).claim;
    var saga := s.sagas[claim.sagaId];
    assert SagaSound(saga, s.CallsOf(claim.sagaId));
    if saga.status == Canceling { UnwindingSettled(saga, claim.stepIndex); }
  }

  lemma LoadedInOrderKept(cfg: Config, s: State, a: Action)
    requires SagasSound(s) && AllLoadedInOrder(s) && Enabled(cfg, s, a) && GuardedLoad(s, a)
    ensures AllLoadedInOrder(Apply(cfg, s, a))
  {
    forall w | w in WorkersAfter(cfg, s, a)
      ensures LoadedInOrder(Apply(cfg, s, a), WorkersAfter(cfg, s, a)[w])
    {
      PhaseChanges(cfg, s, a, w);
      var phase := WorkersAfter(cfg, s, a)[w];
      if w in s.workers && phase == s.workers[w] {
        LoadedStaysInOrder(cfg, s, a, phase);
      } else if a == Load(w) {
        GuardedLoadInOrder(cfg, s, w);
        LoadedStaysInOrder(cfg, s, a, phase);
      }
    }
  }

  ghost predicate AllLoadsGuarded(states: seq<State>, actions: seq<Action>)
    requires |states| == |actions| + 1
  {
    forall k :: 0 <= k < |actions| ==> GuardedLoad(states[k], actions[k])
  }

  lemma {:induction false} GuardedLoadsKeep(cfg: Config, states: seq<State>, actions: seq<Action>, k: nat)
    requires IsRun(cfg, states, actions) && AllLoadsGuarded(states, actions) && k < |states|
    ensures AllLoadedInOrder(states[k])
  {
    if k > 0 {
      GuardedLoadsKeep(cfg, states, actions, k - 1);
      RunIsSound(cfg, states, actions, k - 1);
      assert StepAt(cfg, states, actions, k - 1);
      LoadedInOrderKept(cfg, states[k - 1], actions[k - 1]);
    }
  }

  /** Checking the guard once, when the step is loaded, is enough, whatever the locker: nothing that happens
      between the load and the call makes the call come too early. Under the exclusive lock the calls of a
      saga then never go back up. */
  lemma GuardedLoadsSuffice(cfg: Config, states: seq<State>, actions: seq<Action>)
    requires IsRun(cfg, states, actions) && AllLoadsGuarded(states, actions)
    ensures AllCallsInOrder(states, actions)
    ensures cfg.exclusive ==> AllDescend(states)
  {
    forall k | 0 <= k < |actions|
      ensures CallInOrder(states[k], actions[k])
    {
      assert StepAt(cfg, states, actions, k);
      GuardedLoadsKeep(cfg, states, actions, k);
      if Compensates(states[k], actions[k]) {
        assert LoadedInOrder(states[k], states[k].workers[actions[k].w]);
      }
    }
    ReverseOrderIff(cfg, states, actions);
  }

  // ----- runs in which no superseded claim is processed -----

  predicate IsCurrent(s: State, c: Claim) {
    ClaimResolves(s, c) && c.attempt == s.sagas[c.sagaId].steps[c.stepIndex].attempt
  }

  /** The claim that is loaded or recorded carries the step's current attempt number. */
  predicate Fenced(s: State, a: Action) {
    (a.Load? || a.Record?) && s.PhaseOf(a.w).HasClaim() ==> IsCurrent(s, s.PhaseOf(a.w).claim)
  }

  ghost predicate AllFenced(states: seq<State>, actions: seq<Action>)
    requires |states| == |actions| + 1
  {
    forall k :: 0 <= k < |actions| ==> Fenced(states[k], actions[k])
  }

  /** A current claim exists once: in the queue or with one worker. */
  ghost predicate CurrentIsUnique(s: State) {
    && (forall c :: c in s.queue && IsCurrent(s, c) ==> s.queue[c] == 1 && forall w :: !Carries(s, w, c))
    && (forall w, v, c :: Carries(s, w, c) && Carries(s, v, c) && IsCurrent(s, c) ==> w == v)
  }

  /** The claim that completed a step is gone. */
  ghost predicate CompletedIsSpent(s: State) {
    && (forall c :: c in s.queue && ClaimResolves(s, c) && s.sagas[c.sagaId].steps[c.stepIndex].status == StepCompleted
          ==> !IsCurrent(s, c))
    && (forall w, c :: Carries(s, w, c) && ClaimResolves(s, c)
                       && s.sagas[c.sagaId].steps[c.stepIndex].status == StepCompleted
          ==> !IsCurrent(s, c))
  }

  predicate AttemptsGrow(s: State, s': State) {
    forall id :: id in s.sagas ==>
      && id in s'.sagas && |s'.sagas[id].steps| == |s.sagas[id].steps|
      && forall i :: 0 <= i < |s.sagas[id].steps| ==> s.sagas[id].steps[i].attempt <= s'.sagas[id].steps[i].attempt
  }

  lemma AttemptsOnlyGrow(cfg: Config, s: State, a: Action)
    requires Enabled(cfg, s, a)
    ensures AttemptsGrow(s, Apply(cfg, s, a))
  {
    forall id | id in s.sagas
      ensures id in SagasAfter(cfg, s, a) && StepsProgress(s.sagas[id].steps, SagasAfter(cfg, s, a)[id].steps)
    {
      ActionHistory(cfg, s, a, id);
    }
  }

  lemma CurrentWasCurrent(s: State, s': State, c: Claim)
    requires AttemptsGrow(s, s') && ClaimOk(s.sagas, c) && IsCurrent(s', c)
    ensures IsCurrent(s, c)
  {
  }

  /** A current claim of a step is one value. */
  lemma CurrentIsOneValue(s: State, c: Claim, d: Claim)
    requires ClaimOk(s.sagas, c) && ClaimOk(s.sagas, d) && IsCurrent(s, c) && IsCurrent(s, d)
    requires c.sagaId == d.sagaId && c.stepIndex == d.stepIndex
    ensures c == d
  {
  }

  /** Where the claims of the next state come from. */
  ghost predicate ClaimFlow(s: State, a: Action, s': State) {
    && (forall c :: c in s'.queue ==>
          || (IsNewClaim(s, a, c) && s'.queue[c] == s.queue[c] + 1)
          || (c in s.queue && s'.queue[c] <= s.queue[c]))
    && (forall w, c :: Carries(s', w, c) ==>
          && !(a.Record? && a.w == w)
          && (Carries(s, w, c) || (a == Acquire(w, c) && c in s.queue && s'.queue[c] == s.queue[c] - 1)))
  }

  lemma ClaimsFlow(cfg: Config, s: State, a: Action)
    requires Enabled(cfg, s, a)
    ensures ClaimFlow(s, a, Apply(cfg, s, a))
  {
    var s' := Apply(cfg, s, a);
    forall c | c in s'.queue
      ensures (IsNewClaim(s, a, c) && s'.queue[c] == s.queue[c] + 1) || (c in s.queue && s'.queue[c] <= s.queue[c])
    {
      QueueFlow(cfg, s, a, c);
    }
    forall w, c | Carries(s', w, c)
      ensures !(a.Record? && a.w == w)
      ensures Carries(s, w, c) || (a == Acquire(w, c) && c in s.queue && s'.queue[c] == s.queue[c] - 1)
    {
      WorkerFlow(cfg, s, a, w);
    }
  }

  lemma NewClaimIsNew(s: State, a: Action, c: Claim)
    requires ClaimsOk(s) && IsNewClaim(s, a, c) && s.sagas[a.id].id == a.id
    ensures c !in s.queue && forall w :: !Carries(s, w, c)
  {
    assert !ClaimOk(s.sagas, c);
  }

  lemma UniqueKept(s: State, a: Action, s': State)
    requires ClaimsOk(s) && CurrentIsUnique(s) && AttemptsGrow(s, s') && ClaimFlow(s, a, s')
    requires forall id :: id in s.sagas ==> s.sagas[id].id == id
    ensures CurrentIsUnique(s')
  {
    forall c | c in s'.queue && IsCurrent(s', c)
      ensures s'.queue[c] == 1 && forall w :: !Carries(s', w, c)
    {
      if IsNewClaim(s, a, c) {
        NewClaimIsNew(s, a, c);
      } else {
        CurrentWasCurrent(s, s', c);
      }
    }
    forall w, v, c | Carries(s', w, c) && Carries(s', v, c) && IsCurrent(s', c)
      ensures w == v
    {
      assert ClaimOk(s.sagas, c);
      CurrentWasCurrent(s, s', c);
    }
  }

  /** Only recording a successful execution completes a step. */
  lemma CompletedOnlyByRecord(cfg: Config, s: State, a: Action, id: SagaId, i: int)
    requires Enabled(cfg, s, a) && id in s.sagas && 0 <= i < |s.sagas[id].steps|
    requires var sagas := SagasAfter(cfg, s, a);
             id in sagas && i < |sagas[id].steps| && sagas[id].steps[i].status == StepCompleted
    ensures s.sagas[id].steps[i].status == StepCompleted
         || (a.Record? && s.PhaseOf(a.w).claim.sagaId == id && s.PhaseOf(a.w).claim.stepIndex == i)
  {
  }

  lemma SpentKept(s: State, a: Action, s': State, c: Claim)
    requires ClaimsOk(s) && CurrentIsUnique(s) && CompletedIsSpent(s) && Fenced(s, a)
    requires AttemptsGrow(s, s') && ClaimFlow(s, a, s')
    requires c in s'.queue || exists w :: Carries(s', w, c)
    requires !IsNewClaim(s, a, c) && ClaimResolves(s, c)
    requires s.sagas[c.sagaId].steps[c.stepIndex].status == StepCompleted
          || (a.Record? && s.PhaseOf(a.w).HasClaim() && s.PhaseOf(a.w).claim.sagaId == c.sagaId
              && s.PhaseOf(a.w).claim.stepIndex == c.stepIndex)
    ensures !IsCurrent(s', c)
  {
    assert c in s.queue || exists w :: Carries(s, w, c);
    if IsCurrent(s', c) {
      CurrentWasCurrent(s, s', c);
      if s.sagas[c.sagaId].steps[c.stepIndex].status != StepCompleted {
        assert Carries(s, a.w, s.PhaseOf(a.w).claim);
        CurrentIsOneValue(s, c, s.PhaseOf(a.w).claim);
      }
    }
  }

  lemma CompletedSpentAfter(cfg: Config, s: State, a: Action)
    requires ClaimsOk(s) && CurrentIsUnique(s) && CompletedIsSpent(s) && Enabled(cfg, s, a) && Fenced(s, a)
    requires AttemptsGrow(s, Apply(cfg, s, a)) && ClaimFlow(s, a, Apply(cfg, s, a))
    requires forall id :: id in s.sagas ==> s.sagas[id].id == id
    ensures CompletedIsSpent(Apply(cfg, s, a))
  {
    var s' := Apply(cfg, s, a);
    forall c | c in s'.queue && ClaimResolves(s', c) && s'.sagas[c.sagaId].steps[c.stepIndex].status == StepCompleted
      ensures !IsCurrent(s', c)
    {
      SpentAfter(cfg, s, a, c);
    }
    forall w, c | Carries(s', w, c) && ClaimResolves(s', c)
                  && s'.sagas[c.sagaId].steps[c.stepIndex].status == StepCompleted
      ensures !IsCurrent(s', c)
    {
      SpentAfter(cfg, s, a, c);
    }
  }

  lemma SpentAfter(cfg: Config, s: State, a: Action, c: Claim)
    requires ClaimsOk(s) && CurrentIsUnique(s) && CompletedIsSpent(s) && Enabled(cfg, s, a) && Fenced(s, a)
    requires AttemptsGrow(s, Apply(cfg, s, a)) && ClaimFlow(s, a, Apply(cfg, s, a))
    requires forall id :: id in s.sagas ==> s.sagas[id].id == id
    requires var s' := Apply(cfg, s, a);
      && (c in s'.queue || exists w :: Carries(s', w, c)) && ClaimResolves(s', c)
      && s'.sagas[c.sagaId].steps[c.stepIndex].status == StepCompleted
    ensures !IsCurrent(Apply(cfg, s, a), c)
  {
    if IsNewClaim(s, a, c) {
      NewClaimNotCompleted(cfg, s, a);
    } else {
      assert c in s.queue || exists w :: Carries(s, w, c);
      assert ClaimOk(s.sagas, c);
      CompletedOnlyByRecord(cfg, s, a, c.sagaId, c.stepIndex);
      SpentKept(s, a, Apply(cfg, s, a), c);
    }
  }

  lemma NewClaimNotCompleted(cfg: Config, s: State, a: Action)
    requires a.ClaimStep? && Enabled(cfg, s, a)
    ensures SagasAfter(cfg, s, a)[a.id].steps[a.index].status != StepCompleted
  {
  }

  ghost predicate FencedInv(s: State) {
    CurrentIsUnique(s) && CompletedIsSpent(s)
  }

  lemma FencedStepKeeps(cfg: Config, s: State, a: Action)
    requires Keyed(s.sagas) && ClaimsOk(s) && FencedInv(s) && Enabled(cfg, s, a) && Fenced(s, a)
    ensures FencedInv(Apply(cfg, s, a))
  {
    AttemptsOnlyGrow(cfg, s, a);
    ClaimsFlow(cfg, s, a);
    UniqueKept(s, a, Apply(cfg, s, a));
    CompletedSpentAfter(cfg, s, a);
  }

  /** Whatever the locker: in a run that processes no superseded claim, a current claim exists once, and the
      claim that completed a step is gone. */
  lemma {:induction false} FencedRunKeeps(cfg: Config, states: seq<State>, actions: seq<Action>, k: nat)
    requires IsRun(cfg, states, actions) && k < |states| && AllFenced(states, actions)
    ensures FencedInv(states[k])
  {
    if k > 0 {
      FencedRunKeeps(cfg, states, actions, k - 1);
      ClaimsArePlausible(cfg, states, actions, k - 1);
      assert StepAt(cfg, states, actions, k - 1);
      FencedStepKeeps(cfg, states[k - 1], actions[k - 1]);
    }
  }

  lemma FencedLoadIsGuarded(cfg: Config, s: State, a: Action)
    requires SagasSound(s) && FencedInv(s) && Enabled(cfg, s, a) && Fenced(s, a)
    ensures GuardedLoad(s, a)
  {
    if a.Load? {
      var claim := s.PhaseOf(a.w).claim;
      assert Carries(s, a.w, claim);
      assert SagaSound(s.sagas[claim.sagaId], s.CallsOf(claim.sagaId));
      if s.sagas[claim.sagaId].status == Canceling { UnwindingSettled(s.sagas[claim.sagaId], claim.stepIndex); }
    }
  }

  /** A run that processes no superseded claim unwinds in reverse, whatever the locker: every Compensate call
      finds every higher step COMPENSATED. Under the exclusive lock the calls of a saga never go back up. */
  lemma UnwindsInReverse(cfg: Config, states: seq<State>, actions: seq<Action>)
    requires IsRun(cfg, states, actions) && AllFenced(states, actions)
    ensures AllCallsInOrder(states, actions)
    ensures cfg.exclusive ==> AllDescend(states)
  {
    forall k | 0 <= k < |actions|
      ensures GuardedLoad(states[k], actions[k])
    {
      assert StepAt(cfg, states, actions, k);
      RunIsSound(cfg, states, actions, k);
      FencedRunKeeps(cfg, states, actions, k);
      FencedLoadIsGuarded(cfg, states[k], actions[k]);
    }
    GuardedLoadsSuffice(cfg, states, actions);
  }
}
