/** What holds of every reachable saga and its calls with any locker, the no-op one included: its shape, that
    executions are in order, that a COMPLETED saga took effect, and that each step's outcome is that of a call. */
module AnyLocker {
  import opened Domain
  import opened Claiming
  import opened Recording
  import opened Cancellation
  import opened Shape
  import opened Protocol
  import opened History
  import opened LocalInvariant

  /** The saga is being unwound, or ended in another way than COMPLETED. There is no way back from there. */
  predicate GivenUp(status: SagaStatus) {
    status == Canceling || status == Compensated || status == Failed
  }

  ghost predicate CompletedWereExecuted(saga: Saga, calls: seq<Call>) {
    forall i :: 0 <= i < |saga.steps| && saga.steps[i].status == StepCompleted ==> Executed(calls, i)
  }

  /** The step was called with this result. */
  ghost predicate HasCall(calls: seq<Call>, step: int, ok: bool) {
    exists p :: 0 <= p < |calls| && calls[p].step == step && calls[p].ok == ok
  }

  /** A final status is the result of a call, unless the step was skipped by a cancel. */
  ghost predicate StepBacked(step: Step, calls: seq<Call>, i: int) {
    match step.status
    case StepCompleted => HasCall(calls, i, true)
    case StepCompensated => step.attempt == 0 || HasCall(calls, i, true)
    case StepFailed => HasCall(calls, i, false)
    case _ => true
  }

  ghost predicate StepsBacked(steps: seq<Step>, calls: seq<Call>) {
    forall i :: 0 <= i < |steps| ==> StepBacked(steps[i], calls, i)
  }

  ghost predicate SagaSound(saga: Saga, calls: seq<Call>) {
    && WeakShaped(saga) && AttemptsCounted(saga.steps) && StepsBacked(saga.steps, calls)
    && ExecutedInOrder(calls)
    && (saga.status != Failed ==> CompletedWereExecuted(saga, calls))
    && (!GivenUp(saga.status) ==> OnlyExecutes(calls))
  }

  /** What a worker knows from the time when it loaded its step. */
  ghost predicate ModeSound(saga: Saga, calls: seq<Call>, index: int, mode: Mode) {
    match mode
    case Execute => forall i :: 0 <= i < index ==> Executed(calls, i)
    case Compensate => GivenUp(saga.status)
  }

  ghost predicate PhaseSound(s: State, phase: Phase) {
    match phase
    case Loaded(claim, mode) =>
      claim.sagaId in s.sagas && ModeSound(s.sagas[claim.sagaId], s.CallsOf(claim.sagaId), claim.stepIndex, mode)
    case Dispatched(claim, mode, failure) =>
      && claim.sagaId in s.sagas
      && ModeSound(s.sagas[claim.sagaId], s.CallsOf(claim.sagaId), claim.stepIndex, mode)
      && (mode == Execute && failure.None? ==> Executed(s.CallsOf(claim.sagaId), claim.stepIndex))
      && HasCall(s.CallsOf(claim.sagaId), claim.stepIndex, failure.None?)
    case _ => true
  }

  ghost predicate SagasSound(s: State) {
    forall id :: id in s.sagas ==> SagaSound(s.sagas[id], s.CallsOf(id))
  }

  ghost predicate PhasesSound(s: State) {
    forall w :: w in s.workers ==> PhaseSound(s, s.workers[w])
  }

  ghost predicate Sound(s: State) {
    && Keyed(s.sagas) && ClaimsOk(s) && s.calls.Keys <= s.sagas.Keys
    && SagasSound(s) && PhasesSound(s)
  }

  // ----- calls -----

  lemma ExecutedStays(a: seq<Call>, b: seq<Call>, step: int)
    requires a <= b && Executed(a, step)
    ensures Executed(b, step)
  {
    var p :| 0 <= p < |a| && a[p] == Call(step, Execute, true);
    assert b[p] == a[p];
  }

  lemma HasCallStays(a: seq<Call>, b: seq<Call>, step: int, ok: bool)
    requires a <= b && HasCall(a, step, ok)
    ensures HasCall(b, step, ok)
  {
    var p :| 0 <= p < |a| && a[p].step == step && a[p].ok == ok;
    assert b[p] == a[p];
  }

  lemma BackedStays(steps: seq<Step>, a: seq<Call>, b: seq<Call>)
    requires a <= b && StepsBacked(steps, a)
    ensures StepsBacked(steps, b)
  {
    forall i | 0 <= i < |steps|
      ensures StepBacked(steps[i], b, i)
    {
      assert StepBacked(steps[i], a, i);
      if HasCall(a, i, true) { HasCallStays(a, b, i, true); }
      if HasCall(a, i, false) { HasCallStays(a, b, i, false); }
    }
  }

  lemma NextCallInOrder(calls: seq<Call>, call: Call)
    requires ExecutedInOrder(calls)
    requires call.mode == Execute ==> forall i :: 0 <= i < call.step ==> Executed(calls, i)
    ensures ExecutedInOrder(calls + [call])
  {
    var calls' := calls + [call];
    forall p, i | 0 <= p < |calls'| && 0 <= i < calls'[p].step && calls'[p].mode == Execute
      ensures Executed(calls'[..p], i)
    {
      assert calls'[..p] == calls[..p];
      if p == |calls| { assert calls[..p] == calls; } else { assert calls'[p] == calls[p]; }
    }
  }

  lemma CalledSound(saga: Saga, calls: seq<Call>, call: Call)
    requires SagaSound(saga, calls) && ModeSound(saga, calls, call.step, call.mode)
    ensures SagaSound(saga, calls + [call])
  {
    NextCallInOrder(calls, call);
    BackedStays(saga.steps, calls, calls + [call]);
    forall i | 0 <= i < |saga.steps| && saga.steps[i].status == StepCompleted && saga.status != Failed
      ensures Executed(calls + [call], i)
    {
      ExecutedStays(calls, calls + [call], i);
    }
  }

  // ----- sagas -----

  lemma ClaimSound(kind: StoreKind, saga: Saga, calls: seq<Call>, index: int, staleAfter: Time, now: Time)
    requires SagaSound(saga, calls) && Claimable(saga, index, staleAfter, now)
    ensures SagaSound(ClaimWrite(kind, saga, index, now), calls)
  {
    ClaimKeepsShape(kind, saga, index, staleAfter, now);
  }

  lemma RecordBacked(saga: Saga, calls: seq<Call>, index: int, failure: Option<string>, now: Time)
    requires StepsBacked(saga.steps, calls) && 0 <= index < |saga.steps|
    requires HasCall(calls, index, failure.None?)
    ensures StepsBacked(Recorded(saga, index, failure, now).steps, calls)
  {
    var steps' := Recorded(saga, index, failure, now).steps;
    forall i | 0 <= i < |steps'|
      ensures StepBacked(steps'[i], calls, i)
    {
      assert StepBacked(saga.steps[i], calls, i);
    }
  }

  lemma CancelBacked(saga: Saga, calls: seq<Call>, now: Time)
    requires StepsBacked(saga.steps, calls) && AttemptsCounted(saga.steps) && Canceled(saga, now).Ok?
    ensures StepsBacked(Canceled(saga, now).value.steps, calls)
  {
    if saga.status != Compensated {
      NormalizedSteps(saga.(status := Canceling), now);
      forall i | 0 <= i < |saga.steps|
        ensures StepBacked(Canceled(saga, now).value.steps[i], calls, i)
      {
        assert StepBacked(saga.steps[i], calls, i);
      }
    }
  }

  /** Only a success of the forward branch completes a step. */
  lemma CompletedByRecord(saga: Saga, index: int, failure: Option<string>, now: Time, i: int)
    requires 0 <= index < |saga.steps| && 0 <= i < |saga.steps|
    requires Recorded(saga, index, failure, now).steps[i].status == StepCompleted
    ensures saga.steps[i].status == StepCompleted
         || (i == index && failure.None? && RecordingBranch(saga.status, saga.steps[index].status) == Some(Execute))
  {
  }

  /** An outcome that the forward branch completes is that of an Execute, unless the saga has FAILED. */
  lemma RecordSound(saga: Saga, calls: seq<Call>, index: int, mode: Mode, failure: Option<string>, now: Time)
    requires SagaSound(saga, calls) && 0 <= index < |saga.steps| && saga.steps[index].status != StepPending
    requires ModeSound(saga, calls, index, mode)
    requires mode == Execute && failure.None? ==> Executed(calls, index)
    requires HasCall(calls, index, failure.None?)
    ensures SagaSound(Recorded(saga, index, failure, now).(updatedAt := now), calls)
  {
    var saga' := Recorded(saga, index, failure, now);
    RecordKeepsShape(saga, index, failure, now);
    RecordBacked(saga, calls, index, failure, now);
    forall i | 0 <= i < |saga.steps| && saga'.steps[i].status == StepCompleted && saga'.status != Failed
      ensures Executed(calls, i)
    {
      CompletedByRecord(saga, index, failure, now, i);
    }
  }

  lemma CancelSound(saga: Saga, calls: seq<Call>, now: Time)
    requires SagaSound(saga, calls) && Canceled(saga, now).Ok?
    ensures SagaSound(Canceled(saga, now).value.(updatedAt := now), calls)
  {
    CancelKeepsShape(saga, now);
    CancelBacked(saga, calls, now);
    if saga.status != Compensated { NormalizedSteps(saga.(status := Canceling), now); }
  }

  // ----- one action -----

  lemma NewSagaSound(cfg: Config, s: State, a: Action, id: SagaId)
    requires Enabled(cfg, s, a) && s.calls.Keys <= s.sagas.Keys
    requires id !in s.sagas && id in SagasAfter(cfg, s, a)
    ensures SagaSound(SagasAfter(cfg, s, a)[id], s.CallsOf(id))
  {
    StartShaped(id, a.workflow, a.context, a.requested, s.now);
  }

  lemma RecordedSound(cfg: Config, s: State, w: WorkerId)
    requires SagasSound(s) && ClaimsOk(s) && PhasesSound(s) && Enabled(cfg, s, Record(w))
    ensures var Dispatched(claim, _, failure) := s.PhaseOf(w);
      SagaSound(Recorded(s.sagas[claim.sagaId], claim.stepIndex, failure, s.now).(updatedAt := s.now),
                s.CallsOf(claim.sagaId))
  {
    var Dispatched(claim, mode, failure) := s.PhaseOf(w);
    assert PhaseSound(s, s.workers[w]) && ClaimOk(s.sagas, claim);
    assert SagaSound(s.sagas[claim.sagaId], s.CallsOf(claim.sagaId));
    RecordSound(s.sagas[claim.sagaId], s.CallsOf(claim.sagaId), claim.stepIndex, mode, failure, s.now);
  }

  lemma CanceledSound(cfg: Config, s: State, w: WorkerId)
    requires SagasSound(s) && Enabled(cfg, s, CancelUpdate(w)) && Canceled(s.sagas[s.PhaseOf(w).target], s.now).Ok?
    ensures var id := s.PhaseOf(w).target;
      SagaSound(Canceled(s.sagas[id], s.now).value.(updatedAt := s.now), s.CallsOf(id))
  {
    var id := s.PhaseOf(w).target;
    assert SagaSound(s.sagas[id], s.CallsOf(id));
    CancelSound(s.sagas[id], s.CallsOf(id), s.now);
  }

  lemma ClaimedSound(cfg: Config, s: State, id: SagaId, index: int)
    requires SagasSound(s) && Enabled(cfg, s, ClaimStep(id, index))
    ensures SagaSound(ClaimWrite(cfg.store, s.sagas[id], index, s.now), s.CallsOf(id))
  {
    assert SagaSound(s.sagas[id], s.CallsOf(id));
    ClaimSound(cfg.store, s.sagas[id], s.CallsOf(id), index, cfg.staleAfter, s.now);
  }

  /** What the action writes to a saga, with the calls as they were. */
  lemma WrittenSound(cfg: Config, s: State, a: Action, id: SagaId)
    requires SagasSound(s) && ClaimsOk(s) && PhasesSound(s) && Enabled(cfg, s, a) && id in s.sagas
    ensures id in SagasAfter(cfg, s, a) && SagaSound(SagasAfter(cfg, s, a)[id], s.CallsOf(id))
  {
    SagaChanges(cfg, s, a, id);
    if SagasAfter(cfg, s, a)[id] == s.sagas[id] {
      assert SagaSound(s.sagas[id], s.CallsOf(id));
    } else {
      match a
      case ClaimStep(_, index) => ClaimedSound(cfg, s, id, index);
      case Record(w) => RecordedSound(cfg, s, w);
      case CancelUpdate(w) => CanceledSound(cfg, s, w);
    }
  }

  /** A dispatch adds its call, any other action none. */
  lemma CallsGrowByDispatch(cfg: Config, s: State, a: Action, id: SagaId)
    requires Enabled(cfg, s, a)
    ensures var calls' := Apply(cfg, s, a).CallsOf(id);
      if a.Dispatch? && s.PhaseOf(a.w).claim.sagaId == id
      then var Loaded(claim, mode) := s.PhaseOf(a.w);
           calls' == s.CallsOf(id) + [Call(claim.stepIndex, mode, a.failure.None?)]
      else calls' == s.CallsOf(id)
  {
  }

  lemma SagaSoundKept(cfg: Config, s: State, a: Action, id: SagaId)
    requires Sound(s) && Enabled(cfg, s, a) && id in SagasAfter(cfg, s, a)
    ensures SagaSound(SagasAfter(cfg, s, a)[id], Apply(cfg, s, a).CallsOf(id))
  {
    CallsGrowByDispatch(cfg, s, a, id);
    if id !in s.sagas {
      NewSagaSound(cfg, s, a, id);
    } else {
      WrittenSound(cfg, s, a, id);
      if a.Dispatch? && s.PhaseOf(a.w).claim.sagaId == id {
        assert PhaseSound(s, s.workers[a.w]);
        var Loaded(claim, mode) := s.PhaseOf(a.w);
        CalledSound(s.sagas[id], s.CallsOf(id), Call(claim.stepIndex, mode, a.failure.None?));
      }
    }
  }

  lemma ModeStays(s: State, s': State, id: SagaId, index: int, mode: Mode)
    requires MovesOn(s, s', id) && ModeSound(s.sagas[id], s.CallsOf(id), index, mode)
    ensures ModeSound(s'.sagas[id], s'.CallsOf(id), index, mode)
  {
    match mode
    case Execute =>
      forall i | 0 <= i < index
        ensures Executed(s'.CallsOf(id), i)
      {
        ExecutedStays(s.CallsOf(id), s'.CallsOf(id), i);
      }
    case Compensate => DeadEnds(s.sagas[id].status, s'.sagas[id].status);
  }

  lemma PhaseStays(cfg: Config, s: State, a: Action, phase: Phase)
    requires Enabled(cfg, s, a) && PhaseSound(s, phase)
    ensures PhaseSound(Apply(cfg, s, a), phase)
  {
    if phase.Loaded? || phase.Dispatched? {
      var s', id := Apply(cfg, s, a), phase.claim.sagaId;
      ActionMovesOn(cfg, s, a, id);
      ModeStays(s, s', id, phase.claim.stepIndex, phase.mode);
      if phase.Dispatched? { HasCallStays(s.CallsOf(id), s'.CallsOf(id), phase.claim.stepIndex, phase.failure.None?); }
      if phase.Dispatched? && phase.mode == Execute && phase.failure.None? {
        ExecutedStays(s.CallsOf(id), s'.CallsOf(id), phase.claim.stepIndex);
      }
    }
  }

  /** A step that is loaded for execution is the open step: every earlier one was executed. */
  lemma LoadSound(cfg: Config, s: State, w: WorkerId)
    requires SagasSound(s) && ClaimsOk(s) && Enabled(cfg, s, Load(w))
    ensures w in WorkersAfter(cfg, s, Load(w)) && PhaseSound(s, WorkersAfter(cfg, s, Load(w))[w])
  {
    var claim := s.PhaseOf(w).claim;
    assert ClaimOk(s.sagas, claim);
    var saga := s.sagas[claim.sagaId];
    assert SagaSound(saga, s.CallsOf(claim.sagaId));
    if saga.status == Created || saga.status == Running {
      var k := OpenStep(saga);
      assert claim.stepIndex == k;
    }
  }

  lemma DispatchSound(cfg: Config, s: State, w: WorkerId, failure: Option<string>)
    requires PhasesSound(s) && Enabled(cfg, s, Dispatch(w, failure))
    ensures var Loaded(claim, mode) := s.PhaseOf(w);
            PhaseSound(Apply(cfg, s, Dispatch(w, failure)), Dispatched(claim, mode, failure))
  {
    var Loaded(claim, mode) := s.PhaseOf(w);
    assert PhaseSound(s, s.workers[w]);
    PhaseStays(cfg, s, Dispatch(w, failure), Loaded(claim, mode));
    CallsGrowByDispatch(cfg, s, Dispatch(w, failure), claim.sagaId);
    var calls' := Apply(cfg, s, Dispatch(w, failure)).CallsOf(claim.sagaId);
    assert calls'[|calls'| - 1] == Call(claim.stepIndex, mode, failure.None?);
  }

  /** A worker keeps its phase, loads or dispatches, or has nothing loaded. */
  lemma PhaseChanges(cfg: Config, s: State, a: Action, w: WorkerId)
    requires Enabled(cfg, s, a) && w in WorkersAfter(cfg, s, a)
    ensures var phase := WorkersAfter(cfg, s, a)[w];
      || (w in s.workers && phase == s.workers[w])
      || (a == Load(w) && phase == Loaded(s.PhaseOf(w).claim, ModeFor(s, s.PhaseOf(w).claim).value))
      || (a.Dispatch? && a.w == w && phase == Dispatched(s.PhaseOf(w).claim, s.PhaseOf(w).mode, a.failure))
      || !(phase.Loaded? || phase.Dispatched?)
  {
  }

  lemma PhaseSoundKept(cfg: Config, s: State, a: Action, w: WorkerId)
    requires SagasSound(s) && ClaimsOk(s) && PhasesSound(s) && Enabled(cfg, s, a) && w in WorkersAfter(cfg, s, a)
    ensures PhaseSound(Apply(cfg, s, a), WorkersAfter(cfg, s, a)[w])
  {
    PhaseChanges(cfg, s, a, w);
    var phase := WorkersAfter(cfg, s, a)[w];
    if w in s.workers && phase == s.workers[w] {
      PhaseStays(cfg, s, a, phase);
    } else if a == Load(w) {
      LoadSound(cfg, s, w);
      PhaseStays(cfg, s, a, phase);
    } else if a.Dispatch? && a.w == w {
      DispatchSound(cfg, s, w, a.failure);
    }
  }

  lemma CallsOfSagasOnly(cfg: Config, s: State, a: Action)
    requires Enabled(cfg, s, a) && s.calls.Keys <= s.sagas.Keys && ClaimsOk(s)
    ensures CallsAfter(cfg, s, a).Keys <= SagasAfter(cfg, s, a).Keys
  {
    SagasOnlyAdded(cfg, s, a);
    if a.Dispatch? { assert ClaimOk(s.sagas, s.PhaseOf(a.w).claim); }
  }

  lemma StepKeepsSound(cfg: Config, s: State, a: Action)
    requires Sound(s) && Enabled(cfg, s, a)
    ensures Sound(Apply(cfg, s, a))
  {
    ClaimsKept(cfg, s, a);
    CallsOfSagasOnly(cfg, s, a);
    forall id | id in SagasAfter(cfg, s, a)
      ensures SagaSound(SagasAfter(cfg, s, a)[id], Apply(cfg, s, a).CallsOf(id))
    {
      SagaSoundKept(cfg, s, a, id);
    }
    forall w | w in WorkersAfter(cfg, s, a)
      ensures PhaseSound(Apply(cfg, s, a), WorkersAfter(cfg, s, a)[w])
    {
      PhaseSoundKept(cfg, s, a, w);
    }
  }

  // ----- whole runs -----

  lemma {:induction false} RunIsSound(cfg: Config, states: seq<State>, actions: seq<Action>, k: nat)
    requires IsRun(cfg, states, actions) && k < |states|
    ensures Sound(states[k])
  {
    if k > 0 {
      RunIsSound(cfg, states, actions, k - 1);
      assert StepAt(cfg, states, actions, k - 1);
      StepKeepsSound(cfg, states[k - 1], actions[k - 1]);
    }
  }

  lemma SagaIsSound(cfg: Config, states: seq<State>, actions: seq<Action>, k: nat, id: SagaId)
    requires IsRun(cfg, states, actions) && k < |states| && id in states[k].sagas
    ensures SagaSound(states[k].sagas[id], states[k].CallsOf(id))
  {
    RunIsSound(cfg, states, actions, k);
  }

  /** A COMPLETED saga took effect: every step was executed with success, and nothing was compensated. */
  lemma CompletedTookEffect(cfg: Config, states: seq<State>, actions: seq<Action>, k: nat, id: SagaId)
    requires IsRun(cfg, states, actions) && k < |states| && id in states[k].sagas
    requires states[k].sagas[id].status == Completed
    ensures forall i :: 0 <= i < |states[k].sagas[id].steps| ==> Executed(states[k].CallsOf(id), i)
    ensures OnlyExecutes(states[k].CallsOf(id))
  {
    SagaIsSound(cfg, states, actions, k, id);
  }

  /** Final statuses are backed by calls: a FAILED step has a failed call, a COMPLETED one a successful call,
      and a COMPENSATED one a successful call unless it was never handed out. */
  lemma OutcomesAreBacked(cfg: Config, states: seq<State>, actions: seq<Action>, k: nat, id: SagaId, i: int)
    requires IsRun(cfg, states, actions) && k < |states| && id in states[k].sagas
    requires 0 <= i < |states[k].sagas[id].steps|
    ensures StepBacked(states[k].sagas[id].steps[i], states[k].CallsOf(id), i)
  {
    SagaIsSound(cfg, states, actions, k, id);
  }

  /** A COMPENSATED saga offers nothing to claim, record or cancel. */
  lemma CompensatedStaysOnce(cfg: Config, s: State, a: Action, id: SagaId)
    requires Enabled(cfg, s, a) && id in s.sagas && s.sagas[id].status == Compensated && WeakShaped(s.sagas[id])
    ensures id in SagasAfter(cfg, s, a)
    ensures SagasAfter(cfg, s, a)[id] == s.sagas[id].(updatedAt := SagasAfter(cfg, s, a)[id].updatedAt)
  {
    if a.Record? && s.PhaseOf(a.w).claim.sagaId == id {
      var claim := s.PhaseOf(a.w).claim;
      assert s.sagas[id].steps[claim.stepIndex].status == StepCompensated;
    }
  }

  /** Nothing but the update time of a COMPENSATED saga ever changes. */
  lemma {:induction false} CompensatedStays(cfg: Config, states: seq<State>, actions: seq<Action>,
                                            j: nat, k: nat, id: SagaId)
    requires IsRun(cfg, states, actions) && j <= k < |states| && id in states[j].sagas
    requires states[j].sagas[id].status == Compensated
    ensures id in states[k].sagas
    ensures states[k].sagas[id] == states[j].sagas[id].(updatedAt := states[k].sagas[id].updatedAt)
  {
    if j < k {
      CompensatedStays(cfg, states, actions, j, k - 1, id);
      SagaIsSound(cfg, states, actions, k - 1, id);
      assert StepAt(cfg, states, actions, k - 1);
      CompensatedStaysOnce(cfg, states[k - 1], actions[k - 1], id);
    }
  }
}
