/** What every run of the protocol guarantees, and what of it takes an exclusive saga lock. */
module ProtocolTheorems {
  import opened Domain
  import opened Recording
  import opened Shape
  import opened Protocol
  import opened History
  import opened LocalInvariant
  import opened AnyLocker
  import opened GlobalInvariant

  /** COMPENSATED means that no step keeps an effect, COMPLETED that every step took effect and none was
      undone, FAILED that one step failed with the last call of the saga; if that call was an Execute,
      nothing was compensated. */
  ghost predicate Atomic(saga: Saga, calls: seq<Call>) {
    match saga.status
    case Compensated =>
      forall i :: 0 <= i < |saga.steps| ==> NeverExecuted(calls, i) || CompensatedAfterExecute(calls, i)
    case Completed =>
      && (forall i :: 0 <= i < |saga.steps| ==> Executed(calls, i))
      && OnlyExecutes(calls)
    case Failed =>
      && FailedByLastCall(saga, calls)
      && (exists f :: OnlyFailureAt(saga.steps, f))
      && (calls[|calls| - 1].mode == Execute ==> OnlyExecutes(calls))
    case _ => true
  }

  lemma LocalAtomicity(l: Local)
    requires Shaped(l.saga) && CallsOk(l.saga, l.calls)
    ensures Atomic(l.saga, l.calls)
  {
    var last := |l.calls| - 1;
    assert forall p :: 0 <= p < last && l.calls[p].mode == Compensate ==> l.calls[last].mode == Compensate;
  }

  lemma CompletedInFull(saga: Saga, calls: seq<Call>)
    requires saga.status == Completed && Atomic(saga, calls)
    ensures forall i :: 0 <= i < |saga.steps| ==> Call(i, Execute, true) in calls
    ensures forall call :: call in calls ==> call.mode == Execute
  {
    forall i | 0 <= i < |saga.steps|
      ensures Call(i, Execute, true) in calls
    {
      assert Executed(calls, i);
    }
  }

  lemma FailedInFull(saga: Saga, calls: seq<Call>)
    requires saga.status == Failed && Atomic(saga, calls)
    ensures calls != []
    ensures var last := calls[|calls| - 1];
      && !last.ok && 0 <= last.step < |saga.steps|
      && (forall j :: 0 <= j < |saga.steps| ==> (saga.steps[j].status == StepFailed <==> j == last.step))
      && (last.mode == Execute ==> forall call :: call in calls ==> call.mode == Execute)
  {
    var f :| OnlyFailureAt(saga.steps, f);
    assert f == calls[|calls| - 1].step;
  }

  lemma OrderInFull(calls: seq<Call>)
    requires ExecutedInOrder(calls)
    ensures forall p, i :: 0 <= p < |calls| && calls[p].mode == Execute && 0 <= i < calls[p].step ==>
      Call(i, Execute, true) in calls[..p]
  {
    forall p, i | 0 <= p < |calls| && calls[p].mode == Execute && 0 <= i < calls[p].step
      ensures Call(i, Execute, true) in calls[..p]
    {
      assert Executed(calls[..p], i);
    }
  }

  lemma CompensatedInFull(saga: Saga, calls: seq<Call>)
    requires saga.status == Compensated && Atomic(saga, calls)
    ensures forall i :: 0 <= i < |saga.steps| ==>
      || (forall call :: call in calls && call.step == i ==> call.mode == Compensate)
      || exists p :: 0 <= p < |calls| && calls[p] == Call(i, Compensate, true)
                     && forall q :: p < q < |calls| && calls[q].step == i ==> calls[q].mode == Compensate
  {
    forall i | 0 <= i < |saga.steps| && CompensatedAfterExecute(calls, i)
      ensures exists p :: 0 <= p < |calls| && calls[p] == Call(i, Compensate, true)
                          && forall q :: p < q < |calls| && calls[q].step == i ==> calls[q].mode == Compensate
    {
      var p :| 0 <= p < |calls| && calls[p] == Call(i, Compensate, true) && NeverExecuted(calls[p..], i);
      forall q | p < q < |calls| && calls[q].step == i
        ensures calls[q].mode == Compensate
      {
        assert calls[q] == calls[p..][q - p];
      }
    }
  }

  /** Atomicity over every run: any workers, stale reclaims, dropped claims, lost leases and cancels. What
      COMPLETED says holds with any locker, what COMPENSATED and FAILED say takes the lock. */
  lemma Atomicity(cfg: Config, states: seq<State>, actions: seq<Action>, k: nat, id: SagaId)
    requires IsRun(cfg, states, actions) && k < |states| && id in states[k].sagas
    ensures cfg.exclusive || states[k].sagas[id].status == Completed ==>
      Atomic(states[k].sagas[id], states[k].CallsOf(id))
    // in full: COMPLETED with any locker, COMPENSATED and FAILED with the exclusive lock
    ensures var saga, calls := states[k].sagas[id], states[k].CallsOf(id);
      saga.status == Completed ==>
        && (forall i :: 0 <= i < |saga.steps| ==> Call(i, Execute, true) in calls)
        && (forall call :: call in calls ==> call.mode == Execute)
    ensures var saga, calls := states[k].sagas[id], states[k].CallsOf(id);
      cfg.exclusive && saga.status == Compensated ==> forall i :: 0 <= i < |saga.steps| ==>
        || (forall call :: call in calls && call.step == i ==> call.mode == Compensate)
        || exists p :: 0 <= p < |calls| && calls[p] == Call(i, Compensate, true)
                       && forall q :: p < q < |calls| && calls[q].step == i ==> calls[q].mode == Compensate
    ensures var saga, calls := states[k].sagas[id], states[k].CallsOf(id);
      cfg.exclusive && saga.status == Failed ==>
        && calls != []
        && var last := calls[|calls| - 1];
           && !last.ok && 0 <= last.step < |saga.steps|
           && (forall j :: 0 <= j < |saga.steps| ==> (saga.steps[j].status == StepFailed <==> j == last.step))
           && (last.mode == Execute ==> forall call :: call in calls ==> call.mode == Execute)
  {
    var saga, calls := states[k].sagas[id], states[k].CallsOf(id);
    if states[k].sagas[id].status == Completed {
      CompletedTookEffect(cfg, states, actions, k, id);
      CompletedInFull(saga, calls);
    } else if cfg.exclusive {
      RunKeeps(cfg, states, actions, k);
      LocalAtomicity(View(states[k], id));
      if saga.status == Compensated { CompensatedInFull(saga, calls); }
      if saga.status == Failed { FailedInFull(saga, calls); }
    }
  }

  /** The outcome of a dispatched call is written by the branch of the mode that was dispatched, into a saga
      that is still where that mode came from. */
  predicate RecordsInMode(s: State, w: WorkerId, s': State) {
    && s.PhaseOf(w).Dispatched?
    && var Dispatched(claim, mode, failure) := s.PhaseOf(w);
       && Writes(s, Record(w), claim.sagaId, claim.stepIndex, mode)
       && claim.sagaId in s'.sagas
       && var saga := s.sagas[claim.sagaId];
          && ModeAgrees(saga, claim.stepIndex, mode)
          && s'.sagas[claim.sagaId] == (match mode
               case Execute => ExecutionRecorded(saga, claim.stepIndex, failure, s.now)
               case Compensate => CompensationRecorded(saga, claim.stepIndex, failure, s.now)
             ).(updatedAt := s.now)
  }

  lemma HolderModeAgrees(cfg: Config, s: State, w: WorkerId)
    requires cfg.exclusive && LocalsOk(s) && Enabled(cfg, s, Record(w))
    ensures var Dispatched(claim, mode, _) := s.PhaseOf(w);
            ModeAgrees(s.sagas[claim.sagaId], claim.stepIndex, mode)
  {
    var id := s.PhaseOf(w).claim.sagaId;
    assert HolderOf(s, id) == s.PhaseOf(w);
    assert LocalInv(View(s, id));
  }

  lemma AgreeingRecord(cfg: Config, s: State, w: WorkerId)
    requires Enabled(cfg, s, Record(w))
    requires var Dispatched(claim, mode, _) := s.PhaseOf(w);
             ModeAgrees(s.sagas[claim.sagaId], claim.stepIndex, mode)
    ensures RecordsInMode(s, w, Apply(cfg, s, Record(w)))
  {
  }

  /** Mode agreement: whatever claims interleave between load and update, an Execute result is recorded
      by the forward branch of a CREATED or RUNNING saga, a Compensate result by the other branch. */
  lemma ModeAgreement(cfg: Config, states: seq<State>, actions: seq<Action>, k: nat)
    requires cfg.exclusive && IsRun(cfg, states, actions) && k < |actions| && actions[k].Record?
    ensures RecordsInMode(states[k], actions[k].w, states[k + 1])
  {
    RunKeeps(cfg, states, actions, k);
    assert StepAt(cfg, states, actions, k);
    HolderModeAgrees(cfg, states[k], actions[k].w);
    AgreeingRecord(cfg, states[k], actions[k].w);
  }

  /** The shape of every reachable saga, and of the claims that are still around. With the exclusive lock
      a FAILED saga has exactly one FAILED step. */
  lemma ReachableShape(cfg: Config, states: seq<State>, actions: seq<Action>, k: nat, id: SagaId)
    requires IsRun(cfg, states, actions) && k < |states| && id in states[k].sagas
    ensures WeakShaped(states[k].sagas[id]) && AttemptsCounted(states[k].sagas[id].steps)
    ensures ClaimsOk(states[k])
    ensures cfg.exclusive ==> Shaped(states[k].sagas[id])
  {
    RunIsSound(cfg, states, actions, k);
    assert SagaSound(states[k].sagas[id], states[k].CallsOf(id));
    if cfg.exclusive {
      RunKeeps(cfg, states, actions, k);
      assert LocalInv(View(states[k], id));
    }
  }

  /** Execution is in order, duplicates included, whatever the locker. With the exclusive lock it also stops
      for good when the saga leaves CREATED and RUNNING. */
  lemma ExecutionInOrder(cfg: Config, states: seq<State>, actions: seq<Action>, j: nat, k: nat, id: SagaId)
    requires IsRun(cfg, states, actions) && j <= k < |states| && id in states[j].sagas
    ensures ExecutedInOrder(states[k].CallsOf(id))
    ensures var calls := states[k].CallsOf(id);
      forall p, i :: 0 <= p < |calls| && calls[p].mode == Execute && 0 <= i < calls[p].step ==>
        Call(i, Execute, true) in calls[..p]
    ensures cfg.exclusive ==>
      var early, late := states[j].CallsOf(id), states[k].CallsOf(id);
      && NoExecuteAfterCompensate(late)
      && early <= late
      && (!IsForward(states[j].sagas[id].status) ==>
            forall p :: |early| <= p < |late| ==> late[p].mode == Compensate)
  {
    MonotoneHistory(cfg, states, actions, j, k, id);
    SagaIsSound(cfg, states, actions, k, id);
    OrderInFull(states[k].CallsOf(id));
    if cfg.exclusive {
      RunKeeps(cfg, states, actions, k);
      RunProgresses(cfg, states, actions, j, k);
      assert LocalProgress(View(states[j], id), View(states[k], id));
      assert LocalInv(View(states[k], id));
    }
  }

  /** The ends are frozen: nothing but the update time of a COMPENSATED saga ever changes, whatever the
      locker, and with the exclusive lock this goes for a FAILED one too, and no participant is called for
      either any more. */
  lemma EndsAreFrozen(cfg: Config, states: seq<State>, actions: seq<Action>, j: nat, k: nat, id: SagaId)
    requires IsRun(cfg, states, actions) && j <= k < |states| && id in states[j].sagas
    requires states[j].sagas[id].status == Compensated || states[j].sagas[id].status == Failed
    ensures id in states[k].sagas
    ensures cfg.exclusive || states[j].sagas[id].status == Compensated ==>
      states[k].sagas[id] == states[j].sagas[id].(updatedAt := states[k].sagas[id].updatedAt)
    ensures cfg.exclusive ==> states[k].CallsOf(id) == states[j].CallsOf(id)
  {
    MonotoneHistory(cfg, states, actions, j, k, id);
    if states[j].sagas[id].status == Compensated { CompensatedStays(cfg, states, actions, j, k, id); }
    if cfg.exclusive {
      RunProgresses(cfg, states, actions, j, k);
      assert LocalProgress(View(states[j], id), View(states[k], id));
    }
  }
}
