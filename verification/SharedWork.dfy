/** Workers that run side by side get the work done: what is left to do never grows, however their actions
    interleave, and every outcome that is written leaves less. */
module SharedWork {
  import opened Domain
  import opened Claiming
  import opened Recording
  import opened Cancellation
  import opened Shape
  import opened Protocol
  import opened History
  import opened AnyLocker
  import opened ProtocolTheorems
  import opened Drain

  // ----- with cancels -----

  /** Outcomes that a saga can still take, a cancel at any time included: a CREATED or RUNNING saga has its
      open steps to execute, and then all its steps to compensate. */
  function Effort(saga: Saga): nat {
    match saga.status
    case Created => |OpenSteps(saga.steps)| + |saga.steps|
    case Running => |OpenSteps(saga.steps)| + |saga.steps|
    case Completed => |saga.steps|
    case Canceling => |UnsettledSteps(saga.steps)|
    case _ => 0
  }

  lemma {:induction false} Bounded(a: set<int>, n: nat)
    requires forall x :: x in a ==> 0 <= x < n
    ensures |a| <= n
  {
    if n == 0 {
      assert forall x :: x !in a;
      assert a == {};
    } else {
      Bounded(a - {n - 1}, n - 1);
    }
  }

  lemma ClaimKeepsEffort(kind: StoreKind, saga: Saga, index: int, staleAfter: Time, now: Time)
    requires WeakShaped(saga) && AttemptsCounted(saga.steps) && Claimable(saga, index, staleAfter, now)
    ensures Effort(ClaimWrite(kind, saga, index, now)) == Effort(saga)
  {
    ClaimKeepsWork(kind, saga, index, staleAfter, now);
  }

  lemma OutcomeLeavesLessEffort(saga: Saga, index: int, failure: Option<string>, now: Time)
    requires WeakShaped(saga) && AttemptsCounted(saga.steps) && saga.status != Failed
    requires 0 <= index < |saga.steps| && saga.steps[index].status != StepPending
    requires RecordingBranch(saga.status, saga.steps[index].status).Some?
    ensures Effort(Recorded(saga, index, failure, now)) < Effort(saga)
  {
    OutcomeLeavesLess(saga, index, failure, now);
    if saga.status == Canceling {
      CompensationKeepsShape(saga, index, failure, now);
    } else {
      ExecutionKeepsShape(saga, index, failure, now);
    }
  }

  lemma CancelKeepsEffort(saga: Saga, now: Time)
    requires WeakShaped(saga) && AttemptsCounted(saga.steps) && Canceled(saga, now).Ok?
    ensures Effort(Canceled(saga, now).value) <= Effort(saga)
  {
    if saga.status != Compensated {
      NormalizedSteps(saga.(status := Canceling), now);
      CancelKeepsShape(saga, now);
      var saga' := Canceled(saga, now).value;
      Bounded(UnsettledSteps(saga'.steps), |saga'.steps|);
      if saga.status == Canceling { assert UnsettledSteps(saga'.steps) == UnsettledSteps(saga.steps); }
    }
  }

  // ----- one action -----

  /** The recorded outcome is written to a saga that has not FAILED. */
  predicate Counts(saga: Saga, index: int)
    requires 0 <= index < |saga.steps|
  {
    saga.status != Failed && RecordingBranch(saga.status, saga.steps[index].status).Some?
  }

  /** The action writes an outcome to a saga that has not FAILED. */
  predicate AddsOutcome(s: State, a: Action) {
    && a.Record? && s.PhaseOf(a.w).Dispatched? && ClaimResolves(s, s.PhaseOf(a.w).claim)
    && Counts(s.sagas[s.PhaseOf(a.w).claim.sagaId], s.PhaseOf(a.w).claim.stepIndex)
  }

  /** The two measures of what is left, without and with a cancel to come. */
  function Left(cancels: bool, saga: Saga): nat {
    if cancels then Effort(saga) else Work(saga)
  }

  ghost function TotalLeft(cancels: bool, s: State): nat {
    Total(s.sagas, (saga: Saga) => Left(cancels, saga))
  }

  function Outcome(s: State, a: Action): nat {
    if AddsOutcome(s, a) then 1 else 0
  }

  /** What a start adds. */
  function Started(cancels: bool, s: State, a: Action): nat {
    if a.Start? && a.id !in s.sagas then (if cancels then 2 else 1) * |a.requested| else 0
  }

  /** The saga that the action may write to. */
  function Written(s: State, a: Action): Option<SagaId> {
    match a
    case ClaimStep(id, _) => Some(id)
    case Record(w) => if s.PhaseOf(w).Dispatched? then Some(s.PhaseOf(w).claim.sagaId) else None
    case CancelUpdate(w) => if s.PhaseOf(w).Canceller? then Some(s.PhaseOf(w).target) else None
    case _ => None
  }

  lemma OneSagaIsWritten(cfg: Config, s: State, a: Action)
    requires Enabled(cfg, s, a) && !a.Start?
    ensures match Written(s, a)
            case Some(id) => id in s.sagas && id in SagasAfter(cfg, s, a)
                             && SagasAfter(cfg, s, a) == s.sagas[id := SagasAfter(cfg, s, a)[id]]
            case None => SagasAfter(cfg, s, a) == s.sagas
  {
  }

  lemma OutcomeLeaves(saga: Saga, index: int, failure: Option<string>, now: Time, cancels: bool)
    requires WeakShaped(saga) && AttemptsCounted(saga.steps)
    requires 0 <= index < |saga.steps| && saga.steps[index].status != StepPending
    ensures Left(cancels, Recorded(saga, index, failure, now).(updatedAt := now))
            + (if Counts(saga, index) then 1 else 0)
         <= Left(cancels, saga)
  {
    if Counts(saga, index) {
      OutcomeLeavesLess(saga, index, failure, now);
      OutcomeLeavesLessEffort(saga, index, failure, now);
    } else {
      RecordKeepsShape(saga, index, failure, now);
    }
  }

  lemma RecordLeaves(cfg: Config, s: State, w: WorkerId, cancels: bool)
    requires SagasSound(s) && ClaimsOk(s) && Enabled(cfg, s, Record(w))
    ensures var Dispatched(claim, _, failure) := s.PhaseOf(w);
      var saga := s.sagas[claim.sagaId];
      Left(cancels, Recorded(saga, claim.stepIndex, failure, s.now).(updatedAt := s.now)) + Outcome(s, Record(w))
      <= Left(cancels, saga)
  {
    var Dispatched(claim, _, failure) := s.PhaseOf(w);
    assert ClaimOk(s.sagas, claim) && SagaSound(s.sagas[claim.sagaId], s.CallsOf(claim.sagaId));
    OutcomeLeaves(s.sagas[claim.sagaId], claim.stepIndex, failure, s.now, cancels);
  }

  lemma ClaimLeaves(cfg: Config, s: State, id: SagaId, index: int, cancels: bool)
    requires SagasSound(s) && Enabled(cfg, s, ClaimStep(id, index))
    ensures Left(cancels, ClaimWrite(cfg.store, s.sagas[id], index, s.now)) == Left(cancels, s.sagas[id])
  {
    assert SagaSound(s.sagas[id], s.CallsOf(id));
    ClaimKeepsWork(cfg.store, s.sagas[id], index, cfg.staleAfter, s.now);
    ClaimKeepsEffort(cfg.store, s.sagas[id], index, cfg.staleAfter, s.now);
  }

  lemma CancelLeaves(cfg: Config, s: State, w: WorkerId)
    requires SagasSound(s) && Enabled(cfg, s, CancelUpdate(w))
    ensures var saga := s.sagas[s.PhaseOf(w).target];
      Canceled(saga, s.now).Ok? ==> Effort(Canceled(saga, s.now).value.(updatedAt := s.now)) <= Effort(saga)
  {
    var id := s.PhaseOf(w).target;
    assert SagaSound(s.sagas[id], s.CallsOf(id));
    if Canceled(s.sagas[id], s.now).Ok? { CancelKeepsEffort(s.sagas[id], s.now); }
  }

  lemma WrittenLeaves(cfg: Config, s: State, a: Action, id: SagaId, cancels: bool)
    requires SagasSound(s) && ClaimsOk(s) && Enabled(cfg, s, a) && (a.CancelUpdate? ==> cancels)
    requires Written(s, a) == Some(id) && id in s.sagas
    ensures id in SagasAfter(cfg, s, a)
    ensures Left(cancels, SagasAfter(cfg, s, a)[id]) + Outcome(s, a) <= Left(cancels, s.sagas[id])
  {
    match a
    case ClaimStep(_, index) => ClaimLeaves(cfg, s, id, index, cancels);
    case Record(w) => RecordLeaves(cfg, s, w, cancels);
    case CancelUpdate(w) => CancelLeaves(cfg, s, w);
  }

  lemma StartAdds(cfg: Config, s: State, a: Action, cancels: bool)
    requires a.Start? && Enabled(cfg, s, a)
    ensures TotalLeft(cancels, Apply(cfg, s, a)) <= TotalLeft(cancels, s) + Started(cancels, s, a)
  {
    if a.id !in s.sagas {
      var m := SagasAfter(cfg, s, a);
      var saga := m[a.id];
      Bounded(OpenSteps(saga.steps), |saga.steps|);
      TotalOfOne(m, a.id, (saga: Saga) => Left(cancels, saga));
      assert m - {a.id} == s.sagas;
    }
  }

  /** No action adds to what is left but a start, and an outcome takes from it. */
  lemma ActionLeaves(cfg: Config, s: State, a: Action, cancels: bool)
    requires SagasSound(s) && ClaimsOk(s) && Enabled(cfg, s, a) && (a.CancelUpdate? ==> cancels)
    ensures TotalLeft(cancels, Apply(cfg, s, a)) + Outcome(s, a) <= TotalLeft(cancels, s) + Started(cancels, s, a)
  {
    if a.Start? {
      StartAdds(cfg, s, a, cancels);
    } else {
      OneSagaIsWritten(cfg, s, a);
      if Written(s, a).Some? {
        var id := Written(s, a).value;
        WrittenLeaves(cfg, s, a, id, cancels);
        TotalAfterUpdate(s.sagas, id, SagasAfter(cfg, s, a)[id], (saga: Saga) => Left(cancels, saga));
      }
    }
  }

  // ----- whole runs -----

  /** How many outcomes are written between two moments of a run. */
  function Outcomes(states: seq<State>, actions: seq<Action>, j: nat, k: nat): nat
    requires j <= k <= |actions| < |states|
  {
    if j == k then 0 else Outcomes(states, actions, j, k - 1) + Outcome(states[k - 1], actions[k - 1])
  }

  function StartedBetween(cancels: bool, states: seq<State>, actions: seq<Action>, j: nat, k: nat): nat
    requires j <= k <= |actions| < |states|
  {
    if j == k then 0
    else StartedBetween(cancels, states, actions, j, k - 1) + Started(cancels, states[k - 1], actions[k - 1])
  }

  predicate NoCancels(actions: seq<Action>, j: nat, k: nat) {
    forall i :: j <= i < k && i < |actions| ==> !actions[i].CancelUpdate?
  }

  lemma StepLeaves(cfg: Config, states: seq<State>, actions: seq<Action>, k: nat, cancels: bool)
    requires IsRun(cfg, states, actions) && k < |actions| && (actions[k].CancelUpdate? ==> cancels)
    ensures TotalLeft(cancels, states[k + 1]) + Outcome(states[k], actions[k])
         <= TotalLeft(cancels, states[k]) + Started(cancels, states[k], actions[k])
  {
    RunIsSound(cfg, states, actions, k);
    assert StepAt(cfg, states, actions, k);
    ActionLeaves(cfg, states[k], actions[k], cancels);
  }

  /** The work of a run is shared: between any two of its moments, with any locker, any workers and any answers,
      what is left at the end and the outcomes written meanwhile are covered by what was left at the beginning
      and what was started meanwhile. With `cancels` this allows for cancels, at twice the price of a start. */
  lemma {:induction false} WorkIsShared(cfg: Config, states: seq<State>, actions: seq<Action>, j: nat, k: nat,
                                        cancels: bool)
    requires IsRun(cfg, states, actions) && j <= k < |states| && (cancels || NoCancels(actions, j, k))
    ensures TotalLeft(cancels, states[k]) + Outcomes(states, actions, j, k)
         <= TotalLeft(cancels, states[j]) + StartedBetween(cancels, states, actions, j, k)
  {
    if j < k {
      WorkIsShared(cfg, states, actions, j, k - 1, cancels);
      StepLeaves(cfg, states, actions, k - 1, cancels);
    }
  }

  /** With the exclusive lock every outcome that is written counts: none goes to a FAILED saga. */
  lemma EveryWriteCounts(cfg: Config, states: seq<State>, actions: seq<Action>, k: nat,
                         id: SagaId, step: int, mode: Mode)
    requires cfg.exclusive && IsRun(cfg, states, actions) && k < |actions|
    requires Writes(states[k], actions[k], id, step, mode)
    ensures Outcome(states[k], actions[k]) == 1
  {
    ModeAgreement(cfg, states, actions, k);
  }
}
