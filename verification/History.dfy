/** What every run keeps whatever the locker, the no-op one included: sagas keep their identity and only
    move forward, a step gets one outcome per branch, and claims point at steps that were handed out. */
module History {
  import opened Domain
  import opened Claiming
  import opened Starting
  import opened Recording
  import opened Cancellation
  import opened Protocol

  function Rank(status: StepStatus): nat {
    match status
    case StepPending => 0
    case StepRunning => 1
    case StepCompleted => 2
    case StepCompensating => 3
    case StepCompensated => 4
    case StepFailed => 4
  }

  /** A step keeps its identity, never moves back, and keeps its final outcome. */
  predicate StepProgress(a: Step, b: Step) {
    && b.name == a.name && b.grpcTarget == a.grpcTarget
    && a.attempt <= b.attempt
    && Rank(a.status) <= Rank(b.status)
    && (Rank(a.status) == 4 ==> b.status == a.status)
  }

  predicate StepsProgress(a: seq<Step>, b: seq<Step>) {
    |b| == |a| && forall i :: 0 <= i < |a| ==> StepProgress(a[i], b[i])
  }

  /** The saga keeps its identity and its status moves along the status graph. */
  ghost predicate SagaHistory(a: Saga, b: Saga) {
    && b.id == a.id && b.workflow == a.workflow && b.context == a.context && b.createdAt == a.createdAt
    && StepsProgress(a.steps, b.steps)
    && Reaches(a.status, b.status)
  }

  lemma StepsProgressTransitive(a: seq<Step>, b: seq<Step>, c: seq<Step>)
    requires StepsProgress(a, b) && StepsProgress(b, c)
    ensures StepsProgress(a, c)
  {
    forall i | 0 <= i < |a|
      ensures StepProgress(a[i], c[i])
    {
      assert StepProgress(a[i], b[i]) && StepProgress(b[i], c[i]);
    }
  }

  lemma HistoryTransitive(a: Saga, b: Saga, c: Saga)
    requires SagaHistory(a, b) && SagaHistory(b, c)
    ensures SagaHistory(a, c)
  {
    StepsProgressTransitive(a.steps, b.steps, c.steps);
    ReachesTransitive(a.status, b.status, c.status);
  }

  // ----- one action -----

  lemma StutterHistory(saga: Saga)
    ensures SagaHistory(saga, saga)
  {
    ReachesByTwoEdges(saga.status, saga.status, saga.status);
  }

  lemma ClaimHistory(kind: StoreKind, saga: Saga, index: int, staleAfter: Time, now: Time)
    requires Claimable(saga, index, staleAfter, now)
    ensures SagaHistory(saga, ClaimWrite(kind, saga, index, now))
  {
    ReachesByTwoEdges(saga.status, saga.status, saga.status);
  }

  lemma RecordedSteps(saga: Saga, index: int, failure: Option<string>, now: Time)
    requires 0 <= index < |saga.steps|
    ensures StepsProgress(saga.steps, Recorded(saga, index, failure, now).steps)
  {
  }

  /** An outcome may cross two edges of the status graph at once, CREATED to RUNNING to COMPLETED. */
  lemma RecordedStatus(saga: Saga, index: int, failure: Option<string>, now: Time)
    requires 0 <= index < |saga.steps|
    ensures Reaches(saga.status, Recorded(saga, index, failure, now).status)
  {
    var saga' := Recorded(saga, index, failure, now);
    var middle := if saga.status == Created && failure.None? && saga' != saga then Running else saga.status;
    ReachesByTwoEdges(saga.status, middle, saga'.status);
  }

  lemma RecordedHistory(saga: Saga, index: int, failure: Option<string>, now: Time)
    requires 0 <= index < |saga.steps|
    ensures SagaHistory(saga, Recorded(saga, index, failure, now).(updatedAt := now))
  {
    RecordedSteps(saga, index, failure, now);
    RecordedStatus(saga, index, failure, now);
  }

  /** So may a cancel: CREATED to CANCELING to COMPENSATED. */
  lemma CanceledHistory(saga: Saga, now: Time)
    requires Canceled(saga, now).Ok?
    ensures SagaHistory(saga, Canceled(saga, now).value.(updatedAt := now))
  {
    var saga' := Canceled(saga, now).value;
    assert forall i :: 0 <= i < |saga.steps| ==>
      saga'.steps[i] == if saga.status == Compensated then saga.steps[i] else SkipPending(saga.steps[i], now);
    ReachesByTwoEdges(saga.status, if saga.status == Compensated then Compensated else Canceling, saga'.status);
  }

  lemma ActionHistory(cfg: Config, s: State, a: Action, id: SagaId)
    requires Enabled(cfg, s, a) && id in s.sagas
    ensures id in SagasAfter(cfg, s, a) && SagaHistory(s.sagas[id], SagasAfter(cfg, s, a)[id])
  {
    StutterHistory(s.sagas[id]);
    match a
    case ClaimStep(target, index) => ClaimHistory(cfg.store, s.sagas[target], index, cfg.staleAfter, s.now);
    case Record(w) =>
      var Dispatched(claim, _, failure) := s.PhaseOf(w);
      RecordedHistory(s.sagas[claim.sagaId], claim.stepIndex, failure, s.now);
    case CancelUpdate(w) =>
      var saga := s.sagas[s.PhaseOf(w).target];
      if Canceled(saga, s.now).Ok? { CanceledHistory(saga, s.now); }
    case _ =>
  }

  /** How an action changes a stored saga, if it does. */
  lemma SagaChanges(cfg: Config, s: State, a: Action, id: SagaId)
    requires Enabled(cfg, s, a) && id in s.sagas
    ensures id in SagasAfter(cfg, s, a)
    ensures var saga' := SagasAfter(cfg, s, a)[id];
      || saga' == s.sagas[id]
      || (a.ClaimStep? && a.id == id && saga' == ClaimWrite(cfg.store, s.sagas[id], a.index, s.now))
      || (a.Record? && s.PhaseOf(a.w).claim.sagaId == id
          && saga' == Recorded(s.sagas[id], s.PhaseOf(a.w).claim.stepIndex, s.PhaseOf(a.w).failure, s.now)
                        .(updatedAt := s.now))
      || (a.CancelUpdate? && s.PhaseOf(a.w).target == id && Canceled(s.sagas[id], s.now).Ok?
          && saga' == Canceled(s.sagas[id], s.now).value.(updatedAt := s.now))
  {
  }

  lemma CallsOnlyAdded(cfg: Config, s: State, a: Action, id: SagaId)
    requires Enabled(cfg, s, a)
    ensures s.CallsOf(id) <= Apply(cfg, s, a).CallsOf(id)
  {
  }

  lemma SagasOnlyAdded(cfg: Config, s: State, a: Action)
    requires Enabled(cfg, s, a)
    ensures var sagas := SagasAfter(cfg, s, a);
      && s.sagas.Keys <= sagas.Keys
      && forall id :: id in sagas && id !in s.sagas ==>
           && a.Start? && a.id == id
           && sagas[id] == NewSaga(id, a.workflow, a.context, a.requested, s.now)
  {
  }

  // ----- whole runs -----

  /** The saga and its calls only move forward between two states. */
  ghost predicate MovesOn(s: State, s': State, id: SagaId) {
    && id in s.sagas && id in s'.sagas && SagaHistory(s.sagas[id], s'.sagas[id])
    && s.CallsOf(id) <= s'.CallsOf(id)
  }

  lemma ActionMovesOn(cfg: Config, s: State, a: Action, id: SagaId)
    requires Enabled(cfg, s, a) && id in s.sagas
    ensures MovesOn(s, Apply(cfg, s, a), id)
  {
    ActionHistory(cfg, s, a, id);
    CallsOnlyAdded(cfg, s, a, id);
  }

  lemma MovesOnReflexive(s: State, id: SagaId)
    requires id in s.sagas
    ensures MovesOn(s, s, id)
  {
    StutterHistory(s.sagas[id]);
  }

  lemma MovesOnTransitive(s: State, s': State, s'': State, id: SagaId)
    requires MovesOn(s, s', id) && MovesOn(s', s'', id)
    ensures MovesOn(s, s'', id)
  {
    HistoryTransitive(s.sagas[id], s'.sagas[id], s''.sagas[id]);
  }

  lemma RunMovesOn(cfg: Config, states: seq<State>, actions: seq<Action>, k: nat, from: State, id: SagaId)
    requires IsRun(cfg, states, actions) && k < |actions| && MovesOn(from, states[k], id)
    ensures MovesOn(from, states[k + 1], id)
  {
    assert StepAt(cfg, states, actions, k);
    ActionMovesOn(cfg, states[k], actions[k], id);
    MovesOnTransitive(from, states[k], states[k + 1], id);
  }

  /** Monotone history: between any two moments of a run a saga keeps its identity, its status moves along
      the status graph, no step moves back, attempts only grow and calls are only added. */
  lemma {:induction false} MonotoneHistory(cfg: Config, states: seq<State>, actions: seq<Action>,
                                           j: nat, k: nat, id: SagaId)
    requires IsRun(cfg, states, actions) && j <= k < |states| && id in states[j].sagas
    ensures MovesOn(states[j], states[k], id)
    ensures var a, b := states[j].sagas[id], states[k].sagas[id];
      && b.id == a.id && b.workflow == a.workflow && b.context == a.context && b.createdAt == a.createdAt
      && |b.steps| == |a.steps| && (b.status == a.status || Level(a.status) < Level(b.status))
  {
    if j == k {
      MovesOnReflexive(states[j], id);
    } else {
      MonotoneHistory(cfg, states, actions, j, k - 1, id);
      RunMovesOn(cfg, states, actions, k - 1, states[j], id);
    }
    ReachesIff(states[j].sagas[id].status, states[k].sagas[id].status);
  }

  lemma StepHistory(cfg: Config, states: seq<State>, actions: seq<Action>, j: nat, k: nat, id: SagaId, step: int)
    requires IsRun(cfg, states, actions) && j <= k < |states|
    requires id in states[j].sagas && 0 <= step < |states[j].sagas[id].steps|
    ensures id in states[k].sagas && |states[k].sagas[id].steps| == |states[j].sagas[id].steps|
    ensures StepProgress(states[j].sagas[id].steps[step], states[k].sagas[id].steps[step])
    ensures var a, b := states[j].sagas[id].steps[step], states[k].sagas[id].steps[step];
      && b.name == a.name && b.grpcTarget == a.grpcTarget && a.attempt <= b.attempt
      && (b.status == a.status || match a.status
          case StepPending => true
          case StepRunning => b.status != StepPending
          case StepCompleted => b.status in {StepCompensating, StepCompensated, StepFailed}
          case StepCompensating => b.status in {StepCompensated, StepFailed}
          case _ => false)
  {
    MonotoneHistory(cfg, states, actions, j, k, id);
  }

  /** The action writes an outcome for this step, by the branch of this mode. */
  predicate Writes(s: State, a: Action, id: SagaId, step: int, mode: Mode) {
    && a.Record? && s.PhaseOf(a.w).Dispatched?
    && var claim := s.PhaseOf(a.w).claim;
       && claim.sagaId == id && claim.stepIndex == step && ClaimResolves(s, claim)
       && RecordingBranch(s.sagas[id].status, s.sagas[id].steps[step].status) == Some(mode)
  }

  /** Past the statuses from which the branch writes. */
  predicate Settled(status: StepStatus, mode: Mode) {
    Rank(status) >= if mode == Execute then 2 else 4
  }

  lemma WritingSettles(cfg: Config, s: State, a: Action, id: SagaId, step: int, mode: Mode)
    requires Enabled(cfg, s, a) && Writes(s, a, id, step, mode)
    ensures id in SagasAfter(cfg, s, a) && step < |SagasAfter(cfg, s, a)[id].steps|
    ensures Settled(SagasAfter(cfg, s, a)[id].steps[step].status, mode)
  {
  }

  lemma SettledIsNotWritten(s: State, a: Action, id: SagaId, step: int, mode: Mode)
    requires Writes(s, a, id, step, mode)
    ensures !Settled(s.sagas[id].steps[step].status, mode)
  {
  }

  /** A recorded outcome leaves the step past the statuses from which the same branch writes, for good. */
  lemma OutcomeStays(cfg: Config, states: seq<State>, actions: seq<Action>, j: nat, k: nat,
                     id: SagaId, step: int, mode: Mode)
    requires IsRun(cfg, states, actions) && j < k < |states| && Writes(states[j], actions[j], id, step, mode)
    ensures id in states[k].sagas && 0 <= step < |states[k].sagas[id].steps|
    ensures Settled(states[k].sagas[id].steps[step].status, mode)
  {
    assert StepAt(cfg, states, actions, j);
    WritingSettles(cfg, states[j], actions[j], id, step, mode);
    StepHistory(cfg, states, actions, j + 1, k, id, step);
  }

  /** However often a step is handed out, and whoever holds the lock, one execution outcome and one
      compensation outcome at most are ever recorded for it. */
  lemma OneOutcomePerBranch(cfg: Config, states: seq<State>, actions: seq<Action>, j: nat, k: nat,
                            id: SagaId, step: int, mode: Mode)
    requires IsRun(cfg, states, actions) && j < |actions| && k < |actions|
    requires Writes(states[j], actions[j], id, step, mode) && Writes(states[k], actions[k], id, step, mode)
    ensures j == k
  {
    SettledIsNotWritten(states[j], actions[j], id, step, mode);
    SettledIsNotWritten(states[k], actions[k], id, step, mode);
    if j < k {
      OutcomeStays(cfg, states, actions, j, k, id, step, mode);
    } else if k < j {
      OutcomeStays(cfg, states, actions, k, j, id, step, mode);
    }
  }

  /** What a start asked for is what the saga is, as far as progress does not change it. */
  predicate StartedAs(saga: Saga, start: Action, at: Time) {
    && start.Start?
    && saga.id == start.id && saga.workflow == start.workflow && saga.context == start.context
    && saga.createdAt == at
    && |saga.steps| == |start.requested|
    && forall i :: 0 <= i < |saga.steps| ==>
         saga.steps[i].name == start.requested[i].name && saga.steps[i].grpcTarget == start.requested[i].grpcTarget
  }

  lemma StartedAsStays(a: Saga, b: Saga, start: Action, at: Time)
    requires StartedAs(a, start, at) && SagaHistory(a, b)
    ensures StartedAs(b, start, at)
  {
    forall i | 0 <= i < |b.steps|
      ensures b.steps[i].name == a.steps[i].name && b.steps[i].grpcTarget == a.steps[i].grpcTarget
    {
      assert StepProgress(a.steps[i], b.steps[i]);
    }
  }

  /** Starting again under the same id: once a start succeeded, the saga it created keeps its id,
      workflow, context, creation time and steps through any further actions, and every later start
      under that id leaves the whole state as it is. */
  lemma RepeatedStart(cfg: Config, states: seq<State>, actions: seq<Action>, j: nat, k: nat)
    requires IsRun(cfg, states, actions) && j < k < |actions|
    requires actions[j].Start? && actions[k].Start? && actions[k].id == actions[j].id
    ensures states[k + 1] == states[k]
    ensures actions[j].id in states[k].sagas
    ensures actions[j].id !in states[j].sagas ==>
      StartedAs(states[k].sagas[actions[j].id], actions[j], states[j].now)
  {
    var id := actions[j].id;
    assert StepAt(cfg, states, actions, j);
    assert id in states[j + 1].sagas;
    MonotoneHistory(cfg, states, actions, j + 1, k, id);
    assert StepAt(cfg, states, actions, k);
    if id !in states[j].sagas {
      StartedAsStays(states[j + 1].sagas[id], states[k].sagas[id], actions[j], states[j].now);
    }
  }

  // ----- claims -----

  predicate ClaimMatches(saga: Saga, c: Claim) {
    && 0 <= c.stepIndex < |saga.steps|
    && saga.steps[c.stepIndex].status != StepPending
    && saga.steps[c.stepIndex].name == c.name
    && 0 < c.attempt <= saga.steps[c.stepIndex].attempt
  }

  predicate ClaimOk(sagas: map<SagaId, Saga>, c: Claim) {
    c.sagaId in sagas && ClaimMatches(sagas[c.sagaId], c)
  }

  predicate ClaimsOk(s: State) {
    && (forall c :: c in s.queue ==> ClaimOk(s.sagas, c))
    && (forall w :: w in s.workers && s.workers[w].HasClaim() ==> ClaimOk(s.sagas, s.workers[w].claim))
  }

  predicate Carries(s: State, w: WorkerId, c: Claim) {
    w in s.workers && s.workers[w].HasClaim() && s.workers[w].claim == c
  }

  predicate IsNewClaim(s: State, a: Action, c: Claim) {
    && a.ClaimStep? && a.id in s.sagas && 0 <= a.index < |s.sagas[a.id].steps|
    && c == ClaimFor(s.sagas[a.id], a.index)
  }

  /** A queued claim was queued before, or was just handed out. */
  lemma QueueFlow(cfg: Config, s: State, a: Action, c: Claim)
    requires Enabled(cfg, s, a) && c in QueueAfter(cfg, s, a)
    ensures if IsNewClaim(s, a, c) then QueueAfter(cfg, s, a)[c] == s.queue[c] + 1
            else c in s.queue && QueueAfter(cfg, s, a)[c] <= s.queue[c]
  {
  }

  /** A worker carries a claim that it carried before or has just taken from the queue; recording an
      outcome puts the claim away. */
  lemma WorkerFlow(cfg: Config, s: State, a: Action, w: WorkerId)
    requires Enabled(cfg, s, a) && w in WorkersAfter(cfg, s, a) && WorkersAfter(cfg, s, a)[w].HasClaim()
    ensures !(a.Record? && a.w == w)
    ensures var c := WorkersAfter(cfg, s, a)[w].claim;
      Carries(s, w, c) || (a == Acquire(w, c) && c in s.queue && QueueAfter(cfg, s, a)[c] == s.queue[c] - 1)
  {
  }

  lemma ClaimSurvives(cfg: Config, s: State, a: Action, c: Claim)
    requires Enabled(cfg, s, a) && ClaimOk(s.sagas, c)
    ensures ClaimOk(SagasAfter(cfg, s, a), c)
  {
    ActionHistory(cfg, s, a, c.sagaId);
    assert StepProgress(s.sagas[c.sagaId].steps[c.stepIndex], SagasAfter(cfg, s, a)[c.sagaId].steps[c.stepIndex]);
  }

  lemma NewClaimOk(cfg: Config, s: State, id: SagaId, index: int)
    requires Keyed(s.sagas) && Enabled(cfg, s, ClaimStep(id, index))
    ensures ClaimOk(SagasAfter(cfg, s, ClaimStep(id, index)), ClaimFor(s.sagas[id], index))
  {
  }

  lemma QueuedClaimOk(cfg: Config, s: State, a: Action, c: Claim)
    requires Keyed(s.sagas) && ClaimsOk(s) && Enabled(cfg, s, a) && c in QueueAfter(cfg, s, a)
    ensures ClaimOk(SagasAfter(cfg, s, a), c)
  {
    QueueFlow(cfg, s, a, c);
    if c in s.queue { ClaimSurvives(cfg, s, a, c); } else { NewClaimOk(cfg, s, a.id, a.index); }
  }

  lemma CarriedClaimOk(cfg: Config, s: State, a: Action, w: WorkerId)
    requires ClaimsOk(s) && Enabled(cfg, s, a) && w in WorkersAfter(cfg, s, a) && WorkersAfter(cfg, s, a)[w].HasClaim()
    ensures ClaimOk(SagasAfter(cfg, s, a), WorkersAfter(cfg, s, a)[w].claim)
  {
    WorkerFlow(cfg, s, a, w);
    ClaimSurvives(cfg, s, a, WorkersAfter(cfg, s, a)[w].claim);
  }

  lemma KeyedKept(cfg: Config, s: State, a: Action)
    requires Keyed(s.sagas) && Enabled(cfg, s, a)
    ensures Keyed(SagasAfter(cfg, s, a))
  {
    SagasOnlyAdded(cfg, s, a);
    forall id | id in SagasAfter(cfg, s, a)
      ensures SagasAfter(cfg, s, a)[id].id == id
    {
      if id in s.sagas { ActionHistory(cfg, s, a, id); }
    }
  }

  lemma ClaimsKept(cfg: Config, s: State, a: Action)
    requires Keyed(s.sagas) && ClaimsOk(s) && Enabled(cfg, s, a)
    ensures Keyed(Apply(cfg, s, a).sagas) && ClaimsOk(Apply(cfg, s, a))
  {
    KeyedKept(cfg, s, a);
    forall c | c in QueueAfter(cfg, s, a)
      ensures ClaimOk(SagasAfter(cfg, s, a), c)
    {
      QueuedClaimOk(cfg, s, a, c);
    }
    forall w | w in WorkersAfter(cfg, s, a) && WorkersAfter(cfg, s, a)[w].HasClaim()
      ensures ClaimOk(SagasAfter(cfg, s, a), WorkersAfter(cfg, s, a)[w].claim)
    {
      CarriedClaimOk(cfg, s, a, w);
    }
  }

  /** Every claim that is still around, queued or with a worker, points at a step of its saga that was
      handed out at least that many times. */
  lemma {:induction false} ClaimsArePlausible(cfg: Config, states: seq<State>, actions: seq<Action>, k: nat)
    requires IsRun(cfg, states, actions) && k < |states|
    ensures Keyed(states[k].sagas) && ClaimsOk(states[k])
  {
    if k > 0 {
      ClaimsArePlausible(cfg, states, actions, k - 1);
      assert StepAt(cfg, states, actions, k - 1);
      ClaimsKept(cfg, states[k - 1], actions[k - 1]);
    }
  }
}
