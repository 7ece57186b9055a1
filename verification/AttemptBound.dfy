/** How often a step can be handed out. Claims of the memory store refresh the start time
    (internal/store/memory.go), claims of the SQL store keep the first one (sql/query/sagas.sql). Nothing
    here depends on the saga lock. */
module AttemptBound {
  import opened Domain
  import opened Claiming
  import opened Recording
  import opened Cancellation
  import opened Protocol
  import opened History

  /** A change that hands nothing out: attempt and start time stay, and a step comes to be RUNNING or
      COMPLETED only from PENDING or RUNNING. */
  predicate Quiet(a: Step, b: Step) {
    && b.attempt == a.attempt && b.startedAt == a.startedAt
    && (b.status == StepPending || b.status == StepRunning ==> a.status == b.status)
    && (b.status == StepCompleted ==> a.status == StepPending || a.status == StepRunning || a.status == StepCompleted)
  }

  predicate QuietSaga(a: Saga, b: Saga) {
    |b.steps| == |a.steps| && forall i :: 0 <= i < |a.steps| ==> Quiet(a.steps[i], b.steps[i])
  }

  lemma RecordedIsQuiet(saga: Saga, index: int, failure: Option<string>, now: Time)
    requires 0 <= index < |saga.steps|
    ensures QuietSaga(saga, Recorded(saga, index, failure, now))
  {
  }

  lemma CanceledIsQuiet(saga: Saga, now: Time)
    requires Canceled(saga, now).Ok?
    ensures QuietSaga(saga, Canceled(saga, now).value)
  {
    if saga.status != Compensated {
      var s := saga.(status := Canceling);
      assert Normalized(s, now).steps
          == seq(|s.steps|, i requires 0 <= i < |s.steps| => SkipPending(s.steps[i], now));
    }
  }

  /** Every action but a claim is quiet on every saga that exists. */
  lemma OthersAreQuiet(cfg: Config, s: State, a: Action, id: SagaId)
    requires Enabled(cfg, s, a) && id in s.sagas && !(a.ClaimStep? && a.id == id)
    ensures id in SagasAfter(cfg, s, a) && QuietSaga(s.sagas[id], SagasAfter(cfg, s, a)[id])
  {
    if a.Record? {
      var claim, failure := s.PhaseOf(a.w).claim, s.PhaseOf(a.w).failure;
      RecordedIsQuiet(s.sagas[claim.sagaId], claim.stepIndex, failure, s.now);
    } else if a.CancelUpdate? {
      if Canceled(s.sagas[s.PhaseOf(a.w).target], s.now).Ok? {
        CanceledIsQuiet(s.sagas[s.PhaseOf(a.w).target], s.now);
      }
    }
  }

  predicate InExecution(status: StepStatus) {
    status == StepRunning || status == StepCompleted
  }

  /** Attempts so far are paid for by the time from the first claim to the last start; the second unit is
      free only once compensation has begun. */
  predicate PacedInMemory(step: Step, first: Time, staleAfter: Time)
    requires step.startedAt.Some?
  {
    && (step.attempt - 2) * staleAfter <= step.startedAt.value - first
    && (InExecution(step.status) ==> (step.attempt - 1) * staleAfter <= step.startedAt.value - first)
  }

  /** The start time stays the first one, and until it is stale the step is handed out once per phase. */
  predicate PacedInSql(step: Step, first: Time, staleAfter: Time, now: Time)
    requires step.startedAt.Some?
  {
    && step.startedAt.value == first
    && (now - first < staleAfter ==> step.attempt <= if InExecution(step.status) then 1 else 2)
  }

  /** The history of one step in either store. */
  predicate StepPaced(cfg: Config, step: Step, first: Option<Time>, now: Time) {
    && (step.status == StepPending ==> step.attempt == 0)
    && (step.attempt == 0 <==> first.None?) && (step.attempt == 0 <==> step.startedAt.None?)
    && (step.attempt > 0 ==>
          && first.value <= step.startedAt.value <= now
          && match cfg.store
             case MemoryStore => PacedInMemory(step, first.value, cfg.staleAfter)
             case PostgresStore => PacedInSql(step, first.value, cfg.staleAfter, now))
  }

  function FirstClaim(s: State, id: SagaId, i: int): Option<Time> {
    if (id, i) in s.firstClaim then Some(s.firstClaim[(id, i)]) else None
  }

  predicate SagaPaced(cfg: Config, s: State, id: SagaId)
    requires id in s.sagas
  {
    forall i :: 0 <= i < |s.sagas[id].steps| ==> StepPaced(cfg, s.sagas[id].steps[i], FirstClaim(s, id, i), s.now)
  }

  predicate Paced(cfg: Config, s: State) {
    && (forall id :: id in s.sagas ==> SagaPaced(cfg, s, id))
    && (forall key :: key in s.firstClaim ==> key.0 in s.sagas)
  }

  lemma QuietKeepsPace(cfg: Config, a: Step, b: Step, first: Option<Time>, now: Time, later: Time)
    requires Quiet(a, b) && StepPaced(cfg, a, first, now) && now <= later
    ensures StepPaced(cfg, b, first, later)
  {
  }

  lemma ClaimKeepsPace(cfg: Config, saga: Saga, index: int, first: Option<Time>, now: Time)
    requires cfg.staleAfter > 0 && Claimable(saga, index, cfg.staleAfter, now)
    requires StepPaced(cfg, saga.steps[index], first, now)
    ensures StepPaced(cfg, ClaimWrite(cfg.store, saga, index, now).steps[index],
                      if first.Some? then first else Some(now), now)
  {
    var n, stale := saga.steps[index].attempt, cfg.staleAfter;
    assert (n + 1 - 1) * stale == (n - 1) * stale + stale;
    assert (n + 1 - 2) * stale == (n - 2) * stale + stale == (n - 1) * stale;
  }

  lemma ClaimedSagaPaced(cfg: Config, s: State, a: Action)
    requires cfg.staleAfter > 0 && Enabled(cfg, s, a) && a.ClaimStep? && SagaPaced(cfg, s, a.id)
    ensures SagaPaced(cfg, Apply(cfg, s, a), a.id)
  {
    var s' := Apply(cfg, s, a);
    var steps, steps' := s.sagas[a.id].steps, s'.sagas[a.id].steps;
    ClaimKeepsPace(cfg, s.sagas[a.id], a.index, FirstClaim(s, a.id, a.index), s.now);
    assert forall i :: 0 <= i < |steps| && i != a.index ==>
      steps'[i] == steps[i] && FirstClaim(s', a.id, i) == FirstClaim(s, a.id, i);
  }

  lemma OtherSagaPaced(cfg: Config, s: State, a: Action, id: SagaId)
    requires Enabled(cfg, s, a) && id in s.sagas && SagaPaced(cfg, s, id) && !(a.ClaimStep? && a.id == id)
    ensures id in Apply(cfg, s, a).sagas && SagaPaced(cfg, Apply(cfg, s, a), id)
  {
    OthersAreQuiet(cfg, s, a, id);
    var s' := Apply(cfg, s, a);
    forall i | 0 <= i < |s'.sagas[id].steps|
      ensures StepPaced(cfg, s'.sagas[id].steps[i], FirstClaim(s', id, i), s'.now)
    {
      assert FirstClaim(s', id, i) == FirstClaim(s, id, i);
      QuietKeepsPace(cfg, s.sagas[id].steps[i], s'.sagas[id].steps[i], FirstClaim(s, id, i), s.now, s'.now);
    }
  }

  lemma StepKeepsPace(cfg: Config, s: State, a: Action)
    requires cfg.staleAfter > 0 && Paced(cfg, s) && Enabled(cfg, s, a)
    ensures Paced(cfg, Apply(cfg, s, a))
  {
    var s' := Apply(cfg, s, a);
    SagasOnlyAdded(cfg, s, a);
    forall id | id in s'.sagas
      ensures SagaPaced(cfg, s', id)
    {
      if a.ClaimStep? && a.id == id {
        ClaimedSagaPaced(cfg, s, a);
      } else if id in s.sagas {
        OtherSagaPaced(cfg, s, a, id);
      } else {
        assert forall i :: FirstClaim(s', id, i) == None;
      }
    }
  }

  lemma {:induction false} RunIsPaced(cfg: Config, states: seq<State>, actions: seq<Action>, k: nat)
    requires cfg.staleAfter > 0 && IsRun(cfg, states, actions) && k < |states|
    ensures Paced(cfg, states[k])
  {
    if k > 0 {
      RunIsPaced(cfg, states, actions, k - 1);
      assert StepAt(cfg, states, actions, k - 1);
      StepKeepsPace(cfg, states[k - 1], actions[k - 1]);
    }
  }

  lemma StepIsPaced(cfg: Config, states: seq<State>, actions: seq<Action>, k: nat, id: SagaId, i: int)
    requires cfg.staleAfter > 0 && IsRun(cfg, states, actions) && k < |states|
    requires id in states[k].sagas && 0 <= i < |states[k].sagas[id].steps|
    ensures StepPaced(cfg, states[k].sagas[id].steps[i], FirstClaim(states[k], id, i), states[k].now)
  {
    RunIsPaced(cfg, states, actions, k);
    assert SagaPaced(cfg, states[k], id);
  }

  /** A step that was first handed out a time T ago has at most 2 + T / staleAfter attempts, execution
      and compensation together; a step that was never handed out has none. */
  lemma AttemptsBounded(cfg: Config, states: seq<State>, actions: seq<Action>, k: nat, id: SagaId, i: int)
    requires cfg.store == MemoryStore && cfg.staleAfter > 0 && IsRun(cfg, states, actions) && k < |states|
    requires id in states[k].sagas && 0 <= i < |states[k].sagas[id].steps|
    ensures var attempt, first := states[k].sagas[id].steps[i].attempt, FirstClaim(states[k], id, i);
      && (first.None? ==> attempt == 0)
      && (first.Some? ==> attempt <= 2 + (states[k].now - first.value) / cfg.staleAfter)
  {
    StepIsPaced(cfg, states, actions, k, id, i);
    var first := FirstClaim(states[k], id, i);
    if first.Some? {
      QuotientBound(states[k].sagas[id].steps[i].attempt - 2, cfg.staleAfter, states[k].now - first.value);
    }
  }

  lemma QuotientBound(n: int, d: int, t: int)
    requires d > 0 && n * d <= t
    ensures n <= t / d
  {
    var q := t / d;
    if n > q { MulMonotone(q + 1, n, d); }
  }

  lemma MulMonotone(a: int, b: int, d: int)
    requires a <= b && d > 0
    ensures a * d <= b * d
  {
  }

  // ----- claims of one phase are spaced out -----

  /** The step was handed out at `t` or later. */
  predicate StartedFrom(s: State, id: SagaId, i: int, t: Time) {
    && id in s.sagas && 0 <= i < |s.sagas[id].steps|
    && s.sagas[id].steps[i].startedAt.Some? && t <= s.sagas[id].steps[i].startedAt.value
  }

  lemma StartTimeStep(cfg: Config, s: State, a: Action, id: SagaId, i: int, t: Time)
    requires cfg.store == MemoryStore && Enabled(cfg, s, a) && StartedFrom(s, id, i, t) && t <= s.now
    ensures StartedFrom(Apply(cfg, s, a), id, i, t) && t <= Apply(cfg, s, a).now
  {
    if !(a.ClaimStep? && a.id == id) { OthersAreQuiet(cfg, s, a, id); }
  }

  lemma {:induction false} StartTimeGrows(cfg: Config, states: seq<State>, actions: seq<Action>, j: nat, k: nat,
                                          id: SagaId, i: int, t: Time)
    requires cfg.store == MemoryStore && IsRun(cfg, states, actions) && j <= k < |states|
    requires StartedFrom(states[j], id, i, t) && t <= states[j].now
    ensures StartedFrom(states[k], id, i, t) && t <= states[k].now
  {
    if j < k {
      StartTimeGrows(cfg, states, actions, j, k - 1, id, i, t);
      assert StepAt(cfg, states, actions, k - 1);
      StartTimeStep(cfg, states[k - 1], actions[k - 1], id, i, t);
    }
  }

  /** How far a step is once it has been handed out, for execution or for compensation. */
  function PhaseRank(saga: SagaStatus): nat {
    if saga == Canceling then 3 else 1
  }

  lemma ClaimStartsStep(cfg: Config, s: State, id: SagaId, i: int)
    requires cfg.store == MemoryStore && Enabled(cfg, s, ClaimStep(id, i))
    ensures var s' := Apply(cfg, s, ClaimStep(id, i));
            StartedFrom(s', id, i, s.now) && s'.now == s.now
            && Rank(s'.sagas[id].steps[i].status) == PhaseRank(s.sagas[id].status)
  {
  }

  lemma ReclaimIsStale(cfg: Config, s: State, id: SagaId, i: int)
    requires Enabled(cfg, s, ClaimStep(id, i))
    requires Rank(s.sagas[id].steps[i].status) >= PhaseRank(s.sagas[id].status)
    ensures s.sagas[id].steps[i].startedAt.Some?
    ensures s.now - s.sagas[id].steps[i].startedAt.value >= cfg.staleAfter
  {
  }

  /** Two claims of one step, both for execution or both for compensation, are staleAfter apart. */
  lemma ClaimsSpaced(cfg: Config, states: seq<State>, actions: seq<Action>, j: nat, k: nat)
    requires cfg.store == MemoryStore && IsRun(cfg, states, actions) && j < k
    requires StepAt(cfg, states, actions, j) && StepAt(cfg, states, actions, k)
    requires actions[j].ClaimStep? && actions[k] == actions[j]
    requires states[j].sagas[actions[j].id].status == Canceling <==> states[k].sagas[actions[j].id].status == Canceling
    ensures states[k].now - states[j].now >= cfg.staleAfter
  {
    var id, i := actions[j].id, actions[j].index;
    ClaimStartsStep(cfg, states[j], id, i);
    StartTimeGrows(cfg, states, actions, j + 1, k, id, i, states[j].now);
    StepHistory(cfg, states, actions, j + 1, k, id, i);
    ReclaimIsStale(cfg, states[k], id, i);
  }
}
