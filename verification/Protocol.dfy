/** The concurrent protocol over shared sagas: claims are handed out without the saga lock, workers and
    cancellers update a saga only while they hold its lock, leases may be lost at any time, and stale
    claims are handed out again (internal/service/step_runner.go, internal/service/service.go,
    internal/service/saga_locker.go, internal/store/memory.go). */
module Protocol {
  import opened Domain
  import opened Claiming
  import opened Starting
  import opened Recording
  import opened Cancellation

  type SagaId = string
  type WorkerId = nat

  /** A call to a participant and the result that the dispatcher reported. */
  datatype Call = Call(step: int, mode: Mode, ok: bool)

  datatype Phase =
    | Idle
    | Holding(claim: Claim)
    | Loaded(claim: Claim, mode: Mode)
    | Dispatched(claim: Claim, mode: Mode, failure: Option<string>)
    | Canceller(target: SagaId)
    | Done(target: SagaId)
  {
    predicate HasClaim() { Holding? || Loaded? || Dispatched? }

    /** The saga that a busy worker works on. */
    function Target(): SagaId
      requires !Idle?
    {
      if HasClaim() then claim.sagaId else target
    }

    predicate About(id: SagaId) { !Idle? && Target() == id }
  }

  /** `exclusive` is false for the no-op locker, which grants every request. */
  datatype Config = Config(store: StoreKind, exclusive: bool, staleAfter: Time)

  /** `queue` holds the claims that were handed out and have not got the lock yet.
      `calls` and `firstClaim` are history: the calls of each saga in order, and when a step was first
      handed out. */
  datatype State = State(
    sagas: map<SagaId, Saga>,
    queue: multiset<Claim>,
    workers: map<WorkerId, Phase>,
    locks: map<SagaId, WorkerId>,
    calls: map<SagaId, seq<Call>>,
    firstClaim: map<(SagaId, int), Time>,
    now: Time)
  {
    function PhaseOf(w: WorkerId): Phase {
      if w in workers then workers[w] else Idle
    }

    function CallsOf(id: SagaId): seq<Call> {
      if id in calls then calls[id] else []
    }
  }

  datatype Action =
    | Start(id: SagaId, workflow: string, context: Json, requested: seq<StartStep>)
    | ClaimStep(id: SagaId, index: int)
    | DropClaim(claim: Claim)
    | Acquire(w: WorkerId, claim: Claim)
    | Load(w: WorkerId)
    | Dispatch(w: WorkerId, failure: Option<string>)
    | Record(w: WorkerId)
    | CancelAcquire(w: WorkerId, id: SagaId)
    | CancelUpdate(w: WorkerId)
    | Release(w: WorkerId)
    | Abandon(w: WorkerId)
    | LoseLease(id: SagaId)
    | Tick(to: Time)

  predicate LockFree(cfg: Config, s: State, id: SagaId) {
    cfg.exclusive ==> id !in s.locks
  }

  /** The worker's lock context is alive: its lease has not been lost. */
  predicate LeaseHeld(cfg: Config, s: State, w: WorkerId, id: SagaId) {
    cfg.exclusive ==> id in s.locks && s.locks[id] == w
  }

  /** The saga that a worker with this claim reads, if its index check passes. */
  predicate ClaimResolves(s: State, c: Claim) {
    c.sagaId in s.sagas && 0 <= c.stepIndex < |s.sagas[c.sagaId].steps|
  }

  function ModeFor(s: State, c: Claim): Option<Mode>
    requires ClaimResolves(s, c)
  {
    var saga := s.sagas[c.sagaId];
    DispatchMode(saga.status, saga.steps[c.stepIndex].status)
  }

  predicate Enabled(cfg: Config, s: State, a: Action) {
    match a
    case Start(_, workflow, _, requested) => ValidRequest(workflow, requested)
    case ClaimStep(id, index) => id in s.sagas && Claimable(s.sagas[id], index, cfg.staleAfter, s.now)
    case DropClaim(claim) => claim in s.queue
    case Acquire(w, claim) => claim in s.queue && s.PhaseOf(w).Idle? && LockFree(cfg, s, claim.sagaId)
    case Load(w) =>
      var phase := s.PhaseOf(w);
      && phase.Holding? && LeaseHeld(cfg, s, w, phase.claim.sagaId)
      && ClaimResolves(s, phase.claim) && ModeFor(s, phase.claim).Some?
    case Dispatch(w, _) => s.PhaseOf(w).Loaded? && LeaseHeld(cfg, s, w, s.PhaseOf(w).claim.sagaId)
    case Record(w) =>
      var phase := s.PhaseOf(w);
      && phase.Dispatched? && LeaseHeld(cfg, s, w, phase.claim.sagaId) && ClaimResolves(s, phase.claim)
    case CancelAcquire(w, id) => s.PhaseOf(w).Idle? && LockFree(cfg, s, id)
    case CancelUpdate(w) =>
      var phase := s.PhaseOf(w);
      && phase.Canceller? && LeaseHeld(cfg, s, w, phase.target) && phase.target in s.sagas
    case Release(w) =>
      !s.PhaseOf(w).Idle? && LeaseHeld(cfg, s, w, s.PhaseOf(w).Target())
    case Abandon(w) => !s.PhaseOf(w).Idle?
    case LoseLease(id) => id in s.locks
    case Tick(to) => s.now <= to
  }

  // The next state, component by component.

  function SagasAfter(cfg: Config, s: State, a: Action): map<SagaId, Saga>
    requires Enabled(cfg, s, a)
  {
    match a
    case Start(id, workflow, context, requested) =>
      if id in s.sagas then s.sagas else s.sagas[id := NewSaga(id, workflow, context, requested, s.now)]
    case ClaimStep(id, index) => s.sagas[id := ClaimWrite(cfg.store, s.sagas[id], index, s.now)]
    case Record(w) =>
      var Dispatched(claim, _, failure) := s.PhaseOf(w);
      s.sagas[claim.sagaId :=
        Recorded(s.sagas[claim.sagaId], claim.stepIndex, failure, s.now).(updatedAt := s.now)]
    case CancelUpdate(w) =>
      var id := s.PhaseOf(w).target;
      var canceled := Canceled(s.sagas[id], s.now);
      if canceled.Ok? then s.sagas[id := canceled.value.(updatedAt := s.now)] else s.sagas
    case _ => s.sagas
  }

  function QueueAfter(cfg: Config, s: State, a: Action): multiset<Claim>
    requires Enabled(cfg, s, a)
  {
    match a
    case ClaimStep(id, index) => s.queue + multiset{ClaimFor(s.sagas[id], index)}
    case DropClaim(claim) => s.queue - multiset{claim}
    case Acquire(_, claim) => s.queue - multiset{claim}
    case _ => s.queue
  }

  function WorkersAfter(cfg: Config, s: State, a: Action): map<WorkerId, Phase>
    requires Enabled(cfg, s, a)
  {
    match a
    case Acquire(w, claim) => s.workers[w := Holding(claim)]
    case Load(w) => s.workers[w := Loaded(s.PhaseOf(w).claim, ModeFor(s, s.PhaseOf(w).claim).value)]
    case Dispatch(w, failure) => s.workers[w := Dispatched(s.PhaseOf(w).claim, s.PhaseOf(w).mode, failure)]
    case Record(w) => s.workers[w := Done(s.PhaseOf(w).claim.sagaId)]
    case CancelAcquire(w, id) => s.workers[w := Canceller(id)]
    case CancelUpdate(w) => s.workers[w := Done(s.PhaseOf(w).target)]
    case Release(w) => s.workers[w := Idle]
    case Abandon(w) => s.workers[w := Idle]
    case _ => s.workers
  }

  function LocksAfter(cfg: Config, s: State, a: Action): map<SagaId, WorkerId>
    requires Enabled(cfg, s, a)
  {
    match a
    case Acquire(w, claim) => if cfg.exclusive then s.locks[claim.sagaId := w] else s.locks
    case CancelAcquire(w, id) => if cfg.exclusive then s.locks[id := w] else s.locks
    case Release(w) => s.locks - {s.PhaseOf(w).Target()}
    case LoseLease(id) => s.locks - {id}
    case _ => s.locks
  }

  function CallsAfter(cfg: Config, s: State, a: Action): map<SagaId, seq<Call>>
    requires Enabled(cfg, s, a)
  {
    match a
    case Dispatch(w, failure) =>
      var Loaded(claim, mode) := s.PhaseOf(w);
      s.calls[claim.sagaId := s.CallsOf(claim.sagaId) + [Call(claim.stepIndex, mode, failure.None?)]]
    case _ => s.calls
  }

  function FirstClaimAfter(cfg: Config, s: State, a: Action): map<(SagaId, int), Time>
    requires Enabled(cfg, s, a)
  {
    if a.ClaimStep? && (a.id, a.index) !in s.firstClaim then s.firstClaim[(a.id, a.index) := s.now] else s.firstClaim
  }

  function Apply(cfg: Config, s: State, a: Action): State
    requires Enabled(cfg, s, a)
  {
    State(
      SagasAfter(cfg, s, a),
      QueueAfter(cfg, s, a),
      WorkersAfter(cfg, s, a),
      LocksAfter(cfg, s, a),
      CallsAfter(cfg, s, a),
      FirstClaimAfter(cfg, s, a),
      if a.Tick? then a.to else s.now)
  }

  predicate Init(s: State) {
    && s.sagas == map[] && s.queue == multiset{} && s.workers == map[] && s.locks == map[]
    && s.calls == map[] && s.firstClaim == map[]
  }

  /** states[k] -actions[k]-> states[k + 1]. */
  predicate StepAt(cfg: Config, states: seq<State>, actions: seq<Action>, k: int) {
    && 0 <= k < |actions| < |states|
    && Enabled(cfg, states[k], actions[k]) && states[k + 1] == Apply(cfg, states[k], actions[k])
  }

  predicate IsRun(cfg: Config, states: seq<State>, actions: seq<Action>) {
    && |states| == |actions| + 1
    && Init(states[0])
    && forall k :: 0 <= k < |actions| ==> StepAt(cfg, states, actions, k)
  }
}
