/** The invariant of the whole protocol under an exclusive lock: every saga satisfies LocalInv with its
    lock holder, and every claim that is still around points at a step that was handed out. */
module GlobalInvariant {
  import opened Domain
  import opened Protocol
  import opened History
  import opened LocalInvariant

  /** The phase of the worker whose lease on the saga is alive. */
  function HolderOf(s: State, id: SagaId): Phase {
    if id in s.locks && s.PhaseOf(s.locks[id]).About(id) then s.PhaseOf(s.locks[id]) else Idle
  }

  function View(s: State, id: SagaId): Local
    requires id in s.sagas
  {
    Local(s.sagas[id], s.CallsOf(id), HolderOf(s, id))
  }

  ghost predicate LocalsOk(s: State) {
    forall id :: id in s.sagas ==> LocalInv(View(s, id))
  }

  ghost predicate Inv(s: State) {
    LocalsOk(s) && Keyed(s.sagas) && s.calls.Keys <= s.sagas.Keys && ClaimsOk(s)
  }

  ghost predicate Progress(s: State, s': State) {
    && s.now <= s'.now
    && forall id :: id in s.sagas ==> id in s'.sagas && LocalProgress(View(s, id), View(s', id))
  }

  // ----- one action -----

  /** The saga an action is about. */
  function Subject(s: State, a: Action): Option<SagaId> {
    match a
    case Start(id, _, _, _) => Some(id)
    case ClaimStep(id, _) => Some(id)
    case DropClaim(_) => None
    case Acquire(_, claim) => Some(claim.sagaId)
    case CancelAcquire(_, id) => Some(id)
    case LoseLease(id) => Some(id)
    case Tick(_) => None
    case _ =>
      var phase := s.PhaseOf(a.w);
      if phase.Idle? then None else Some(phase.Target())
  }

  ghost predicate SagaKept(s: State, s': State, id: SagaId)
    requires id in s.sagas
  {
    id in s'.sagas && LocalInv(View(s', id)) && LocalProgress(View(s, id), View(s', id))
  }

  lemma OtherSagasStay(cfg: Config, s: State, a: Action, id: SagaId)
    requires Enabled(cfg, s, a) && id in s.sagas && Subject(s, a) != Some(id)
    ensures id in SagasAfter(cfg, s, a) && SagasAfter(cfg, s, a)[id] == s.sagas[id]
  {
  }

  lemma OtherCallsStay(cfg: Config, s: State, a: Action, id: SagaId)
    requires Enabled(cfg, s, a) && Subject(s, a) != Some(id)
    ensures id in CallsAfter(cfg, s, a) <==> id in s.calls
    ensures id in s.calls ==> CallsAfter(cfg, s, a)[id] == s.calls[id]
  {
  }

  lemma OtherLocksStay(cfg: Config, s: State, a: Action, id: SagaId)
    requires Enabled(cfg, s, a) && Subject(s, a) != Some(id)
    ensures id in LocksAfter(cfg, s, a) <==> id in s.locks
    ensures id in s.locks ==> LocksAfter(cfg, s, a)[id] == s.locks[id]
  {
  }

  /** A worker that moves was and is about the subject, or idle. */
  lemma OtherWorkersStay(cfg: Config, s: State, a: Action, id: SagaId, w: WorkerId)
    requires Enabled(cfg, s, a) && Subject(s, a) != Some(id)
    ensures var before := s.PhaseOf(w);
            var after := if w in WorkersAfter(cfg, s, a) then WorkersAfter(cfg, s, a)[w] else Idle;
            after == before || (!after.About(id) && !before.About(id))
  {
  }

  lemma OtherHolderStays(cfg: Config, s: State, a: Action, s': State, id: SagaId)
    requires Enabled(cfg, s, a) && Subject(s, a) != Some(id)
    requires s'.workers == WorkersAfter(cfg, s, a) && s'.locks == LocksAfter(cfg, s, a)
    ensures HolderOf(s', id) == HolderOf(s, id)
  {
    OtherLocksStay(cfg, s, a, id);
    if id in s.locks { OtherWorkersStay(cfg, s, a, id, s.locks[id]); }
  }

  lemma OtherSagasUntouched(cfg: Config, s: State, a: Action, id: SagaId)
    requires Enabled(cfg, s, a) && id in s.sagas && Subject(s, a) != Some(id)
    ensures id in Apply(cfg, s, a).sagas && View(Apply(cfg, s, a), id) == View(s, id)
  {
    OtherSagasStay(cfg, s, a, id);
    OtherCallsStay(cfg, s, a, id);
    OtherHolderStays(cfg, s, a, Apply(cfg, s, a), id);
  }

  lemma StartKeeps(cfg: Config, s: State, a: Action)
    requires cfg.exclusive && Inv(s) && a.Start? && Enabled(cfg, s, a) && a.id !in s.sagas
    ensures LocalInv(View(Apply(cfg, s, a), a.id))
    ensures Apply(cfg, s, a).CallsOf(a.id) == [] && !View(Apply(cfg, s, a), a.id).holder.HasClaim()
  {
    var s' := Apply(cfg, s, a);
    StartLocal(a.id, a.workflow, a.context, a.requested, s.now);
    assert s'.CallsOf(a.id) == [];
    assert !HolderOf(s', a.id).HasClaim();
  }

  lemma NewSagaKeeps(cfg: Config, s: State, a: Action, id: SagaId)
    requires cfg.exclusive && Inv(s) && Enabled(cfg, s, a) && id !in s.sagas && id in Apply(cfg, s, a).sagas
    ensures LocalInv(View(Apply(cfg, s, a), id))
    ensures Apply(cfg, s, a).CallsOf(id) == [] && !View(Apply(cfg, s, a), id).holder.HasClaim()
  {
    SagasOnlyAdded(cfg, s, a);
    StartKeeps(cfg, s, a);
  }

  /** What the action means for the saga it is about. */
  function EventOf(s: State, a: Action, s': State, id: SagaId): Event {
    match a
    case ClaimStep(_, index) => Claimed(index)
    case Load(w) => if s.PhaseOf(w).HasClaim() then Loads(s.PhaseOf(w).claim) else HolderBecomes(Idle)
    case Dispatch(_, failure) => Dispatches(failure)
    case Record(_) => Records
    case CancelUpdate(_) => Cancels
    case _ => HolderBecomes(HolderOf(s', id))
  }

  ghost predicate Projects(cfg: Config, s: State, a: Action, s': State, id: SagaId) {
    && id in s.sagas && id in s'.sagas
    && Possible(cfg, s.now, View(s, id), EventOf(s, a, s', id))
    && View(s', id) == After(cfg, s.now, View(s, id), EventOf(s, a, s', id))
  }

  lemma ClaimStepProjects(cfg: Config, s: State, id: SagaId, index: int)
    requires cfg.exclusive && Enabled(cfg, s, ClaimStep(id, index))
    ensures Projects(cfg, s, ClaimStep(id, index), Apply(cfg, s, ClaimStep(id, index)), id)
  {
  }

  lemma LoadProjects(cfg: Config, s: State, w: WorkerId)
    requires cfg.exclusive && ClaimsOk(s) && Enabled(cfg, s, Load(w))
    ensures Projects(cfg, s, Load(w), Apply(cfg, s, Load(w)), s.PhaseOf(w).claim.sagaId)
  {
    assert ClaimOk(s.sagas, s.PhaseOf(w).claim);
  }

  lemma DispatchProjects(cfg: Config, s: State, w: WorkerId, failure: Option<string>)
    requires cfg.exclusive && ClaimsOk(s) && Enabled(cfg, s, Dispatch(w, failure))
    ensures var a := Dispatch(w, failure);
            Projects(cfg, s, a, Apply(cfg, s, a), s.PhaseOf(w).claim.sagaId)
  {
    assert ClaimOk(s.sagas, s.PhaseOf(w).claim);
  }

  lemma RecordProjects(cfg: Config, s: State, w: WorkerId)
    requires cfg.exclusive && Enabled(cfg, s, Record(w))
    ensures Projects(cfg, s, Record(w), Apply(cfg, s, Record(w)), s.PhaseOf(w).claim.sagaId)
  {
  }

  lemma CancelProjects(cfg: Config, s: State, w: WorkerId)
    requires cfg.exclusive && Enabled(cfg, s, CancelUpdate(w))
    ensures Projects(cfg, s, CancelUpdate(w), Apply(cfg, s, CancelUpdate(w)), s.PhaseOf(w).target)
  {
  }

  /** The other actions only change who holds the lock. */
  lemma HolderChangeProjects(cfg: Config, s: State, a: Action, id: SagaId)
    requires cfg.exclusive && Enabled(cfg, s, a) && id in s.sagas && Subject(s, a) == Some(id)
    requires a.Start? || a.Acquire? || a.CancelAcquire? || a.Release? || a.Abandon? || a.LoseLease?
    ensures Projects(cfg, s, a, Apply(cfg, s, a), id)
  {
  }

  lemma SubjectProjects(cfg: Config, s: State, a: Action, id: SagaId)
    requires cfg.exclusive && ClaimsOk(s) && Enabled(cfg, s, a) && id in s.sagas && Subject(s, a) == Some(id)
    ensures Projects(cfg, s, a, Apply(cfg, s, a), id)
  {
    match a
    case ClaimStep(_, index) => ClaimStepProjects(cfg, s, id, index);
    case Load(w) => LoadProjects(cfg, s, w);
    case Dispatch(w, failure) => DispatchProjects(cfg, s, w, failure);
    case Record(w) => RecordProjects(cfg, s, w);
    case CancelUpdate(w) => CancelProjects(cfg, s, w);
    case _ => HolderChangeProjects(cfg, s, a, id);
  }

  lemma SubjectKeeps(cfg: Config, s: State, a: Action, id: SagaId)
    requires cfg.exclusive && Inv(s) && Enabled(cfg, s, a) && id in s.sagas && Subject(s, a) == Some(id)
    ensures SagaKept(s, Apply(cfg, s, a), id)
  {
    SubjectProjects(cfg, s, a, id);
    LocalStep(cfg, s.now, View(s, id), EventOf(s, a, Apply(cfg, s, a), id));
  }

  lemma CallsOfSagas(cfg: Config, s: State, a: Action)
    requires Enabled(cfg, s, a) && s.calls.Keys <= s.sagas.Keys && ClaimsOk(s)
    ensures CallsAfter(cfg, s, a).Keys <= s.sagas.Keys
  {
    if a.Dispatch? { assert ClaimOk(s.sagas, s.PhaseOf(a.w).claim); }
  }

  lemma SagaKeeps(cfg: Config, s: State, a: Action, id: SagaId)
    requires cfg.exclusive && Inv(s) && Enabled(cfg, s, a) && id in s.sagas
    ensures SagaKept(s, Apply(cfg, s, a), id)
  {
    if Subject(s, a) == Some(id) {
      SubjectKeeps(cfg, s, a, id);
    } else {
      OtherSagasUntouched(cfg, s, a, id);
      StutterProgress(View(s, id), View(s, id).holder);
    }
  }

  lemma LocalsKept(cfg: Config, s: State, a: Action)
    requires cfg.exclusive && Inv(s) && Enabled(cfg, s, a)
    ensures LocalsOk(Apply(cfg, s, a))
  {
    forall id | id in Apply(cfg, s, a).sagas
      ensures LocalInv(View(Apply(cfg, s, a), id))
    {
      if id in s.sagas { SagaKeeps(cfg, s, a, id); } else { NewSagaKeeps(cfg, s, a, id); }
    }
  }

  lemma StepProgresses(cfg: Config, s: State, a: Action)
    requires cfg.exclusive && Inv(s) && Enabled(cfg, s, a)
    ensures Progress(s, Apply(cfg, s, a))
  {
    forall id | id in s.sagas
      ensures SagaKept(s, Apply(cfg, s, a), id)
    {
      SagaKeeps(cfg, s, a, id);
    }
  }

  lemma StepKeeps(cfg: Config, s: State, a: Action)
    requires cfg.exclusive && Inv(s) && Enabled(cfg, s, a)
    ensures Inv(Apply(cfg, s, a)) && Progress(s, Apply(cfg, s, a))
  {
    LocalsKept(cfg, s, a);
    StepProgresses(cfg, s, a);
    SagasOnlyAdded(cfg, s, a);
    CallsOfSagas(cfg, s, a);
    ClaimsKept(cfg, s, a);
  }

  // ----- whole runs -----

  lemma {:induction false} RunKeeps(cfg: Config, states: seq<State>, actions: seq<Action>, k: nat)
    requires cfg.exclusive && IsRun(cfg, states, actions) && k < |states|
    ensures Inv(states[k])
  {
    if k > 0 {
      RunKeeps(cfg, states, actions, k - 1);
      assert StepAt(cfg, states, actions, k - 1);
      StepKeeps(cfg, states[k - 1], actions[k - 1]);
    }
  }

  lemma ProgressReflexive(s: State)
    ensures Progress(s, s)
  {
    forall id | id in s.sagas
      ensures LocalProgress(View(s, id), View(s, id))
    {
      StutterProgress(View(s, id), View(s, id).holder);
    }
  }

  lemma StateProgressTransitive(s: State, s': State, s'': State)
    requires Progress(s, s') && Progress(s', s'')
    ensures Progress(s, s'')
  {
    forall id | id in s.sagas
      ensures id in s''.sagas && LocalProgress(View(s, id), View(s'', id))
    {
      ProgressTransitive(View(s, id), View(s', id), View(s'', id));
    }
  }

  lemma RunStepProgresses(cfg: Config, states: seq<State>, actions: seq<Action>, k: nat)
    requires cfg.exclusive && IsRun(cfg, states, actions) && k < |actions|
    ensures Progress(states[k], states[k + 1])
  {
    RunKeeps(cfg, states, actions, k);
    assert StepAt(cfg, states, actions, k);
    StepKeeps(cfg, states[k], actions[k]);
  }

  lemma {:induction false} RunProgresses(cfg: Config, states: seq<State>, actions: seq<Action>, j: nat, k: nat)
    requires cfg.exclusive && IsRun(cfg, states, actions) && j <= k < |states|
    ensures Progress(states[j], states[k])
  {
    if j == k {
      ProgressReflexive(states[j]);
    } else {
      RunProgresses(cfg, states, actions, j, k - 1);
      RunStepProgresses(cfg, states, actions, k - 1);
      StateProgressTransitive(states[j], states[k - 1], states[k]);
    }
  }
}
