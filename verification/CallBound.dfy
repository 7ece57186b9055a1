/** No participant is called more often than its step was handed out, whatever the locker: a claim is
    dispatched once at most. */
module CallBound {
  import opened Domain
  import opened Claiming
  import opened Protocol
  import opened History
  import opened AnyLocker
  import opened AttemptBound

  /** How often a participant was called for a step, Execute and Compensate together. */
  function CallsTo(calls: seq<Call>, step: int): nat {
    if calls == [] then 0
    else CallsTo(calls[..|calls| - 1], step) + (if calls[|calls| - 1].step == step then 1 else 0)
  }

  // ----- claims that have not been dispatched -----

  /** The worker has the claim and has not made its call. */
  predicate Keeps(s: State, w: WorkerId, c: Claim) {
    w in s.workers && (s.workers[w].Holding? || s.workers[w].Loaded?) && s.workers[w].claim == c
  }

  /** The claim is queued, or a worker has not made its call yet. */
  ghost predicate Open(s: State, c: Claim) {
    c in s.queue || exists w :: Keeps(s, w, c)
  }

  /** Such a claim exists once. */
  ghost predicate OpenOnce(s: State) {
    && (forall c :: c in s.queue ==> s.queue[c] == 1 && forall w :: !Keeps(s, w, c))
    && (forall w, v, c :: Keeps(s, w, c) && Keeps(s, v, c) ==> w == v)
  }

  /** A worker that keeps a claim kept it before, or has just taken it from the queue, and it has not just
      made its call. */
  lemma KeepsFlow(cfg: Config, s: State, a: Action, w: WorkerId, c: Claim)
    requires Enabled(cfg, s, a) && Keeps(Apply(cfg, s, a), w, c)
    ensures !(a.Dispatch? && a.w == w)
    ensures Keeps(s, w, c) || (a == Acquire(w, c) && c in s.queue && QueueAfter(cfg, s, a)[c] == s.queue[c] - 1)
  {
  }

  lemma NewClaimIsNotOpen(s: State, a: Action, c: Claim)
    requires ClaimsOk(s) && Keyed(s.sagas) && IsNewClaim(s, a, c)
    ensures !Open(s, c)
  {
    assert !ClaimOk(s.sagas, c);
  }

  lemma OpenOnceKept(cfg: Config, s: State, a: Action)
    requires ClaimsOk(s) && Keyed(s.sagas) && OpenOnce(s) && Enabled(cfg, s, a)
    ensures OpenOnce(Apply(cfg, s, a))
  {
    var s' := Apply(cfg, s, a);
    forall c | c in s'.queue
      ensures s'.queue[c] == 1 && forall w :: !Keeps(s', w, c)
    {
      QueueFlow(cfg, s, a, c);
      if IsNewClaim(s, a, c) { NewClaimIsNotOpen(s, a, c); }
      forall w | Keeps(s', w, c)
        ensures false
      {
        KeepsFlow(cfg, s, a, w, c);
      }
    }
    forall w, v, c | Keeps(s', w, c) && Keeps(s', v, c)
      ensures w == v
    {
      KeepsFlow(cfg, s, a, w, c);
      KeepsFlow(cfg, s, a, v, c);
    }
  }

  // ----- the attempts that have been dispatched -----

  /** The claim that the action dispatches is for this step. */
  predicate Dispatches(s: State, a: Action, id: SagaId, i: int) {
    a.Dispatch? && s.PhaseOf(a.w).Loaded? && s.PhaseOf(a.w).claim.sagaId == id && s.PhaseOf(a.w).claim.stepIndex == i
  }

  /** The attempt number that the action spends, if it dispatches a claim of this step. */
  function SpentBy(s: State, a: Action, id: SagaId, i: int): set<nat> {
    if Dispatches(s, a, id, i) then {s.PhaseOf(a.w).claim.attempt} else {}
  }

  /** The attempt numbers of the claims of a step that were dispatched so far. */
  function Spent(states: seq<State>, actions: seq<Action>, k: nat, id: SagaId, i: int): set<nat>
    requires k <= |actions| < |states|
  {
    if k == 0 then {} else Spent(states, actions, k - 1, id, i) + SpentBy(states[k - 1], actions[k - 1], id, i)
  }

  /** Spent attempt numbers are at most the step's. */
  predicate SpentIsPast(s: State, spent: set<nat>, id: SagaId, i: int) {
    forall n :: n in spent ==>
      id in s.sagas && 0 <= i < |s.sagas[id].steps| && 0 < n <= s.sagas[id].steps[i].attempt
  }

  ghost predicate OpenIsUnspent(s: State, spent: set<nat>, id: SagaId, i: int) {
    forall c :: Open(s, c) && c.sagaId == id && c.stepIndex == i ==> c.attempt !in spent
  }

  /** Each dispatched claim of the step is spent, and there is one call for it. */
  ghost predicate SpentOnce(s: State, spent: set<nat>, id: SagaId, i: int) {
    SpentIsPast(s, spent, id, i) && OpenIsUnspent(s, spent, id, i) && CallsTo(s.CallsOf(id), i) == |spent|
  }

  lemma OpenFlow(cfg: Config, s: State, a: Action, c: Claim)
    requires Enabled(cfg, s, a) && Open(Apply(cfg, s, a), c)
    ensures Open(s, c) || IsNewClaim(s, a, c)
  {
    if c in QueueAfter(cfg, s, a) {
      QueueFlow(cfg, s, a, c);
    } else {
      var w :| Keeps(Apply(cfg, s, a), w, c);
      KeepsFlow(cfg, s, a, w, c);
    }
  }

  /** A claim that has just been dispatched is open no more. */
  lemma DispatchedIsNotOpen(cfg: Config, s: State, a: Action)
    requires OpenOnce(s) && Enabled(cfg, s, a) && a.Dispatch?
    ensures !Open(Apply(cfg, s, a), s.PhaseOf(a.w).claim)
  {
    var c := s.PhaseOf(a.w).claim;
    assert Keeps(s, a.w, c);
    if w :| Keeps(Apply(cfg, s, a), w, c) { KeepsFlow(cfg, s, a, w, c); }
  }

  /** An open claim is fixed by its step and its attempt number. */
  lemma OpenIsOneValue(s: State, c: Claim, d: Claim)
    requires ClaimsOk(s) && Open(s, c) && Open(s, d)
    requires c.sagaId == d.sagaId && c.stepIndex == d.stepIndex && c.attempt == d.attempt
    ensures c == d
  {
    assert ClaimOk(s.sagas, c) && ClaimOk(s.sagas, d);
  }

  lemma PastStays(cfg: Config, s: State, a: Action, spent: set<nat>, id: SagaId, i: int)
    requires SpentIsPast(s, spent, id, i) && Enabled(cfg, s, a)
    ensures SpentIsPast(Apply(cfg, s, a), spent, id, i)
  {
    if spent != {} && id in s.sagas {
      ActionHistory(cfg, s, a, id);
      assert 0 <= i < |s.sagas[id].steps| ==> StepProgress(s.sagas[id].steps[i], SagasAfter(cfg, s, a)[id].steps[i]);
    }
  }

  lemma UnspentStays(cfg: Config, s: State, a: Action, spent: set<nat>, id: SagaId, i: int)
    requires Keyed(s.sagas) && SpentIsPast(s, spent, id, i) && OpenIsUnspent(s, spent, id, i) && Enabled(cfg, s, a)
    ensures OpenIsUnspent(Apply(cfg, s, a), spent, id, i)
  {
    forall c | Open(Apply(cfg, s, a), c) && c.sagaId == id && c.stepIndex == i
      ensures c.attempt !in spent
    {
      OpenFlow(cfg, s, a, c);
    }
  }

  /** No open claim has the attempt number that has just been dispatched. */
  lemma OthersDiffer(cfg: Config, s: State, a: Action, c: Claim)
    requires ClaimsOk(s) && OpenOnce(s) && Enabled(cfg, s, a) && a.Dispatch? && Open(Apply(cfg, s, a), c)
    requires c.sagaId == s.PhaseOf(a.w).claim.sagaId && c.stepIndex == s.PhaseOf(a.w).claim.stepIndex
    ensures c.attempt != s.PhaseOf(a.w).claim.attempt
  {
    assert Keeps(s, a.w, s.PhaseOf(a.w).claim);
    OpenFlow(cfg, s, a, c);
    DispatchedIsNotOpen(cfg, s, a);
    if c.attempt == s.PhaseOf(a.w).claim.attempt { OpenIsOneValue(s, c, s.PhaseOf(a.w).claim); }
  }

  lemma SpentStays(cfg: Config, s: State, a: Action, spent: set<nat>, id: SagaId, i: int)
    requires Keyed(s.sagas) && SpentOnce(s, spent, id, i) && Enabled(cfg, s, a) && !Dispatches(s, a, id, i)
    ensures SpentOnce(Apply(cfg, s, a), spent, id, i)
  {
    PastStays(cfg, s, a, spent, id, i);
    UnspentStays(cfg, s, a, spent, id, i);
    CallsGrowByDispatch(cfg, s, a, id);
  }

  lemma AddsSpent(cfg: Config, s: State, a: Action, spent: set<nat>, id: SagaId, i: int)
    requires ClaimsOk(s) && Keyed(s.sagas) && OpenOnce(s) && SpentOnce(s, spent, id, i) && Enabled(cfg, s, a)
    requires Dispatches(s, a, id, i)
    ensures SpentOnce(Apply(cfg, s, a), spent + {s.PhaseOf(a.w).claim.attempt}, id, i)
  {
    var s', d := Apply(cfg, s, a), s.PhaseOf(a.w).claim;
    assert Keeps(s, a.w, d) && ClaimOk(s.sagas, d);
    assert d.attempt !in spent;
    PastStays(cfg, s, a, spent + {d.attempt}, id, i);
    UnspentStays(cfg, s, a, spent, id, i);
    forall c | Open(s', c) && c.sagaId == id && c.stepIndex == i
      ensures c.attempt !in spent + {d.attempt}
    {
      OthersDiffer(cfg, s, a, c);
    }
    CallsGrowByDispatch(cfg, s, a, id);
  }

  // ----- whole runs -----

  lemma {:induction false} RunIsOpenOnce(cfg: Config, states: seq<State>, actions: seq<Action>, k: nat)
    requires IsRun(cfg, states, actions) && k < |states|
    ensures OpenOnce(states[k])
  {
    if k > 0 {
      RunIsOpenOnce(cfg, states, actions, k - 1);
      ClaimsArePlausible(cfg, states, actions, k - 1);
      assert StepAt(cfg, states, actions, k - 1);
      OpenOnceKept(cfg, states[k - 1], actions[k - 1]);
    }
  }

  lemma NothingSpent(s: State, id: SagaId, i: int)
    requires Init(s)
    ensures SpentOnce(s, {}, id, i)
  {
  }

  lemma {:induction false} RunIsSpentOnce(cfg: Config, states: seq<State>, actions: seq<Action>, k: nat,
                                          id: SagaId, i: int)
    requires IsRun(cfg, states, actions) && k < |states|
    ensures SpentOnce(states[k], Spent(states, actions, k, id, i), id, i)
  {
    if k == 0 {
      NothingSpent(states[0], id, i);
    } else {
      RunIsSpentOnce(cfg, states, actions, k - 1, id, i);
      RunSpends(cfg, states, actions, k - 1, Spent(states, actions, k - 1, id, i), id, i);
    }
  }

  lemma RunSpends(cfg: Config, states: seq<State>, actions: seq<Action>, k: nat, spent: set<nat>, id: SagaId, i: int)
    requires IsRun(cfg, states, actions) && k < |actions| && SpentOnce(states[k], spent, id, i)
    ensures SpentOnce(states[k + 1], spent + SpentBy(states[k], actions[k], id, i), id, i)
  {
    RunIsOpenOnce(cfg, states, actions, k);
    ClaimsArePlausible(cfg, states, actions, k);
    assert StepAt(cfg, states, actions, k);
    if Dispatches(states[k], actions[k], id, i) {
      AddsSpent(cfg, states[k], actions[k], spent, id, i);
    } else {
      SpentStays(cfg, states[k], actions[k], spent, id, i);
      assert spent + {} == spent;
    }
  }

  lemma {:induction false} UpTo(a: set<nat>, n: nat)
    requires forall x :: x in a ==> 0 < x <= n
    ensures |a| <= n
  {
    if n == 0 {
      assert forall x :: x !in a;
      assert a == {};
    } else {
      UpTo(a - {n}, n - 1);
    }
  }

  /** However often its claims are dropped, superseded or reclaimed, a step is called at most as often as it
      was handed out. */
  lemma CallsBounded(cfg: Config, states: seq<State>, actions: seq<Action>, k: nat, id: SagaId, i: int)
    requires IsRun(cfg, states, actions) && k < |states|
    requires id in states[k].sagas && 0 <= i < |states[k].sagas[id].steps|
    ensures CallsTo(states[k].CallsOf(id), i) <= states[k].sagas[id].steps[i].attempt
  {
    RunIsSpentOnce(cfg, states, actions, k, id, i);
    UpTo(Spent(states, actions, k, id, i), states[k].sagas[id].steps[i].attempt);
  }

  /** With the memory store, a participant is called at most 2 + T / staleAfter times for a step that was first
      handed out a time T ago, and never for one that was not. */
  lemma CallsBoundedInTime(cfg: Config, states: seq<State>, actions: seq<Action>, k: nat, id: SagaId, i: int)
    requires cfg.store == MemoryStore && cfg.staleAfter > 0 && IsRun(cfg, states, actions) && k < |states|
    requires id in states[k].sagas && 0 <= i < |states[k].sagas[id].steps|
    ensures var calls, first := CallsTo(states[k].CallsOf(id), i), FirstClaim(states[k], id, i);
      && (first.None? ==> calls == 0)
      && (first.Some? ==> calls <= 2 + (states[k].now - first.value) / cfg.staleAfter)
  {
    CallsBounded(cfg, states, actions, k, id, i);
    AttemptsBounded(cfg, states, actions, k, id, i);
  }
}
