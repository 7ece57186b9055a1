/** Every run can be brought to an end: from any reachable state, with any locker, either store and whatever
    the participants answer, some continuation makes every saga terminal. */
module Completion {
  import opened Domain
  import opened Claiming
  import opened Recording
  import opened Shape
  import opened Protocol
  import opened History
  import opened Drain
  import opened Witnesses

  /** The run passes through `s` at moment `j` and ends in `t`. */
  predicate Passes(cfg: Config, states: seq<State>, actions: seq<Action>, j: nat, s: State, t: State) {
    IsRun(cfg, states, actions) && j < |states| && states[j] == s && states[|actions|] == t
  }

  /** Some run passes through `s` and goes on to `t`. */
  ghost predicate GoesOn(cfg: Config, s: State, t: State) {
    exists states, actions, j :: Passes(cfg, states, actions, j, s, t)
  }

  lemma StaysOn(cfg: Config, s: State)
    requires Reachable(cfg, s)
    ensures GoesOn(cfg, s, s)
  {
    var states, actions :| IsRun(cfg, states, actions) && states[|actions|] == s;
    assert Passes(cfg, states, actions, |actions|, s, s);
  }

  lemma StepGoesOn(cfg: Config, s: State, t: State, a: Action)
    requires GoesOn(cfg, s, t) && Enabled(cfg, t, a)
    ensures GoesOn(cfg, s, Apply(cfg, t, a))
  {
    var states, actions, j :| Passes(cfg, states, actions, j, s, t);
    var t' := Apply(cfg, t, a);
    RunGrows(cfg, states, actions, a, t');
    assert Passes(cfg, states + [t'], actions + [a], j, s, t');
  }

  lemma EndIsReachable(cfg: Config, s: State, t: State)
    requires GoesOn(cfg, s, t)
    ensures Reachable(cfg, t)
  {
    var states, actions, j :| Passes(cfg, states, actions, j, s, t);
  }

  // ----- one outcome -----

  lemma {:induction false} FreshNat(a: set<nat>) returns (n: nat)
    ensures forall x :: x in a ==> x < n
  {
    if a == {} {
      n := 0;
    } else {
      var x :| x in a;
      var m := FreshNat(a - {x});
      n := if x < m then m else x + 1;
      forall y | y in a
        ensures y < n
      {
        if y != x { assert y in a - {x}; }
      }
    }
  }

  /** Time passes until every step that is in flight is stale. */
  lemma Waits(cfg: Config, s: State, t: State) returns (t': State)
    requires cfg.staleAfter > 0 && GoesOn(cfg, s, t)
    ensures GoesOn(cfg, s, t') && t' == t.(now := t.now + cfg.staleAfter)
  {
    t' := t.(now := t.now + cfg.staleAfter);
    StepGoesOn(cfg, s, t, Tick(t'.now));
    assert Apply(cfg, t, Tick(t'.now)) == t';
  }

  /** A saga that is not terminal then offers a step. */
  lemma Offers(cfg: Config, t: State, id: SagaId) returns (index: int)
    requires cfg.staleAfter > 0 && Reachable(cfg, t) && id in t.sagas && !IsTerminal(t.sagas[id].status)
    ensures Claimable(t.sagas[id], index, cfg.staleAfter, t.now + cfg.staleAfter)
    ensures WeakShaped(t.sagas[id]) && AttemptsCounted(t.sagas[id].steps)
  {
    var states, actions :| IsRun(cfg, states, actions) && states[|actions|] == t;
    ReachableIsDrainable(cfg, states, actions, |actions|);
    assert SagaDrainable(t.sagas[id], t.now);
    index := UnfinishedIsClaimable(t.sagas[id], cfg.staleAfter, t.now + cfg.staleAfter);
  }

  /** Whoever holds the lock may lose it. */
  lemma LockGetsFree(cfg: Config, s: State, t: State, id: SagaId) returns (t': State)
    requires GoesOn(cfg, s, t)
    ensures GoesOn(cfg, s, t') && LockFree(cfg, t', id) && t' == t.(locks := t'.locks)
  {
    t' := t;
    if id in t.locks {
      StepGoesOn(cfg, s, t, LoseLease(id));
      t' := Apply(cfg, t, LoseLease(id));
    }
  }

  /** An idle worker may take a claim, load its step and make the call. */
  lemma ClaimIsCalled(cfg: Config, s: State, t: State, w: WorkerId, c: Claim, mode: Mode, failure: Option<string>)
    requires GoesOn(cfg, s, t) && c in t.queue && t.PhaseOf(w).Idle? && LockFree(cfg, t, c.sagaId)
    requires ClaimResolves(t, c) && ModeFor(t, c) == Some(mode)
    ensures GoesOn(cfg, s, AfterDispatch(cfg, t, w, c, mode, failure))
  {
    AcquireEffect(cfg, t, w, c);
    StepGoesOn(cfg, s, t, Acquire(w, c));
    var t1 := AfterAcquire(cfg, t, w, c);
    LoadEffect(cfg, t1, w, c, mode);
    StepGoesOn(cfg, s, t1, Load(w));
    var t2 := t1.(workers := t1.workers[w := Loaded(c, mode)]);
    DispatchEffect(cfg, t2, w, c, mode, failure);
    StepGoesOn(cfg, s, t2, Dispatch(w, failure));
    assert t2.workers[w := Dispatched(c, mode, failure)] == t.workers[w := Dispatched(c, mode, failure)];
  }

  /** A claim that is handed out can be served at once, whatever the answer. */
  lemma ClaimIsServed(cfg: Config, s: State, t: State, c: Claim, mode: Mode, failure: Option<string>)
    returns (t': State)
    requires GoesOn(cfg, s, t) && c in t.queue && LockFree(cfg, t, c.sagaId)
    requires ClaimResolves(t, c) && ModeFor(t, c) == Some(mode)
    ensures GoesOn(cfg, s, t')
    ensures t'.sagas == t.sagas[c.sagaId :=
      Recorded(t.sagas[c.sagaId], c.stepIndex, failure, t.now).(updatedAt := t.now)]
  {
    var w := FreshNat(t.workers.Keys);
    ClaimIsCalled(cfg, s, t, w, c, mode, failure);
    var t1 := AfterDispatch(cfg, t, w, c, mode, failure);
    StepGoesOn(cfg, s, t1, Record(w));
    t' := Apply(cfg, t1, Record(w));
  }

  /** A step that is offered is handed out, and the lock of its saga gets free. */
  lemma HandsOut(cfg: Config, s: State, t: State, id: SagaId, index: int) returns (t': State)
    requires GoesOn(cfg, s, t) && Enabled(cfg, t, ClaimStep(id, index)) && t.sagas[id].id == id
    ensures GoesOn(cfg, s, t') && LockFree(cfg, t', id) && t'.now == t.now
    ensures ClaimFor(t.sagas[id], index) in t'.queue
    ensures t'.sagas == t.sagas[id := ClaimWrite(cfg.store, t.sagas[id], index, t.now)]
  {
    StepGoesOn(cfg, s, t, ClaimStep(id, index));
    t' := LockGetsFree(cfg, s, Apply(cfg, t, ClaimStep(id, index)), id);
  }

  /** Some continuation leaves less to do for a saga that is not terminal, and touches no other saga. */
  lemma SagaGetsOn(cfg: Config, s: State, t: State, id: SagaId, answer: (Claim, Mode) -> Option<string>)
    returns (t': State)
    requires cfg.staleAfter > 0 && GoesOn(cfg, s, t) && id in t.sagas && !IsTerminal(t.sagas[id].status)
    ensures GoesOn(cfg, s, t') && id in t'.sagas && t'.sagas == t.sagas[id := t'.sagas[id]]
    ensures Work(t'.sagas[id]) < Work(t.sagas[id])
  {
    EndIsReachable(cfg, s, t);
    var index := Offers(cfg, t, id);
    IdIsKey(cfg, t, id);
    var t1 := Waits(cfg, s, t);
    var t2 := HandsOut(cfg, s, t1, id, index);
    var saga, c := t.sagas[id], ClaimFor(t.sagas[id], index);
    var mode := if saga.status == Canceling then Compensate else Execute;
    RoundMakesProgress(cfg.store, saga, index, cfg.staleAfter, answer(c, mode), t1.now, t1.now);
    t' := ClaimIsServed(cfg, s, t2, c, mode, answer(c, mode));
    WrittenTwice(t.sagas, id, ClaimWrite(cfg.store, saga, index, t1.now), t'.sagas[id]);
  }

  lemma IdIsKey(cfg: Config, t: State, id: SagaId)
    requires Reachable(cfg, t) && id in t.sagas
    ensures t.sagas[id].id == id
  {
    var states, actions :| IsRun(cfg, states, actions) && states[|actions|] == t;
    ClaimsArePlausible(cfg, states, actions, |actions|);
  }

  // ----- all of them -----

  lemma {:induction false} FinishesFrom(cfg: Config, s: State, t: State, answer: (Claim, Mode) -> Option<string>)
    returns (t': State)
    requires cfg.staleAfter > 0 && GoesOn(cfg, s, t)
    ensures GoesOn(cfg, s, t') && t'.sagas.Keys == t.sagas.Keys && AllTerminal(t'.sagas)
    decreases TotalWork(t.sagas)
  {
    if AllTerminal(t.sagas) {
      t' := t;
    } else {
      var id :| id in t.sagas && !IsTerminal(t.sagas[id].status);
      var t1 := SagaGetsOn(cfg, s, t, id, answer);
      TotalAfterUpdate(t.sagas, id, t1.sagas[id], Work);
      t' := FinishesFrom(cfg, s, t1, answer);
    }
  }

  /** No reachable state is a dead end: whichever claims are lost, whichever workers are gone and whoever holds
      the locks, the run can go on until every saga is terminal, whatever further calls answer. */
  lemma EveryRunCanFinish(cfg: Config, s: State, answer: (Claim, Mode) -> Option<string>) returns (t: State)
    requires cfg.staleAfter > 0 && Reachable(cfg, s)
    ensures GoesOn(cfg, s, t) && t.sagas.Keys == s.sagas.Keys && AllTerminal(t.sagas)
  {
    StaysOn(cfg, s);
    t := FinishesFrom(cfg, s, s, answer);
  }

  /** Giving up frees what was held, and nothing else changes: a release the lock and the worker, a lost lease
      the lock, an abandoned worker itself, a dropped claim its place in the queue. */
  lemma GivingUp(cfg: Config, s: State, a: Action)
    requires Enabled(cfg, s, a)
    ensures a.Release? ==>
      var id := s.PhaseOf(a.w).Target();
      var s' := Apply(cfg, s, a);
      LockFree(cfg, s', id) && s'.PhaseOf(a.w).Idle?
      && s' == s.(workers := s'.workers, locks := s'.locks)
      && (forall other :: other != id ==> (other in s'.locks <==> other in s.locks))
    ensures a.LoseLease? ==> Apply(cfg, s, a) == s.(locks := s.locks - {a.id})
    ensures a.Abandon? ==> Apply(cfg, s, a) == s.(workers := s.workers[a.w := Idle])
    ensures a.DropClaim? ==> Apply(cfg, s, a) == s.(queue := s.queue - multiset{a.claim})
  {
  }

  /** What waits for nothing: a step that is offered may be handed out while its saga is locked, anyone may give
      up, and a saga in any status may be cancelled by whoever has its lock. */
  lemma NothingToWaitFor(cfg: Config, s: State, id: SagaId, index: int, w: WorkerId, c: Claim)
    ensures id in s.sagas && Claimable(s.sagas[id], index, cfg.staleAfter, s.now) ==>
      Enabled(cfg, s, ClaimStep(id, index))
    ensures c in s.queue ==> Enabled(cfg, s, DropClaim(c))
    ensures !s.PhaseOf(w).Idle? ==> Enabled(cfg, s, Abandon(w))
    ensures id in s.locks ==> Enabled(cfg, s, LoseLease(id))
    ensures s.PhaseOf(w).Idle? && LockFree(cfg, s, id) ==> Enabled(cfg, s, CancelAcquire(w, id))
    ensures s.PhaseOf(w) == Canceller(id) && LeaseHeld(cfg, s, w, id) && id in s.sagas ==>
      Enabled(cfg, s, CancelUpdate(w))
  {
  }
}
