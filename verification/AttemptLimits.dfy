/** How good the attempt bound is: the memory store attains it at every age of a step, and the SQL store,
    which keeps the first start time through COALESCE (sql/query/sagas.sql), meets it exactly until that
    time is stale. */
module AttemptLimits {
  import opened Domain
  import opened Claiming
  import opened Starting
  import opened Protocol
  import opened AttemptBound
  import opened Witnesses

  /** The step was first handed out a time `t` ago. */
  predicate FirstClaimedAgo(s: State, id: SagaId, i: int, t: Time) {
    && id in s.sagas && 0 <= i < |s.sagas[id].steps|
    && FirstClaim(s, id, i) == Some(s.now - t)
  }

  /** Every step that was first handed out a time `t` ago has at most 2 + t / staleAfter attempts. */
  ghost predicate BoundHoldsAfter(cfg: Config, t: Time)
    requires cfg.staleAfter > 0
  {
    forall s, id, i :: Reachable(cfg, s) && FirstClaimedAgo(s, id, i, t) ==>
      s.sagas[id].steps[i].attempt <= 2 + t / cfg.staleAfter
  }

  /** Some reachable state has more than `n` attempts of a step that was first handed out a time `t` ago. */
  ghost predicate MoreThanAfter(cfg: Config, n: nat, t: Time) {
    exists s, id, i :: Reachable(cfg, s) && FirstClaimedAgo(s, id, i, t) && s.sagas[id].steps[i].attempt > n
  }

  // ----- one saga that is handed out again and again -----

  const OneStep: seq<StartStep> := [StartStep("charge", "billing:9000")]

  /** Saga A alone, unlocked, with one RUNNING step that was first handed out at time 0 and n times so far. */
  predicate HandedOut(s: State, started: Time, n: nat) {
    && "A" in s.sagas && "A" !in s.locks && s.PhaseOf(1).Idle? && FirstClaim(s, "A", 0) == Some(0)
    && var saga := s.sagas["A"];
       && saga.status == Created && |saga.steps| == 1
       && saga.steps[0].status == StepRunning && saga.steps[0].startedAt == Some(started) && saga.steps[0].attempt == n
  }

  lemma Wait(cfg: Config, s: State, t: Time, started: Time, n: nat) returns (s': State)
    requires Reachable(cfg, s) && s.now <= t && HandedOut(s, started, n)
    ensures Reachable(cfg, s') && s'.now == t && HandedOut(s', started, n)
  {
    StepReachable(cfg, s, Tick(t));
    s' := Apply(cfg, s, Tick(t));
  }

  lemma HandOut(cfg: Config, s: State, started: Time, n: nat) returns (s': State)
    requires Reachable(cfg, s) && HandedOut(s, started, n) && s.now - started >= cfg.staleAfter
    ensures Reachable(cfg, s') && s'.now == s.now
    ensures HandedOut(s', if cfg.store == MemoryStore then s.now else started, n + 1)
  {
    StepReachable(cfg, s, ClaimStep("A", 0));
    s' := Apply(cfg, s, ClaimStep("A", 0));
  }

  // ----- the memory store attains the bound -----

  /** Handed out at 0, staleAfter, 2 staleAfter, ... */
  lemma {:induction false} HandedOutOnTime(cfg: Config, q: nat) returns (s: State)
    requires cfg.store == MemoryStore && cfg.staleAfter > 0
    ensures Reachable(cfg, s) && s.now == q * cfg.staleAfter && HandedOut(s, s.now, q + 1)
  {
    if q == 0 {
      s := OneClaimed(cfg, OneStep);
    } else {
      var s1 := HandedOutOnTime(cfg, q - 1);
      assert q * cfg.staleAfter == (q - 1) * cfg.staleAfter + cfg.staleAfter;
      var s2 := Wait(cfg, s1, q * cfg.staleAfter, s1.now, q);
      s := HandOut(cfg, s2, s1.now, q);
    }
  }

  /** A cancel makes the running step claimable at once, for compensation. */
  lemma CanceledAndHandedOut(cfg: Config, s: State, started: Time, n: nat) returns (s': State)
    requires Reachable(cfg, s) && HandedOut(s, started, n)
    ensures Reachable(cfg, s') && s'.now == s.now && FirstClaimedAgo(s', "A", 0, s.now)
    ensures s'.sagas["A"].steps[0].attempt == n + 1
  {
    UnwindsOneStep(s.sagas["A"], s.now);
    var s1 := CancelBy(cfg, s, 1, "A");
    StepReachable(cfg, s1, ClaimStep("A", 0));
    s' := Apply(cfg, s1, ClaimStep("A", 0));
  }

  /** No better bound holds: at every age some step of some run has exactly 2 + t / staleAfter attempts. */
  lemma MemoryBoundIsAttained(cfg: Config, t: Time)
    requires cfg.store == MemoryStore && cfg.staleAfter > 0 && t >= 0
    ensures exists s, id, i :: Reachable(cfg, s) && FirstClaimedAgo(s, id, i, t)
                               && s.sagas[id].steps[i].attempt == 2 + t / cfg.staleAfter
  {
    var q := t / cfg.staleAfter;
    var s := HandedOutOnTime(cfg, q);
    var s1 := CanceledAndHandedOut(cfg, s, s.now, q + 1);
    StepReachable(cfg, s1, Tick(t));
    assert FirstClaimedAgo(Apply(cfg, s1, Tick(t)), "A", 0, t);
  }

  // ----- the SQL store -----

  lemma BoundHoldsEarly(cfg: Config, s: State, id: SagaId, i: int, t: Time)
    requires cfg.store == PostgresStore && 0 <= t < cfg.staleAfter
    requires Reachable(cfg, s) && FirstClaimedAgo(s, id, i, t)
    ensures s.sagas[id].steps[i].attempt <= 2
  {
    var states, actions :| IsRun(cfg, states, actions) && states[|actions|] == s;
    StepIsPaced(cfg, states, actions, |actions|, id, i);
  }

  /** COALESCE keeps the start time: once it is stale, the step may be handed out any number of times at
      one instant. */
  lemma {:induction false} AnyNumberOfAttempts(cfg: Config, t: Time, n: nat) returns (s: State)
    requires cfg.store == PostgresStore && 0 <= cfg.staleAfter <= t && n > 0
    ensures Reachable(cfg, s) && s.now == t && HandedOut(s, 0, n)
  {
    if n == 1 {
      var s1 := OneClaimed(cfg, OneStep);
      s := Wait(cfg, s1, t, 0, 1);
    } else {
      var s1 := AnyNumberOfAttempts(cfg, t, n - 1);
      s := HandOut(cfg, s1, 0, n - 1);
    }
  }

  /** The bound holds in the SQL store exactly as long as the first start time is not stale; after that
      there is no bound at all. */
  lemma SqlBoundIff(cfg: Config, t: Time)
    requires cfg.store == PostgresStore && cfg.staleAfter > 0 && t >= 0
    ensures BoundHoldsAfter(cfg, t) <==> t < cfg.staleAfter
    ensures t >= cfg.staleAfter ==> forall n: nat :: MoreThanAfter(cfg, n, t)
  {
    if t < cfg.staleAfter {
      forall s, id, i | Reachable(cfg, s) && FirstClaimedAgo(s, id, i, t)
        ensures s.sagas[id].steps[i].attempt <= 2 + t / cfg.staleAfter
      {
        BoundHoldsEarly(cfg, s, id, i, t);
      }
    } else {
      forall n: nat
        ensures MoreThanAfter(cfg, n, t)
      {
        var s := AnyNumberOfAttempts(cfg, t, n + 1);
        assert FirstClaimedAgo(s, "A", 0, t) && s.sagas["A"].steps[0].attempt > n;
      }
      assert MoreThanAfter(cfg, 2 + t / cfg.staleAfter, t);
    }
  }
}
