/** Nothing gets stuck: serving claims one after the other always comes to an end, and then every saga is
    terminal (the loop of internal/service/step_runner.go over internal/store/memory.go). */
module Drain {
  import opened Domain
  import opened Claiming
  import opened Recording
  import opened Shape
  import opened MemoryStore
  import opened Protocol
  import opened AnyLocker
  import opened AttemptBound

  // ----- what is left to do -----

  function OpenSteps(steps: seq<Step>): set<int> {
    set i | 0 <= i < |steps| && steps[i].status != StepCompleted
  }

  function UnsettledSteps(steps: seq<Step>): set<int> {
    set i | 0 <= i < |steps| && Unsettled(steps[i].status)
  }

  /** Rounds that a saga can still take. */
  function Work(saga: Saga): nat {
    match saga.status
    case Created => |OpenSteps(saga.steps)|
    case Running => |OpenSteps(saga.steps)|
    case Canceling => |UnsettledSteps(saga.steps)|
    case _ => 0
  }

  /** The sum of a weight over the sagas of a store. */
  ghost function Total(m: map<string, Saga>, weight: Saga -> nat): nat
    decreases |m|
  {
    if m == map[] then 0
    else
      var id :| id in m;
      weight(m[id]) + Total(m - {id}, weight)
  }

  lemma {:induction false} TotalOfOne(m: map<string, Saga>, id: string, weight: Saga -> nat)
    requires id in m
    ensures Total(m, weight) == weight(m[id]) + Total(m - {id}, weight)
    decreases |m|
  {
    var first :| first in m && Total(m, weight) == weight(m[first]) + Total(m - {first}, weight);
    if first != id {
      TotalOfOne(m - {first}, id, weight);
      TotalOfOne(m - {id}, first, weight);
      assert m - {first} - {id} == m - {id} - {first};
    }
  }

  lemma TotalAfterUpdate(m: map<string, Saga>, id: string, saga: Saga, weight: Saga -> nat)
    requires id in m
    ensures Total(m[id := saga], weight) + weight(m[id]) == Total(m, weight) + weight(saga)
  {
    TotalOfOne(m, id, weight);
    TotalOfOne(m[id := saga], id, weight);
    assert m[id := saga] - {id} == m - {id};
  }

  ghost function TotalWork(m: map<string, Saga>): nat {
    Total(m, Work)
  }

  // ----- one round -----

  lemma RemoveOne(a: set<int>, b: set<int>, i: int)
    requires b == a - {i} && i in a
    ensures |b| == |a| - 1
  {
  }

  /** A claim leaves as much to do as before. */
  lemma ClaimKeepsWork(kind: StoreKind, saga: Saga, index: int, staleAfter: Time, now: Time)
    requires WeakShaped(saga) && AttemptsCounted(saga.steps) && Claimable(saga, index, staleAfter, now)
    ensures Work(ClaimWrite(kind, saga, index, now)) == Work(saga)
  {
    ClaimKeepsShape(kind, saga, index, staleAfter, now);
    var claimed := ClaimWrite(kind, saga, index, now);
    if saga.status == Canceling {
      assert UnsettledSteps(claimed.steps) == UnsettledSteps(saga.steps);
    } else {
      assert OpenSteps(claimed.steps) == OpenSteps(saga.steps);
    }
  }

  lemma ExecutionLeavesLess(saga: Saga, index: int, failure: Option<string>, now: Time)
    requires WeakShaped(saga) && AttemptsCounted(saga.steps) && (saga.status == Created || saga.status == Running)
    requires 0 <= index < |saga.steps| && saga.steps[index].status == StepRunning
    ensures Work(ExecutionRecorded(saga, index, failure, now)) < Work(saga)
  {
    var saga' := ExecutionRecorded(saga, index, failure, now);
    ExecutionKeepsShape(saga, index, failure, now);
    assert index in OpenSteps(saga.steps);
    if saga'.status == Running {
      assert OpenSteps(saga'.steps) == OpenSteps(saga.steps) - {index};
      RemoveOne(OpenSteps(saga.steps), OpenSteps(saga'.steps), index);
    }
  }

  lemma CompensationLeavesLess(saga: Saga, index: int, failure: Option<string>, now: Time)
    requires WeakShaped(saga) && AttemptsCounted(saga.steps) && saga.status == Canceling
    requires 0 <= index < |saga.steps| && Unsettled(saga.steps[index].status)
    ensures Work(CompensationRecorded(saga, index, failure, now)) < Work(saga)
  {
    var saga' := CompensationRecorded(saga, index, failure, now);
    CompensationKeepsShape(saga, index, failure, now);
    assert index in UnsettledSteps(saga.steps);
    if saga'.status == Canceling {
      assert UnsettledSteps(saga'.steps) == UnsettledSteps(saga.steps) - {index};
      RemoveOne(UnsettledSteps(saga.steps), UnsettledSteps(saga'.steps), index);
    }
  }

  /** Any outcome that is written leaves less to do, unless the saga has FAILED. */
  lemma OutcomeLeavesLess(saga: Saga, index: int, failure: Option<string>, now: Time)
    requires WeakShaped(saga) && AttemptsCounted(saga.steps) && saga.status != Failed
    requires 0 <= index < |saga.steps| && saga.steps[index].status != StepPending
    requires RecordingBranch(saga.status, saga.steps[index].status).Some?
    ensures Work(Recorded(saga, index, failure, now)) < Work(saga)
  {
    if saga.status == Canceling {
      CompensationLeavesLess(saga, index, failure, now);
    } else {
      ExecutionLeavesLess(saga, index, failure, now);
    }
  }

  /** A claimed step is always dispatched in the mode it was claimed for, and whatever the participant
      answers, the saga keeps its shape and has less left to do. */
  lemma RoundMakesProgress(kind: StoreKind, saga: Saga, index: int, staleAfter: Time, failure: Option<string>,
                           now: Time, later: Time)
    requires WeakShaped(saga) && AttemptsCounted(saga.steps) && Claimable(saga, index, staleAfter, now)
    ensures var claimed := ClaimWrite(kind, saga, index, now);
            var saga' := Recorded(claimed, index, failure, later).(updatedAt := later);
      && DispatchMode(claimed.status, claimed.steps[index].status)
         == Some(if saga.status == Canceling then Compensate else Execute)
      && Shaped(saga') && AttemptsCounted(saga'.steps)
      && Work(saga') < Work(saga)
  {
    var claimed := ClaimWrite(kind, saga, index, now);
    ClaimKeepsShape(kind, saga, index, staleAfter, now);
    ClaimKeepsWork(kind, saga, index, staleAfter, now);
    RecordKeepsShape(claimed, index, failure, later);
    OutcomeLeavesLess(claimed, index, failure, later);
    assert Shaped(Recorded(claimed, index, failure, later).(updatedAt := later));
  }

  // ----- the loop -----

  /** A handed-out step has a start time, no later than `now`. */
  predicate InFlightStarted(steps: seq<Step>, now: Time) {
    forall j :: 0 <= j < |steps| && InFlight(steps[j].status) ==>
      steps[j].startedAt.Some? && steps[j].startedAt.value <= now
  }

  ghost predicate SagaDrainable(saga: Saga, now: Time) {
    WeakShaped(saga) && AttemptsCounted(saga.steps) && InFlightStarted(saga.steps, now)
  }

  ghost predicate Drainable(m: map<string, Saga>, now: Time) {
    forall id :: id in m ==> SagaDrainable(m[id], now)
  }

  ghost predicate AllTerminal(m: map<string, Saga>) {
    forall id :: id in m ==> IsTerminal(m[id].status)
  }

  /** No claim left, with every step in flight stale: every saga is terminal. */
  lemma NoClaimMeansTerminal(m: map<string, Saga>, start: Time, staleAfter: Time, now: Time)
    requires Drainable(m, start) && start + staleAfter <= now && NothingClaimable(m, staleAfter, now)
    ensures AllTerminal(m)
  {
    forall id | id in m
      ensures IsTerminal(m[id].status)
    {
      assert SagaDrainable(m[id], start);
      if !IsTerminal(m[id].status) {
        var index := UnfinishedIsClaimable(m[id], staleAfter, now);
      }
    }
  }

  /** A served step is in flight no more. */
  lemma ServedIsSettled(saga: Saga, index: int, staleAfter: Time, failure: Option<string>, start: Time, now: Time)
    requires Claimable(saga, index, staleAfter, now) && InFlightStarted(saga.steps, start)
    ensures var claimed := ClaimWrite(StoreKind.MemoryStore, saga, index, now);
            InFlightStarted(Recorded(claimed, index, failure, now).steps, start)
  {
  }

  lemma SagaRound(saga: Saga, index: int, staleAfter: Time, failure: Option<string>, start: Time, now: Time)
    requires SagaDrainable(saga, start) && Claimable(saga, index, staleAfter, now)
    ensures var claimed := ClaimWrite(StoreKind.MemoryStore, saga, index, now);
            var saga' := Recorded(claimed, index, failure, now).(updatedAt := now);
            SagaDrainable(saga', start) && Work(saga') < Work(saga)
  {
    RoundMakesProgress(StoreKind.MemoryStore, saga, index, staleAfter, failure, now, now);
    ServedIsSettled(saga, index, staleAfter, failure, start, now);
  }

  /** processClaimedStep for a claim that was just handed out: load, dispatch, record. */
  method ProcessClaimedStep(store: Memory, claim: Claim, answer: (Claim, Mode) -> Option<string>, now: Time)
    returns (failure: Option<string>)
    requires store.Valid() && claim.sagaId in store.sagas
    requires var saga := store.sagas[claim.sagaId];
      && 0 <= claim.stepIndex < |saga.steps|
      && DispatchMode(saga.status, saga.steps[claim.stepIndex].status).Some?
    modifies store
    ensures store.Valid()
    ensures var saga := old(store.sagas)[claim.sagaId];
      && failure == answer(claim, DispatchMode(saga.status, saga.steps[claim.stepIndex].status).value)
      && store.sagas == old(store.sagas)[claim.sagaId :=
           Recorded(saga, claim.stepIndex, failure, now).(updatedAt := now)]
  {
    var loaded := store.Get(true, claim.sagaId);
    var saga, index := loaded.value, claim.stepIndex;
    failure := answer(claim, DispatchMode(saga.status, saga.steps[index].status).value);
    var outcome := failure;
    var callback := (s: Saga) =>
      if 0 <= index < |s.steps| then Ok(Recorded(s, index, outcome, now)) else Err(Callback("index out of bounds"));
    var updated := store.Update(true, claim.sagaId, callback, now);
    assert updated.Ok?;
  }

  /** What serving one claim leaves behind. */
  ghost predicate RoundDone(m: map<string, Saga>, m': map<string, Saga>, start: Time) {
    Drainable(m', start) && TotalWork(m') < TotalWork(m) && m'.Keys == m.Keys
  }

  lemma RoundKeepsDrainable(m: map<string, Saga>, id: string, index: int, staleAfter: Time,
                            failure: Option<string>, start: Time, now: Time)
    requires Drainable(m, start) && id in m && Claimable(m[id], index, staleAfter, now)
    ensures var claimed := ClaimWrite(StoreKind.MemoryStore, m[id], index, now);
            RoundDone(m, m[id := Recorded(claimed, index, failure, now).(updatedAt := now)], start)
  {
    var claimed := ClaimWrite(StoreKind.MemoryStore, m[id], index, now);
    var saga' := Recorded(claimed, index, failure, now).(updatedAt := now);
    assert SagaDrainable(m[id], start);
    SagaRound(m[id], index, staleAfter, failure, start, now);
    TotalAfterUpdate(m, id, saga', Work);
  }

  lemma ClaimedIsDispatchable(m: map<string, Saga>, id: string, index: int, staleAfter: Time, start: Time, now: Time)
    requires Drainable(m, start) && id in m && Claimable(m[id], index, staleAfter, now)
    ensures var claimed := ClaimWrite(StoreKind.MemoryStore, m[id], index, now);
            DispatchMode(claimed.status, claimed.steps[index].status).Some?
  {
    assert SagaDrainable(m[id], start);
    RoundMakesProgress(StoreKind.MemoryStore, m[id], index, staleAfter, None, now, now);
  }

  /** Serves a claim that was just handed out from `m`. */
  method ServeClaim(store: Memory, ghost m: map<string, Saga>, claim: Claim, staleAfter: Time, ghost start: Time,
                    now: Time, answer: (Claim, Mode) -> Option<string>)
    requires store.Valid() && Drainable(m, start)
    requires claim.sagaId in m && Claimable(m[claim.sagaId], claim.stepIndex, staleAfter, now)
    requires store.sagas == m[claim.sagaId :=
               ClaimWrite(StoreKind.MemoryStore, m[claim.sagaId], claim.stepIndex, now)]
    modifies store
    ensures store.Valid() && RoundDone(m, store.sagas, start)
  {
    ghost var id, index := claim.sagaId, claim.stepIndex;
    ghost var claimed := ClaimWrite(StoreKind.MemoryStore, m[id], index, now);
    ClaimedIsDispatchable(m, id, index, staleAfter, start, now);
    var failure := ProcessClaimedStep(store, claim, answer, now);
    WrittenTwice(m, id, claimed, Recorded(claimed, index, failure, now).(updatedAt := now));
    RoundKeepsDrainable(m, id, index, staleAfter, failure, start, now);
  }

  lemma WrittenTwice(m: map<string, Saga>, id: string, a: Saga, b: Saga)
    ensures m[id := a][id := b] == m[id := b]
  {
  }

  /** One poll: at any time, whether or not something is in flight. */
  method DrainRound(store: Memory, staleAfter: Time, ghost start: Time, now: Time,
                    answer: (Claim, Mode) -> Option<string>)
    returns (served: bool)
    requires store.Valid() && Drainable(store.sagas, start)
    modifies store
    ensures store.Valid()
    ensures served ==> RoundDone(old(store.sagas), store.sagas, start)
    ensures !served ==> store.sagas == old(store.sagas)
    ensures !served && start + staleAfter <= now ==> AllTerminal(store.sagas)
  {
    ghost var m := store.sagas;
    var claimed := store.ClaimNextStep(true, staleAfter, now);
    if claimed.value.None? {
      if start + staleAfter <= now { NoClaimMeansTerminal(m, start, staleAfter, now); }
      return false;
    }
    ServeClaim(store, m, claimed.value.value, staleAfter, start, now, answer);
    return true;
  }

  /** One worker that polls at the times `clock` says, whatever they are, as long as from poll `late` on the
      claims that were lost before it started are stale; `answer` is what participants reply. From every
      store whose sagas have the reachable shape it comes to a poll that finds nothing, with every saga
      terminal, after serving no more claims than there was work. */
  method DrainStore(store: Memory, staleAfter: Time, ghost start: Time, clock: nat -> Time, late: nat,
                    answer: (Claim, Mode) -> Option<string>)
    returns (polls: nat, served: nat)
    requires store.Valid() && Drainable(store.sagas, start)
    requires forall k: nat :: late <= k ==> start + staleAfter <= clock(k)
    modifies store
    ensures store.Valid() && AllTerminal(store.sagas)
    ensures store.sagas.Keys == old(store.sagas).Keys
    ensures served <= TotalWork(old(store.sagas)) && polls <= late + TotalWork(old(store.sagas)) + 1
  {
    polls, served := 0, 0;
    var finished := false;
    while !finished
      invariant store.Valid() && Drainable(store.sagas, start)
      invariant store.sagas.Keys == old(store.sagas).Keys
      invariant served + TotalWork(store.sagas) <= TotalWork(old(store.sagas))
      invariant finished ==> AllTerminal(store.sagas)
      invariant polls <= (if polls < late then polls else late) + served + (if finished then 1 else 0)
      decreases !finished, TotalWork(store.sagas), if polls < late then late - polls else 0
    {
      var found := DrainRound(store, staleAfter, start, clock(polls), answer);
      if found { served := served + 1; } else if polls >= late { finished := true; }
      polls := polls + 1;
    }
  }

  // ----- the stores that the protocol reaches -----

  /** Every store that the protocol reaches, with any locker, can be drained, whatever claims and workers are
      lost. */
  lemma ReachableIsDrainable(cfg: Config, states: seq<State>, actions: seq<Action>, k: nat)
    requires cfg.staleAfter > 0 && IsRun(cfg, states, actions) && k < |states|
    ensures Keyed(states[k].sagas) && Drainable(states[k].sagas, states[k].now)
  {
    RunIsSound(cfg, states, actions, k);
    forall id | id in states[k].sagas
      ensures SagaDrainable(states[k].sagas[id], states[k].now)
    {
      assert SagaSound(states[k].sagas[id], states[k].CallsOf(id));
      forall j | 0 <= j < |states[k].sagas[id].steps| && InFlight(states[k].sagas[id].steps[j].status)
        ensures states[k].sagas[id].steps[j].startedAt.Some?
        ensures states[k].sagas[id].steps[j].startedAt.value <= states[k].now
      {
        StepIsPaced(cfg, states, actions, k, id, j);
      }
    }
  }

  /** No state of any run is stuck: if it offers no claim once all its claims have gone stale, every saga is
      terminal. */
  lemma IdleMeansTerminal(cfg: Config, states: seq<State>, actions: seq<Action>, k: nat, later: Time)
    requires cfg.staleAfter > 0 && IsRun(cfg, states, actions) && k < |states|
    requires states[k].now + cfg.staleAfter <= later && NothingClaimable(states[k].sagas, cfg.staleAfter, later)
    ensures AllTerminal(states[k].sagas)
  {
    ReachableIsDrainable(cfg, states, actions, k);
    NoClaimMeansTerminal(states[k].sagas, states[k].now, cfg.staleAfter, later);
  }
}
