/** The in-memory store (internal/store/memory.go). */
module MemoryStore {
  import opened Domain
  import opened Claiming
  import opened SagaOrder

  datatype StoreError = ContextDone | NotFound | AlreadyExists | InvalidPagination | Callback(message: string)

  /** What a read selects: every saga, or the sagas with one status. */
  predicate Matches(saga: Saga, status: Option<SagaStatus>) {
    status.None? || saga.status == status.value
  }

  /** `xs` lists the matching sagas of `m`, each once, in (CreatedAt, ID) order. */
  predicate IsListing(xs: seq<Saga>, m: map<string, Saga>, status: Option<SagaStatus>) {
    && Sorted(xs)
    && (forall x :: x in xs ==> x.id in m && m[x.id] == x && Matches(x, status))
    && (forall id :: id in m && Matches(m[id], status) ==> m[id] in xs)
  }

  lemma ListingIsUnique(xs: seq<Saga>, ys: seq<Saga>, m: map<string, Saga>, status: Option<SagaStatus>)
    requires Keyed(m) && IsListing(xs, m, status) && IsListing(ys, m, status)
    ensures xs == ys
  {
    SortedIsUnique(xs, ys);
  }

  /** All sagas of `m` with this status, or all: older ones first, those of the same age in the dictionary
      order of their ids. */
  ghost predicate WholeList(xs: seq<Saga>, m: map<string, Saga>, status: Option<SagaStatus>) {
    && (forall i, j :: 0 <= i < j < |xs| ==>
          || xs[i].createdAt < xs[j].createdAt
          || (xs[i].createdAt == xs[j].createdAt && DictionaryBefore(xs[i].id, xs[j].id)))
    && (forall x :: x in xs ==> x.id in m && m[x.id] == x && (status.Some? ==> x.status == status.value))
    && (forall id :: id in m && (status.Some? ==> m[id].status == status.value) ==> m[id] in xs)
  }

  lemma ListingIsWhole(xs: seq<Saga>, m: map<string, Saga>, status: Option<SagaStatus>)
    requires IsListing(xs, m, status)
    ensures WholeList(xs, m, status)
  {
    forall i, j | 0 <= i < j < |xs|
      ensures || xs[i].createdAt < xs[j].createdAt
              || (xs[i].createdAt == xs[j].createdAt && DictionaryBefore(xs[i].id, xs[j].id))
    {
      BeforeIsOlder(xs[i], xs[j]);
    }
  }

  function Clip(n: int, lo: int, hi: int): int { if n < lo then lo else if n > hi then hi else n }

  /** The slice that List returns; a limit of 0 means no limit. */
  function Page(xs: seq<Saga>, limit: nat, offset: nat): seq<Saga> {
    var from := Clip(offset, 0, |xs|);
    if limit == 0 then xs[from..] else xs[from..Clip(offset + limit, 0, |xs|)]
  }

  /** `page` is what `size` sagas from `offset` on are, or all from there on if `size` is 0. */
  predicate IsSlice(page: seq<Saga>, xs: seq<Saga>, size: nat, offset: nat) {
    page == if offset >= |xs| then []
            else if size == 0 || offset + size >= |xs| then xs[offset..]
            else xs[offset..offset + size]
  }

  lemma PageIsSlice(xs: seq<Saga>, limit: nat, offset: nat)
    ensures IsSlice(Page(xs, limit, offset), xs, limit, offset)
  {
  }

  ghost predicate NothingClaimable(m: map<string, Saga>, staleAfter: Time, now: Time) {
    forall id, i :: id in m ==> !Claimable(m[id], i, staleAfter, now)
  }

  /** The first saga in (CreatedAt, ID) order that offers a step. */
  ghost predicate OldestClaimable(m: map<string, Saga>, id: string, index: int, staleAfter: Time, now: Time) {
    && id in m && Claimable(m[id], index, staleAfter, now)
    && forall other, i :: other in m && Claimable(m[other], i, staleAfter, now) ==>
         other == id || Before(m[id], m[other])
  }

  /** What a claim is for and what it writes, in full. */
  lemma ClaimInFull(saga: Saga, i: int, staleAfter: Time, now: Time)
    requires Claimable(saga, i, staleAfter, now)
    ensures var step := saga.steps[i];
      && (|| (saga.status == Canceling && step.status in {StepCompleted, StepRunning}
              && forall j :: i < j < |saga.steps| ==>
                   saga.steps[j].status !in {StepCompleted, StepRunning, StepCompensating})
          || (saga.status == Canceling && step.status == StepCompensating
              && step.startedAt.Some? && now - step.startedAt.value >= staleAfter
              && forall j :: i < j < |saga.steps| ==>
                   saga.steps[j].status !in {StepCompleted, StepRunning, StepCompensating})
          || (saga.status in {Created, Running} && step.status == StepPending
              && forall j :: 0 <= j < i ==> saga.steps[j].status == StepCompleted)
          || (saga.status in {Created, Running} && step.status == StepRunning
              && step.startedAt.Some? && now - step.startedAt.value >= staleAfter
              && forall j :: 0 <= j < i ==> saga.steps[j].status == StepCompleted))
      && ClaimWrite(StoreKind.MemoryStore, saga, i, now) == saga.(
           updatedAt := now,
           steps := saga.steps[i := step.(
             status := if saga.status == Canceling then StepCompensating else StepRunning,
             attempt := step.attempt + 1, startedAt := Some(now), finishedAt := None, error := "")])
  {
  }

  lemma OldestInFull(m: map<string, Saga>, id: string, index: int, staleAfter: Time, now: Time)
    requires Keyed(m) && OldestClaimable(m, id, index, staleAfter, now)
    ensures forall other, i :: other in m && other != id && Claimable(m[other], i, staleAfter, now) ==>
      || m[id].createdAt < m[other].createdAt
      || (m[id].createdAt == m[other].createdAt && DictionaryBefore(id, other))
  {
    forall other, i | other in m && other != id && Claimable(m[other], i, staleAfter, now)
      ensures || m[id].createdAt < m[other].createdAt
              || (m[id].createdAt == m[other].createdAt && DictionaryBefore(id, other))
    {
      BeforeIsOlder(m[id], m[other]);
    }
  }

  // ----- the scan of one saga -----

  method AllPreviousStepsAreCompleted(steps: seq<Step>, currentIndex: nat) returns (all: bool)
    requires currentIndex <= |steps|
    ensures all <==> AllPreviousCompleted(steps, currentIndex)
  {
    for index := 0 to currentIndex
      invariant AllPreviousCompleted(steps, index)
    {
      if steps[index].status != StepCompleted { return false; }
    }
    return true;
  }

  method AllNextStepsAreSettled(steps: seq<Step>, currentIndex: nat) returns (all: bool)
    requires currentIndex < |steps|
    ensures all <==> AllNextSettled(steps, currentIndex)
  {
    for index := currentIndex + 1 to |steps|
      invariant forall j :: currentIndex < j < index ==> !Unsettled(steps[j].status)
    {
      if Unsettled(steps[index].status) { return false; }
    }
    return true;
  }

  /** claimExecutionStep: scans upwards. */
  method ClaimExecutionStep(saga: Saga, staleAfter: Time, now: Time) returns (saga': Saga, claim: Option<Claim>)
    requires saga.status == Created || saga.status == Running
    ensures claim.None? ==> saga' == saga && forall i :: !Claimable(saga, i, staleAfter, now)
    ensures claim.Some? ==>
      && Claimable(saga, claim.value.stepIndex, staleAfter, now)
      && claim.value == ClaimFor(saga, claim.value.stepIndex)
      && saga' == ClaimWrite(StoreKind.MemoryStore, saga, claim.value.stepIndex, now)
  {
    saga', claim := saga, None;
    for index := 0 to |saga.steps|
      invariant saga' == saga && claim == None
      invariant forall i :: 0 <= i < index ==> !Claimable(saga, i, staleAfter, now)
    {
      var allPrevious := AllPreviousStepsAreCompleted(saga.steps, index);
      if !allPrevious { continue; }
      var step := saga.steps[index];
      if step.status != StepPending && !IsStale(step, StepRunning, staleAfter, now) { continue; }
      var claimed := step.(status := StepRunning, attempt := step.attempt + 1, startedAt := Some(now),
                           finishedAt := None, error := "");
      saga' := saga.(steps := saga.steps[index := claimed], updatedAt := now);
      claim := Some(Claim(saga.id, index, claimed.name, claimed.attempt));
      return;
    }
  }

  /** claimCompensationStep: scans downwards. */
  method ClaimCompensationStep(saga: Saga, staleAfter: Time, now: Time) returns (saga': Saga, claim: Option<Claim>)
    requires saga.status == Canceling
    ensures claim.None? ==> saga' == saga && forall i :: !Claimable(saga, i, staleAfter, now)
    ensures claim.Some? ==>
      && Claimable(saga, claim.value.stepIndex, staleAfter, now)
      && claim.value == ClaimFor(saga, claim.value.stepIndex)
      && saga' == ClaimWrite(StoreKind.MemoryStore, saga, claim.value.stepIndex, now)
  {
    saga', claim := saga, None;
    for index := |saga.steps| downto 0
      invariant saga' == saga && claim == None
      invariant forall i :: index <= i < |saga.steps| ==> !Claimable(saga, i, staleAfter, now)
    {
      var allNext := AllNextStepsAreSettled(saga.steps, index);
      if !allNext { continue; }
      var step := saga.steps[index];
      if && step.status != StepCompleted && step.status != StepRunning
         && !IsStale(step, StepCompensating, staleAfter, now) { continue; }
      var claimed := step.(status := StepCompensating, attempt := step.attempt + 1, startedAt := Some(now),
                           finishedAt := None, error := "");
      saga' := saga.(steps := saga.steps[index := claimed], updatedAt := now);
      claim := Some(Claim(saga.id, index, claimed.name, claimed.attempt));
      return;
    }
  }

  method ClaimStepOf(saga: Saga, staleAfter: Time, now: Time) returns (saga': Saga, claim: Option<Claim>)
    ensures claim.None? ==> saga' == saga && forall i :: !Claimable(saga, i, staleAfter, now)
    ensures claim.Some? ==>
      && Claimable(saga, claim.value.stepIndex, staleAfter, now)
      && claim.value == ClaimFor(saga, claim.value.stepIndex)
      && saga' == ClaimWrite(StoreKind.MemoryStore, saga, claim.value.stepIndex, now)
  {
    saga', claim := saga, None;
    if saga.status == Created || saga.status == Running {
      saga', claim := ClaimExecutionStep(saga, staleAfter, now);
    } else if saga.status == Canceling {
      saga', claim := ClaimCompensationStep(saga, staleAfter, now);
    }
  }

  /** The scan of all sagas, in their order. */
  method ScanSagas(ordered: seq<Saga>, staleAfter: Time, now: Time)
    returns (k: nat, saga': Option<Saga>, claim: Option<Claim>)
    ensures k <= |ordered| && forall j, i :: 0 <= j < k ==> !Claimable(ordered[j], i, staleAfter, now)
    ensures claim.None? ==> k == |ordered|
    ensures claim.Some? ==>
      && k < |ordered| && Claimable(ordered[k], claim.value.stepIndex, staleAfter, now)
      && claim.value == ClaimFor(ordered[k], claim.value.stepIndex)
      && saga' == Some(ClaimWrite(StoreKind.MemoryStore, ordered[k], claim.value.stepIndex, now))
  {
    k, saga', claim := 0, None, None;
    while k < |ordered|
      invariant k <= |ordered| && claim.None?
      invariant forall j, i :: 0 <= j < k ==> !Claimable(ordered[j], i, staleAfter, now)
    {
      var saga;
      saga, claim := ClaimStepOf(ordered[k], staleAfter, now);
      if claim.Some? { return k, Some(saga), claim; }
      k := k + 1;
    }
  }

  /** In a sorted list of all sagas the first that offers a step is the oldest that does. */
  lemma FirstIsOldest(m: map<string, Saga>, ordered: seq<Saga>, k: nat, index: int, staleAfter: Time, now: Time)
    requires Keyed(m) && IsListing(ordered, m, None) && k < |ordered|
    requires Claimable(ordered[k], index, staleAfter, now)
    requires forall j, i :: 0 <= j < k ==> !Claimable(ordered[j], i, staleAfter, now)
    ensures OldestClaimable(m, ordered[k].id, index, staleAfter, now) && m[ordered[k].id] == ordered[k]
  {
    assert ordered[k] in ordered;
    forall other, i | other in m && Claimable(m[other], i, staleAfter, now)
      ensures other == ordered[k].id || Before(ordered[k], m[other])
    {
      assert m[other] in ordered;
      var j :| 0 <= j < |ordered| && ordered[j] == m[other];
    }
  }

  // ----- the store -----

  /** `alive` is false when the caller's context is done; every operation then refuses. */
  class Memory {
    var sagas: map<string, Saga>

    ghost predicate Valid() reads this { Keyed(sagas) }

    constructor ()
      ensures Valid() && sagas == map[]
    {
      sagas := map[];
    }

    method Create(alive: bool, saga: Saga) returns (err: Option<StoreError>)
      requires Valid()
      modifies this
      ensures Valid()
      ensures err == if !alive then Some(ContextDone)
                     else if saga.id in old(sagas) then Some(AlreadyExists) else None
      ensures sagas == if err.None? then old(sagas)[saga.id := saga] else old(sagas)
    {
      if !alive { return Some(ContextDone); }
      if saga.id in sagas { return Some(AlreadyExists); }
      sagas := sagas[saga.id := saga];
      return None;
    }

    method Get(alive: bool, id: string) returns (r: Result<Saga, StoreError>)
      ensures r == if !alive then Err(ContextDone) else if id in sagas then Ok(sagas[id]) else Err(NotFound)
    {
      if !alive { return Err(ContextDone); }
      if id !in sagas { return Err(NotFound); }
      return Ok(sagas[id]);
    }

    /** Clone, callback, timestamp, write back under the given id; a callback error leaves the store as it
        was. The store stays keyed by id exactly as long as callbacks leave the id alone. */
    method Update(alive: bool, id: string, fn: Saga -> Result<Saga, StoreError>, now: Time)
      returns (r: Result<Saga, StoreError>)
      requires Valid()
      modifies this
      ensures Valid() <==> (r.Ok? ==> r.value.id == id)
      ensures r == if !alive then Err(ContextDone)
                   else if id !in old(sagas) then Err(NotFound)
                   else if fn(old(sagas)[id]).Ok? then Ok(fn(old(sagas)[id]).value.(updatedAt := now))
                   else fn(old(sagas)[id])
      ensures sagas == if r.Ok? then old(sagas)[id := r.value] else old(sagas)
    {
      if !alive { return Err(ContextDone); }
      if id !in sagas { return Err(NotFound); }
      var updated := fn(sagas[id]);
      if updated.Err? { return updated; }
      var stamped := updated.value.(updatedAt := now);
      sagas := sagas[id := stamped];
      assert id in sagas && sagas[id].id == stamped.id;
      return Ok(stamped);
    }

    /** Copies the matching sagas out of the map, in whatever order the iteration yields them. */
    method Collect(status: Option<SagaStatus>) returns (xs: seq<Saga>)
      requires Valid()
      ensures forall i, j :: 0 <= i < j < |xs| ==> xs[i].id != xs[j].id
      ensures forall x :: x in xs ==> x.id in sagas && sagas[x.id] == x && Matches(x, status)
      ensures forall id :: id in sagas && Matches(sagas[id], status) ==> sagas[id] in xs
    {
      xs := [];
      var rest := sagas.Keys;
      while rest != {}
        invariant rest <= sagas.Keys
        invariant forall i, j :: 0 <= i < j < |xs| ==> xs[i].id != xs[j].id
        invariant forall x :: x in xs ==> x.id in sagas && x.id !in rest && sagas[x.id] == x && Matches(x, status)
        invariant forall id :: id in sagas && id !in rest && Matches(sagas[id], status) ==> sagas[id] in xs
        decreases rest
      {
        var id :| id in rest;
        rest := rest - {id};
        if Matches(sagas[id], status) { xs := xs + [sagas[id]]; }
      }
    }

    method List(alive: bool, status: Option<SagaStatus>, limit: int, offset: int)
      returns (r: Result<seq<Saga>, StoreError>)
      requires Valid()
      ensures r.Err? <==> !alive || limit < 0 || offset < 0
      ensures r.Err? ==> r.error == if !alive then ContextDone else InvalidPagination
      ensures r.Ok? ==> exists xs :: IsListing(xs, sagas, status) && r.value == Page(xs, limit, offset)
      ensures r.Ok? ==> exists xs :: WholeList(xs, sagas, status) && IsSlice(r.value, xs, limit, offset)
      ensures r.Ok? ==> forall i, j :: 0 <= i < j < |r.value| ==>
        || r.value[i].createdAt < r.value[j].createdAt
        || (r.value[i].createdAt == r.value[j].createdAt && DictionaryBefore(r.value[i].id, r.value[j].id))
      ensures r.Ok? && status.Some? ==> forall x :: x in r.value ==> x.status == status.value
    {
      if !alive { return Err(ContextDone); }
      if limit < 0 || offset < 0 { return Err(InvalidPagination); }
      var found := Collect(status);
      var ordered := SortSagas(found);
      assert IsListing(ordered, sagas, status);
      ListingIsWhole(ordered, sagas, status);
      PageIsSlice(ordered, limit, offset);
      if offset >= |ordered| { return Ok([]); }
      var end := |ordered|;
      if limit > 0 && offset + limit < end { end := offset + limit; }
      return Ok(ordered[offset..end]);
    }

    /** Hands out the step of the oldest saga that offers one. */
    method ClaimNextStep(alive: bool, staleAfter: Time, now: Time) returns (r: Result<Option<Claim>, StoreError>)
      requires Valid()
      modifies this
      ensures Valid()
      ensures r.Err? <==> !alive
      ensures !alive ==> r == Err(ContextDone) && sagas == old(sagas)
      ensures alive && r.value.None? ==> sagas == old(sagas) && NothingClaimable(old(sagas), staleAfter, now)
      ensures alive && r.value.Some? ==>
        var claim := r.value.value;
        && OldestClaimable(old(sagas), claim.sagaId, claim.stepIndex, staleAfter, now)
        && claim == ClaimFor(old(sagas)[claim.sagaId], claim.stepIndex)
        && sagas == old(sagas)[claim.sagaId :=
             ClaimWrite(StoreKind.MemoryStore, old(sagas)[claim.sagaId], claim.stepIndex, now)]
      // which step it is, and what is written, in full
      ensures alive && r.value.Some? ==>
        var Claim(id, i, name, attempt) := r.value.value;
        && id in old(sagas) && 0 <= i < |old(sagas)[id].steps|
        && var saga, step := old(sagas)[id], old(sagas)[id].steps[i];
           && name == step.name && attempt == step.attempt + 1
           && (|| (saga.status == Canceling && step.status in {StepCompleted, StepRunning}
                   && forall j :: i < j < |saga.steps| ==>
                        saga.steps[j].status !in {StepCompleted, StepRunning, StepCompensating})
               || (saga.status == Canceling && step.status == StepCompensating
                   && step.startedAt.Some? && now - step.startedAt.value >= staleAfter
                   && forall j :: i < j < |saga.steps| ==>
                        saga.steps[j].status !in {StepCompleted, StepRunning, StepCompensating})
               || (saga.status in {Created, Running} && step.status == StepPending
                   && forall j :: 0 <= j < i ==> saga.steps[j].status == StepCompleted)
               || (saga.status in {Created, Running} && step.status == StepRunning
                   && step.startedAt.Some? && now - step.startedAt.value >= staleAfter
                   && forall j :: 0 <= j < i ==> saga.steps[j].status == StepCompleted))
           && sagas == old(sagas)[id := saga.(
                updatedAt := now,
                steps := saga.steps[i := step.(
                  status := if saga.status == Canceling then StepCompensating else StepRunning,
                  attempt := step.attempt + 1, startedAt := Some(now), finishedAt := None, error := "")])]
      // every other saga that offers a step was created later, or has a later id
      ensures alive && r.value.Some? ==>
        var id := r.value.value.sagaId;
        forall other, i :: other in old(sagas) && other != id && Claimable(old(sagas)[other], i, staleAfter, now) ==>
          || old(sagas)[id].createdAt < old(sagas)[other].createdAt
          || (old(sagas)[id].createdAt == old(sagas)[other].createdAt && DictionaryBefore(id, other))
    {
      if !alive { return Err(ContextDone); }
      var found := Collect(None);
      var ordered := SortSagas(found);
      var k, saga', claim := ScanSagas(ordered, staleAfter, now);
      if claim.None? {
        forall id, i | id in sagas
          ensures !Claimable(sagas[id], i, staleAfter, now)
        {
          assert sagas[id] in ordered;
        }
        return Ok(None);
      }
      FirstIsOldest(sagas, ordered, k, claim.value.stepIndex, staleAfter, now);
      OldestInFull(sagas, ordered[k].id, claim.value.stepIndex, staleAfter, now);
      ClaimInFull(ordered[k], claim.value.stepIndex, staleAfter, now);
      sagas := sagas[ordered[k].id := saga'.value];
      return Ok(claim);
    }
  }
}
