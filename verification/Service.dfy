/** The service in front of the store (internal/service/service.go). */
module Service {
  import opened Domain
  import opened Starting
  import opened Cancellation
  import opened SagaOrder
  import opened MemoryStore

  datatype ServiceError =
    | InvalidWorkflow | InvalidContext | NoRandomness | StepsRequired | InvalidStepName | InvalidStepGRPCTarget
    | InvalidStatusFilter | InvalidPage | SagaNotFound | SagaLockContended | SagaCancelNotAllowed
    | RenewalFailed | RenewalFailedWith(cause: ServiceError)
    | Other(StoreError)

  const DEFAULT_PAGE_LIMIT := 50
  const MAX_PAGE_LIMIT := 200

  // ----- paging -----

  /** The limit that a page really uses. */
  function PageLimit(limit: nat): nat {
    if limit == 0 then DEFAULT_PAGE_LIMIT else if limit > MAX_PAGE_LIMIT then MAX_PAGE_LIMIT else limit
  }

  /** A status filter as the caller's text parses. */
  datatype Filter = Unfiltered | ByStatus(status: SagaStatus) | Unparsable

  function Selected(filter: Filter): Option<SagaStatus> {
    if filter.ByStatus? then Some(filter.status) else None
  }

  /** What ListSagas may return for this page of a store. */
  ghost predicate IsPage(page: seq<Saga>, m: map<string, Saga>, filter: Filter, limit: nat, offset: nat) {
    exists xs :: IsListing(xs, m, Selected(filter)) && page == Page(xs, PageLimit(limit), offset)
  }

  /** The pages of one reader; the store does not change in between. */
  ghost predicate ArePages(pages: seq<seq<Saga>>, m: map<string, Saga>, filter: Filter, limit: nat) {
    forall k :: 0 <= k < |pages| ==> IsPage(pages[k], m, filter, limit, Offset(k, PageLimit(limit)))
  }

  function Concat(pages: seq<seq<Saga>>): seq<Saga> {
    if pages == [] then [] else Concat(pages[..|pages| - 1]) + pages[|pages| - 1]
  }

  /** The offsets 0, L, 2L, ... at which a reader asks for its pages. */
  function Offset(k: nat, limit: nat): nat {
    if k == 0 then 0 else Offset(k - 1, limit) + limit
  }

  predicate PagesOf(xs: seq<Saga>, pages: seq<seq<Saga>>, limit: nat) {
    forall k :: 0 <= k < |pages| ==> pages[k] == Page(xs, limit, Offset(k, limit))
  }

  lemma {:induction false} PagesPrefix(xs: seq<Saga>, pages: seq<seq<Saga>>, limit: nat)
    requires limit > 0 && PagesOf(xs, pages, limit)
    ensures Concat(pages) == xs[..Clip(Offset(|pages|, limit), 0, |xs|)]
  {
    if pages != [] {
      var n := |pages| - 1;
      assert PagesOf(xs, pages[..n], limit);
      PagesPrefix(xs, pages[..n], limit);
      AddPage(xs, limit, Offset(n, limit));
    }
  }

  lemma AddPage(xs: seq<Saga>, limit: nat, offset: nat)
    requires limit > 0
    ensures xs[..Clip(offset, 0, |xs|)] + Page(xs, limit, offset) == xs[..Clip(offset + limit, 0, |xs|)]
  {
  }

  /** Paging tiles the store: pages read at offsets 0, L, 2L, ... from an unchanged store, each read with
      its own map iteration order, join up to the sorted list of matching sagas. */
  lemma {:induction false} PagesTile(m: map<string, Saga>, filter: Filter, limit: nat, pages: seq<seq<Saga>>,
                                     xs: seq<Saga>)
    requires Keyed(m) && IsListing(xs, m, Selected(filter)) && ArePages(pages, m, filter, limit)
    requires Offset(|pages|, PageLimit(limit)) >= |xs|
    ensures PageLimit(limit) == if limit == 0 then 50 else if limit > 200 then 200 else limit
    ensures Concat(pages) == xs
    ensures !filter.Unparsable? ==> forall x :: x in Concat(pages) <==>
      x.id in m && m[x.id] == x && (filter.Unfiltered? || x.status == filter.status)
    ensures forall i, j :: 0 <= i < j < |xs| ==>
      || xs[i].createdAt < xs[j].createdAt
      || (xs[i].createdAt == xs[j].createdAt && DictionaryBefore(xs[i].id, xs[j].id))
    ensures forall i, j :: 0 <= i < j < |xs| ==> xs[i].id != xs[j].id
  {
    PagesAgree(m, filter, limit, pages, xs);
    PagesPrefix(xs, pages, PageLimit(limit));
    ListingIsWhole(xs, m, Selected(filter));
    DistinctIds(xs, m, Selected(filter));
  }

  lemma PagesAgree(m: map<string, Saga>, filter: Filter, limit: nat, pages: seq<seq<Saga>>, xs: seq<Saga>)
    requires Keyed(m) && IsListing(xs, m, Selected(filter)) && ArePages(pages, m, filter, limit)
    ensures PagesOf(xs, pages, PageLimit(limit))
  {
    forall k | 0 <= k < |pages|
      ensures pages[k] == Page(xs, PageLimit(limit), Offset(k, PageLimit(limit)))
    {
      SamePage(m, filter, limit, Offset(k, PageLimit(limit)), pages[k], xs);
    }
  }

  lemma SamePage(m: map<string, Saga>, filter: Filter, limit: nat, offset: nat, page: seq<Saga>, xs: seq<Saga>)
    requires Keyed(m) && IsListing(xs, m, Selected(filter)) && IsPage(page, m, filter, limit, offset)
    ensures page == Page(xs, PageLimit(limit), offset)
  {
    var ys :| IsListing(ys, m, Selected(filter)) && page == Page(ys, PageLimit(limit), offset);
    ListingIsUnique(xs, ys, m, Selected(filter));
  }

  lemma DistinctIds(xs: seq<Saga>, m: map<string, Saga>, status: Option<SagaStatus>)
    requires IsListing(xs, m, status)
    ensures forall i, j :: 0 <= i < j < |xs| ==> xs[i].id != xs[j].id
  {
    forall i, j | 0 <= i < j < |xs|
      ensures xs[i].id != xs[j].id
    {
      BeforeTotal(xs[i], xs[i]);
      assert xs[i] in xs && xs[j] in xs && Before(xs[i], xs[j]);
    }
  }

  // ----- errors -----

  function MapStoreError(err: StoreError): ServiceError {
    match err
    case NotFound => SagaNotFound
    case InvalidPagination => InvalidPage
    case _ => Other(err)
  }

  /** joinLockErrors, and what mapStoreError finds in the result: a missing saga hides the renewal. */
  function JoinLockErrors(err: Option<ServiceError>, renewFails: bool): Option<ServiceError> {
    if !renewFails || err == Some(SagaNotFound) then err
    else if err.None? then Some(RenewalFailed)
    else Some(RenewalFailedWith(err.value))
  }

  // ----- starting -----

  /** The first thing wrong with the requested steps, in the order in which they are checked. */
  function StepsError(requested: seq<StartStep>): Option<ServiceError> {
    if requested == [] then Some(StepsRequired)
    else StepsErrorFrom(requested, 0)
  }

  function StepsErrorFrom(requested: seq<StartStep>, from: nat): Option<ServiceError>
    requires from <= |requested|
    decreases |requested| - from
  {
    if from == |requested| then None
    else if requested[from].name == "" then Some(InvalidStepName)
    else if requested[from].grpcTarget == "" then Some(InvalidStepGRPCTarget)
    else StepsErrorFrom(requested, from + 1)
  }

  method ValidateStartSagaSteps(requested: seq<StartStep>) returns (r: Result<seq<Step>, ServiceError>)
    ensures r.Err? ==> StepsError(requested) == Some(r.error)
    ensures r.Ok? ==> StepsError(requested) == None && |r.value| == |requested| > 0
    ensures r.Ok? ==> forall i :: 0 <= i < |requested| ==>
      requested[i].name != "" && requested[i].grpcTarget != "" && r.value[i] == PendingStep(requested[i])
    ensures r.Ok? ==> forall i :: 0 <= i < |requested| ==>
      r.value[i] == Step(requested[i].name, requested[i].grpcTarget, StepPending, 0, None, None, "")
    // the error is that of the first step that lacks something, its name first
    ensures r.Err? ==> if requested == [] then r.error == StepsRequired
      else exists i ::
        && 0 <= i < |requested|
        && (forall j :: 0 <= j < i ==> requested[j].name != "" && requested[j].grpcTarget != "")
        && (|| (requested[i].name == "" && r.error == InvalidStepName)
            || (requested[i].name != "" && requested[i].grpcTarget == "" && r.error == InvalidStepGRPCTarget))
  {
    if |requested| == 0 { return Err(StepsRequired); }
    var steps := [];
    for i := 0 to |requested|
      invariant |steps| == i && StepsErrorFrom(requested, i) == StepsErrorFrom(requested, 0)
      invariant forall j :: 0 <= j < i ==>
        requested[j].name != "" && requested[j].grpcTarget != "" && steps[j] == PendingStep(requested[j])
    {
      if requested[i].name == "" { return Err(InvalidStepName); }
      if requested[i].grpcTarget == "" { return Err(InvalidStepGRPCTarget); }
      steps := steps + [PendingStep(requested[i])];
    }
    return Ok(steps);
  }

  class SagaService {
    const store: Memory

    constructor (store: Memory)
      ensures this.store == store
    {
      this.store := store;
    }

    /** `context` is None when the raw context does not parse. `derive` turns a key into an id, and `random` is
        the id used without a key, if there is randomness to be had. `alive` and `stillAlive` say whether the
        caller's context is alive for the creation and for the look at an existing saga. */
    method StartSaga(alive: bool, stillAlive: bool, workflow: string, key: string, context: Option<Json>,
                     requested: seq<StartStep>, derive: string -> string, random: Option<string>, now: Time)
      returns (r: Result<string, ServiceError>)
      requires store.Valid()
      modifies store
      ensures store.Valid()
      ensures r.Ok? ==> ValidRequest(workflow, requested) && context.Some? && r.value in store.sagas
      ensures r.Ok? && r.value in old(store.sagas) ==> key != ""
      ensures store.sagas == if r.Ok? && r.value !in old(store.sagas)
                             then old(store.sagas)[r.value := NewSaga(r.value, workflow, context.value, requested, now)]
                             else old(store.sagas)
      ensures r.Ok? && r.value !in old(store.sagas) ==>
        var saga := store.sagas[r.value];
        && saga.id == r.value && saga.workflow == workflow && saga.status == Created && saga.context == context.value
        && saga.createdAt == now && saga.updatedAt == now && |saga.steps| == |requested|
        && forall i :: 0 <= i < |requested| ==>
             saga.steps[i] == Step(requested[i].name, requested[i].grpcTarget, StepPending, 0, None, None, "")
      ensures workflow == "" ==> r == Err(InvalidWorkflow)
      ensures workflow != "" && context.None? ==> r == Err(InvalidContext)
      ensures workflow != "" && context.Some? && !ValidRequest(workflow, requested) ==>
        StepsError(requested).Some? && r == Err(StepsError(requested).value)
      ensures ValidRequest(workflow, requested) && context.Some? && key != "" ==>
        r == if alive && (derive(key) in old(store.sagas) ==> stillAlive) then Ok(derive(key))
             else Err(Other(ContextDone))
      ensures ValidRequest(workflow, requested) && context.Some? && key == "" ==>
        r == if random.None? then Err(NoRandomness)
             else if !alive then Err(Other(ContextDone))
             else if random.value in old(store.sagas) then Err(Other(AlreadyExists)) else Ok(random.value)
    {
      if workflow == "" { return Err(InvalidWorkflow); }
      if context.None? { return Err(InvalidContext); }
      var steps := ValidateStartSagaSteps(requested);
      if steps.Err? {
        ValidRequestHasNoError(workflow, requested, 0);
        return Err(steps.error);
      }
      if key == "" && random.None? { return Err(NoRandomness); }
      var id := if key != "" then derive(key) else random.value;
      var saga := Saga(id, workflow, Created, context.value, steps.value, now, now);
      assert saga == NewSaga(id, workflow, context.value, requested, now);
      var err := store.Create(alive, saga);
      if err.Some? {
        if key != "" && err == Some(AlreadyExists) {
          var existing := store.Get(stillAlive, id);
          if existing.Err? { return Err(MapStoreError(existing.error)); }
          return Ok(existing.value.id);
        }
        return Err(Other(err.value));
      }
      return Ok(id);
    }

    /** `lock` is the error of taking the saga lock, if any, `alive` whether the lock's context is alive when
        the update starts, and `renewFails` whether a renewal of the lock fails, before or after the update.
        The update is committed before the renewal error is looked at: an error goes with a changed store
        exactly when the renewal failed after an update that went through. */
    method CancelSaga(lock: Option<ServiceError>, alive: bool, renewFails: bool, id: string, now: Time)
      returns (r: Result<Saga, ServiceError>)
      requires store.Valid()
      modifies store
      ensures store.Valid()
      ensures lock.Some? ==> r == Err(lock.value)
      ensures var updates := lock.None? && alive && id in old(store.sagas) && Canceled(old(store.sagas)[id], now).Ok?;
        && store.sagas == (if updates
                           then old(store.sagas)[id := Canceled(old(store.sagas)[id], now).value.(updatedAt := now)]
                           else old(store.sagas))
        && (r.Ok? <==> updates && !renewFails)
        && (r.Ok? ==> r.value == store.sagas[id])
        && (lock.None? ==> (r == Err(RenewalFailed) <==> updates && renewFails))
      ensures lock.None? && !alive ==>
        r == Err(if renewFails then RenewalFailedWith(Other(ContextDone)) else Other(ContextDone))
      ensures lock.None? && alive && id !in old(store.sagas) ==> r == Err(SagaNotFound)
      ensures lock.None? && alive && id in old(store.sagas) && Canceled(old(store.sagas)[id], now).Err? ==>
        r == Err(if renewFails then RenewalFailedWith(SagaCancelNotAllowed) else SagaCancelNotAllowed)
    {
      if lock.Some? { return Err(lock.value); }
      var callback := (s: Saga) =>
        if Canceled(s, now).Ok? then Ok(Canceled(s, now).value) else Err(Callback("cancel not allowed"));
      var updated := store.Update(alive, id, callback, now);
      var fnErr := None;
      if updated.Err? {
        fnErr := Some(if updated.error.Callback? then SagaCancelNotAllowed else MapStoreError(updated.error));
      }
      var err := JoinLockErrors(fnErr, renewFails);
      if err.Some? { return Err(err.value); }
      return Ok(updated.value);
    }

    method ListSagas(alive: bool, filter: Filter, limit: int, offset: int)
      returns (r: Result<seq<Saga>, ServiceError>)
      requires store.Valid()
      ensures r.Err? <==> limit < 0 || offset < 0 || filter.Unparsable? || !alive
      ensures r.Err? ==> r.error == if limit < 0 || offset < 0 then InvalidPage
                                    else if filter.Unparsable? then InvalidStatusFilter
                                    else Other(ContextDone)
      ensures r.Ok? ==> IsPage(r.value, store.sagas, filter, limit, offset)
      ensures r.Ok? && filter.ByStatus? ==> forall x :: x in r.value ==> x.status == filter.status
      // a slice of the whole list, of 50 sagas unless a limit is given, and of 200 at most
      ensures r.Ok? ==>
        var size := if limit == 0 then 50 else if limit > 200 then 200 else limit;
        var status := if filter.ByStatus? then Some(filter.status) else None;
        exists xs :: WholeList(xs, store.sagas, status) && IsSlice(r.value, xs, size, offset)
    {
      if offset < 0 || limit < 0 { return Err(InvalidPage); }
      if filter.Unparsable? { return Err(InvalidStatusFilter); }
      var page := store.List(alive, Selected(filter), PageLimit(limit), offset);
      if page.Err? { return Err(Other(page.error)); }
      return Ok(page.value);
    }
  }

  lemma ValidRequestHasNoError(workflow: string, requested: seq<StartStep>, from: nat)
    requires from <= |requested|
    ensures ValidRequest(workflow, requested) ==> StepsErrorFrom(requested, from) == None
    decreases |requested| - from
  {
  }
}
