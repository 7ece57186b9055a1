/** Saga records (internal/domain/saga.go) and the status graph
    (internal/statemachine/statemachine.go). */
module Domain {

  datatype Option<+T> = None | Some(value: T)

  datatype Result<+T, +E> = Ok(value: T) | Err(error: E)

  /** Instants and durations, in nanoseconds. */
  type Time = int

  datatype SagaStatus = Created | Running | Completed | Canceling | Compensated | Failed

  datatype StepStatus =
    | StepPending | StepRunning | StepCompleted
    | StepCompensating | StepCompensated | StepFailed

  /** A saga context: a JSON tree whose scalars are left abstract. A Go nil map is its own case. */
  datatype Json =
    | Scalar(text: string)
    | Array(items: seq<Json>)
    | NilMap
    | Object(fields: map<string, Json>)

  datatype Step = Step(
    name: string,
    grpcTarget: string,
    status: StepStatus,
    attempt: nat,
    startedAt: Option<Time>,
    finishedAt: Option<Time>,
    error: string)

  datatype Saga = Saga(
    id: string,
    workflow: string,
    status: SagaStatus,
    context: Json,
    steps: seq<Step>,
    createdAt: Time,
    updatedAt: Time)

  predicate Keyed(sagas: map<string, Saga>) {
    forall id :: id in sagas ==> sagas[id].id == id
  }

  /** What a claim hands to a worker. The index is checked again by the worker, so it is an int. */
  datatype Claim = Claim(sagaId: string, stepIndex: int, name: string, attempt: nat)

  predicate CanTransition(from: SagaStatus, to: SagaStatus) {
    from == to ||
    match from
    case Created => to == Running || to == Canceling || to == Failed
    case Running => to == Completed || to == Canceling || to == Failed
    case Completed => to == Canceling
    case Canceling => to == Compensated || to == Failed
    case _ => false
  }

  predicate IsTerminal(status: SagaStatus) {
    status == Completed || status == Compensated || status == Failed
  }

  /** A walk along the edges of CanTransition. */
  predicate StatusPath(path: seq<SagaStatus>) {
    && |path| > 0
    && forall i, j :: 0 <= i < |path| && 0 <= j < |path| && j == i + 1 ==> CanTransition(path[i], path[j])
  }

  ghost predicate Reaches(from: SagaStatus, to: SagaStatus) {
    exists path :: StatusPath(path) && path[0] == from && path[|path| - 1] == to
  }

  lemma ReachesTransitive(a: SagaStatus, b: SagaStatus, c: SagaStatus)
    requires Reaches(a, b) && Reaches(b, c)
    ensures Reaches(a, c)
  {
    var p :| StatusPath(p) && p[0] == a && p[|p| - 1] == b;
    var q :| StatusPath(q) && q[0] == b && q[|q| - 1] == c;
    var r := p + q[1..];
    forall i, j | 0 <= i < |r| && 0 <= j < |r| && j == i + 1
      ensures CanTransition(r[i], r[j])
    {
      if j >= |p| { assert r[j] == q[j - |p| + 1] && r[i] == q[i - |p| + 1]; }
    }
    assert StatusPath(r) && r[0] == a && r[|r| - 1] == c;
  }

  lemma ReachesByTwoEdges(a: SagaStatus, b: SagaStatus, c: SagaStatus)
    requires CanTransition(a, b) && CanTransition(b, c)
    ensures Reaches(a, c)
  {
    var path := [a, b, c];
    assert StatusPath(path) && path[0] == a && path[|path| - 1] == c;
  }

  /** The whole graph: these nine edges, and staying. */
  lemma EdgesAre(from: SagaStatus, to: SagaStatus)
    ensures CanTransition(from, to) <==> from == to || (from, to) in {
      (Created, Running), (Created, Canceling), (Created, Failed),
      (Running, Completed), (Running, Canceling), (Running, Failed),
      (Completed, Canceling),
      (Canceling, Compensated), (Canceling, Failed)}
    ensures IsTerminal(to) <==> to in {Completed, Compensated, Failed}
  {
  }

  /** How far a saga is: nothing leads back, and nothing leads on from COMPENSATED and FAILED. */
  function Level(status: SagaStatus): nat {
    match status
    case Created => 0
    case Running => 1
    case Completed => 2
    case Canceling => 3
    case Compensated => 4
    case Failed => 4
  }

  /** Walks lead exactly from lower levels to higher ones. */
  lemma ReachesIff(from: SagaStatus, to: SagaStatus)
    ensures Reaches(from, to) <==> from == to || Level(from) < Level(to)
  {
    if Reaches(from, to) {
      var path :| StatusPath(path) && path[0] == from && path[|path| - 1] == to;
      for i := 0 to |path| - 1
        invariant path[i] == from || Level(from) < Level(path[i])
      {
        assert CanTransition(path[i], path[i + 1]);
      }
    }
    if from == to { ReachesByTwoEdges(from, from, to); }
    if Level(from) < Level(to) { ClimbReaches(from, to); }
  }

  lemma ClimbReaches(from: SagaStatus, to: SagaStatus)
    requires Level(from) < Level(to)
    ensures Reaches(from, to)
  {
    ReachesByTwoEdges(Created, Running, Completed);
    ReachesByTwoEdges(from, if from == Canceling then from else Canceling, if Level(to) == 4 then to else Canceling);
    if Level(to) < 3 { ReachesByTwoEdges(from, Running, to); }
  }

  /** COMPENSATED and FAILED have no way out, COMPLETED only through CANCELING. */
  lemma DeadEnds(from: SagaStatus, to: SagaStatus)
    requires Reaches(from, to)
    ensures from == Compensated || from == Failed ==> to == from
    ensures from == Canceling ==> to == Canceling || to == Compensated || to == Failed
    ensures from == Completed ==> to != Created && to != Running
  {
    var path :| StatusPath(path) && path[0] == from && path[|path| - 1] == to;
    for i := 0 to |path| - 1
      invariant from == Compensated || from == Failed ==> path[i] == from
      invariant from == Canceling ==> path[i] == Canceling || path[i] == Compensated || path[i] == Failed
      invariant from == Completed ==> path[i] != Created && path[i] != Running
    {
      assert CanTransition(path[i], path[i + 1]);
    }
  }
}
