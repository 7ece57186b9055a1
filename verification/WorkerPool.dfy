/** The worker pool as a system of interleaved steps: workers, submitters, a task channel and a results
    channel of the same capacity, and a shutdown (pkg/workerpool/workerpool.go). */
module WorkerPool {

  /** `leaving` workers have seen the done signal and only drain. */
  datatype Worker<T> =
    | Waiting
    | Busy(task: T, leaving: bool)
    | Draining
    | Exited

  /** `submitting` are the Submit calls that have passed their first check and not returned.
      The rest is history: the tasks whose Submit succeeded, those that workers took, those whose result was
      sent and those whose result was received, each in order, and in `quiet` whether no Submit was in progress
      when Shutdown closed done. */
  datatype Pool<T> = Pool(
    capacity: nat,
    tasks: seq<T>,
    results: seq<T>,
    workers: seq<Worker<T>>,
    submitting: multiset<T>,
    done: bool,
    closed: bool,
    accepted: seq<T>,
    taken: seq<T>,
    sent: seq<T>,
    received: seq<T>,
    quiet: bool)

  /** A result is identified by the task that it belongs to; a panic in the handler is a result too. */
  datatype Step<T> =
    | SubmitBegins(task: T)
    | SubmitAccepted(task: T)
    | SubmitRefused(task: T)
    | ShutdownBegins
    | Take(w: nat)
    | SeesDone(w: nat)
    | Emit(w: nat)
    | DrainEnds(w: nat)
    | CloseResults
    | Receive

  predicate AllExited<T>(workers: seq<Worker<T>>) {
    forall w :: 0 <= w < |workers| ==> workers[w].Exited?
  }

  predicate Enabled<T(==)>(p: Pool<T>, s: Step<T>) {
    match s
    case SubmitBegins(_) => !p.done
    // the second select of Submit may pick the send although done is closed
    case SubmitAccepted(task) => task in p.submitting && |p.tasks| < p.capacity
    case SubmitRefused(task) => task in p.submitting
    case ShutdownBegins => !p.done
    // the worker's select may pick a task although done is closed
    case Take(w) => w < |p.workers| && (p.workers[w].Waiting? || p.workers[w].Draining?) && p.tasks != []
    case SeesDone(w) => w < |p.workers| && p.workers[w].Waiting? && p.done
    case Emit(w) => w < |p.workers| && p.workers[w].Busy? && |p.results| < p.capacity
    case DrainEnds(w) => w < |p.workers| && p.workers[w].Draining? && p.tasks == []
    case CloseResults => p.done && !p.closed && AllExited(p.workers)
    case Receive => p.results != []
  }

  function Apply<T(==)>(p: Pool<T>, s: Step<T>): Pool<T>
    requires Enabled(p, s)
  {
    match s
    case SubmitBegins(task) => p.(submitting := p.submitting + multiset{task})
    case SubmitAccepted(task) =>
      p.(submitting := p.submitting - multiset{task}, tasks := p.tasks + [task],
         accepted := p.accepted + [task])
    case SubmitRefused(task) => p.(submitting := p.submitting - multiset{task})
    case ShutdownBegins => p.(done := true, quiet := p.submitting == multiset{})
    case Take(w) =>
      p.(tasks := p.tasks[1..], taken := p.taken + [p.tasks[0]],
         workers := p.workers[w := Busy(p.tasks[0], p.workers[w].Draining?)])
    case SeesDone(w) => p.(workers := p.workers[w := Draining])
    case Emit(w) =>
      p.(results := p.results + [p.workers[w].task], sent := p.sent + [p.workers[w].task],
         workers := p.workers[w := if p.workers[w].leaving then Draining else Waiting])
    case DrainEnds(w) => p.(workers := p.workers[w := Exited])
    case CloseResults => p.(closed := true)
    case Receive => p.(results := p.results[1..], received := p.received + [p.results[0]])
  }

  /** New(workers, handler): both channels have room for one item per worker. */
  function New<T>(workers: nat): Pool<T> {
    Pool(workers, [], [], seq(workers, _ => Waiting), multiset{}, false, false, [], [], [], [], false)
  }

  /** pools[k] -steps[k]-> pools[k + 1]. */
  predicate StepAt<T(==)>(pools: seq<Pool<T>>, steps: seq<Step<T>>, k: int) {
    && 0 <= k < |steps| < |pools|
    && Enabled(pools[k], steps[k]) && pools[k + 1] == Apply(pools[k], steps[k])
  }

  predicate IsPath<T(==)>(pools: seq<Pool<T>>, steps: seq<Step<T>>) {
    |pools| == |steps| + 1 && forall k :: 0 <= k < |steps| ==> StepAt(pools, steps, k)
  }

  predicate IsRun<T(==)>(pools: seq<Pool<T>>, steps: seq<Step<T>>) {
    IsPath(pools, steps) && pools[0] == New(|pools[0].workers|)
  }

  function Total<T>(workers: seq<Worker<T>>, weight: Worker<T> -> nat): nat {
    if workers == [] then 0 else weight(workers[0]) + Total(workers[1..], weight)
  }

  lemma {:induction false} TotalUpdate<T>(workers: seq<Worker<T>>, w: nat, worker: Worker<T>, weight: Worker<T> -> nat)
    requires w < |workers|
    ensures Total(workers[w := worker], weight) + weight(workers[w]) == Total(workers, weight) + weight(worker)
  {
    var after := workers[w := worker];
    if w == 0 {
      assert after[1..] == workers[1..];
    } else {
      assert after[1..] == workers[1..][w - 1 := worker];
      TotalUpdate(workers[1..], w - 1, worker, weight);
    }
  }

  lemma {:induction false} TotalOfNothing<T>(workers: seq<Worker<T>>, weight: Worker<T> -> nat)
    requires forall w :: 0 <= w < |workers| ==> weight(workers[w]) == 0
    ensures Total(workers, weight) == 0
  {
    if workers != [] { TotalOfNothing(workers[1..], weight); }
  }

  function Holds<T(==)>(worker: Worker<T>, task: T): nat {
    if worker.Busy? && worker.task == task then 1 else 0
  }

  /** In how many handlers a task is. */
  function InHandler<T(==)>(workers: seq<Worker<T>>, task: T): nat {
    Total(workers, (worker: Worker<T>) => Holds(worker, task))
  }

  /** How often a task was accepted, and how many results of it were sent. */
  function Accepted<T(==)>(p: Pool<T>, task: T): nat {
    multiset(p.accepted)[task]
  }

  function Emitted<T(==)>(p: Pool<T>, task: T): nat {
    multiset(p.results)[task] + multiset(p.received)[task]
  }

  lemma HandlerUpdate<T>(workers: seq<Worker<T>>, w: nat, worker: Worker<T>, task: T)
    requires w < |workers|
    ensures InHandler(workers[w := worker], task) + Holds(workers[w], task)
         == InHandler(workers, task) + Holds(worker, task)
  {
    TotalUpdate(workers, w, worker, (x: Worker<T>) => Holds(x, task));
  }

  lemma IdleHoldsNothing<T>(workers: seq<Worker<T>>, task: T)
    requires forall w :: 0 <= w < |workers| ==> !workers[w].Busy?
    ensures InHandler(workers, task) == 0
  {
    TotalOfNothing(workers, (x: Worker<T>) => Holds(x, task));
  }

  /** Nothing is lost and nothing is invented: how often a task was accepted. */
  predicate Balanced<T(==)>(p: Pool<T>, task: T) {
    Accepted(p, task) == multiset(p.tasks)[task] + InHandler(p.workers, task) + Emitted(p, task)
  }

  predicate LeavesInOrder<T>(p: Pool<T>) {
    && |p.tasks| <= p.capacity == |p.workers|
    && (forall w :: 0 <= w < |p.workers| ==>
          p.workers[w].Draining? || p.workers[w].Exited? || (p.workers[w].Busy? && p.workers[w].leaving) ==> p.done)
    && (p.closed ==> p.done && AllExited(p.workers))
    && (p.quiet ==> p.done && p.submitting == multiset{})
    && (p.quiet && (exists w :: 0 <= w < |p.workers| && p.workers[w].Exited?) ==> p.tasks == [])
  }

  function Is<T(==)>(x: T, task: T): nat {
    if x == task then 1 else 0
  }

  lemma CountFirst<T>(items: seq<T>, task: T)
    requires items != []
    ensures multiset(items)[task] == Is(items[0], task) + multiset(items[1..])[task]
  {
    assert items == [items[0]] + items[1..];
  }

  lemma CountLast<T>(items: seq<T>, x: T, task: T)
    ensures multiset(items + [x])[task] == multiset(items)[task] + Is(x, task)
  {
  }

  lemma TakeBalances<T>(p: Pool<T>, w: nat, task: T)
    requires Balanced(p, task) && Enabled(p, Take(w))
    ensures Balanced(Apply(p, Take(w)), task)
  {
    CountFirst(p.tasks, task);
    HandlerUpdate(p.workers, w, Busy(p.tasks[0], p.workers[w].Draining?), task);
  }

  lemma EmitBalances<T>(p: Pool<T>, w: nat, task: T)
    requires Balanced(p, task) && Enabled(p, Emit(w))
    ensures Balanced(Apply(p, Emit(w)), task)
  {
    CountLast(p.results, p.workers[w].task, task);
    HandlerUpdate(p.workers, w, if p.workers[w].leaving then Draining else Waiting, task);
  }

  lemma AcceptBalances<T>(p: Pool<T>, x: T, task: T)
    requires Balanced(p, task) && Enabled(p, SubmitAccepted(x))
    ensures Balanced(Apply(p, SubmitAccepted(x)), task)
  {
    CountLast(p.tasks, x, task);
    CountLast(p.accepted, x, task);
  }

  lemma ReceiveBalances<T>(p: Pool<T>, task: T)
    requires Balanced(p, task) && Enabled(p, Receive)
    ensures Balanced(Apply(p, Receive), task)
  {
    CountFirst(p.results, task);
    CountLast(p.received, p.results[0], task);
  }

  lemma LeavingBalances<T>(p: Pool<T>, s: Step<T>, task: T)
    requires Balanced(p, task) && Enabled(p, s) && (s.SeesDone? || s.DrainEnds?)
    ensures Balanced(Apply(p, s), task)
  {
    HandlerUpdate(p.workers, s.w, if s.SeesDone? then Draining else Exited, task);
  }

  /** Nothing is lost and nothing is invented by a step. */
  lemma StepBalances<T>(p: Pool<T>, s: Step<T>, task: T)
    requires Balanced(p, task) && Enabled(p, s)
    ensures Balanced(Apply(p, s), task)
  {
    match s
    case SubmitAccepted(x) => AcceptBalances(p, x, task);
    case Take(w) => TakeBalances(p, w, task);
    case SeesDone(w) => LeavingBalances(p, s, task);
    case Emit(w) => EmitBalances(p, w, task);
    case DrainEnds(w) => LeavingBalances(p, s, task);
    case Receive => ReceiveBalances(p, task);
    case _ =>
  }

  lemma StepKeepsOrder<T>(p: Pool<T>, s: Step<T>)
    requires LeavesInOrder(p) && Enabled(p, s)
    ensures LeavesInOrder(Apply(p, s))
  {
  }

  lemma {:induction false} RunLeavesInOrder<T>(pools: seq<Pool<T>>, steps: seq<Step<T>>, k: nat)
    requires IsRun(pools, steps) && k < |pools|
    ensures LeavesInOrder(pools[k])
  {
    if k > 0 {
      RunLeavesInOrder(pools, steps, k - 1);
      assert StepAt(pools, steps, k - 1);
      StepKeepsOrder(pools[k - 1], steps[k - 1]);
    }
  }

  /** Conservation: in every interleaving, and for every task, the number of times it was accepted is the
      number of copies in the queue, in handlers and among the results sent. */
  lemma {:induction false} Conservation<T>(pools: seq<Pool<T>>, steps: seq<Step<T>>, k: nat, task: T)
    requires IsRun(pools, steps) && k < |pools|
    ensures Balanced(pools[k], task)
  {
    if k == 0 {
      IdleHoldsNothing(pools[0].workers, task);
    } else {
      Conservation(pools, steps, k - 1, task);
      assert StepAt(pools, steps, k - 1);
      StepBalances(pools[k - 1], steps[k - 1], task);
    }
  }

  /** Both channels are first in, first out. */
  predicate ChannelsInOrder<T(==)>(p: Pool<T>) {
    p.accepted == p.taken + p.tasks && p.sent == p.received + p.results
  }

  lemma StepKeepsChannels<T>(p: Pool<T>, s: Step<T>)
    requires ChannelsInOrder(p) && Enabled(p, s)
    ensures ChannelsInOrder(Apply(p, s))
  {
    if s.Take? { assert p.tasks == [p.tasks[0]] + p.tasks[1..]; }
    if s.Receive? { assert p.results == [p.results[0]] + p.results[1..]; }
  }

  /** In every interleaving tasks are taken in the order in which they were accepted, and results are received
      in the order in which they were sent. */
  lemma {:induction false} FirstInFirstOut<T>(pools: seq<Pool<T>>, steps: seq<Step<T>>, k: nat)
    requires IsRun(pools, steps) && k < |pools|
    ensures ChannelsInOrder(pools[k]) && pools[k].taken <= pools[k].accepted && pools[k].received <= pools[k].sent
  {
    if k > 0 {
      FirstInFirstOut(pools, steps, k - 1);
      assert StepAt(pools, steps, k - 1);
      StepKeepsChannels(pools[k - 1], steps[k - 1]);
    }
  }

  /** Once the results channel is closed nothing is taken and nothing is sent any more. */
  lemma {:induction false} NothingAfterClose<T>(pools: seq<Pool<T>>, steps: seq<Step<T>>, j: nat, k: nat)
    requires IsRun(pools, steps) && j <= k < |steps| && pools[j].closed
    ensures pools[k].closed && !steps[k].Emit? && !steps[k].Take? && !steps[k].CloseResults?
  {
    if j < k {
      NothingAfterClose(pools, steps, j, k - 1);
      assert StepAt(pools, steps, k - 1);
    }
    RunLeavesInOrder(pools, steps, k);
    assert StepAt(pools, steps, k);
  }

  /** After the close a task was accepted as often as it is queued or answered. If no Submit was in progress
      when Shutdown started, the queue is empty and every accepted task has had exactly one result. */
  lemma EveryAcceptedTaskAnswered<T>(pools: seq<Pool<T>>, steps: seq<Step<T>>, k: nat, task: T)
    requires IsRun(pools, steps) && k < |pools| && pools[k].closed
    ensures Accepted(pools[k], task) == multiset(pools[k].tasks)[task] + Emitted(pools[k], task)
    ensures pools[k].quiet ==> pools[k].tasks == [] && Accepted(pools[k], task) == Emitted(pools[k], task)
  {
    RunLeavesInOrder(pools, steps, k);
    Conservation(pools, steps, k, task);
    IdleHoldsNothing(pools[k].workers, task);
    if pools[k].quiet && |pools[k].workers| > 0 { assert pools[k].workers[0].Exited?; }
  }

  // ----- a Submit that is in progress when Shutdown starts -----

  ghost predicate Reachable<T(!new)>(p: Pool<T>) {
    exists pools: seq<Pool<T>>, steps: seq<Step<T>> :: IsRun(pools, steps) && pools[|steps|] == p
  }

  /** Some interleaving goes on from `p` to `q`. */
  ghost predicate Leads<T(!new)>(p: Pool<T>, q: Pool<T>) {
    exists pools: seq<Pool<T>>, steps: seq<Step<T>> :: IsPath(pools, steps) && pools[0] == p && pools[|steps|] == q
  }

  lemma PathGrows<T>(pools: seq<Pool<T>>, steps: seq<Step<T>>, s: Step<T>)
    requires IsPath(pools, steps) && Enabled(pools[|steps|], s)
    ensures IsPath(pools + [Apply(pools[|steps|], s)], steps + [s])
  {
    var pools', steps' := pools + [Apply(pools[|steps|], s)], steps + [s];
    forall k | 0 <= k < |steps'|
      ensures StepAt(pools', steps', k)
    {
      if k < |steps| { assert StepAt(pools, steps, k); }
    }
  }

  lemma LeadsNowhere<T(!new)>(p: Pool<T>)
    ensures Leads(p, p)
  {
    var none: seq<Step<T>> := [];
    assert IsPath([p], none) && [p][0] == p && [p][|none|] == p;
  }

  lemma LeadsOn<T(!new)>(p: Pool<T>, q: Pool<T>, s: Step<T>)
    requires Leads(p, q) && Enabled(q, s)
    ensures Leads(p, Apply(q, s))
  {
    var pools: seq<Pool<T>>, steps: seq<Step<T>> :| IsPath(pools, steps) && pools[0] == p && pools[|steps|] == q;
    PathGrows(pools, steps, s);
    var pools', steps' := pools + [Apply(q, s)], steps + [s];
    assert IsPath(pools', steps') && pools'[0] == p && pools'[|steps'|] == Apply(q, s);
  }

  lemma StepReachable<T(!new)>(p: Pool<T>, s: Step<T>)
    requires Reachable(p) && Enabled(p, s)
    ensures Reachable(Apply(p, s))
  {
    var pools: seq<Pool<T>>, steps: seq<Step<T>> :| IsRun(pools, steps) && pools[|steps|] == p;
    PathGrows(pools, steps, s);
    var pools', steps' := pools + [Apply(p, s)], steps + [s];
    assert IsRun(pools', steps') && pools'[|steps'|] == Apply(p, s);
  }

  /** Along a path from a reachable pool that is shutting down. */
  lemma {:induction false} PathKeeps<T(!new)>(pools: seq<Pool<T>>, steps: seq<Step<T>>, k: nat)
    requires IsPath(pools, steps) && k < |pools| && Reachable(pools[0]) && pools[0].done
    ensures Reachable(pools[k]) && pools[k].done && pools[k].quiet == pools[0].quiet
    ensures |pools[k].workers| == |pools[0].workers|
  {
    if k > 0 {
      PathKeeps(pools, steps, k - 1);
      assert StepAt(pools, steps, k - 1);
      StepReachable(pools[k - 1], steps[k - 1]);
    }
  }

  /** The results are closed, and a task was accepted more often than it was answered. */
  ghost predicate LosesTask<T(!new)>(p: Pool<T>) {
    p.closed && exists task :: Accepted(p, task) > Emitted(p, task)
  }

  ghost predicate CanLose<T(!new)>(p: Pool<T>) {
    exists q :: Leads(p, q) && LosesTask(q)
  }

  lemma ReachableLeavesInOrder<T(!new)>(p: Pool<T>)
    requires Reachable(p)
    ensures LeavesInOrder(p)
  {
    var pools: seq<Pool<T>>, steps: seq<Step<T>> :| IsRun(pools, steps) && pools[|steps|] == p;
    RunLeavesInOrder(pools, steps, |steps|);
  }

  lemma ReachableAnswered<T(!new)>(p: Pool<T>, task: T)
    requires Reachable(p) && p.closed
    ensures Accepted(p, task) == multiset(p.tasks)[task] + Emitted(p, task)
    ensures p.quiet ==> p.tasks == []
  {
    var pools: seq<Pool<T>>, steps: seq<Step<T>> :| IsRun(pools, steps) && pools[|steps|] == p;
    EveryAcceptedTaskAnswered(pools, steps, |steps|, task);
  }

  /** Every worker is on its way out, and nothing is left when the first has gone. */
  predicate ShuttingDown<T>(p: Pool<T>) {
    && p.done && !p.closed && 0 < |p.workers| == p.capacity
    && ((exists w :: 0 <= w < |p.workers| && p.workers[w].Exited?) ==> p.tasks == [])
  }

  function Weight<T>(worker: Worker<T>): nat {
    match worker
    case Waiting => 2
    case Busy(_, _) => 4
    case Draining => 1
    case Exited => 0
  }

  /** What the workers still have to do before all of them are gone. */
  function Left<T>(p: Pool<T>): nat {
    4 * |p.tasks| + |p.results| + Total(p.workers, (worker: Worker<T>) => Weight(worker))
  }

  /** A step of the shutdown that gets the pool closer to its end and accepts nothing. */
  predicate Winds<T>(p: Pool<T>, q: Pool<T>) {
    ShuttingDown(q) && q.submitting == p.submitting && Left(q) < Left(p)
  }

  lemma WorkerWinds<T(!new)>(p: Pool<T>, w: nat) returns (s: Step<T>)
    requires ShuttingDown(p) && w < |p.workers| && !p.workers[w].Exited?
    ensures Enabled(p, s) && Winds(p, Apply(p, s))
  {
    var worker := p.workers[w];
    if worker.Waiting? {
      s := SeesDone(w);
      TotalUpdate(p.workers, w, Draining, (x: Worker<T>) => Weight(x));
    } else if worker.Busy? {
      s := if |p.results| < p.capacity then Emit(w) else Receive;
      TotalUpdate(p.workers, w, if worker.leaving then Draining else Waiting, (x: Worker<T>) => Weight(x));
    } else if p.tasks == [] {
      s := DrainEnds(w);
      TotalUpdate(p.workers, w, Exited, (x: Worker<T>) => Weight(x));
    } else {
      s := Take(w);
      TotalUpdate(p.workers, w, Busy(p.tasks[0], true), (x: Worker<T>) => Weight(x));
    }
  }

  /** The workers can always go home without a further Submit getting in. */
  lemma {:induction false} WorkersLeave<T(!new)>(p: Pool<T>, q: Pool<T>) returns (r: Pool<T>)
    requires Leads(p, q) && ShuttingDown(q)
    ensures Leads(p, r) && ShuttingDown(r) && AllExited(r.workers) && r.submitting == q.submitting
    decreases Left(q)
  {
    if AllExited(q.workers) {
      r := q;
    } else {
      var w: nat :| w < |q.workers| && !q.workers[w].Exited?;
      var s := WorkerWinds(q, w);
      LeadsOn(p, q, s);
      r := WorkersLeave(p, Apply(q, s));
    }
  }

  /** Then a Submit that is still in progress puts its task where nobody takes it. */
  lemma SubmitComesTooLate<T(!new)>(p: Pool<T>, task: T) returns (q: Pool<T>)
    requires Reachable(p) && ShuttingDown(p) && task in p.submitting
    ensures Leads(p, q) && q.closed && Accepted(q, task) > Emitted(q, task)
  {
    LeadsNowhere(p);
    var r := WorkersLeave(p, p);
    assert r.workers[0].Exited?;
    LeadsOn(p, r, SubmitAccepted(task));
    var r' := Apply(r, SubmitAccepted(task));
    LeadsOn(p, r', CloseResults);
    q := Apply(r', CloseResults);
    LedIsAnswered(p, q, task);
    assert q.tasks == [task];
  }

  lemma LedIsAnswered<T(!new)>(p: Pool<T>, q: Pool<T>, task: T)
    requires Reachable(p) && p.done && Leads(p, q)
    ensures q.quiet == p.quiet && |q.workers| == |p.workers| && LeavesInOrder(q)
    ensures q.closed ==> Accepted(q, task) == multiset(q.tasks)[task] + Emitted(q, task)
    ensures q.closed && q.quiet ==> q.tasks == []
  {
    var pools: seq<Pool<T>>, steps: seq<Step<T>> :| IsPath(pools, steps) && pools[0] == p && pools[|steps|] == q;
    PathKeeps(pools, steps, |steps|);
    ReachableLeavesInOrder(q);
    if q.closed { ReachableAnswered(q, task); }
  }

  /** The exact condition: a Shutdown may leave an accepted task without a result if and only if a Submit
      was in progress when it started (and the pool has a worker, without which nothing is ever accepted). */
  lemma LostIffSubmitInProgress<T(!new)>(p: Pool<T>)
    requires Reachable(p) && !p.done
    ensures CanLose(Apply(p, ShutdownBegins)) <==> p.submitting != multiset{} && |p.workers| > 0
  {
    var p' := Apply(p, ShutdownBegins);
    ReachableLeavesInOrder(p);
    StepReachable(p, ShutdownBegins);
    if p.submitting != multiset{} && |p.workers| > 0 {
      var task :| task in p.submitting;
      var q := SubmitComesTooLate(p', task);
      assert LosesTask(q);
    } else {
      forall q | Leads(p', q)
        ensures !LosesTask(q)
      {
        NothingLost(p', q);
      }
    }
  }

  lemma NothingLost<T(!new)>(p: Pool<T>, q: Pool<T>)
    requires Reachable(p) && p.done && Leads(p, q) && (p.quiet || |p.workers| == 0)
    ensures !LosesTask(q)
  {
    forall task
      ensures q.closed ==> Accepted(q, task) == Emitted(q, task)
    {
      LedIsAnswered(p, q, task);
    }
  }
}
