/**
 * The worker pool manager: it owns the workers and the Redis queue, hands
 * queued tasks to idle workers, and applies the retry policy when a task
 * fails. The asynchronous event handlers run here as sequential steps after
 * the worker returns, and the `setTimeout` that requeues a retried task is a
 * pending entry in `retries` that `FireRetry` later drains.
 */
module WorkerManagerModel {
  import opened Tasks
  import opened WorkerModel
  import opened RedisQueueModel
  import Text

  /** The retry ceiling of `handleTaskFailure`. */
  const MaxRetries: nat := 3

  /** What `handleTaskFailure` decides for a failed task. */
  datatype Decision = Retry(retryCount: nat, delayMs: nat) | GiveUp(retryCount: nat)

  /** A requeue waiting for its timer: the task and the delay it was given. */
  datatype PendingRetry = PendingRetry(task: Task, delayMs: nat)

  datatype WorkerStats = WorkerStats(total: nat, active: nat, idle: nat, totalCompleted: nat, totalFailed: nat)

  datatype ManagerStats = ManagerStats(queue: QueueStats, workers: WorkerStats, isRunning: bool)

  /** The decision for a task whose retry count was `retryCount` when it
      failed: the count goes up by one, and the task is retried after
      `2^count` seconds while the new count is below the ceiling. */
  function RetryDecision(retryCount: nat): (d: Decision)
    ensures d.retryCount == retryCount + 1
    ensures d.Retry? <==> retryCount + 1 < MaxRetries
  {
    var count := retryCount + 1;
    if count < MaxRetries then Retry(count, Pow2(count) * 1000) else GiveUp(count)
  }

  /** The first failure waits 2000 ms, the second 4000 ms, and the third
      gives up: a task is retried at most twice. */
  lemma RetrySchedule(retryCount: nat)
    ensures retryCount == 0 ==> RetryDecision(retryCount) == Retry(1, 2000)
    ensures retryCount == 1 ==> RetryDecision(retryCount) == Retry(2, 4000)
    ensures retryCount >= 2 ==> RetryDecision(retryCount) == GiveUp(retryCount + 1)
  {
  }

  /** Each later retry waits strictly longer than an earlier one. */
  lemma {:induction false} BackoffStrictlyIncreasing(a: nat, b: nat)
    requires a < b
    requires RetryDecision(a).Retry? && RetryDecision(b).Retry?
    ensures RetryDecision(a).delayMs < RetryDecision(b).delayMs
  {
    Pow2StrictlyIncreasing(a + 1, b + 1);
  }

  /** The clean-up `assignNextTask` applies after a failure whose message
      mentions "Invalid task": the task's processing entry is released under
      its id, or under 'invalid' when the id is falsy. */
  function InvalidTaskCleanup(processing: map<int, Task>, task: Task, r: Outcome): map<int, Task> {
    if r.Failure? && Text.Contains(r.error, "Invalid task") then
      Release(processing, if task.id != 0 then ById(task.id) else InvalidRef)
    else
      processing
  }

  /** No outcome a worker produces triggers the invalid-task clean-up. */
  lemma WorkerOutcomesAreNeverInvalid(processing: map<int, Task>, task: Task, workerId: nat, firstLowDraw: Option<nat>)
    ensures InvalidTaskCleanup(processing, task, Run(task, workerId, firstLowDraw)) == processing
  {
    FaultMessageIsNotInvalidTask();
  }

  /** Every failure a worker reports leads to a retry after 2000 ms with
      retry count 1: the fault fires only for a task never retried, so the
      permanent-failure branch is never taken for a worker's failure. */
  lemma WorkerFailureIsRetriedOnce(task: Task, workerId: nat, firstLowDraw: Option<nat>)
    requires Run(task, workerId, firstLowDraw).Failure?
    ensures RetryDecision(Run(task, workerId, firstLowDraw).task.retryCount) == Retry(1, 2000)
  {
    RunOutcome(task, workerId, firstLowDraw);
  }

  /** The random draw given to the `i`-th worker of a round. */
  function DrawFor(draws: seq<Option<nat>>, i: nat): Option<nat> {
    if i < |draws| then draws[i] else None
  }

  /** `workers.filter(w => !w.isProcessing)`. */
  function IdleWorkers(ws: seq<Worker>): (r: seq<Worker>)
    reads ws
    ensures forall w :: w in r ==> w in ws && !w.isProcessing
    ensures forall w :: w in ws && !w.isProcessing ==> w in r
    ensures |r| <= |ws|
  {
    if ws == [] then []
    else IdleWorkers(ws[..|ws| - 1]) + (if ws[|ws| - 1].isProcessing then [] else [ws[|ws| - 1]])
  }

  /** `workers.filter(w => w.isProcessing)`. */
  function ActiveWorkers(ws: seq<Worker>): (r: seq<Worker>)
    reads ws
    ensures forall w :: w in r ==> w in ws && w.isProcessing
    ensures forall w :: w in ws && w.isProcessing ==> w in r
  {
    if ws == [] then []
    else ActiveWorkers(ws[..|ws| - 1]) + (if ws[|ws| - 1].isProcessing then [ws[|ws| - 1]] else [])
  }

  /** Active and idle workers together are all the workers. */
  lemma {:induction false} ActivePlusIdle(ws: seq<Worker>)
    ensures |ActiveWorkers(ws)| + |IdleWorkers(ws)| == |ws|
  {
    if ws != [] {
      ActivePlusIdle(ws[..|ws| - 1]);
    }
  }

  /** Filtering workers that are all idle keeps them all. */
  lemma {:induction false} IdleWorkersOfIdle(ws: seq<Worker>)
    requires forall w :: w in ws ==> !w.isProcessing
    ensures IdleWorkers(ws) == ws
  {
    if ws != [] {
      IdleWorkersOfIdle(ws[..|ws| - 1]);
      assert ws[..|ws| - 1] + [ws[|ws| - 1]] == ws;
    }
  }

  /** Whether each worker is busy, as a value that later changes to the
      workers do not affect. */
  function BusyFlags(ws: seq<Worker>): (busy: seq<bool>)
    reads ws
    ensures |busy| == |ws| && forall k :: 0 <= k < |ws| ==> busy[k] == ws[k].isProcessing
  {
    seq(|ws|, k requires 0 <= k < |ws| reads ws => ws[k].isProcessing)
  }

  /** The number of idle entries among the flags. */
  function IdleCount(busy: seq<bool>): nat {
    if busy == [] then 0 else IdleCount(busy[..|busy| - 1]) + (if busy[|busy| - 1] then 0 else 1)
  }

  /** One more flag adds one to the count exactly when it is idle. */
  lemma IdleCountStep(busy: seq<bool>, i: nat)
    requires i < |busy|
    ensures IdleCount(busy[..i + 1]) == IdleCount(busy[..i]) + (if busy[i] then 0 else 1)
  {
    assert busy[..i + 1][..i] == busy[..i];
  }

  /** `filter` keeps as many workers as the flags count idle. */
  lemma {:induction false} IdleCountOfFlags(ws: seq<Worker>)
    ensures |IdleWorkers(ws)| == IdleCount(BusyFlags(ws))
  {
    if ws != [] {
      IdleCountOfFlags(ws[..|ws| - 1]);
      assert BusyFlags(ws)[..|ws| - 1] == BusyFlags(ws[..|ws| - 1]);
    }
  }

  /** `workers.reduce((sum, w) => sum + w.tasksCompleted, 0)`. */
  function SumCompleted(ws: seq<Worker>): nat
    reads ws
  {
    if ws == [] then 0 else SumCompleted(ws[..|ws| - 1]) + ws[|ws| - 1].tasksCompleted
  }

  /** `workers.reduce((sum, w) => sum + w.tasksFailed, 0)`. */
  function SumFailed(ws: seq<Worker>): nat
    reads ws
  {
    if ws == [] then 0 else SumFailed(ws[..|ws| - 1]) + ws[|ws| - 1].tasksFailed
  }

  function Min(a: nat, b: nat): nat {
    if a <= b then a else b
  }

  /** A round of offers has so far taken `taken` from the sorted set `q0`,
      leaving `q`: each task at most once, by non-increasing score, each
      scoring at least as high as every task left, the rest untouched. */
  ghost predicate QueueTaken(q0: map<Task, int>, q: map<Task, int>, taken: seq<Task>) {
    && (forall i, j :: 0 <= i < j < |taken| ==> taken[i] != taken[j])
    && (forall i :: 0 <= i < |taken| ==> taken[i] in q0)
    && (forall i, j :: 0 <= i < j < |taken| ==> q0[taken[j]] <= q0[taken[i]])
    && (forall x :: x in q <==> x in q0 && x !in taken)
    && (forall x :: x in q ==> q[x] == q0[x])
    && (forall i, x :: 0 <= i < |taken| && x in q ==> q0[x] <= q0[taken[i]])
    && |q| == |q0| - |taken|
  }

  /** The pending retries after a round that has taken `taken`: the earlier
      ones are kept in order, and each new one requeues a taken task after
      2000 ms with retry count 1, at most one per taken task. */
  ghost predicate RetriesAdded(r0: seq<PendingRetry>, r: seq<PendingRetry>, taken: seq<Task>) {
    && |r0| <= |r| <= |r0| + |taken|
    && r[..|r0|] == r0
    && forall k :: |r0| <= k < |r| ==>
         && r[k].delayMs == 2000 && r[k].task.retryCount == 1
         && exists d :: d in taken && r[k].task.id == d.id
  }

  /** The processing hash after a round that has taken `taken`: an entry
      under an id no taken task carries is kept as it was, and every entry is
      either kept or a taken task under its own id. */
  ghost predicate ProcessingTouched(p0: map<int, Task>, p: map<int, Task>, taken: seq<Task>) {
    && (forall id :: id in p0 && (forall d :: d in taken ==> d.id != id) ==> id in p && p[id] == p0[id])
    && (forall id :: id in p ==> (id in p0 && p[id] == p0[id]) || (p[id] in taken && p[id].id == id))
  }

  /** The sorted set, processing hash and pending retries after a round of
      offers that has handed out `taken`, against the state before it. */
  ghost predicate RoundSoFar(
    q0: map<Task, int>, p0: map<int, Task>, r0: seq<PendingRetry>,
    q: map<Task, int>, p: map<int, Task>, r: seq<PendingRetry>, taken: seq<Task>)
  {
    QueueTaken(q0, q, taken) && RetriesAdded(r0, r, taken) && ProcessingTouched(p0, p, taken)
  }

  /** Before any offer, nothing has been taken. */
  lemma RoundStart(q0: map<Task, int>, p0: map<int, Task>, r0: seq<PendingRetry>)
    ensures RoundSoFar(q0, p0, r0, q0, p0, r0, [])
  {
  }

  /** Taking a highest-scored task keeps the sorted set a round's remainder. */
  lemma QueueTakenStep(q0: map<Task, int>, q: map<Task, int>, taken: seq<Task>, d: Task, q': map<Task, int>)
    requires QueueTaken(q0, q, taken)
    requires IsTop(q, d) && q' == q - {d} && |q'| == |q| - 1
    ensures QueueTaken(q0, q', taken + [d])
  {
    var t' := taken + [d];
    assert d in q0 && d !in taken && q[d] == q0[d];
    forall i, j | 0 <= i < j < |t'|
      ensures t'[i] != t'[j] && q0[t'[j]] <= q0[t'[i]]
    {
      assert t'[i] == taken[i];
      if j < |taken| {
        assert t'[j] == taken[j];
      }
    }
    forall i, x | 0 <= i < |t'| && x in q'
      ensures q0[x] <= q0[t'[i]]
    {
      assert q[x] <= q[d];
      if i < |taken| {
        assert t'[i] == taken[i];
      }
    }
  }

  /** A round step adds either no retry or one for the task it took. */
  lemma RetriesAddedStep(r0: seq<PendingRetry>, r: seq<PendingRetry>, taken: seq<Task>, d: Task, r': seq<PendingRetry>)
    requires RetriesAdded(r0, r, taken)
    requires r' == r || exists t :: r' == r + [PendingRetry(t, 2000)] && t.retryCount == 1 && t.id == d.id
    ensures RetriesAdded(r0, r', taken + [d])
  {
    forall k | |r0| <= k < |r'|
      ensures exists e :: e in taken + [d] && r'[k].task.id == e.id
    {
      if k < |r| {
        assert r'[k] == r[k];
        var e :| e in taken && r[k].task.id == e.id;
        assert e in taken + [d];
      } else {
        assert r'[k].task.id == d.id && d in taken + [d];
      }
    }
  }

  /** A round step records its task under its id, and may then release that
      id; no other entry changes. */
  lemma ProcessingTouchedStep(p0: map<int, Task>, p: map<int, Task>, taken: seq<Task>, d: Task, p': map<int, Task>)
    requires ProcessingTouched(p0, p, taken)
    requires p' == p[d.id := d] || p' == Release(p[d.id := d], ById(d.id))
    ensures ProcessingTouched(p0, p', taken + [d])
  {
    var t' := taken + [d];
    assert forall e :: e in t' <==> e in taken || e == d;
    forall id | id in p'
      ensures (id in p0 && p'[id] == p0[id]) || (p'[id] in t' && p'[id].id == id)
    {
      if id != d.id {
        assert id in p && p'[id] == p[id];
      }
    }
  }

  /** The processing hash is keyed by id: a task dispatched under an id that
      already has an entry overwrites it, and its successful run then deletes
      it, so a round can leave fewer entries than it found. */
  lemma SuccessDropsCollidingEntry(p: map<int, Task>, d: Task)
    requires d.id != 0 && d.id in p
    ensures d.id !in Release(p[d.id := d], ById(d.id))
    ensures |Release(p[d.id := d], ById(d.id))| == |p| - 1
  {
    assert p[d.id := d].Keys == p.Keys;
    assert Release(p[d.id := d], ById(d.id)).Keys == p.Keys - {d.id};
  }

  /** The count of a round: after offering to `idle` idle workers, as many
      tasks are taken as there are idle workers or tasks, whichever is fewer;
      one more offer takes a task exactly when its worker is idle and tasks
      are left. In `OfferEach`, `total` is the queue's size when the round
      began, `idle` is `IdleCount(busy[..i])`, `taken` and `left` are the
      numbers of tasks handed out and still queued before offer `i`. */
  lemma CountStep(total: nat, idle: nat, taken: nat, left: nat, wasIdle: bool, handed: bool)
    requires taken == Min(total, idle) && left == total - taken
    requires handed <==> wasIdle && left > 0
    ensures taken + (if handed then 1 else 0) == Min(total, idle + (if wasIdle then 1 else 0))
  {
  }

  /** One offer that hands out `d` (run by worker `workerId` with draw
      `draw`) extends the round by `d`, whatever the run's outcome. */
  lemma OfferStep(
    q0: map<Task, int>, p0: map<int, Task>, r0: seq<PendingRetry>,
    q: map<Task, int>, p: map<int, Task>, r: seq<PendingRetry>, taken: seq<Task>,
    d: Task, workerId: nat, draw: Option<nat>,
    q': map<Task, int>, p': map<int, Task>, r': seq<PendingRetry>)
    requires RoundSoFar(q0, p0, r0, q, p, r, taken)
    requires IsTop(q, d) && q' == q - {d} && |q'| == |q| - 1
    requires var o := Run(d, workerId, draw);
      var decision := RetryDecision(o.task.retryCount);
      && (o.Success? ==> r' == r && p' == Release(p[d.id := d], ById(d.id)))
      && (o.Failure? && decision.Retry? ==>
            && r' == r + [PendingRetry(o.task.(retryCount := decision.retryCount), decision.delayMs)]
            && p' == InvalidTaskCleanup(p[d.id := d], d, o))
      && (o.Failure? && decision.GiveUp? ==>
            && r' == r
            && p' == InvalidTaskCleanup(Release(p[d.id := d], ById(d.id)), d, o))
    ensures RoundSoFar(q0, p0, r0, q', p', r', taken + [d])
  {
    var o := Run(d, workerId, draw);
    RunOutcome(d, workerId, draw);
    WorkerOutcomesAreNeverInvalid(p[d.id := d], d, workerId, draw);
    QueueTakenStep(q0, q, taken, d, q');
    if o.Failure? {
      WorkerFailureIsRetriedOnce(d, workerId, draw);
      var t := o.task.(retryCount := 1);
      assert r' == r + [PendingRetry(t, 2000)];
      RetriesAddedStep(r0, r, taken, d, r');
      ProcessingTouchedStep(p0, p, taken, d, p');
    } else {
      RetriesAddedStep(r0, r, taken, d, r');
      ProcessingTouchedStep(p0, p, taken, d, p');
    }
  }

  class WorkerManager {
    var workers: seq<Worker>
    const workerCount: nat
    var isRunning: bool
    const queue: RedisQueue
    /** Retries whose requeue timer has not fired yet. */
    var retries: seq<PendingRetry>

    /** A stopped pool with no workers yet, three by default. */
    constructor (queue: RedisQueue, workerCount: nat := 3)
      ensures this.queue == queue && this.workerCount == workerCount
      ensures workers == [] && !isRunning && retries == []
    {
      workers := [];
      this.workerCount := workerCount;
      isRunning := false;
      this.queue := queue;
      retries := [];
    }

    /** Appends `workerCount` new idle workers with ids 1..workerCount. */
    method Initialize()
      modifies this`workers
      ensures |workers| == |old(workers)| + workerCount
      ensures workers[..|old(workers)|] == old(workers)
      ensures forall k :: |old(workers)| <= k < |workers| ==>
        && fresh(workers[k])
        && workers[k].id == k - |old(workers)| + 1
        && !workers[k].isProcessing && workers[k].currentTask == None
        && workers[k].tasksCompleted == 0 && workers[k].tasksFailed == 0
    {
      var i := 1;
      while i <= workerCount
        invariant 1 <= i <= workerCount + 1
        invariant |workers| == |old(workers)| + i - 1
        invariant workers[..|old(workers)|] == old(workers)
        invariant forall k :: |old(workers)| <= k < |workers| ==>
          && fresh(workers[k])
          && workers[k].id == k - |old(workers)| + 1
          && !workers[k].isProcessing && workers[k].currentTask == None
          && workers[k].tasksCompleted == 0 && workers[k].tasksFailed == 0
      {
        var worker := new Worker(i);
        workers := workers + [worker];
        i := i + 1;
      }
    }

    /** Starts the pool and offers every worker a task; a no-op when
        running. `taken` lists the tasks handed out, in order: as many as
        there are idle workers or queued tasks, whichever is fewer. */
    method Start(draws: seq<Option<nat>>) returns (ghost taken: seq<Task>)
      modifies this`isRunning, this`retries, queue, workers
      ensures isRunning
      ensures old(isRunning) ==>
        taken == [] && retries == old(retries) && unchanged(queue) && forall w :: w in workers ==> unchanged(w)
      ensures forall w :: w in workers && old(w.isProcessing) ==> unchanged(w)
      ensures forall w :: w in workers && !old(w.isProcessing) ==> !w.isProcessing
      ensures !old(isRunning) ==> |taken| == Min(|old(queue.queue)|, old(|IdleWorkers(workers)|))
      ensures RoundSoFar(old(queue.queue), old(queue.processing), old(retries), queue.queue, queue.processing, retries, taken)
    {
      if isRunning {
        RoundStart(queue.queue, queue.processing, retries);
        return [];
      }
      isRunning := true;
      IdleCountOfFlags(workers);
      taken := OfferEach(workers, draws, BusyFlags(workers));
    }

    method Stop()
      modifies this`isRunning
      ensures !isRunning
    {
      isRunning := false;
    }

    /** Hands `worker` the next task and handles the outcome: on success the
        task leaves the processing hash, on failure the retry policy runs. */
    method AssignNextTask(worker: Worker, firstLowDraw: Option<nat>) returns (dispatched: Option<Task>, outcome: Option<Outcome>)
      modifies this`retries, queue, worker
      ensures outcome.Some? <==> dispatched.Some?
      ensures dispatched.None? ==>
        unchanged(worker) && unchanged(queue) && retries == old(retries)
      ensures !isRunning || old(worker.isProcessing) || old(queue.queue) == map[] <==> dispatched.None?
      ensures dispatched.Some? ==>
        var d := dispatched.value;
        var r := Run(d, worker.id, firstLowDraw);
        var decision := RetryDecision(r.task.retryCount);
        && isRunning && !old(worker.isProcessing)
        && IsTop(old(queue.queue), d)
        && queue.queue == old(queue.queue) - {d}
        && |queue.queue| == |old(queue.queue)| - 1
        && outcome == Some(r)
        && !worker.isProcessing && worker.currentTask == None
        && (r.Success? ==>
              worker.tasksCompleted == old(worker.tasksCompleted) + 1 && worker.tasksFailed == old(worker.tasksFailed))
        && (r.Failure? ==>
              worker.tasksFailed == old(worker.tasksFailed) + 1 && worker.tasksCompleted == old(worker.tasksCompleted))
        && (r.Success? ==>
              && retries == old(retries)
              && queue.processing == Release(old(queue.processing)[d.id := d], ById(d.id)))
        && (r.Failure? && decision.Retry? ==>
              && retries == old(retries) + [PendingRetry(r.task.(retryCount := decision.retryCount), decision.delayMs)]
              && queue.processing == InvalidTaskCleanup(old(queue.processing)[d.id := d], d, r))
        && (r.Failure? && decision.GiveUp? ==>
              && retries == old(retries)
              && queue.processing == InvalidTaskCleanup(Release(old(queue.processing)[d.id := d], ById(d.id)), d, r))
    {
      if !isRunning || worker.isProcessing {
        return None, None;
      }
      var task := queue.Dequeue();
      if task.None? {
        return None, None;
      }
      var d := task.value;
      assert (old(queue.queue) - {d}).Keys == old(queue.queue).Keys - {d};
      var _, _, result := worker.ProcessTask(d, firstLowDraw);
      // the worker's completion or failure handler
      match result {
        case Success(t) =>
          queue.Complete(ById(t.id));
        case Failure(t, error) =>
          HandleTaskFailure(t, error);
      }
      // a task reported as invalid is dropped from the processing hash
      if result.Failure? && Text.Contains(result.error, "Invalid task") {
        queue.Complete(if d.id != 0 then ById(d.id) else InvalidRef);
      }
      dispatched, outcome := Some(d), Some(result);
    }

    /** Offers a task to every worker that is idle when the round starts;
        `taken` lists the tasks handed out, in order: as many as there are
        idle workers or queued tasks, whichever is fewer. */
    method CheckForTasks(draws: seq<Option<nat>>) returns (ghost taken: seq<Task>)
      modifies this`retries, queue, workers
      ensures forall w :: w in workers && old(w.isProcessing) ==> unchanged(w)
      ensures forall w :: w in workers && !old(w.isProcessing) ==> !w.isProcessing
      ensures !isRunning ==>
        taken == [] && retries == old(retries) && unchanged(queue) && forall w :: w in workers ==> unchanged(w)
      ensures isRunning ==> |taken| == Min(|old(queue.queue)|, old(|IdleWorkers(workers)|))
      ensures RoundSoFar(old(queue.queue), old(queue.processing), old(retries), queue.queue, queue.processing, retries, taken)
    {
      var idleWorkers := IdleWorkers(workers);
      IdleWorkersOfIdle(idleWorkers);
      IdleCountOfFlags(idleWorkers);
      taken := OfferEach(idleWorkers, draws, BusyFlags(idleWorkers));
    }

    /** `assignNextTask` for each worker of `ws` in turn, the `i`-th with the
        `i`-th draw; `taken` lists the tasks handed out, in order. */
    method OfferEach(ws: seq<Worker>, draws: seq<Option<nat>>, ghost busy: seq<bool>) returns (ghost taken: seq<Task>)
      requires forall w :: w in ws ==> w in workers
      requires |busy| == |ws| && forall k :: 0 <= k < |ws| ==> busy[k] == ws[k].isProcessing
      modifies this`retries, queue, workers
      ensures forall w :: w in workers && old(w.isProcessing) ==> unchanged(w)
      ensures forall w :: w in workers && !old(w.isProcessing) ==> !w.isProcessing
      ensures !isRunning ==>
        taken == [] && retries == old(retries) && unchanged(queue) && forall w :: w in workers ==> unchanged(w)
      ensures isRunning ==> |taken| == Min(|old(queue.queue)|, IdleCount(busy))
      ensures RoundSoFar(old(queue.queue), old(queue.processing), old(retries), queue.queue, queue.processing, retries, taken)
    {
      taken := [];
      RoundStart(queue.queue, queue.processing, retries);
      var i := 0;
      while i < |ws|
        invariant 0 <= i <= |ws|
        invariant forall k :: 0 <= k < |ws| ==> ws[k] in workers
        invariant forall w :: w in workers ==> if old(w.isProcessing) then unchanged(w) else !w.isProcessing
        invariant !isRunning ==>
          taken == [] && retries == old(retries) && unchanged(queue) && forall w :: w in workers ==> unchanged(w)
        invariant isRunning ==> |taken| == Min(|old(queue.queue)|, IdleCount(busy[..i]))
        invariant |queue.queue| == |old(queue.queue)| - |taken|
        invariant RoundSoFar(old(queue.queue), old(queue.processing), old(retries), queue.queue, queue.processing, retries, taken)
      {
        ghost var wasIdle := !ws[i].isProcessing;
        assert wasIdle == !busy[i];
        IdleCountStep(busy, i);
        ghost var left, before := |queue.queue|, |taken|;
        ghost var handed;
        taken, handed := OfferOne(ws[i], DrawFor(draws, i), old(queue.queue), old(queue.processing), old(retries), taken);
        if isRunning {
          CountStep(|old(queue.queue)|, IdleCount(busy[..i]), before, left, wasIdle, handed);
        }
        i := i + 1;
      }
      assert busy[..|ws|] == busy;
    }

    /** One `assignNextTask` inside a round that started from `q0`, `p0` and
        `r0` and has handed out `taken`; `handed` tells whether it took a
        task, which it then appends. */
    method OfferOne(
      worker: Worker, draw: Option<nat>,
      ghost q0: map<Task, int>, ghost p0: map<int, Task>, ghost r0: seq<PendingRetry>, ghost taken: seq<Task>)
      returns (ghost taken': seq<Task>, ghost handed: bool)
      requires RoundSoFar(q0, p0, r0, queue.queue, queue.processing, retries, taken)
      modifies this`retries, queue, worker
      ensures handed <==> isRunning && !old(worker.isProcessing) && old(queue.queue) != map[]
      ensures handed ==> |taken'| == |taken| + 1 && |queue.queue| == |old(queue.queue)| - 1
      ensures !handed ==> taken' == taken && unchanged(worker) && unchanged(queue) && retries == old(retries)
      ensures !worker.isProcessing || unchanged(worker)
      ensures RoundSoFar(q0, p0, r0, queue.queue, queue.processing, retries, taken')
    {
      ghost var q, p, r := queue.queue, queue.processing, retries;
      var dispatched, _ := AssignNextTask(worker, draw);
      handed := dispatched.Some?;
      taken' := taken;
      if dispatched.Some? {
        OfferStep(q0, p0, r0, q, p, r, taken, dispatched.value, worker.id, draw, queue.queue, queue.processing, retries);
        taken' := taken + [dispatched.value];
      }
    }

    /** Raises the retry count, then either schedules a requeue after the
        backoff delay or fails the task for good. */
    method HandleTaskFailure(task: Task, error: string)
      modifies this`retries, queue
      ensures var decision := RetryDecision(task.retryCount);
        && (decision.Retry? ==>
              && retries == old(retries) + [PendingRetry(task.(retryCount := decision.retryCount), decision.delayMs)]
              && unchanged(queue))
        && (decision.GiveUp? ==>
              && retries == old(retries)
              && queue.queue == old(queue.queue)
              && queue.processing == Release(old(queue.processing), ById(task.id)))
    {
      var decision := RetryDecision(task.retryCount);
      var failed := task.(retryCount := decision.retryCount);
      if decision.Retry? {
        retries := retries + [PendingRetry(failed, decision.delayMs)];
      } else {
        queue.Fail(ById(failed.id));
      }
    }

    /** The timer of the `i`-th pending retry fires: the task is set back to
        pending with its error cleared and requeued at time `now`. */
    method FireRetry(i: nat, now: int)
      requires i < |retries|
      modifies this`retries, queue
      ensures var t := old(retries)[i].task.(status := Pending, error := None);
        && retries == old(retries)[..i] + old(retries)[i + 1..]
        && queue.processing == old(queue.processing) - {t.id}
        && queue.queue == old(queue.queue)[t := Score(t.priority, now)]
    {
      var task := retries[i].task;
      retries := retries[..i] + retries[i + 1..];
      task := task.(status := Pending, error := None);
      queue.Requeue(task, now);
    }

    /** Counts of workers and their totals, the queue's counts and the run flag. */
    method GetStats() returns (s: ManagerStats)
      ensures s.workers.total == |workers|
      ensures s.workers.active == |ActiveWorkers(workers)| && s.workers.idle == |IdleWorkers(workers)|
      ensures s.workers.active + s.workers.idle == s.workers.total
      ensures s.workers.totalCompleted == SumCompleted(workers)
      ensures s.workers.totalFailed == SumFailed(workers)
      ensures s.queue.total == s.queue.queueLength + s.queue.processing
      ensures s.queue.queueLength == |queue.queue| && s.queue.processing == |queue.processing|
      ensures s.isRunning == isRunning
    {
      var queueStats := queue.GetStats();
      ActivePlusIdle(workers);
      var workerStats := WorkerStats(
        |workers|,
        |ActiveWorkers(workers)|,
        |IdleWorkers(workers)|,
        SumCompleted(workers),
        SumFailed(workers));
      s := ManagerStats(queueStats, workerStats, isRunning);
    }
  }
}
