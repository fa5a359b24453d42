/**
 * The Redis-backed priority queue. The sorted set `task:queue` is a map from
 * member (the serialized task) to score, the hash `task:processing` a map from
 * task id to the serialized task. `Date.now()` is a parameter.
 *
 * As written, the score is `weight * 1000000 + now` and `dequeue` takes the
 * HIGHEST score, so within one priority the most recent task comes out first,
 * and priority decides only between tasks enqueued less than 1000000 ms apart
 * per step of weight.
 */
module RedisQueueModel {
  import opened Tasks

  /** The multiplier of the weight in a score. */
  const BandWidth: int := 1000000

  /** The score `enqueue` gives a task of priority `p` at time `now`. */
  function Score(p: Priority, now: int): (s: int)
    ensures s - now == Weight(p) * BandWidth
    ensures BandWidth + now <= s <= 3 * BandWidth + now
  {
    Weight(p) * BandWidth + now
  }

  /** Exactly when one score beats another: the weight difference, in units of
      one million, must exceed the time difference. */
  lemma ScoreComparison(p: Priority, t1: int, q: Priority, t2: int)
    ensures Score(p, t1) > Score(q, t2) <==> (Weight(p) - Weight(q)) * BandWidth > t2 - t1
  {
  }

  /** Within one priority, the later task has the higher score. */
  lemma SameBandLaterFirst(p: Priority, t1: int, q: Priority, t2: int)
    requires Weight(p) == Weight(q) && t1 < t2
    ensures Score(q, t2) > Score(p, t1)
  {
    ScoreComparison(q, t2, p, t1);
  }

  /** Tasks enqueued less than one million ms apart are ranked by priority. */
  lemma HigherPriorityFirstWithinWindow(p: Priority, t1: int, q: Priority, t2: int)
    requires Weight(p) > Weight(q)
    requires -BandWidth < t2 - t1 < BandWidth
    ensures Score(p, t1) > Score(q, t2)
  {
    ScoreComparison(p, t1, q, t2);
  }

  /** A lower-priority task enqueued late enough outranks a waiting
      higher-priority one: priority does not dominate. */
  lemma LaterLowerPriorityOvertakes(p: Priority, t1: int, q: Priority, t2: int)
    requires Weight(p) > Weight(q)
    requires t2 - t1 > (Weight(p) - Weight(q)) * BandWidth
    ensures Score(q, t2) > Score(p, t1)
  {
    ScoreComparison(q, t2, p, t1);
  }

  /** `m` has a highest score in the sorted set `q`. */
  predicate IsTop(q: map<Task, int>, m: Task) {
    m in q && forall x | x in q :: q[x] <= q[m]
  }

  /** A non-empty sorted set has a member of highest score. */
  lemma {:induction false} TopExists(q: map<Task, int>)
    requires q != map[]
    ensures exists m :: IsTop(q, m)
    decreases |q|
  {
    assert q.Keys != {};
    assert (forall t :: t !in q.Keys) ==> q.Keys == {};
    var x :| x in q;
    var rest := q - {x};
    assert rest.Keys == q.Keys - {x};
    if rest == map[] {
      forall y | y in q
        ensures q[y] <= q[x]
      {
        assert y !in rest;
      }
      assert IsTop(q, x);
    } else {
      TopExists(rest);
      var m :| IsTop(rest, m);
      if q[m] >= q[x] {
        forall y | y in q
          ensures q[y] <= q[m]
        {
          if y != x {
            assert y in rest;
          }
        }
        assert IsTop(q, m);
      } else {
        forall y | y in q
          ensures q[y] <= q[x]
        {
          if y != x {
            assert y in rest;
          }
        }
        assert IsTop(q, x);
      }
    }
  }

  /** The argument of `complete`/`fail`: a task id, the string 'invalid' the
      pool manager passes for a task without id, or nothing. */
  datatype TaskRef = ById(id: int) | InvalidRef | NoRef

  /** The guard of `complete` and `fail`: a falsy id or 'invalid' is skipped. */
  predicate Skipped(r: TaskRef) {
    r.NoRef? || r.InvalidRef? || (r.ById? && r.id == 0)
  }

  /** The processing hash after `hdel` of the referenced id, unless skipped. */
  function Release(processing: map<int, Task>, r: TaskRef): (m: map<int, Task>)
    ensures Skipped(r) ==> m == processing
    ensures !Skipped(r) ==> r.id !in m && forall id :: id in m <==> id in processing && id != r.id
    ensures forall id :: id in m ==> m[id] == processing[id]
  {
    if Skipped(r) then processing else processing - {r.id}
  }

  /** The reconnect delay of the Redis client for the `times`-th attempt. */
  function RetryStrategy(times: nat): (delay: nat)
    ensures delay <= 2000
    ensures times <= 40 ==> delay == 50 * times
    ensures times >= 40 ==> delay == 2000
  {
    if times * 50 < 2000 then times * 50 else 2000
  }

  /** Reconnect delays never shrink from one attempt to the next. */
  lemma RetryStrategyMonotone(a: nat, b: nat)
    requires a <= b
    ensures RetryStrategy(a) <= RetryStrategy(b)
  {
  }

  class RedisQueue {
    /** The sorted set `task:queue`: member to score. */
    var queue: map<Task, int>
    /** The hash `task:processing`: task id to task. */
    var processing: map<int, Task>

    constructor ()
      ensures queue == map[] && processing == map[]
    {
      queue := map[];
      processing := map[];
    }

    /** `zadd` with the score of the task's priority at time `now`. */
    method Enqueue(task: Task, now: int)
      modifies this
      ensures queue == old(queue)[task := Score(task.priority, now)]
      ensures processing == old(processing)
    {
      var finalScore := Score(task.priority, now);
      queue := queue[task := finalScore];
    }

    /** Moves a member of highest score from the queue to the processing hash. */
    method Dequeue() returns (t: Option<Task>)
      modifies this
      ensures old(queue) == map[] ==> t == None && unchanged(this)
      ensures old(queue) != map[] ==>
        && t.Some?
        && IsTop(old(queue), t.value)
        && queue == old(queue) - {t.value}
        && processing == old(processing)[t.value.id := t.value]
    {
      if queue == map[] {
        return None;
      }
      TopExists(queue);
      var task :| IsTop(queue, task);
      queue := queue - {task};
      processing := processing[task.id := task];
      t := Some(task);
    }

    method Complete(taskId: TaskRef)
      modifies this
      ensures queue == old(queue)
      ensures processing == Release(old(processing), taskId)
    {
      if Skipped(taskId) {
        return;
      }
      processing := processing - {taskId.id};
    }

    method Fail(taskId: TaskRef)
      modifies this
      ensures queue == old(queue)
      ensures processing == Release(old(processing), taskId)
    {
      if Skipped(taskId) {
        return;
      }
      processing := processing - {taskId.id};
    }

    /** Deletes the task's processing entry, then enqueues it with a fresh score. */
    method Requeue(task: Task, now: int)
      modifies this
      ensures processing == old(processing) - {task.id}
      ensures queue == old(queue)[task := Score(task.priority, now)]
    {
      processing := processing - {task.id};
      Enqueue(task, now);
    }

    method GetStats() returns (s: QueueStats)
      ensures s.queueLength == |queue|
      ensures s.processing == |processing|
      ensures s.total == |queue| + |processing|
    {
      var queueLength := |queue|;
      var processingCount := |processing|;
      s := QueueStats(queueLength, processingCount, queueLength + processingCount);
    }

    /** Every queued task once, by non-increasing score (`zrevrange 0 -1`). */
    method GetAllQueued() returns (tasks: seq<Task>)
      ensures |tasks| == |queue|
      ensures forall x :: x in queue <==> x in tasks
      ensures forall i, j :: 0 <= i < j < |tasks| ==> tasks[i] != tasks[j]
      ensures forall i, j :: 0 <= i < j < |tasks| ==> queue[tasks[j]] <= queue[tasks[i]]
    {
      tasks := [];
      var rest := queue;
      while rest != map[]
        invariant Listed(queue, tasks, rest)
        decreases |rest|
      {
        TopExists(rest);
        var top :| IsTop(rest, top);
        ListedStep(queue, tasks, rest, top);
        tasks := tasks + [top];
        rest := rest - {top};
      }
      assert forall x :: x !in rest;
    }
  }

  /** Halfway through listing `q`: `tasks` are listed once each, by
      non-increasing score and no lower than any task still in `rest`, and
      `rest` holds the others with their scores. */
  ghost predicate Listed(q: map<Task, int>, tasks: seq<Task>, rest: map<Task, int>) {
    && (forall x :: x in q <==> x in rest || x in tasks)
    && (forall x :: x in rest ==> x !in tasks && x in q && rest[x] == q[x])
    && |tasks| + |rest| == |q|
    && (forall i, j :: 0 <= i < j < |tasks| ==> tasks[i] != tasks[j])
    && (forall i, j :: 0 <= i < j < |tasks| ==> tasks[i] in q && tasks[j] in q && q[tasks[j]] <= q[tasks[i]])
    && (forall i, x :: 0 <= i < |tasks| && x in rest ==> tasks[i] in q && q[x] <= q[tasks[i]])
  }

  /** Moving a top task of `rest` to the end of the listing keeps it a
      listing. */
  lemma ListedStep(q: map<Task, int>, tasks: seq<Task>, rest: map<Task, int>, top: Task)
    requires Listed(q, tasks, rest)
    requires IsTop(rest, top)
    ensures Listed(q, tasks + [top], rest - {top})
  {
    var tasks', rest' := tasks + [top], rest - {top};
    assert rest'.Keys == rest.Keys - {top};
    assert forall x :: x in tasks' <==> x in tasks || x == top;
    forall i, j | 0 <= i < j < |tasks'|
      ensures tasks'[i] != tasks'[j]
      ensures tasks'[i] in q && tasks'[j] in q && q[tasks'[j]] <= q[tasks'[i]]
    {
      if j == |tasks| {
        assert tasks'[i] == tasks[i] && tasks'[j] == top;
      } else {
        assert tasks'[i] == tasks[i] && tasks'[j] == tasks[j];
      }
    }
    forall i, x | 0 <= i < |tasks'| && x in rest'
      ensures tasks'[i] in q && q[x] <= q[tasks'[i]]
    {
      if i < |tasks| {
        assert tasks'[i] == tasks[i];
      }
    }
  }

  /** Two tasks of one priority, enqueued at increasing times, come out in
      reverse order. */
  method SameBandScenario(a: Task, b: Task, t1: int, t2: int) returns (first: Option<Task>)
    requires a != b && Weight(a.priority) == Weight(b.priority) && t1 < t2
    ensures first == Some(b)
  {
    var q := new RedisQueue();
    q.Enqueue(a, t1);
    q.Enqueue(b, t2);
    SameBandLaterFirst(a.priority, t1, b.priority, t2);
    assert q.queue.Keys == {a, b};
    assert q.queue[b] > q.queue[a];
    first := q.Dequeue();
  }
}
