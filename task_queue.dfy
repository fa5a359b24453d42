/**
 * The in-memory priority queue: an array kept sorted by priority weight, with
 * a new task spliced in after every task of equal or higher weight, and a
 * map of the tasks handed out for processing, keyed by task id.
 */
module MemoryQueue {
  import opened Tasks

  /** Non-increasing by weight: the order `Enqueue` keeps. */
  ghost predicate SortedByWeight(q: seq<Task>) {
    forall i, j :: 0 <= i < j < |q| ==> Weight(q[j].priority) <= Weight(q[i].priority)
  }

  /** The first position whose task weighs less than `w`, or the end. */
  function InsertionPoint(q: seq<Task>, w: int): (k: nat)
    ensures k <= |q|
    ensures forall j :: 0 <= j < k ==> w <= Weight(q[j].priority)
    ensures k < |q| ==> Weight(q[k].priority) < w
  {
    if q == [] then 0
    else if Weight(q[0].priority) < w then 0
    else 1 + InsertionPoint(q[1..], w)
  }

  /** The queue after `enqueue(t)`. */
  function Insert(q: seq<Task>, t: Task): seq<Task> {
    var k := InsertionPoint(q, Weight(t.priority));
    q[..k] + [t] + q[k..]
  }

  /** Inserting grows the queue by one, places `t` at the insertion point and
      keeps every other task in its old relative order. */
  lemma InsertShape(q: seq<Task>, t: Task)
    ensures var k := InsertionPoint(q, Weight(t.priority));
      && |Insert(q, t)| == |q| + 1
      && Insert(q, t)[k] == t
      && Insert(q, t)[..k] + Insert(q, t)[k + 1..] == q
      && multiset(Insert(q, t)) == multiset(q) + multiset{t}
  {
    var k := InsertionPoint(q, Weight(t.priority));
    var r := Insert(q, t);
    assert r[..k] == q[..k];
    assert r[k + 1..] == q[k..];
    assert q == q[..k] + q[k..];
  }

  /** Enqueueing keeps the queue sorted by weight. */
  lemma InsertKeepsSorted(q: seq<Task>, t: Task)
    requires SortedByWeight(q)
    ensures SortedByWeight(Insert(q, t))
  {
    var w := Weight(t.priority);
    var k := InsertionPoint(q, w);
    var r := Insert(q, t);
    forall i, j | 0 <= i < j < |r|
      ensures Weight(r[j].priority) <= Weight(r[i].priority)
    {
      if j < k {
        assert r[i] == q[i] && r[j] == q[j];
      } else if j == k {
        assert r[i] == q[i];
      } else if i < k {
        assert r[i] == q[i] && r[j] == q[j - 1];
        assert Weight(q[j - 1].priority) <= Weight(q[k].priority);
      } else if i == k {
        assert r[j] == q[j - 1];
        assert Weight(q[j - 1].priority) <= Weight(q[k].priority);
      } else {
        assert r[i] == q[i - 1] && r[j] == q[j - 1];
      }
    }
  }

  /** A priority band is first in, first out: in a sorted queue every task of
      equal or higher weight stays ahead of the new task, and every task of
      lower weight comes after it. */
  lemma InsertBehindEqualOrHigher(q: seq<Task>, t: Task, i: nat)
    requires SortedByWeight(q)
    requires i < |q|
    ensures var k := InsertionPoint(q, Weight(t.priority));
      Weight(t.priority) <= Weight(q[i].priority) <==> i < k
  {
    var w := Weight(t.priority);
    var k := InsertionPoint(q, w);
    if k <= i {
      assert Weight(q[i].priority) <= Weight(q[k].priority);
    }
  }

  class TaskQueue {
    /** The waiting tasks, highest weight first. */
    var queue: seq<Task>
    /** Tasks handed out by `Dequeue`, keyed by id. */
    var processing: map<int, Task>

    ghost predicate Valid()
      reads this
    {
      && SortedByWeight(queue)
      && forall id :: id in processing ==> processing[id].id == id
    }

    constructor ()
      ensures Valid()
      ensures queue == [] && processing == map[]
    {
      queue := [];
      processing := map[];
    }

    /** Scans for the first task of lower weight and splices `task` in there. */
    method Enqueue(task: Task)
      requires Valid()
      modifies this
      ensures Valid()
      ensures queue == Insert(old(queue), task)
      ensures processing == old(processing)
    {
      var priorityValue := Weight(task.priority);
      var insertIndex := |queue|;
      var i := 0;
      while i < |queue|
        invariant 0 <= i <= |queue|
        invariant insertIndex == |queue|
        invariant forall j :: 0 <= j < i ==> priorityValue <= Weight(queue[j].priority)
      {
        if Weight(queue[i].priority) < priorityValue {
          insertIndex := i;
          break;
        }
        i := i + 1;
      }
      assert insertIndex == InsertionPoint(queue, priorityValue);
      InsertKeepsSorted(queue, task);
      queue := queue[..insertIndex] + [task] + queue[insertIndex..];
    }

    /** Takes the head of the queue and records it under its id. */
    method Dequeue() returns (t: Option<Task>)
      requires Valid()
      modifies this
      ensures Valid()
      ensures old(queue) == [] ==> t == None && queue == old(queue) && processing == old(processing)
      ensures old(queue) != [] ==>
        && t == Some(old(queue)[0])
        && queue == old(queue)[1..]
        && processing == old(processing)[t.value.id := t.value]
    {
      if |queue| == 0 {
        return None;
      }
      var task := queue[0];
      queue := queue[1..];
      processing := processing[task.id := task];
      t := Some(task);
    }

    method Complete(taskId: int)
      requires Valid()
      modifies this
      ensures Valid()
      ensures queue == old(queue)
      ensures processing == old(processing) - {taskId}
    {
      processing := processing - {taskId};
    }

    /** Removes the task only when it is being processed. */
    method Fail(taskId: int)
      requires Valid()
      modifies this
      ensures Valid()
      ensures queue == old(queue)
      ensures taskId !in old(processing) ==> processing == old(processing)
      ensures taskId in old(processing) ==> processing == old(processing) - {taskId}
    {
      if taskId in processing {
        processing := processing - {taskId};
      }
    }

    method GetStats() returns (s: QueueStats)
      ensures s.queueLength == |queue|
      ensures s.processing == |processing|
      ensures s.total == |queue| + |processing|
    {
      s := QueueStats(|queue|, |processing|, |queue| + |processing|);
    }

    /** A copy of the queue in order, and every processing task exactly once. */
    method GetAllTasks() returns (queued: seq<Task>, inFlight: seq<Task>)
      requires Valid()
      ensures queued == queue
      ensures |inFlight| == |processing|
      ensures forall id :: id in processing ==> processing[id] in inFlight
      ensures forall k :: 0 <= k < |inFlight| ==>
                inFlight[k].id in processing && processing[inFlight[k].id] == inFlight[k]
    {
      queued := queue;
      inFlight := [];
      var rest := processing.Keys;
      while |rest| > 0
        invariant rest <= processing.Keys
        invariant |inFlight| + |rest| == |processing|
        invariant forall id :: id in processing && id !in rest ==> processing[id] in inFlight
        invariant forall k :: 0 <= k < |inFlight| ==>
                    inFlight[k].id in processing && inFlight[k].id !in rest
                    && processing[inFlight[k].id] == inFlight[k]
        decreases |rest|
      {
        assert (forall id :: id !in rest) ==> rest == {};
        var key :| key in rest;
        inFlight := inFlight + [processing[key]];
        rest := rest - {key};
      }
    }
  }

  /** Low A, high B, medium C enqueued in that order come out as B, C, A. */
  method PriorityOrderScenario(a: Task, b: Task, c: Task) returns (first: Option<Task>, second: Option<Task>, third: Option<Task>)
    requires a.priority == Low && b.priority == High && c.priority == Medium
    ensures first == Some(b) && second == Some(c) && third == Some(a)
  {
    var q := new TaskQueue();
    q.Enqueue(a);
    q.Enqueue(b);
    q.Enqueue(c);
    first := q.Dequeue();
    second := q.Dequeue();
    third := q.Dequeue();
  }

  /** Two medium tasks come out in the order they went in. */
  method SameBandScenario(a: Task, b: Task) returns (first: Option<Task>, second: Option<Task>)
    requires a.priority == Medium && b.priority == Medium
    ensures first == Some(a) && second == Some(b)
  {
    var q := new TaskQueue();
    q.Enqueue(a);
    q.Enqueue(b);
    first := q.Dequeue();
    second := q.Dequeue();
  }
}
