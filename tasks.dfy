/**
 * The task record shared by the queues, the workers and the pool manager,
 * and the priority weighting that both queue implementations use.
 */
module Tasks {

  datatype Option<+T> = None | Some(value: T)

  /** A task's priority. `Other` stands for any value that is not one of the
      three known names, including a missing one. */
  datatype Priority = High | Medium | Low | Other(name: string)

  datatype Status = Pending | Processing | Completed | Failed

  /** A task as the scheduler sees it. `retryCount` 0 also stands for a
      missing count (the code reads it as `retryCount || 0`). */
  datatype Task = Task(
    id: int,
    title: string,
    priority: Priority,
    status: Status,
    progress: int,
    retryCount: nat,
    workerId: Option<nat>,
    error: Option<string>)

  /** What both queues report from `getStats`. */
  datatype QueueStats = QueueStats(queueLength: nat, processing: nat, total: nat)

  /** The ranking weight of a priority: high 3, medium 2, low 1, and 2 for
      any other value. */
  function Weight(p: Priority): (w: int)
    ensures 1 <= w <= 3
    ensures w == 3 <==> p == High
    ensures w == 1 <==> p == Low
    ensures w == 2 <==> p.Medium? || p.Other?
  {
    match p
    case High => 3
    case Medium => 2
    case Low => 1
    case Other(_) => 2
  }

  /** 2 to the power n. */
  function Pow2(n: nat): (r: nat)
    ensures r >= 1
  {
    if n == 0 then 1 else 2 * Pow2(n - 1)
  }

  /** Each further doubling strictly raises the power of two. */
  lemma {:induction false} Pow2StrictlyIncreasing(m: nat, n: nat)
    requires m < n
    ensures Pow2(m) < Pow2(n)
  {
    if n == m + 1 {
    } else {
      Pow2StrictlyIncreasing(m, n - 1);
    }
  }
}
