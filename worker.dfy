/**
 * A worker runs one task at a time: it marks the task as processing, advances
 * its progress in ten steps, and ends with the task completed or failed. The
 * injected random fault is an input: the first step whose random draw falls
 * below 5%, which throws only when the task's retry count is zero.
 */
module WorkerModel {
  import opened Tasks
  import Text

  /** Number of progress steps of the simulated work. */
  const Steps: nat := 10

  /** The message of the injected fault. */
  const FaultMessage: string := "Random processing error"

  /** What `processTask` returns: `{success: true, task}` or
      `{success: false, task, error}`. */
  datatype Outcome = Success(task: Task) | Failure(task: Task, error: string)

  /** What `getStatus` reports about the current task. */
  datatype TaskView = TaskView(id: int, title: string, progress: int)

  datatype WorkerStatus = WorkerStatus(
    id: nat,
    isProcessing: bool,
    currentTask: Option<TaskView>,
    tasksCompleted: nat,
    tasksFailed: nat)

  /** The simulated duration in ms: 3000 for high, 5000 for medium, 8000 for
      low and 5000 for any other priority. */
  function ProcessingTime(p: Priority): (ms: nat)
    ensures p == High ==> ms == 3000
    ensures p == Low ==> ms == 8000
    ensures p.Medium? || p.Other? ==> ms == 5000
  {
    match p
    case High => 3000
    case Medium => 5000
    case Low => 8000
    case Other(_) => 5000
  }

  /** Higher ranking weight means strictly shorter simulated work, and equal
      weight means equal work. */
  lemma ProcessingTimeFollowsWeight(p: Priority, q: Priority)
    ensures Weight(p) > Weight(q) <==> ProcessingTime(p) < ProcessingTime(q)
    ensures Weight(p) == Weight(q) <==> ProcessingTime(p) == ProcessingTime(q)
  {
  }

  /** Progress after step `i` of ten: `Math.floor((i / 10) * 100)`, which is
      exactly `10 * i` for these ten values. */
  function Progress(i: nat): int {
    (i * 100) / Steps
  }

  /** The progress values reported by the first `n` steps. */
  function ProgressTrace(n: nat): (r: seq<int>)
    ensures |r| == n
    ensures forall k :: 0 <= k < n ==> r[k] == Progress(k + 1)
  {
    seq(n, k requires 0 <= k < n => Progress(k + 1))
  }

  /** Reported progress rises strictly, stays within 10..100, and reaches 100
      only at the tenth step. */
  lemma ProgressTraceShape(n: nat)
    requires n <= Steps
    ensures forall i, j :: 0 <= i < j < n ==> ProgressTrace(n)[i] < ProgressTrace(n)[j]
    ensures forall k :: 0 <= k < n ==> 10 <= ProgressTrace(n)[k] <= 100
    ensures forall k :: 0 <= k < n ==> (ProgressTrace(n)[k] == 100 <==> k == Steps - 1)
  {
  }

  /** The step at which processing throws, if any: the first low random draw,
      counted only for a task whose retry count is zero. */
  function FailingStep(task: Task, firstLowDraw: Option<nat>): (k: Option<nat>)
    ensures k.Some? ==> 1 <= k.value <= Steps && task.retryCount == 0
  {
    if task.retryCount == 0 && firstLowDraw.Some? && 1 <= firstLowDraw.value <= Steps
    then firstLowDraw else None
  }

  /** The number of steps that run before processing ends. */
  function StepsRun(task: Task, firstLowDraw: Option<nat>): (n: nat)
    ensures 1 <= n <= Steps
  {
    match FailingStep(task, firstLowDraw)
    case Some(k) => k
    case None => Steps
  }

  /** The task as it stands once a worker has started it. */
  function Started(task: Task, workerId: nat): Task {
    task.(status := Processing, workerId := Some(workerId))
  }

  /** The result of a whole run of `processTask`. */
  function Run(task: Task, workerId: nat, firstLowDraw: Option<nat>): Outcome {
    var t := Started(task, workerId).(progress := Progress(StepsRun(task, firstLowDraw)));
    if FailingStep(task, firstLowDraw).None? then
      Success(t.(status := Completed, progress := 100))
    else
      Failure(t.(status := Failed, error := Some(FaultMessage)), FaultMessage)
  }

  /** A run succeeds exactly when no fault fires; a success is completed at
      100%, a failure is failed with the fault's message as its error and the
      progress of the step that threw. Either way the task is marked with the
      worker's id and keeps its identity, priority and retry count. */
  lemma RunOutcome(task: Task, workerId: nat, firstLowDraw: Option<nat>)
    ensures var r := Run(task, workerId, firstLowDraw);
      && (r.Success? <==> FailingStep(task, firstLowDraw).None?)
      && r.task.workerId == Some(workerId)
      && r.task.id == task.id && r.task.title == task.title
      && r.task.priority == task.priority && r.task.retryCount == task.retryCount
      && (r.Success? ==> r.task.status == Completed && r.task.progress == 100 && r.task.error == task.error)
      && (r.Failure? ==> r.task.status == Failed && r.task.error == Some(r.error) && r.error == FaultMessage
                         && r.task.progress == 10 * FailingStep(task, firstLowDraw).value)
  {
  }

  /** A task that has been retried at least once never fails again: the
      fault fires only while the retry count is zero. */
  lemma RetriedTaskSucceeds(task: Task, workerId: nat, firstLowDraw: Option<nat>)
    requires task.retryCount > 0
    ensures Run(task, workerId, firstLowDraw).Success?
  {
  }

  /** A fault at the tenth step leaves a failed task at 100% progress. */
  lemma FailedAtFullProgress(task: Task, workerId: nat)
    requires task.retryCount == 0
    ensures var r := Run(task, workerId, Some(Steps));
      r.Failure? && r.task.progress == 100 && r.task.status == Failed
  {
  }

  /** The fault's message never contains "Invalid task". */
  lemma FaultMessageIsNotInvalidTask()
    ensures !Text.Contains(FaultMessage, "Invalid task")
  {
    Text.AbsentFirstChar(FaultMessage, "Invalid task");
  }

  class Worker {
    const id: nat
    var isProcessing: bool
    var currentTask: Option<Task>
    var tasksCompleted: nat
    var tasksFailed: nat

    /** A new worker is idle, holds no task and has done nothing. */
    constructor (id: nat)
      ensures this.id == id
      ensures !isProcessing && currentTask == None
      ensures tasksCompleted == 0 && tasksFailed == 0
    {
      this.id := id;
      isProcessing := false;
      currentTask := None;
      tasksCompleted := 0;
      tasksFailed := 0;
    }

    /** Runs `task` to completion or failure. Returns the task as announced
        when started, the progress values reported, and the outcome. */
    method ProcessTask(task: Task, firstLowDraw: Option<nat>) returns (started: Task, progress: seq<int>, r: Outcome)
      modifies this
      ensures !isProcessing && currentTask == None
      ensures started == Started(task, id)
      ensures progress == ProgressTrace(StepsRun(task, firstLowDraw))
      ensures r == Run(task, id, firstLowDraw)
      ensures r.Success? ==> tasksCompleted == old(tasksCompleted) + 1 && tasksFailed == old(tasksFailed)
      ensures r.Failure? ==> tasksFailed == old(tasksFailed) + 1 && tasksCompleted == old(tasksCompleted)
    {
      isProcessing := true;
      currentTask := Some(task);
      var t := task.(status := Processing, workerId := Some(id));
      started := t;
      var processingTime := ProcessingTime(t.priority);
      var thrown: bool;
      t, progress, thrown := SimulateProcessing(t, processingTime, firstLowDraw);
      if !thrown {
        t := t.(status := Completed, progress := 100);
        tasksCompleted := tasksCompleted + 1;
        r := Success(t);
      } else {
        t := t.(status := Failed, error := Some(FaultMessage));
        tasksFailed := tasksFailed + 1;
        r := Failure(t, FaultMessage);
      }
      // finally: the busy state is released on both paths
      isProcessing := false;
      currentTask := None;
    }

    /** Advances progress one step at a time and throws at the failing step.
        `totalTime` only paces the steps. */
    method SimulateProcessing(task: Task, totalTime: int, firstLowDraw: Option<nat>)
      returns (t: Task, progress: seq<int>, thrown: bool)
      ensures thrown <==> FailingStep(task, firstLowDraw).Some?
      ensures progress == ProgressTrace(StepsRun(task, firstLowDraw))
      ensures t == task.(progress := Progress(StepsRun(task, firstLowDraw)))
    {
      t := task;
      progress := [];
      thrown := false;
      var i := 1;
      while i <= Steps
        invariant 1 <= i <= Steps + 1
        invariant progress == ProgressTrace(i - 1)
        invariant t == if i == 1 then task else task.(progress := Progress(i - 1))
        invariant FailingStep(task, firstLowDraw).Some? ==> i <= FailingStep(task, firstLowDraw).value
        invariant !thrown
      {
        t := t.(progress := Progress(i));
        progress := progress + [t.progress];
        if firstLowDraw == Some(i) && t.retryCount == 0 {
          thrown := true;
          return;
        }
        i := i + 1;
      }
    }

    function GetStatus(): (s: WorkerStatus)
      reads this
      ensures s.id == id && s.isProcessing == isProcessing
      ensures s.tasksCompleted == tasksCompleted && s.tasksFailed == tasksFailed
      ensures s.currentTask.Some? <==> currentTask.Some?
      ensures currentTask.Some? ==> s.currentTask.value.id == currentTask.value.id
                                    && s.currentTask.value.title == currentTask.value.title
                                    && s.currentTask.value.progress == currentTask.value.progress
    {
      WorkerStatus(
        id,
        isProcessing,
        match currentTask
        case Some(t) => Some(TaskView(t.id, t.title, t.progress))
        case None => None,
        tasksCompleted,
        tasksFailed)
    }
  }
}
