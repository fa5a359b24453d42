# SplitTask scheduler core in Dafny

SplitTask is a Node.js job scheduler. Clients submit tasks with a priority. A
pool of workers takes them from a priority queue, runs a simulated piece of
work in ten progress steps, and reports success or failure. The pool
manager retries a failed task with exponential backoff until a retry
ceiling is reached.

This project models that backend in Dafny and proves properties of the
model:

- `tasks.dfy` (`Tasks`): the task record and the priority weight that both
  queues use.
- `task_queue.dfy` (`MemoryQueue`): the in-memory queue, a sorted array plus
  a processing map.
- `redis_queue.dfy` (`RedisQueueModel`): the Redis queue. The sorted set is
  a map from member to score and the processing hash a map from id to task.
  The clock is a parameter.
- `worker.dfy` (`WorkerModel`): the worker's state machine. The random fault
  is an input: the step at which the first draw below 5% happens.
- `worker_manager.dfy` (`WorkerManagerModel`): the pool manager and its retry
  policy. The asynchronous event handlers run as sequential steps after the
  worker returns. A `setTimeout` requeue is an entry in a pending-retry list
  that `FireRetry` drains.
- `ai_fallback.dfy` (`AiFallback`): the keyword classifier and retry advice
  the AI service falls back on, and the clean-up of a model reply before
  JSON parsing.
- `task_repository.dfy` (`SqlText`): the SQL text and value lists the task
  repository builds.
- `task_api.dfy` (`TaskApi`): the HTTP API's in-memory task store and its
  route handlers. Responses are values whose variants stand for the HTTP
  statuses.
- `text.dfy` (`Text`): the ASCII string helpers the others share.

Behaviour of the code that the model makes explicit:

- **Order within a priority band.** The score comment at
  `backend/services/redisQueue.js:38` says the timestamp term maintains order
  within a priority. The Redis queue scores a task
  `weight * 1000000 + Date.now()` and dequeues the highest score, so within
  one band the latest task comes out first. Priority decides only between
  tasks enqueued less than 1000000 ms apart per step of weight
  (`ScoreComparison`, `LaterLowerPriorityOvertakes`). The in-memory queue is
  first in, first out within a band.
- **Failed at 100%.** A fault at the tenth step leaves a failed task at 100%
  progress (`FailedAtFullProgress`).
- **Retry exhaustion.** The worker's fault fires only while the retry count
  is zero. A retried task therefore always succeeds, and the permanent
  failure branch is never reached from a worker's failure
  (`RetriedTaskSucceeds`, `WorkerFailureIsRetriedOnce`).
- **Invalid tasks.** The worker never rejects a task as invalid. The
  manager's "Invalid task" clean-up is modelled, but it never fires
  (`WorkerOutcomesAreNeverInvalid`).

## Model

| member | source | states |
|---|---|---|
| Tasks.Weight | backend/services/taskQueue.js:10-11 | high weighs 3, low 1, medium and any other priority 2, each as an if-and-only-if |
| Text.Lower | backend/services/aiService.js:95 | lower-casing keeps the length and lowers each ASCII capital, leaving every other character |
| Text.NatToStringRoundTrip | backend/services/taskRepository.js:42 | a number written into a `$n` placeholder reads back as that number, so distinct numbers give distinct placeholders |
| MemoryQueue.InsertionPoint | backend/services/taskQueue.js:14-20 | the scan stops at the first task of lower weight, or at the end; every task before it weighs at least as much as the new one |
| MemoryQueue.InsertShape | backend/services/taskQueue.js:22 | the splice grows the queue by one and puts the task at the insertion point; the other tasks keep their relative order, and the contents gain exactly the new task |
| MemoryQueue.InsertKeepsSorted | backend/services/taskQueue.js:14-22 | enqueueing keeps the queue sorted non-increasing by weight |
| MemoryQueue.InsertBehindEqualOrHigher | backend/services/taskQueue.js:14-20 | in a sorted queue the new task goes after exactly the tasks of equal or higher weight, so a band is first in, first out |
| MemoryQueue.TaskQueue.constructor | backend/services/taskQueue.js:2-5 | a new queue is empty, with nothing in processing |
| MemoryQueue.TaskQueue.Enqueue | backend/services/taskQueue.js:8-24 | the loop-and-splice leaves the queue equal to the sorted insertion of the task, sorted and processing untouched |
| MemoryQueue.TaskQueue.Dequeue | backend/services/taskQueue.js:27-35 | an empty queue returns null and changes nothing; otherwise the former head is returned, removed and recorded in processing under its id |
| MemoryQueue.TaskQueue.Complete | backend/services/taskQueue.js:38-41 | removes exactly that id from processing and leaves the queue alone |
| MemoryQueue.TaskQueue.Fail | backend/services/taskQueue.js:44-50 | removes the id when it is being processed; an absent id changes nothing |
| MemoryQueue.TaskQueue.GetStats | backend/services/taskQueue.js:53-59 | reports the queue length, the processing count and their sum, changing nothing |
| MemoryQueue.TaskQueue.GetAllTasks | backend/services/taskQueue.js:62-67 | a copy of the queue in order, and each processing task exactly once, changing nothing |
| MemoryQueue.PriorityOrderScenario | backend/services/taskQueue.js:8-35 | low A, high B and medium C enqueued in that order come out as B, C, A |
| MemoryQueue.SameBandScenario | backend/services/taskQueue.js:14-20 | two medium tasks come out in the order they went in |
| RedisQueueModel.Score | backend/services/redisQueue.js:28-39 | the score exceeds the timestamp by weight times 1000000 |
| RedisQueueModel.ScoreComparison | backend/services/redisQueue.js:39 | one score beats another exactly when the weight difference times 1000000 exceeds the time difference |
| RedisQueueModel.SameBandLaterFirst | backend/services/redisQueue.js:39 | within one priority, the later task has the higher score and so is dequeued first |
| RedisQueueModel.HigherPriorityFirstWithinWindow | backend/services/redisQueue.js:39 | tasks enqueued less than 1000000 ms apart are ranked by priority |
| RedisQueueModel.LaterLowerPriorityOvertakes | backend/services/redisQueue.js:39 | a lower-priority task enqueued long enough after a higher-priority one outranks it |
| RedisQueueModel.TopExists | backend/services/redisQueue.js:53-57 | a non-empty sorted set has a member of highest score for `zrevrange 0 0` to return |
| RedisQueueModel.Release | backend/services/redisQueue.js:72-76 | a falsy id or 'invalid' changes nothing; any other id is deleted from processing and nothing else is |
| RedisQueueModel.RetryStrategy | backend/services/redisQueue.js:8-11 | the reconnect delay is 50 ms per attempt up to 40 attempts and 2000 ms after, never above 2000 |
| RedisQueueModel.RetryStrategyMonotone | backend/services/redisQueue.js:9 | reconnect delays never shrink from one attempt to the next |
| RedisQueueModel.RedisQueue.constructor | backend/services/redisQueue.js:14-15 | the sorted set and the processing hash start empty |
| RedisQueueModel.RedisQueue.Enqueue | backend/services/redisQueue.js:27-48 | `zadd` puts the task in the set with its priority's score at time `now`; processing is untouched |
| RedisQueueModel.RedisQueue.Dequeue | backend/services/redisQueue.js:51-67 | an empty set returns null and changes nothing; otherwise a member of highest score leaves the set and enters processing under its id |
| RedisQueueModel.RedisQueue.Complete | backend/services/redisQueue.js:71-78 | processing becomes the release of the referenced id; the set is untouched |
| RedisQueueModel.RedisQueue.Fail | backend/services/redisQueue.js:82-89 | processing becomes the release of the referenced id; the set is untouched |
| RedisQueueModel.RedisQueue.Requeue | backend/services/redisQueue.js:91-95 | the id leaves processing, and the task re-enters the set with a fresh score |
| RedisQueueModel.RedisQueue.GetStats | backend/services/redisQueue.js:98-107 | reports the set size, the processing count and their sum |
| RedisQueueModel.RedisQueue.GetAllQueued | backend/services/redisQueue.js:110-113 | every queued task exactly once, by non-increasing score |
| RedisQueueModel.ListedStep | backend/services/redisQueue.js:110-113 | moving a highest-scored remaining task to the end of a partial listing keeps it duplicate-free, in non-increasing score order and complete |
| RedisQueueModel.SameBandScenario | backend/services/redisQueue.js:53 | of two tasks of one priority, the one enqueued later is dequeued first |
| WorkerModel.ProcessingTime | backend/workers/worker.js:66-73 | 3000 ms for high, 8000 for low, 5000 for medium and any other priority |
| WorkerModel.ProcessingTimeFollowsWeight | backend/workers/worker.js:67-72 | higher priority means strictly shorter simulated work, equal weight equal work |
| WorkerModel.ProgressTrace | backend/workers/worker.js:80-83 | the `k`-th reported progress is the value after step `k + 1` |
| WorkerModel.ProgressTraceShape | backend/workers/worker.js:80-83 | reported progress rises strictly, stays within 10..100, and is 100 only at the tenth step |
| WorkerModel.FailingStep | backend/workers/worker.js:93-95 | the fault fires only at a step between 1 and 10, and only for a task whose retry count is zero |
| WorkerModel.StepsRun | backend/workers/worker.js:80-96 | between one and ten steps run |
| WorkerModel.RunOutcome | backend/workers/worker.js:14-63 | a run succeeds exactly when no fault fires. Success is completed at 100%. Failure is failed, with the fault message as error and progress ten times the failing step. Both carry the worker's id, and id, title, priority and retry count are kept |
| WorkerModel.RetriedTaskSucceeds | backend/workers/worker.js:93 | a task with a non-zero retry count always succeeds |
| WorkerModel.FailedAtFullProgress | backend/workers/worker.js:46-57 | a fault at the tenth step leaves a failed task at 100% progress |
| WorkerModel.FaultMessageIsNotInvalidTask | backend/workers/worker.js:94 | the fault's message does not contain "Invalid task" |
| WorkerModel.Worker.constructor | backend/workers/worker.js:4-11 | a new worker is idle, with no current task and zero counters |
| WorkerModel.Worker.ProcessTask | backend/workers/worker.js:14-63 | the worker ends idle with no task on every path. The task is announced as processing with the worker's id, the progress values are the trace of the steps run, and the outcome is the run's. Exactly the matching counter rises by one |
| WorkerModel.Worker.SimulateProcessing | backend/workers/worker.js:76-97 | the loop throws exactly when a fault fires, reports the progress of each step run, and leaves the task at the last step's progress |
| WorkerModel.Worker.GetStatus | backend/workers/worker.js:105-117 | reports the worker's id, busy flag and counters, and the current task's id, title and progress exactly when there is one |
| WorkerManagerModel.RetryDecision | backend/workers/workerManager.js:112-121 | the retry count rises by one, and the task is retried exactly when the new count is below 3 |
| WorkerManagerModel.RetrySchedule | backend/workers/workerManager.js:121-139 | the first failure waits 2000 ms, the second 4000 ms, and the third gives up |
| WorkerManagerModel.BackoffStrictlyIncreasing | backend/workers/workerManager.js:130 | a later retry waits strictly longer than an earlier one |
| WorkerManagerModel.WorkerOutcomesAreNeverInvalid | backend/workers/workerManager.js:91-98 | no outcome a worker produces triggers the invalid-task clean-up |
| WorkerManagerModel.WorkerFailureIsRetriedOnce | backend/workers/workerManager.js:113-130 | every failure a worker reports is retried with count 1 after 2000 ms |
| WorkerManagerModel.IdleWorkers | backend/workers/workerManager.js:103 | holds exactly the idle workers of the pool |
| WorkerManagerModel.IdleCountOfFlags | backend/workers/workerManager.js:103 | the filter keeps as many workers as the busy flags count idle |
| WorkerManagerModel.ActiveWorkers | backend/workers/workerManager.js:164 | holds exactly the busy workers of the pool |
| WorkerManagerModel.ActivePlusIdle | backend/workers/workerManager.js:163-165 | active plus idle workers make up the total |
| WorkerManagerModel.WorkerManager.constructor | backend/workers/workerManager.js:6-11 | a stopped pool with no workers, on the given queue, three workers by default |
| WorkerManagerModel.WorkerManager.Initialize | backend/workers/workerManager.js:14-43 | appends `workerCount` new idle workers with ids 1..workerCount, in order, and zero counters |
| WorkerManagerModel.WorkerManager.Start | backend/workers/workerManager.js:46-64 | the pool ends running. When already running nothing else changes. Otherwise each worker is offered a task once: as many tasks leave the queue as there were tasks or idle workers, whichever is fewer. They are the top-scored ones, taken in non-increasing score order, and the rest keep their scores. Busy workers are untouched and idle ones end idle. Earlier pending retries stay in order, and each new one requeues a taken task with count 1 after 2000 ms. A processing entry under an id no taken task carries is kept; every other entry is a taken task under its own id |
| WorkerManagerModel.WorkerManager.Stop | backend/workers/workerManager.js:67-73 | the pool is no longer running |
| WorkerManagerModel.WorkerManager.AssignNextTask | backend/workers/workerManager.js:77-100 | a stopped pool, a busy worker or an empty queue changes nothing. Otherwise one top-score task leaves the queue and only this worker runs it, and its completed count rises by one on success, its failed count on failure. Success releases the task. A failure goes to the retry policy, then the invalid-task clean-up |
| WorkerManagerModel.WorkerManager.OfferEach | backend/workers/workerManager.js:56-58 | offering each worker of a list in turn hands out as many tasks as there are tasks or idle workers, whichever is fewer, and leaves the queue, retries and processing hash as a round that took those tasks |
| WorkerManagerModel.WorkerManager.OfferOne | backend/workers/workerManager.js:77-100 | one offer takes a task exactly when the pool runs, the worker is idle and the queue is non-empty; the round's guarantees still hold afterwards |
| WorkerManagerModel.OfferStep | backend/workers/workerManager.js:77-100 | whatever the run's outcome, an offer that takes the top task extends the round by that task |
| WorkerManagerModel.QueueTakenStep | backend/workers/workerManager.js:81 | taking a highest-scored task keeps the taken tasks distinct, in non-increasing score order and scoring at least as high as every task left |
| WorkerManagerModel.RetriesAddedStep | backend/workers/workerManager.js:121-138 | an offer adds no retry, or one for its own task with count 1 after 2000 ms |
| WorkerManagerModel.ProcessingTouchedStep | backend/workers/workerManager.js:81-98 | an offer records its task under its id and may release that id; no other processing entry changes |
| WorkerManagerModel.SuccessDropsCollidingEntry | backend/services/redisQueue.js:64-78 | a dispatched task whose id already has a processing entry overwrites it, and its successful run removes it, leaving one entry fewer |
| WorkerManagerModel.CountStep | backend/workers/workerManager.js:77-80 | one more offer keeps the dispatch count at the smaller of the tasks and the idle workers seen |
| WorkerManagerModel.WorkerManager.CheckForTasks | backend/workers/workerManager.js:102-108 | a stopped pool changes nothing. Otherwise each worker idle at filter time is offered a task once, with the same dispatch count, top-score order, retry and processing guarantees as `Start`. Busy workers are untouched and idle ones end idle |
| WorkerManagerModel.WorkerManager.HandleTaskFailure | backend/workers/workerManager.js:111-153 | below the ceiling a requeue with the raised count and the backoff delay is scheduled, leaving the queue alone; at the ceiling the task is failed in processing and never requeued |
| WorkerManagerModel.WorkerManager.FireRetry | backend/workers/workerManager.js:132-138 | the timer removes its entry and requeues the task as pending with its error cleared |
| WorkerManagerModel.WorkerManager.GetStats | backend/workers/workerManager.js:160-175 | total, active and idle counts with active plus idle equal to total, the completed and failed sums, the queue's counts and the run flag |
| AiFallback.MatchesLowered | backend/services/aiService.js:102 | testing the lower-cased title case-insensitively is testing the title |
| AiFallback.GetFallbackAnalysis | backend/services/aiService.js:94-123 | an urgent title is recommended high, and a non-urgent title with clean, archive or backup low; any other priority is kept. Complexity is high exactly when urgent or large-scale, and low exactly when neither but a clean-up word occurs. Time is 10/15/20 by complexity, and the reasoning names urgency. The tags are those of `Tags`, which `TagsOrderedAndExact` shows ordered and present exactly when their keywords match |
| AiFallback.ComplexityOf | backend/services/aiService.js:97-102 | complexity is high exactly when the title is urgent or large-scale, and low exactly when neither holds but a clean-up word occurs |
| AiFallback.RecommendedPriority | backend/services/aiService.js:104-106 | an urgent title gets high; a non-urgent title with clean, archive or backup gets low; any other title keeps the given priority |
| AiFallback.TagsFor | backend/services/aiService.js:109-114 | whichever tests hold, the pushed tags come in the order email, payment, financial, urgent, bulk, each at most once |
| AiFallback.TagsForExact | backend/services/aiService.js:110-114 | each tag is present exactly when its test holds, payment and financial together |
| AiFallback.TagsOrderedAndExact | backend/services/aiService.js:110-114 | tags come in the order email, payment, financial, urgent, bulk, each at most once, each present exactly when its keywords occur |
| AiFallback.RecommendationNeverDemotesUrgent | backend/services/aiService.js:104-106 | an urgent title is always recommended high, and a changed priority always has a keyword behind it |
| AiFallback.ExampleMentions | backend/test-groq.js:9 | the lower-cased example title mentions urgent and payment and holds a run of three digits |
| AiFallback.ExampleLacksEmail | backend/test-groq.js:9 | the lower-cased example title does not mention email |
| AiFallback.ExampleLacksMail | backend/test-groq.js:9 | the lower-cased example title does not mention mail |
| AiFallback.ExampleLacksSend | backend/test-groq.js:9 | the lower-cased example title does not mention send |
| AiFallback.ExampleTags | backend/test-groq.js:9 | the example title is tagged payment, financial, urgent and bulk, in that order |
| AiFallback.ExampleKeywords | backend/test-groq.js:9 | 'URGENT: Process 5000 payment refunds' is urgent, mentions payment and holds a digit run, but no mail keyword |
| AiFallback.UrgentPaymentExample | backend/test-groq.js:9-11 | that title gets high complexity, 10 seconds, priority high, the urgent reasoning and the tags payment, financial, urgent, bulk |
| AiFallback.FallbackRetry | backend/services/aiService.js:126-131 | retry exactly while the attempt number is below 3, after 2^attempt seconds |
| AiFallback.FallbackAgreesWithManager | backend/services/aiService.js:171-175 | for the attempt after a failure the advice agrees with the pool manager on retrying, and on the wait |
| AiFallback.Trim | backend/services/aiService.js:75 | the result is a slice of the input, with only whitespace cut on either side, and starts and ends with non-whitespace |
| AiFallback.TrimIdempotent | backend/services/aiService.js:83 | trimming a trimmed reply changes nothing |
| AiFallback.NoFenceAfterRemoval | backend/services/aiService.js:77-79 | removing every "```" with its optional newline leaves no "```" behind |
| AiFallback.RemoveMarkerAbsent | backend/services/aiService.js:77-79 | a `replace(/m\n?/g, '')` on text without the marker returns the text unchanged |
| AiFallback.RemoveMarkerLeading | backend/services/aiService.js:77-79 | a marker at the front goes together with one newline right after it, and the removal goes on after them |
| AiFallback.RemoveMarkerKeepsPrefix | backend/services/aiService.js:77-79 | text in front of the first marker is kept as it is, and the removal goes on after it |
| AiFallback.RemoveMarkerAtFirst | backend/services/aiService.js:77-79 | at the first marker, the text before it is kept, the marker and one newline after it go, and the removal goes on after them |
| AiFallback.ClosingFenceRemoved | backend/services/aiService.js:77-79 | a body without "```" followed by a newline and a closing "```" loses the fence and keeps the body and that newline |
| AiFallback.NoJsonMarkerBeforeClosing | backend/services/aiService.js:77 | a body without "```" followed by a closing fence holds no "```json", so the first replace leaves it alone |
| AiFallback.JsonFenceUnfenced | backend/services/aiService.js:76-77 | "```json", a newline, a body without "```", a newline and "```" unfence to the body and that last newline |
| AiFallback.PlainFenceUnfenced | backend/services/aiService.js:78-79 | "```", a newline, a body without "```", a newline and "```" unfence to the body and that last newline |
| AiFallback.TrimDropsTrailingNewline | backend/services/aiService.js:83 | trimming ignores one trailing newline |
| AiFallback.FencedReplyRoundTrip | backend/services/aiService.js:75-83 | a body without "```" wrapped in a "```json" fence, or a plain "```" fence, on lines of their own cleans back to the trimmed body |
| AiFallback.StripFencesJsonBody | backend/services/aiService.js:75-83 | a reply that trims to "```json", a newline, a body without "```", a newline and "```" cleans to that body, trimmed |
| AiFallback.StripFencesPlainBody | backend/services/aiService.js:75-83 | a reply that trims to "```", a newline, a body without "```", a newline and "```" cleans to that body, trimmed |
| AiFallback.UnfencedUnchanged | backend/services/aiService.js:76-80 | a trimmed reply that does not start with "```" (so not with "```json" either) is left as it is |
| AiFallback.UnfencedHasNoFence | backend/services/aiService.js:76-80 | a trimmed reply starting with "```", whichever branch it takes, keeps no "```" |
| AiFallback.StripFencesEffect | backend/services/aiService.js:75-80 | a reply starting with a fence loses every "```"; any other reply is only trimmed |
| AiFallback.StripFencesIsClean | backend/services/aiService.js:83 | the cleaned reply is trimmed and does not start with a fence |
| AiFallback.StripFencesIdempotent | backend/services/aiService.js:75-83 | cleaning a cleaned reply changes nothing |
| AiFallback.AnalyzeTask | backend/services/aiService.js:16-92 | the keyword analysis is returned exactly when there is no client or no usable reply; otherwise the cleaned reply goes to the parser |
| AiFallback.ShouldRetry | backend/services/aiService.js:125-177 | the fallback advice is returned exactly when there is no client or no usable reply, retrying while the attempt is below 3 after 2^attempt seconds |
| AiFallback.GetModelInfo | backend/services/aiService.js:179-186 | the provider is Groq and the model LLaMA 3 8B; the status is 'active' exactly when a client exists, otherwise 'fallback', with the two capabilities |
| SqlText.SnakeCase | backend/services/taskRepository.js:41 | a column name holds no capital letter |
| SqlText.SnakeCaseLength | backend/services/taskRepository.js:41 | each capital adds exactly one character, its underscore |
| SqlText.SnakeCaseOfLowerKey | backend/services/taskRepository.js:41 | a key without capitals is its own column name |
| SqlText.SnakeCaseRoundTrip | backend/services/taskRepository.js:41 | a key without underscores is recovered from its column name |
| SqlText.RetryCountColumn | backend/workers/workerManager.js:116-119 | the key `retryCount` becomes the column `retry_count` |
| SqlText.ErrorMessageColumn | backend/workers/workerManager.js:116-119 | the key `errorMessage` becomes the column `error_message` |
| SqlText.SnakeCaseTwoWords | backend/services/taskRepository.js:41 | a lower-case word followed by a capitalised one becomes the two joined by an underscore, the capital lowered |
| SqlText.Assignments | backend/services/taskRepository.js:39-45 | the `i`-th SET item assigns the `i`-th key's column to placeholder `first + i` |
| SqlText.AssignmentPlaceholderLinesUp | backend/services/taskRepository.js:42-43 | the placeholder of the `i`-th SET item reads back as `i + 1`, the position of its value |
| SqlText.BindUpdates | backend/services/taskRepository.js:34-45 | the loop binds the `i`-th key's column to `$(i + 1)` and its value to position `i`, and the counter ends one past the last key |
| SqlText.Update | backend/services/taskRepository.js:33-58 | values are the update values in key order followed by the id. The SET items number from `$1`, and the WHERE placeholder is the number of values |
| SqlText.FilterConditions | backend/services/taskRepository.js:72-86 | the status condition on `$1` and its value come before the priority condition, whose placeholder is the number of values |
| SqlText.FindAll | backend/services/taskRepository.js:70-100 | the status value precedes the priority value. Placeholders number from `$1`, with priority's equal to the value count. WHERE appears only with a filter set, ORDER BY created_at DESC always, and LIMIT only with a truthy limit, followed by that limit's text as given |
| SqlText.CreateValues | backend/services/taskRepository.js:14-22 | seven values; falsy priority, status and creation time become 'medium', 'pending' and now |
| SqlText.Create | backend/services/taskRepository.js:6-22 | the insert text with its seven values |
| TaskApi.StatusCode | backend/server.js:37-71 | a created task is sent with 201, a bad request with 400, a missing task with 404, anything else with 200 |
| TaskApi.OnlyPositionIsFirst | backend/server.js:64 | with increasing ids, a task holding an id is the first and only one holding it |
| TaskApi.TaskStore.constructor | backend/server.js:12-13 | the store starts empty with the counter at 1 |
| TaskApi.TaskStore.FindIndex | backend/server.js:104 | the first position holding the id, or -1 exactly when none does |
| TaskApi.TaskStore.GetAll | backend/server.js:25-31 | the count and all tasks in creation order |
| TaskApi.TaskStore.Create | backend/server.js:34-60 | an empty title is refused and changes nothing. Otherwise the new task takes the counter, which then rises. It gets the defaults '' and 'medium', status pending, no completion time, and goes at the end. Ids stay unique and increasing |
| TaskApi.TaskStore.Find | backend/server.js:63-77 | the first task with the id, or not found exactly when none has it |
| TaskApi.TaskStore.Patch | backend/server.js:80-100 | not found changes nothing. Otherwise only the first matching task changes: it takes the new status, and a completion time only when the status is 'completed' |
| TaskApi.TaskStore.Delete | backend/server.js:103-119 | not found changes nothing; otherwise exactly the matching task is removed and the others keep their order |

## Left out

- Concurrency: every operation is atomic and sequential. The interleaving of asynchronous handlers, the overlap of `setInterval` rounds and the race between `zrevrange` and `zrem` in `dequeue` are not modelled. The follow-up `assignNextTask` that each worker event handler issues is the caller's next `AssignNextTask` call.
- Timers: which pending retry fires next is chosen by the caller of `FireRetry`, not by its delay. `setInterval` polling is the caller calling `CheckForTasks`.
- Redis, Postgres and the Groq client are not called. The sorted set and hash are maps. A query is its text and values. A model reply is an input, and `None` stands for a failed call or a reply `JSON.parse` rejects. The parser itself is not modelled.
- `Math.random`, `Date.now()` and ISO timestamps are inputs (`firstLowDraw`, `now`). `startedAt`, `completedAt` and `failedAt` on the scheduler's task record are not modelled. Progress after step i is the integer `i * 100 / 10`, computed in integers rather than through the floating-point `Math.floor((i / 10) * 100)`.
- WorkerManagerModel.WorkerManager.HandleTaskFailure: does not model the database update or the history entries it writes. SqlText models the text of such updates.
- WorkerManagerModel.WorkerManager.Start: the `forEach` with asynchronous callbacks starts every offer at once; the model makes the offers one after another, each running its task to the end before the next worker is offered one. In the code every idle worker reads the same top member (`zrevrange`) before any of them removes it (`zrem`), so the first round runs one task on all idle workers; the model's count of distinct tasks, `Min(|queue|, idle)`, is that of a sequential round.
- SqlText.FindAll: a truthy limit is given as the text it renders as inside the template literal; JavaScript's conversion of a value to that text is not modelled.
- WorkerManagerModel.WorkerManager.GetStats: the code returns the Promise from the queue's `getStats` without awaiting it; the model reports the resolved counts.
- MemoryQueue.TaskQueue.Dequeue: the processing map holds references in the code, so later changes to a task object show through it. The model stores values. It also omits the `priorityValue` field `enqueue` adds to the task.
- MemoryQueue.TaskQueue.GetAllTasks: the processing tasks are returned in some order. JavaScript Map insertion order is not modelled.
- RedisQueueModel.RedisQueue.GetAllQueued: members of equal score may come in any order. Redis's lexicographic tie order is not modelled.
- RedisQueueModel.RedisQueue.Dequeue: with several members of equal top score, any one of them may be taken.
- A null task handed to a worker cannot be expressed: tasks are values.
- Priorities: any name other than high, medium or low is `Other`. The object-prototype names that `priorityOrder[p]` could resolve are not modelled.
- Strings are ASCII for case folding. Trimming knows the ASCII whitespace plus no-break space and the byte-order mark, not every Unicode space.
- Falsy values are the empty string, 0 and a missing field. Other falsy inputs such as `false`, `NaN` or `null` are not distinguished.
- Express routing, CORS, the `/health` route and `parseInt` of the URL id: the id is an already parsed integer.
- The manager's `getWorkersStatus` is `GetStatus` applied to each worker; it is not modelled separately.
- The Redis queue's `getAllProcessing`, `clear` and `close`, and the repository's `findById`, `delete`, `logHistory`, `getStats` and `getHistory`: each is a single store call with a fixed query and nothing to state beyond it.
- Console logging everywhere.
