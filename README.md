# Task lifecycle of the taskflow backend, in Dafny

This project models the backend task lifecycle of taskflow. A client posts a
task with a name and a description. The controller creates a task document
(status `pending`, progress 0, retries 0) and appends one `process-task` job to
the `tasks` queue. A worker picks the job up and issues a fixed sequence of
status writes against the document:

- `processing` at 10;
- five `processing` steps at `min(20 + 16i, 90)`;
- `completed` at 100 with a result object.

If any of those store calls raises, the catch block writes `failed` at 0 with
the error message and re-raises. The HTTP handlers turn each outcome into a
status code and a JSON body.

Modules, one per source file of the core:

- `Common` (common.dfy): `Option`, `Result`, and the errors the store and the
  queue raise, with the `message` each one carries.
- `TaskModel` (task_model.dfy): the document schema of
  `backend/src/models/Task.ts`. This covers the status enumeration, the
  defaults, the `trim: true` setter (ECMAScript `String.prototype.trim`), the
  `required` checks and the progress bounds.
- `TaskService` (task_service.dfy): `backend/src/services/taskService.ts`.
  - A `TaskStore` class holds the collection as a map from id to document,
    plus the collection's natural insertion order and an abstract clock.
  - Its methods are the mutating operations.
  - The DTO projection, the partial overwrite of `updateTaskStatus` and the
    newest-first listing are functions proved against their meaning.
- `JobQueue` (job_queue.dfy): the queue as the controller sees it, a `Queue`
  class whose job list `add` appends to.
- `TaskWorker` (task_worker.dfy): `processTask` and the job handler of
  `backend/src/workers/taskWorker.ts`.
  - These are methods that run against the store, with an injected failure
    point: `Fault(call, message)` makes store call number `call` raise.
  - The store keeps a ghost `log` of every `updateTaskStatus` call that
    takes effect. The call a `Fault` makes raise writes nothing and is not in
    the log. The methods are proved to append exactly the write sequence
    `AttemptWrites` to it.
  - The lemmas about that sequence state the bounds, the ordering and the
    final document.
- `TaskController` (task_controller.dfy): `enqueueTask`, `getTaskById` and
  `listAllTasks` of `backend/src/controllers/taskController.ts`.
- `TaskRoutes` (task_routes.dfy): the three handlers of
  `backend/src/routes/taskRoutes.ts`, as response decisions.

Things handled as parameters:

- The uuid of a new task is a parameter of `CreateTask` and `EnqueueTask`.
- Time is the store's `now` field. Only `TaskStore.Advance` moves it.
- The random draws of the worker's result object are a `WorkSample`
  parameter.
- A database that raises is `dbFault`: on `CreateTask`, `EnqueueTask` and
  `CreateTaskHandler` for `save()`, and on the read handlers for the queries.
  A raising `updateTaskStatus` in the worker is the worker's `Fault`.
- A Redis connection that raises is `queueFault` (or `fault` in `Queue.Add`).

## Model

| member | source | states |
|---|---|---|
| TaskModel.Trim | backend/src/models/Task.ts:34 | the `trim: true` setter as ECMAScript `String.prototype.trim`; its meaning is stated by TrimShape, TrimEmptyIff and TrimIdempotent |
| TaskModel.TrimShape | backend/src/models/Task.ts:31-40 | the trim setter yields a contiguous part of the input with no trimmable character at either end, and every character cut off before or after it is trimmable |
| TaskModel.TrimBounds | backend/src/models/Task.ts:34-39 | gives the two cut points: the trimmed value is the input between them and everything outside them is trimmable |
| TaskModel.TrimIdempotent | backend/src/models/Task.ts:34 | trimming an already trimmed name or description changes nothing |
| TaskModel.TrimEmptyIff | backend/src/models/Task.ts:31-40 | a string trims to empty exactly when every character of it is whitespace or a line terminator |
| TaskModel.MissingRequired | backend/src/models/Task.ts:25-40 | the paths whose `required` check fails: `id` exactly when it is empty, `name`/`description` exactly when they trim to empty |
| TaskModel.NewRecord | backend/src/services/taskService.ts:26-33 | the document `new Task({...})` builds, with the schema defaults and the trimmed fields; described by NewRecordValid and TaskStore.CreateTask |
| TaskModel.NewRecordValid | backend/src/models/Task.ts:41-64 | a document that passes validation satisfies the schema and carries the defaults: pending, progress 0, result null, error null, retries 0, trimmed name and description |
| TaskService.FormatTaskDTO | backend/src/services/taskService.ts:141-154 | fields copied; result present iff truthy; error present iff set and non-empty; a missing retry counter reads as 0 |
| TaskService.UpdateRecord | backend/src/services/taskService.ts:70-82 | status, progress (default 0) and updatedAt overwritten; result and error replaced only when supplied, kept otherwise; id, name, description, retries, createdAt untouched |
| TaskService.ApplyUpdate | backend/src/services/taskService.ts:84-92 | a write to an unknown id leaves the collection unchanged; otherwise only that document is replaced; no document is added or removed |
| TaskService.ApplyUpdatesKeepsFixedFields | backend/src/services/taskService.ts:70-82 | any sequence of status writes keeps the set of documents and every document's id, name, description, retries and createdAt |
| TaskService.ApplyUpdateKeeps | backend/src/services/taskService.ts:84-88 | a status write keeps the store consistent and every retry counter, and keeps all progress in 0..100 when the written progress is in range |
| TaskService.BumpRetries | backend/src/services/taskService.ts:102-109 | `$inc: { retries: 1 }` raises the counter by exactly one (a missing counter counts from 0) and changes only retries and updatedAt |
| TaskService.ShouldRetry | backend/src/services/taskService.ts:121-124 | true exactly when retries < 3 |
| TaskService.RetriesAfterIncrements | backend/src/services/taskService.ts:101-124 | k increments add exactly k, so a new task may be retried exactly while fewer than 3 increments have happened |
| TaskService.SortNewestFirst | backend/src/services/taskService.ts:53-55 | the sort is a permutation of the ids and orders them by createdAt descending |
| TaskService.InsertKeepsNewestFirst | backend/src/services/taskService.ts:53-55 | inserting one id into a newest-first sequence keeps it newest first |
| TaskService.DistinctPermutation | backend/src/models/Task.ts:28 | a permutation of a repetition-free id sequence has no repetitions, so sorting keeps ids unique |
| TaskService.SortedIdsCoverStore | backend/src/services/taskService.ts:53-55 | the sorted natural order holds every stored id exactly once |
| TaskService.Listing | backend/src/services/taskService.ts:52-58 | the listing has one entry per document, each the DTO of a stored document, every stored id appears, no id twice, createdAt non-increasing |
| TaskService.Without | backend/src/services/taskService.ts:130 | removing an id from the natural order keeps exactly the other ids and keeps them distinct |
| TaskService.TaskStore.Advance | backend/src/services/taskService.ts:73 | the clock read by `new Date()` and the schema timestamps moves forward by the given amount and nothing else changes |
| TaskService.TaskStore.CreateError | backend/src/services/taskService.ts:26-35 | `save()` fails with the failed required paths first, then with the connection's error, then with a duplicate key for an id already stored, and succeeds otherwise |
| TaskService.TaskStore.CreateTask | backend/src/services/taskService.ts:23-39 | on success the id was absent and the new document is the only change, appended to the natural order, returned as a pending DTO at progress 0, retries 0, trimmed fields; on failure (validation, a raising connection, a duplicate key) the error and no change; the status-write log is untouched |
| TaskService.TaskStore.GetTask | backend/src/services/taskService.ts:44-47 | null exactly when no document has the id, otherwise that document's DTO |
| TaskService.TaskStore.GetAllTasks | backend/src/services/taskService.ts:52-58 | every stored task exactly once, as its DTO, createdAt descending |
| TaskService.TaskStore.UpdateTaskStatus | backend/src/services/taskService.ts:63-96 | the call is appended to the log whether or not it matched; null and no change exactly for an unknown id; otherwise the collection after the partial overwrite and the updated DTO; consistency kept |
| TaskService.TaskStore.IncrementRetries | backend/src/services/taskService.ts:101-116 | null and no change for an unknown id; otherwise the counter raised by one, the new count returned |
| TaskService.TaskStore.DeleteTask | backend/src/services/taskService.ts:129-136 | true exactly when a document with the id existed; afterwards it is gone, nothing else changes and getTask on it is null |
| JobQueue.Queue.Add | backend/src/controllers/taskController.ts:11-22 | a failing connection adds nothing and raises; otherwise exactly one job with the given name, data and options is appended, under an id no earlier job has, so job ids stay distinct |
| TaskWorker.ResultObject | backend/src/workers/taskWorker.ts:34-39 | the result object is truthy, so the DTO of a completed task shows it |
| TaskWorker.StepProgressValues | backend/src/workers/taskWorker.ts:29 | the five step values are 36, 52, 68, 84, 90 |
| TaskWorker.AttemptWrites | backend/src/workers/taskWorker.ts:22-49 | the status writes of one attempt; described by AttemptWriteAt, FirstWrite, SuccessfulAttempt, FailedAttempt and, for what the worker issues, ProcessTask |
| TaskWorker.AttemptWriteAt | backend/src/workers/taskWorker.ts:22-49 | the k-th write of an attempt is the planned write before the failing call and the failure write at it; length k+1 on failure, 7 otherwise |
| TaskWorker.AttemptWritesShape | backend/src/workers/taskWorker.ts:17-50 | every write of an attempt targets the task it was given |
| TaskWorker.FirstWrite | backend/src/workers/taskWorker.ts:23 | the first write is `processing` at 10 unless that call raises, when the only write is the failure write |
| TaskWorker.SuccessfulAttempt | backend/src/workers/taskWorker.ts:34-44 | without a failure there are exactly 7 writes, the last `completed` at 100 with the result, and the result is returned |
| TaskWorker.FailedAttempt | backend/src/workers/taskWorker.ts:45-49 | with a failure at call k there are k+1 writes, the last `failed` at 0 with the message and no result, the rest the planned writes, and the error is raised again |
| TaskWorker.AttemptProgressInBounds | backend/src/workers/taskWorker.ts:22-49 | every write of an attempt gives its progress explicitly, in 0..100 |
| TaskWorker.AttemptStatusPath | backend/src/workers/taskWorker.ts:22-49 | all writes but the last are `processing`; the last is `completed` iff nothing failed and `failed` iff something did |
| TaskWorker.ProcessingProgressIncreasing | backend/src/workers/taskWorker.ts:25-32 | the processing writes report strictly increasing progress, never above 90 |
| TaskWorker.UpdatesElsewhere | backend/src/services/taskService.ts:84-88 | writes that all target other ids leave a document present or absent as it was, and leave a present one unchanged (the `{ id: taskId }` filter); the general form of "other documents unchanged" |
| TaskWorker.UpdatesOfUnknownTask | backend/src/services/taskService.ts:84-92 | any sequence of writes to an id with no document leaves the collection unchanged |
| TaskWorker.UpdatesKeepUnsupplied | backend/src/services/taskService.ts:76-82 | writes that never supply a result (or an error) keep the stored one |
| TaskWorker.AttemptFinalRecord | backend/src/workers/taskWorker.ts:22-49 | after an attempt the task is completed at 100 with the result and its old error, or failed at 0 with the message and its old result; other documents unchanged; an unknown id changes nothing |
| TaskWorker.StaleErrorSurvivesRetry | backend/src/services/taskService.ts:76-82 | a failed attempt followed by a successful one leaves the task completed with the new result and still carrying the first error, and its DTO shows both |
| TaskWorker.AfterAttemptKeeps | backend/src/workers/taskWorker.ts:17-50 | an attempt keeps the store consistent, every document and its retry counter, and every progress in range |
| TaskWorker.ReportStep | backend/src/workers/taskWorker.ts:29-31 | one pass of the step loop appends the i-th planned write to the log and applies it |
| TaskWorker.ReportProgress | backend/src/workers/taskWorker.ts:25-32 | the step loop appends the planned writes up to the failing call to the log and returns its message, or all five when none of them raises |
| TaskWorker.TryAttempt | backend/src/workers/taskWorker.ts:22-44 | the try block appends the planned writes up to the failing call to the log; it yields the result object iff no call raises, otherwise the message |
| TaskWorker.ProcessTask | backend/src/workers/taskWorker.ts:17-50 | the calls that take effect are exactly the attempt's write sequence (appended to the log; the raising call is not among them), the store ends as that sequence makes it, the outcome is the result or the re-raised message, and retries, consistency and the progress range are kept |
| TaskWorker.HandleJob | backend/src/workers/taskWorker.ts:57-62 | the handler runs exactly the attempt for the payload's taskId, whose effective writes are its write sequence; every write targets that id |
| TaskController.ProcessingJob | backend/src/controllers/taskController.ts:11-22 | the job is named `process-task`, carries the task id and the name and description as passed, with delay 1000, attempts 3 and exponential backoff from 2000 |
| TaskController.EnqueueTask | backend/src/controllers/taskController.ts:7-30 | a failed create (including a raising `save()`) adds no job and returns its error; after a create, a failed append keeps the task stored and returns the queue error; otherwise exactly one job for the new task and its pending DTO |
| TaskController.RetryLimitMatchesAttempts | backend/src/services/taskService.ts:121-124 | the two separate constants agree: the store's retry check allows a run exactly while the count is below the queue's `attempts: 3` (taskController.ts:16); it holds by unfolding both definitions |
| TaskController.GetTaskById | backend/src/controllers/taskController.ts:35-37 | exactly the store's answer for the id |
| TaskController.ListAllTasks | backend/src/controllers/taskController.ts:42-44 | exactly the store's listing: every task once, newest first |
| Common.Message | backend/src/routes/taskRoutes.ts:28 | the `message` of a thrown error; the mongoose validation and MongoDB duplicate-key texts are library messages, not written in this repository, and are modelled on their usual wording |
| TaskRoutes.Failure | backend/src/routes/taskRoutes.ts:24-30 | a thrown error becomes a 500 with the error's message as details |
| TaskRoutes.CheckCreateBody | backend/src/routes/taskRoutes.ts:11-15 | a 400 with the missing-fields message exactly when the name or the description is missing or empty |
| TaskRoutes.CreateTaskResponse | backend/src/routes/taskRoutes.ts:17-30 | 201 with the created task exactly when enqueueing succeeded, otherwise the 500 for its error |
| TaskRoutes.ListTasksResponse | backend/src/routes/taskRoutes.ts:38-51 | 200 exactly on success, with count equal to the length of data; otherwise the 500 |
| TaskRoutes.GetTaskResponse | backend/src/routes/taskRoutes.ts:60-78 | 404 exactly for no task, 200 with the task exactly for a task, otherwise the 500 |
| TaskRoutes.GetTaskHandler | backend/src/routes/taskRoutes.ts:57-79 | an unknown id gives 404, a stored id gives 200 with its DTO, a database error gives 500 |
| TaskRoutes.ListTasksHandler | backend/src/routes/taskRoutes.ts:36-52 | 200 whose data is the controller's listing: every stored task once, each entry the DTO of its stored document, createdAt non-increasing, count equal to the number of tasks; or 500 on a database error |
| TaskRoutes.CreateTaskHandler | backend/src/routes/taskRoutes.ts:7-31 | a 400 changes neither store nor queue; a failed create gives the 500 for its error and changes neither the documents, their natural order, the jobs nor the job counter; after a create the new document is stored and appended to the natural order, then a failed append gives the 500 with the queue error's message and leaves the queue (jobs and job counter) as it was, and otherwise the reply is 201 with the created message and the new task's DTO and exactly the processing job is appended under the next job id |
| TaskRoutes.BlankNameIsServerError | backend/src/routes/taskRoutes.ts:11-17 | a whitespace-only name passes the 400 check but fails schema validation, so the client gets a 500 |

## Left out

- Express, MongoDB and Redis I/O become in-memory state. A connection that raises is a fault parameter on `save()` (create), on the route's reads and on `queue.add`; inside the worker it is the `Fault` of a status write. `incrementRetries` and `deleteTask` have no fault parameter, since no caller in the core uses them.
- Queue delivery is left out: delayed delivery, redelivery up to `attempts`, the backoff formula, and `concurrency: 2`. The options are kept as data only, because the library applies them.
- Concurrent workers writing the same task are left out, so interleaved writes of two attempts are not modelled.
- The two-second sleeps, logging and the worker's event listeners are left out. The model has no time passing inside an attempt.
- The `Math.random` draws and `toFixed` of the result object are a parameter. Floating point is not modelled.
- Tasks created at the same clock reading are listed in the collection's natural (insertion) order. MongoDB leaves the order of equal `createdAt` values unspecified; this tie-break is the model's choice, and no contract depends on it beyond `createdAt` being non-increasing.
- Dates are clock readings (natural numbers), not ISO-8601 strings.
- A store call that raises has no effect in the model: with a fault at call k the source issues k+2 `updateTaskStatus` calls (k planned writes, the raising one, the catch write), and the log and `AttemptWrites` hold the k+1 that take effect. Whether a raising call reached the database is not modelled.
- A failure of the catch block's own store write is not modelled. The injected fault ranges over the seven calls of the try block only.
- Request bodies whose fields are not strings are not modelled. The route model takes each field as an absent or present string.
- `healthHandler`, server startup, the error-handler middleware and the frontend are not part of this model.
- TaskService.TaskStore.UpdateTaskStatus: its own contract does not state that progress stays in 0..100. That is stated by `TaskService.ApplyUpdateKeeps`, which `ProcessTask` uses. The two are split to keep each proof small.
- TaskService.TaskStore.GetTask: calling it twice with no write in between gives the same answer because it is a function of the store. No separate lemma states that.
- `Advance`, `CreateTask`, `GetAllTasks`, `IncrementRetries` and `DeleteTask` require the store invariant `Valid()`. That is a representation invariant of the model (keys are ids, ids unique), not a demand of the source.

## Behaviour kept as written

The model follows the code in these places, where a reader might expect otherwise:

- The worker never calls `incrementRetries` or `shouldRetry`. The stored retry counter stays 0 through every attempt (`TaskWorker.ProcessTask`). Retries are bounded only by the queue's `attempts: 3`, which equals `MAX_RETRIES` (`TaskController.RetryLimitMatchesAttempts`).
- `updateTaskStatus` never clears `error`. After a failed attempt and a successful retry, the task is completed and still reports the old error (`TaskWorker.StaleErrorSurvivesRetry`).
- No status transition is checked. Any status may follow any other.
- `findOneAndUpdate` does not run the schema validators. The store therefore accepts any progress on update, and the 0..100 bound holds only because every worker write is in range.
- A whitespace-only name or description passes the route's check and fails the schema, giving a 500 rather than a 400 (`TaskRoutes.BlankNameIsServerError`).
- The job payload carries the name and description as the client sent them, not the trimmed values stored in the document.
