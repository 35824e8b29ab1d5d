/** The controller: enqueueing a new task (store create, then queue append)
    and the two read-only lookups the HTTP handlers use. */
module TaskController {
  import opened Common
  import opened TaskModel
  import opened TaskService
  import opened JobQueue

  /** The name every processing job is added under. */
  const ProcessTaskJob: string := "process-task"

  /** The fixed options of a processing job: a 1000 ms start delay, at most
      3 attempts, exponential backoff from a 2000 ms base. */
  const ProcessTaskOptions: JobOptions := JobOptions(1000, 3, Backoff(Exponential, 2000))

  /** The job `enqueueTask` adds for a created task: its id, and the name and
      description exactly as the caller passed them (not trimmed). */
  function ProcessingJob(jobId: nat, taskId: string, name: string, description: string): (j: Job)
    ensures j.name == ProcessTaskJob && j.opts == ProcessTaskOptions
    ensures j.data.taskId == taskId && j.data.name == name && j.data.description == description
  {
    Job(jobId, ProcessTaskJob, JobData(taskId, name, description), ProcessTaskOptions)
  }

  /** `enqueueTask` with the generated uuid `id`; `dbFault` and `queueFault`
      are the errors the database and the queue raise, if they do. The task
      is created first; a failed create adds no job, and a failed append
      leaves the created task in the store. Either error propagates
      unchanged. */
  method EnqueueTask(store: TaskStore, queue: Queue, id: string, name: string, description: string,
                     dbFault: Option<string>, queueFault: Option<string>)
    returns (r: Result<TaskDTO, Error>)
    requires store.Valid() && queue.Valid()
    modifies store, queue
    ensures store.Valid() && queue.Valid() && store.now == old(store.now) && store.log == old(store.log)
    ensures old(store.ProgressInRange()) ==> store.ProgressInRange()
    ensures TaskStore.CreateError(old(store.tasks), id, name, description, dbFault).Some? ==>
      r == Err(TaskStore.CreateError(old(store.tasks), id, name, description, dbFault).value)
      && store.tasks == old(store.tasks) && store.order == old(store.order)
      && queue.jobs == old(queue.jobs) && queue.nextId == old(queue.nextId)
    ensures TaskStore.CreateError(old(store.tasks), id, name, description, dbFault).None? ==>
      && store.tasks == old(store.tasks)[id := NewRecord(id, name, description, old(store.now))]
      && store.order == old(store.order) + [id]
      && (queueFault.Some? ==>
            r == Err(ServiceError(queueFault.value))
            && queue.jobs == old(queue.jobs) && queue.nextId == old(queue.nextId))
      && (queueFault.None? ==>
            r == Ok(FormatTaskDTO(NewRecord(id, name, description, old(store.now))))
            && queue.jobs == old(queue.jobs) + [ProcessingJob(old(queue.nextId), id, name, description)]
            && queue.nextId == old(queue.nextId) + 1)
    ensures r.Ok? ==>
      r.value.id == id && r.value.status == Pending && r.value.progress == 0
      && queue.jobs[|queue.jobs| - 1].data.taskId in store.tasks
  {
    var created := store.CreateTask(id, name, description, dbFault);
    if created.Err? {
      return Err(created.error);
    }
    var task := created.value;
    var added := queue.Add(ProcessTaskJob, JobData(task.id, name, description), ProcessTaskOptions, queueFault);
    if added.Err? {
      return Err(added.error);
    }
    r := Ok(task);
  }

  /** `getTaskById`: the store's answer for this id. */
  function GetTaskById(store: TaskStore, taskId: string): (r: Option<TaskDTO>)
    reads store
    ensures r.None? <==> taskId !in store.tasks
    ensures r.Some? ==> r.value == FormatTaskDTO(store.tasks[taskId])
  {
    store.GetTask(taskId)
  }

  /** `listAllTasks`: the store's listing. */
  function ListAllTasks(store: TaskStore): (r: seq<TaskDTO>)
    reads store
    requires store.Valid()
    ensures |r| == |store.tasks|
    ensures forall k :: 0 <= k < |r| ==> r[k].id in store.tasks && r[k] == FormatTaskDTO(store.tasks[r[k].id])
    ensures forall id :: id in store.tasks ==> id in IdsOf(r)
    ensures forall i, j :: 0 <= i < j < |r| ==> r[i].createdAt >= r[j].createdAt
  {
    store.GetAllTasks()
  }

  /** The store's retry limit `MAX_RETRIES` and the queue's `attempts` are
      two separate constants, both 3. This lemma only records that they
      agree; it holds by unfolding the two definitions. */
  lemma RetryLimitMatchesAttempts(retries: nat)
    ensures ShouldRetry(retries) <==> retries < ProcessTaskOptions.attempts
  {
  }
}
