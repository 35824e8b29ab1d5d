/** The HTTP handlers of the task routes as decisions: which status code and
    JSON body each outcome of the controller leads to. Writing the response
    is output and is not modelled. */
module TaskRoutes {
  import opened Common
  import opened TaskModel
  import opened TaskService
  import opened JobQueue
  import opened TaskController

  /** The two fields `createTaskHandler` reads from the request body; None
      is a field that is absent. */
  datatype CreateBody = CreateBody(name: Option<string>, description: Option<string>)

  /** `!value` for a body field: absent or the empty string. */
  predicate Falsy(v: Option<string>)
  {
    v.None? || v.value == ""
  }

  /** The JSON bodies the handlers send. The success bodies also carry
      `success: true`, which every one of them has and so is left implicit;
      `listed` is the `data` array of the list reply. */
  datatype ResponseBody =
    | ErrorBody(error: string, details: Option<string>)
    | CreatedBody(message: string, data: TaskDTO)
    | ListBody(listed: seq<TaskDTO>, count: nat)
    | TaskBody(data: TaskDTO)

  datatype Response = Response(status: nat, body: ResponseBody)

  const MissingFieldsMessage: string := "Missing required fields: name, description"
  const CreatedMessage: string := "Task created and queued for processing"
  const NotFoundMessage: string := "Task not found"

  /** The 500 reply of a handler whose call threw `e`. */
  function Failure(what: string, e: Error): (resp: Response)
    ensures resp.status == 500 && resp.body.ErrorBody?
    ensures resp.body.error == what && resp.body.details == Some(Message(e))
  {
    Response(500, ErrorBody(what, Some(Message(e))))
  }

  /** The guard of `createTaskHandler`: a 400 exactly when the name or the
      description is missing or empty. */
  function CheckCreateBody(body: CreateBody): (resp: Option<Response>)
    ensures resp.Some? <==> Falsy(body.name) || Falsy(body.description)
    ensures resp.Some? ==> resp.value == Response(400, ErrorBody(MissingFieldsMessage, None))
  {
    if Falsy(body.name) || Falsy(body.description) then Some(Response(400, ErrorBody(MissingFieldsMessage, None)))
    else None
  }

  /** The reply of `createTaskHandler` to the outcome of `enqueueTask`. */
  function CreateTaskResponse(outcome: Result<TaskDTO, Error>): (resp: Response)
    ensures resp.status == 201 <==> outcome.Ok?
    ensures outcome.Ok? ==> resp.body == CreatedBody(CreatedMessage, outcome.value)
    ensures outcome.Err? ==> resp == Failure("Failed to create task", outcome.error)
  {
    match outcome
    case Ok(task) => Response(201, CreatedBody(CreatedMessage, task))
    case Err(e) => Failure("Failed to create task", e)
  }

  /** The reply of `listTasksHandler`: 200 with the tasks and their count. */
  function ListTasksResponse(outcome: Result<seq<TaskDTO>, Error>): (resp: Response)
    ensures resp.status == 200 <==> outcome.Ok?
    ensures outcome.Ok? ==> resp.body.ListBody? && resp.body.listed == outcome.value && resp.body.count == |resp.body.listed|
    ensures outcome.Err? ==> resp == Failure("Failed to list tasks", outcome.error)
  {
    match outcome
    case Ok(tasks) => Response(200, ListBody(tasks, |tasks|))
    case Err(e) => Failure("Failed to list tasks", e)
  }

  /** The reply of `getTaskHandler`: 404 for no task, 200 with the task. */
  function GetTaskResponse(outcome: Result<Option<TaskDTO>, Error>): (resp: Response)
    ensures resp.status == 404 <==> outcome.Ok? && outcome.value.None?
    ensures resp.status == 200 <==> outcome.Ok? && outcome.value.Some?
    ensures resp.status == 404 ==> resp.body == ErrorBody(NotFoundMessage, None)
    ensures resp.status == 200 ==> resp.body == TaskBody(outcome.value.value)
    ensures outcome.Err? ==> resp == Failure("Failed to get task", outcome.error)
  {
    match outcome
    case Ok(None) => Response(404, ErrorBody(NotFoundMessage, None))
    case Ok(Some(task)) => Response(200, TaskBody(task))
    case Err(e) => Failure("Failed to get task", e)
  }

  /** The store read of a handler; `dbFault` is the error the database
      raises, if it does. */
  function Read<T>(dbFault: Option<string>, value: T): (r: Result<T, Error>)
    ensures dbFault.Some? ==> r == Err(ServiceError(dbFault.value))
    ensures dbFault.None? ==> r == Ok(value)
  {
    if dbFault.Some? then Err(ServiceError(dbFault.value)) else Ok(value)
  }

  /** `getTaskHandler` against the store. */
  function GetTaskHandler(store: TaskStore, id: string, dbFault: Option<string>): (resp: Response)
    reads store
    ensures dbFault.None? && id !in store.tasks ==> resp == Response(404, ErrorBody(NotFoundMessage, None))
    ensures dbFault.None? && id in store.tasks ==> resp == Response(200, TaskBody(FormatTaskDTO(store.tasks[id])))
    ensures dbFault.Some? ==> resp == Failure("Failed to get task", ServiceError(dbFault.value))
  {
    GetTaskResponse(Read(dbFault, GetTaskById(store, id)))
  }

  /** `listTasksHandler` against the store. */
  function ListTasksHandler(store: TaskStore, dbFault: Option<string>): (resp: Response)
    reads store
    requires store.Valid()
    ensures dbFault.None? ==>
      resp.status == 200 && resp.body.ListBody? && resp.body.count == |resp.body.listed| == |store.tasks|
      && resp.body.listed == ListAllTasks(store)
      && (forall id :: id in store.tasks ==> id in IdsOf(resp.body.listed))
      && (forall k :: 0 <= k < |resp.body.listed| ==>
            resp.body.listed[k].id in store.tasks
            && resp.body.listed[k] == FormatTaskDTO(store.tasks[resp.body.listed[k].id]))
      && (forall i, j :: 0 <= i < j < |resp.body.listed| ==> resp.body.listed[i].createdAt >= resp.body.listed[j].createdAt)
    ensures dbFault.Some? ==> resp == Failure("Failed to list tasks", ServiceError(dbFault.value))
  {
    ListTasksResponse(Read(dbFault, ListAllTasks(store)))
  }

  /** `createTaskHandler`: the body check, then `enqueueTask` with the
      fields as given. A 400 touches neither the store nor the queue. */
  method CreateTaskHandler(store: TaskStore, queue: Queue, body: CreateBody, id: string,
                           dbFault: Option<string>, queueFault: Option<string>)
    returns (resp: Response)
    requires store.Valid() && queue.Valid()
    modifies store, queue
    ensures store.Valid() && queue.Valid() && store.now == old(store.now) && store.log == old(store.log)
    ensures Falsy(body.name) || Falsy(body.description) ==>
      resp == Response(400, ErrorBody(MissingFieldsMessage, None))
      && store.tasks == old(store.tasks) && store.order == old(store.order)
      && queue.jobs == old(queue.jobs) && queue.nextId == old(queue.nextId)
    ensures !Falsy(body.name) && !Falsy(body.description) ==>
      var created := TaskStore.CreateError(old(store.tasks), id, body.name.value, body.description.value, dbFault).None?;
      && (resp.status == 201 <==> created && queueFault.None?)
      && (resp.status == 201 ==> resp.body.CreatedBody? && resp.body.data.status == Pending && resp.body.data.id == id && |queue.jobs| == |old(queue.jobs)| + 1)
      && (resp.status != 201 ==> resp.status == 500 && |queue.jobs| == |old(queue.jobs)|)
      && (created ==> id in store.tasks)
      && (!created ==>
            var e := TaskStore.CreateError(old(store.tasks), id, body.name.value, body.description.value, dbFault).value;
            resp == Failure("Failed to create task", e)
            && store.tasks == old(store.tasks) && store.order == old(store.order)
            && queue.jobs == old(queue.jobs) && queue.nextId == old(queue.nextId))
    ensures !Falsy(body.name) && !Falsy(body.description)
            && TaskStore.CreateError(old(store.tasks), id, body.name.value, body.description.value, dbFault).None? ==>
      var record := NewRecord(id, body.name.value, body.description.value, old(store.now));
      && store.tasks == old(store.tasks)[id := record]
      && store.order == old(store.order) + [id]
      && (queueFault.Some? ==>
            resp == Failure("Failed to create task", ServiceError(queueFault.value))
            && queue.jobs == old(queue.jobs) && queue.nextId == old(queue.nextId))
      && (queueFault.None? ==>
            resp == Response(201, CreatedBody(CreatedMessage, FormatTaskDTO(record)))
            && queue.jobs == old(queue.jobs) + [ProcessingJob(old(queue.nextId), id, body.name.value, body.description.value)]
            && queue.nextId == old(queue.nextId) + 1)
  {
    var rejected := CheckCreateBody(body);
    if rejected.Some? {
      return rejected.value;
    }
    var outcome := EnqueueTask(store, queue, id, body.name.value, body.description.value, dbFault, queueFault);
    resp := CreateTaskResponse(outcome);
  }

  /** A name made only of whitespace passes the handler's check, since a
      non-empty string is truthy, but fails the schema's trimmed `required`
      check, so the client gets a 500 rather than the 400 for a missing
      field. */
  lemma BlankNameIsServerError(m: map<string, TaskRecord>, id: string, name: string, description: string,
                               dbFault: Option<string>)
    requires id != "" && Trim(description) != ""
    requires name != "" && forall k :: 0 <= k < |name| ==> IsTrimmable(name[k])
    ensures CheckCreateBody(CreateBody(Some(name), Some(description))).None?
    ensures TaskStore.CreateError(m, id, name, description, dbFault) == Some(ValidationError(["name"]))
    ensures CreateTaskResponse(Err(ValidationError(["name"])))
            == Failure("Failed to create task", ValidationError(["name"]))
  {
    TrimEmptyIff(name);
    assert MissingRequired(id, name, description) == ["name"];
  }
}
