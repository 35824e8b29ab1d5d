/** Optional values, results that carry an error, and the errors the task
    lifecycle can raise. */
module Common {

  datatype Option<+T> = None | Some(value: T)

  datatype Result<+T, +E> = Ok(value: T) | Err(error: E)

  /** The errors that surface from the store and the queue.
      ValidationError lists the schema paths whose `required` check failed,
      in schema order; DuplicateKey is the unique index on `id` refusing an
      insert; ServiceError is any other thrown error (an unreachable database
      or Redis server), carrying its message. */
  datatype Error =
    | ValidationError(paths: seq<string>)
    | DuplicateKey(id: string)
    | ServiceError(message: string)

  /** The `message` property of the thrown error, as the routes report it. */
  function Message(e: Error): string
  {
    match e
    case ValidationError(paths) => "Task validation failed: " + RequiredMessages(paths)
    case DuplicateKey(id) => "E11000 duplicate key error collection: taskflow.tasks index: id_1 dup key: { id: \"" + id + "\" }"
    case ServiceError(m) => m
  }

  function RequiredMessages(paths: seq<string>): string
    decreases |paths|
  {
    if paths == [] then ""
    else
      var one := paths[0] + ": Path `" + paths[0] + "` is required.";
      if |paths| == 1 then one else one + ", " + RequiredMessages(paths[1..])
  }
}
