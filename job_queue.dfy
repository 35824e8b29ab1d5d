/** The job queue as the controller sees it: an ordered list of job records
    with queue-assigned ids. Delivery, delays and redelivery happen inside the
    queue library and are not part of this model. */
module JobQueue {
  import opened Common

  datatype BackoffKind = Exponential

  datatype Backoff = Backoff(kind: BackoffKind, delay: nat)

  /** Scheduling options carried by a job, as data only. */
  datatype JobOptions = JobOptions(delay: nat, attempts: nat, backoff: Backoff)

  /** The job payload: a snapshot of the request taken at enqueue time. */
  datatype JobData = JobData(taskId: string, name: string, description: string)

  datatype Job = Job(id: nat, name: string, data: JobData, opts: JobOptions)

  /** The `tasks` queue. Job ids are assigned from a counter starting at 1,
      so they increase along the list and no two jobs share one. */
  class Queue {
    var jobs: seq<Job>
    var nextId: nat

    ghost predicate Valid()
      reads this
    {
      && nextId >= 1
      && (forall k :: 0 <= k < |jobs| ==> jobs[k].id < nextId)
      && (forall i, j :: 0 <= i < j < |jobs| ==> jobs[i].id < jobs[j].id)
    }

    constructor ()
      ensures Valid() && jobs == [] && nextId == 1
    {
      jobs := [];
      nextId := 1;
    }

    /** `queue.add(name, data, opts)`. `fault` is the error the Redis
        connection raises, if it does; then nothing is added. */
    method Add(name: string, data: JobData, opts: JobOptions, fault: Option<string>) returns (r: Result<Job, Error>)
      requires Valid()
      modifies this
      ensures Valid()
      ensures fault.Some? ==> r == Err(ServiceError(fault.value)) && jobs == old(jobs) && nextId == old(nextId)
      ensures fault.None? ==>
        r == Ok(Job(old(nextId), name, data, opts))
        && jobs == old(jobs) + [r.value] && nextId == old(nextId) + 1
        && (forall k :: 0 <= k < |old(jobs)| ==> old(jobs)[k].id != r.value.id)
      ensures forall i, j :: 0 <= i < j < |jobs| ==> jobs[i].id != jobs[j].id
    {
      if fault.Some? {
        return Err(ServiceError(fault.value));
      }
      var job := Job(nextId, name, data, opts);
      jobs := jobs + [job];
      nextId := nextId + 1;
      r := Ok(job);
    }
  }
}
