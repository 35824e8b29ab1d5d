/** The task store: a keyed collection of task documents with its reads,
    partial overwrites, retry counter and deletion, and the DTO projection
    every read returns. */
module TaskService {
  import opened Common
  import opened TaskModel

  /** The serialised shape of a task; timestamps are clock readings. */
  datatype TaskDTO = TaskDTO(
    id: string,
    name: string,
    description: string,
    status: Status,
    progress: int,
    result: Option<Json>,
    error: Option<string>,
    createdAt: nat,
    updatedAt: nat,
    retries: nat)

  /** `formatTaskDTO`: copies the document, drops a falsy result or error and
      reads a missing retry counter as 0. */
  function FormatTaskDTO(t: TaskRecord): (d: TaskDTO)
    ensures d.id == t.id && d.name == t.name && d.description == t.description
    ensures d.status == t.status && d.progress == t.progress
    ensures d.createdAt == t.createdAt && d.updatedAt == t.updatedAt
    ensures d.result.Some? <==> Truthy(t.result)
    ensures d.result.Some? ==> d.result.value == t.result
    ensures d.error.Some? <==> t.error.Some? && t.error.value != ""
    ensures d.error.Some? ==> d.error == t.error
    ensures t.retries.None? ==> d.retries == 0
    ensures t.retries.Some? ==> d.retries == t.retries.value
  {
    TaskDTO(t.id, t.name, t.description, t.status, t.progress,
            if Truthy(t.result) then Some(t.result) else None,
            if t.error.Some? && t.error.value != "" then t.error else None,
            t.createdAt, t.updatedAt, RetryCount(t))
  }

  /** The arguments of one `updateTaskStatus` call; None stands for an
      argument left undefined. */
  datatype StatusUpdate = StatusUpdate(
    taskId: string,
    status: Status,
    progress: Option<int>,
    result: Option<Json>,
    error: Option<string>)

  /** The default parameter `progress = 0`. */
  function ProgressArgument(p: Option<int>): int
  {
    if p.Some? then p.value else DefaultProgress
  }

  /** The `updateData` document applied to a stored task: status, progress and
      updatedAt are overwritten, result and error only when supplied. */
  function UpdateRecord(t: TaskRecord, u: StatusUpdate, now: nat): (t': TaskRecord)
    ensures t'.status == u.status && t'.progress == ProgressArgument(u.progress) && t'.updatedAt == now
    ensures t'.result == (if u.result.Some? then u.result.value else t.result)
    ensures t'.error == (if u.error.Some? then u.error else t.error)
    ensures t'.id == t.id && t'.name == t.name && t'.description == t.description
    ensures t'.retries == t.retries && t'.createdAt == t.createdAt
  {
    t.(status := u.status,
       progress := ProgressArgument(u.progress),
       updatedAt := now,
       result := if u.result.Some? then u.result.value else t.result,
       error := if u.error.Some? then u.error else t.error)
  }

  /** `findOneAndUpdate({ id }, updateData)` on the whole collection. */
  function ApplyUpdate(m: map<string, TaskRecord>, u: StatusUpdate, now: nat): (m': map<string, TaskRecord>)
    ensures m'.Keys == m.Keys
    ensures u.taskId in m ==> m' == m[u.taskId := UpdateRecord(m[u.taskId], u, now)]
    ensures u.taskId !in m ==> m' == m
  {
    if u.taskId in m then m[u.taskId := UpdateRecord(m[u.taskId], u, now)] else m
  }

  /** A sequence of `updateTaskStatus` calls, applied in order. */
  function ApplyUpdates(m: map<string, TaskRecord>, us: seq<StatusUpdate>, now: nat): map<string, TaskRecord>
    decreases |us|
  {
    if us == [] then m
    else ApplyUpdate(ApplyUpdates(m, us[..|us| - 1], now), us[|us| - 1], now)
  }

  lemma ApplyUpdatesAppend(m: map<string, TaskRecord>, us: seq<StatusUpdate>, u: StatusUpdate, now: nat)
    ensures ApplyUpdates(m, us + [u], now) == ApplyUpdate(ApplyUpdates(m, us, now), u, now)
  {
    assert (us + [u])[..|us|] == us;
  }

  /** Status writes never add or remove documents and never touch the fields
      fixed at creation, the retry counter or createdAt. */
  lemma {:induction false} ApplyUpdatesKeepsFixedFields(m: map<string, TaskRecord>, us: seq<StatusUpdate>, now: nat)
    ensures ApplyUpdates(m, us, now).Keys == m.Keys
    ensures forall id :: id in m ==>
      var t, t' := m[id], ApplyUpdates(m, us, now)[id];
      t'.id == t.id && t'.name == t.name && t'.description == t.description
      && t'.retries == t.retries && t'.createdAt == t.createdAt
    decreases |us|
  {
    if us != [] {
      ApplyUpdatesKeepsFixedFields(m, us[..|us| - 1], now);
    }
  }

  /** `$inc: { retries: 1 }` together with the new updatedAt; a missing
      counter counts from 0. */
  function BumpRetries(t: TaskRecord, now: nat): (t': TaskRecord)
    ensures RetryCount(t') == RetryCount(t) + 1
    ensures t' == t.(retries := t'.retries, updatedAt := now)
  {
    t.(retries := Some(RetryCount(t) + 1), updatedAt := now)
  }

  const MaxRetries: nat := 3

  /** `shouldRetry` */
  function ShouldRetry(retries: int): (r: bool)
    ensures r <==> retries < MaxRetries
  {
    retries < MaxRetries
  }

  /** `k` successive incrementRetries calls at clock reading `now`. */
  function BumpedTimes(t: TaskRecord, k: nat, now: nat): TaskRecord
  {
    if k == 0 then t else BumpRetries(BumpedTimes(t, k - 1, now), now)
  }

  /** Each increment adds exactly one, so a new task (retries 0) may be retried
      after zero, one or two increments, and not once the third increment has
      brought the counter to 3. */
  lemma {:induction false} RetriesAfterIncrements(t: TaskRecord, k: nat, now: nat)
    ensures RetryCount(BumpedTimes(t, k, now)) == RetryCount(t) + k
    ensures RetryCount(t) == 0 ==> (ShouldRetry(RetryCount(BumpedTimes(t, k, now))) <==> k < MaxRetries)
  {
    if k > 0 {
      RetriesAfterIncrements(t, k - 1, now);
    }
  }

  // ---------- order of `find().sort({ createdAt: -1 })` ----------

  predicate Distinct(s: seq<string>)
  {
    forall i, j :: 0 <= i < j < |s| ==> s[i] != s[j]
  }

  /** Newest first: createdAt never increases along the sequence. */
  predicate NewestFirst(ids: seq<string>, m: map<string, TaskRecord>)
    requires forall k :: 0 <= k < |ids| ==> ids[k] in m
  {
    forall i, j :: 0 <= i < j < |ids| ==> m[ids[i]].createdAt >= m[ids[j]].createdAt
  }

  function InsertNewestFirst(x: string, s: seq<string>, m: map<string, TaskRecord>): (r: seq<string>)
    requires x in m && forall k :: 0 <= k < |s| ==> s[k] in m
    ensures multiset(r) == multiset(s) + multiset{x}
    ensures forall k :: 0 <= k < |r| ==> r[k] in m
    decreases |s|
  {
    if s == [] || m[x].createdAt >= m[s[0]].createdAt then
      [x] + s
    else
      assert s == [s[0]] + s[1..];
      [s[0]] + InsertNewestFirst(x, s[1..], m)
  }

  /** Prepending a task at least as new as every element keeps the order. */
  lemma ConsNewestFirst(h: string, rest: seq<string>, m: map<string, TaskRecord>)
    requires h in m && forall k :: 0 <= k < |rest| ==> rest[k] in m
    requires NewestFirst(rest, m)
    requires forall k :: 0 <= k < |rest| ==> m[h].createdAt >= m[rest[k]].createdAt
    ensures NewestFirst([h] + rest, m)
  {
    var r := [h] + rest;
    forall i, j | 0 <= i < j < |r| ensures m[r[i]].createdAt >= m[r[j]].createdAt {
      if i > 0 {
        assert r[i] == rest[i - 1] && r[j] == rest[j - 1];
      } else {
        assert r[j] == rest[j - 1];
      }
    }
  }

  /** The head of a newest-first sequence is at least as new as everything
      inserting an older task into its tail yields. */
  lemma HeadDominatesInsert(x: string, s: seq<string>, m: map<string, TaskRecord>)
    requires x in m && forall k :: 0 <= k < |s| ==> s[k] in m
    requires s != [] && NewestFirst(s, m) && m[x].createdAt < m[s[0]].createdAt
    ensures forall k :: 0 <= k < |InsertNewestFirst(x, s[1..], m)| ==>
      m[s[0]].createdAt >= m[InsertNewestFirst(x, s[1..], m)[k]].createdAt
  {
    var tail := s[1..];
    var rest := InsertNewestFirst(x, tail, m);
    forall k | 0 <= k < |rest| ensures m[s[0]].createdAt >= m[rest[k]].createdAt {
      assert rest[k] in multiset(rest);
      if rest[k] != x {
        assert rest[k] in multiset(tail);
        var i :| 0 <= i < |tail| && tail[i] == rest[k];
        assert s[i + 1] == rest[k];
      }
    }
  }

  lemma {:induction false} InsertKeepsNewestFirst(x: string, s: seq<string>, m: map<string, TaskRecord>)
    requires x in m && forall k :: 0 <= k < |s| ==> s[k] in m
    requires NewestFirst(s, m)
    ensures NewestFirst(InsertNewestFirst(x, s, m), m)
    decreases |s|
  {
    if s == [] || m[x].createdAt >= m[s[0]].createdAt {
      ConsNewestFirst(x, s, m);
    } else {
      var tail := s[1..];
      assert NewestFirst(tail, m) by {
        forall i, j | 0 <= i < j < |tail| ensures m[tail[i]].createdAt >= m[tail[j]].createdAt {
          assert tail[i] == s[i + 1] && tail[j] == s[j + 1];
        }
      }
      InsertKeepsNewestFirst(x, tail, m);
      HeadDominatesInsert(x, s, m);
      ConsNewestFirst(s[0], InsertNewestFirst(x, tail, m), m);
    }
  }

  /** Stable insertion sort of the natural order by createdAt, newest first. */
  function SortNewestFirst(ids: seq<string>, m: map<string, TaskRecord>): (r: seq<string>)
    requires forall k :: 0 <= k < |ids| ==> ids[k] in m
    ensures multiset(r) == multiset(ids)
    ensures forall k :: 0 <= k < |r| ==> r[k] in m
    ensures NewestFirst(r, m)
    decreases |ids|
  {
    if ids == [] then []
    else
      assert ids == [ids[0]] + ids[1..];
      var rest := SortNewestFirst(ids[1..], m);
      InsertKeepsNewestFirst(ids[0], rest, m);
      InsertNewestFirst(ids[0], rest, m)
  }

  lemma {:induction false} DistinctCount(s: seq<string>, x: string)
    requires Distinct(s)
    ensures multiset(s)[x] <= 1
    decreases |s|
  {
    if s != [] {
      assert s == [s[0]] + s[1..];
      assert Distinct(s[1..]) by {
        forall i, j | 0 <= i < j < |s[1..]| ensures s[1..][i] != s[1..][j] {
          assert s[1..][i] == s[i + 1] && s[1..][j] == s[j + 1];
        }
      }
      DistinctCount(s[1..], x);
      if s[0] == x {
        assert x !in s[1..];
      }
    }
  }

  /** A permutation of a sequence without repetitions has none either. */
  lemma DistinctPermutation(a: seq<string>, b: seq<string>)
    requires multiset(a) == multiset(b) && Distinct(a)
    ensures Distinct(b)
  {
    forall i, j | 0 <= i < j < |b| ensures b[i] != b[j] {
      if b[i] == b[j] {
        var x := b[i];
        assert b == b[..j] + b[j..];
        assert x in b[..j] && x in b[j..];
        assert multiset(b)[x] == multiset(b[..j])[x] + multiset(b[j..])[x];
        DistinctCount(a, x);
        assert false;
      }
    }
  }

  lemma {:induction false} DistinctCardinality(s: seq<string>)
    requires Distinct(s)
    ensures |set k | 0 <= k < |s| :: s[k]| == |s|
    decreases |s|
  {
    if s != [] {
      var t := s[..|s| - 1];
      assert Distinct(t);
      DistinctCardinality(t);
      var st := set k | 0 <= k < |t| :: t[k];
      var ss := set k | 0 <= k < |s| :: s[k];
      assert ss == st + {s[|s| - 1]};
      assert s[|s| - 1] !in st;
    }
  }

  function Without(s: seq<string>, x: string): (r: seq<string>)
    ensures forall y :: y in r <==> y in s && y != x
    ensures Distinct(s) ==> Distinct(r)
    decreases |s|
  {
    if s == [] then []
    else if s[0] == x then Without(s[1..], x)
    else
      var rest := Without(s[1..], x);
      assert Distinct(s) ==> Distinct(s[1..]) && s[0] !in rest by {
        if Distinct(s) {
          forall i, j | 0 <= i < j < |s[1..]| ensures s[1..][i] != s[1..][j] {
            assert s[1..][i] == s[i + 1] && s[1..][j] == s[j + 1];
          }
        }
      }
      [s[0]] + rest
  }

  /** The sorted natural order holds every stored id exactly once. */
  lemma SortedIdsCoverStore(order: seq<string>, m: map<string, TaskRecord>)
    requires Distinct(order)
    requires forall k :: 0 <= k < |order| ==> order[k] in m
    requires forall id :: id in m ==> id in order
    ensures |SortNewestFirst(order, m)| == |m|
    ensures Distinct(SortNewestFirst(order, m))
    ensures forall id :: id in m ==> id in SortNewestFirst(order, m)
  {
    var ids := SortNewestFirst(order, m);
    DistinctPermutation(order, ids);
    DistinctCardinality(order);
    assert (set k | 0 <= k < |order| :: order[k]) == m.Keys;
    forall id | id in m ensures id in ids {
      assert id in multiset(order);
    }
  }

  /** The listing of a collection kept in natural order `order`: every
      stored task exactly once, each as its DTO, newest first. */
  function Listing(order: seq<string>, m: map<string, TaskRecord>): (r: seq<TaskDTO>)
    requires Distinct(order)
    requires forall k :: 0 <= k < |order| ==> order[k] in m
    requires forall id :: id in m ==> id in order && m[id].id == id
    ensures |r| == |m|
    ensures forall k :: 0 <= k < |r| ==> r[k].id in m && r[k] == FormatTaskDTO(m[r[k].id])
    ensures forall id :: id in m ==> id in IdsOf(r)
    ensures forall i, j :: 0 <= i < j < |r| ==> r[i].id != r[j].id
    ensures forall i, j :: 0 <= i < j < |r| ==> r[i].createdAt >= r[j].createdAt
  {
    ListingCovers(order, m);
    ListingEntries(order, m);
    ProjectedNewestFirst(SortNewestFirst(order, m), m);
    ProjectAll(SortNewestFirst(order, m), m)
  }

  lemma ListingCovers(order: seq<string>, m: map<string, TaskRecord>)
    requires Distinct(order)
    requires forall k :: 0 <= k < |order| ==> order[k] in m
    requires forall id :: id in m ==> id in order && m[id].id == id
    ensures |ProjectAll(SortNewestFirst(order, m), m)| == |m|
    ensures forall id :: id in m ==> id in IdsOf(ProjectAll(SortNewestFirst(order, m), m))
    ensures forall i, j :: 0 <= i < j < |m| ==>
      ProjectAll(SortNewestFirst(order, m), m)[i].id != ProjectAll(SortNewestFirst(order, m), m)[j].id
  {
    SortedIdsCoverStore(order, m);
    ProjectedIds(SortNewestFirst(order, m), m);
  }

  lemma ListingEntries(order: seq<string>, m: map<string, TaskRecord>)
    requires forall k :: 0 <= k < |order| ==> order[k] in m
    requires forall id :: id in m ==> m[id].id == id
    ensures forall k :: 0 <= k < |ProjectAll(SortNewestFirst(order, m), m)| ==>
      ProjectAll(SortNewestFirst(order, m), m)[k].id in m
      && ProjectAll(SortNewestFirst(order, m), m)[k] == FormatTaskDTO(m[ProjectAll(SortNewestFirst(order, m), m)[k].id])
  {
    var ids := SortNewestFirst(order, m);
    var r := ProjectAll(ids, m);
    forall k | 0 <= k < |r| ensures r[k].id == ids[k] {
      assert IdsOf(r)[k] == r[k].id;
    }
  }

  lemma ProjectedIds(ids: seq<string>, m: map<string, TaskRecord>)
    requires forall k :: 0 <= k < |ids| ==> ids[k] in m && m[ids[k]].id == ids[k]
    ensures IdsOf(ProjectAll(ids, m)) == ids
    ensures forall k :: 0 <= k < |ids| ==> ProjectAll(ids, m)[k].id in m
    ensures Distinct(ids) ==>
      forall i, j :: 0 <= i < j < |ids| ==> ProjectAll(ids, m)[i].id != ProjectAll(ids, m)[j].id
  {
  }

  lemma ProjectedNewestFirst(ids: seq<string>, m: map<string, TaskRecord>)
    requires forall k :: 0 <= k < |ids| ==> ids[k] in m
    requires NewestFirst(ids, m)
    ensures forall i, j :: 0 <= i < j < |ids| ==> ProjectAll(ids, m)[i].createdAt >= ProjectAll(ids, m)[j].createdAt
  {
    var r := ProjectAll(ids, m);
    forall i, j | 0 <= i < j < |r| ensures r[i].createdAt >= r[j].createdAt {
      assert r[i].createdAt == m[ids[i]].createdAt;
      assert r[j].createdAt == m[ids[j]].createdAt;
    }
  }

  /** The DTOs of the documents with the given ids, in that order. */
  function ProjectAll(ids: seq<string>, m: map<string, TaskRecord>): (r: seq<TaskDTO>)
    requires forall k :: 0 <= k < |ids| ==> ids[k] in m
    ensures |r| == |ids|
    ensures forall k :: 0 <= k < |r| ==> r[k] == FormatTaskDTO(m[ids[k]])
    ensures (forall k :: 0 <= k < |ids| ==> m[ids[k]].id == ids[k]) ==> IdsOf(r) == ids
  {
    seq(|ids|, k requires 0 <= k < |ids| => FormatTaskDTO(m[ids[k]]))
  }

  function IdsOf(ds: seq<TaskDTO>): (ids: seq<string>)
    ensures |ids| == |ds| && forall k :: 0 <= k < |ds| ==> ids[k] == ds[k].id
  {
    seq(|ds|, k requires 0 <= k < |ds| => ds[k].id)
  }

  /** Keys are the documents' ids (the unique index), the natural order
      holds each id once, fixed fields satisfy the schema and timestamps
      never run ahead of the clock. */
  ghost predicate Consistent(tasks: map<string, TaskRecord>, order: seq<string>, now: nat)
  {
    && (forall id :: id in tasks ==>
          tasks[id].id == id && FixedFieldsValid(tasks[id])
          && tasks[id].createdAt <= tasks[id].updatedAt <= now)
    && Distinct(order)
    && (forall k :: 0 <= k < |order| ==> order[k] in tasks)
    && (forall id :: id in tasks ==> id in order)
  }

  /** Every stored progress lies in 0..100. The schema's min/max are only
      enforced on save, not by findOneAndUpdate, so this is kept by callers
      that write in-range values rather than by the store. */
  ghost predicate AllInRange(tasks: map<string, TaskRecord>)
  {
    forall id :: id in tasks ==> ProgressInBounds(tasks[id].progress)
  }

  /** A status write keeps the store consistent, keeps every document and
      its retry counter, and keeps progress in range when it writes an
      in-range value. */
  lemma ApplyUpdateKeeps(m: map<string, TaskRecord>, order: seq<string>, u: StatusUpdate, now: nat)
    ensures Consistent(m, order, now) ==> Consistent(ApplyUpdate(m, u, now), order, now)
    ensures AllInRange(m) && ProgressInBounds(ProgressArgument(u.progress)) ==> AllInRange(ApplyUpdate(m, u, now))
    ensures forall id :: id in m ==> id in ApplyUpdate(m, u, now) && ApplyUpdate(m, u, now)[id].retries == m[id].retries
  {
  }

  /** The document collection. `order` is the collection's natural order of
      insertion, which the model uses to break ties between tasks created at
      the same clock reading; `now` is the clock that stamps createdAt and
      updatedAt; `log` records every `updateTaskStatus` call that takes
      effect, in order, whether or not it matched a document. A call that
      raises writes nothing and is not in the log. */
  class TaskStore {
    var tasks: map<string, TaskRecord>
    var order: seq<string>
    var now: nat
    ghost var log: seq<StatusUpdate>

    ghost predicate Valid()
      reads this
    {
      Consistent(tasks, order, now)
    }

    ghost predicate ProgressInRange()
      reads this
    {
      AllInRange(tasks)
    }

    constructor ()
      ensures Valid() && ProgressInRange()
      ensures tasks == map[] && order == [] && now == 0 && log == []
    {
      tasks := map[];
      order := [];
      now := 0;
      log := [];
    }

    /** Time passes. */
    method Advance(dt: nat)
      requires Valid()
      modifies this
      ensures Valid()
      ensures now == old(now) + dt && tasks == old(tasks) && order == old(order) && log == old(log)
    {
      now := now + dt;
    }

    /** Why `save()` of a new document fails, if it does: validation runs
        before anything is sent, then the insert can fail on the connection
        (`dbFault`, the error the database raises, if it does) and then on
        the unique index. */
    static function CreateError(m: map<string, TaskRecord>, id: string, name: string, description: string,
                                dbFault: Option<string>): (e: Option<Error>)
      ensures e.None? <==> MissingRequired(id, name, description) == [] && dbFault.None? && id !in m
      ensures MissingRequired(id, name, description) != [] ==> e == Some(ValidationError(MissingRequired(id, name, description)))
      ensures MissingRequired(id, name, description) == [] && dbFault.Some? ==> e == Some(ServiceError(dbFault.value))
      ensures MissingRequired(id, name, description) == [] && dbFault.None? && id in m ==> e == Some(DuplicateKey(id))
    {
      var missing := MissingRequired(id, name, description);
      if missing != [] then Some(ValidationError(missing))
      else if dbFault.Some? then Some(ServiceError(dbFault.value))
      else if id in m then Some(DuplicateKey(id))
      else None
    }

    /** `createTask` with the generated uuid `id`. */
    method CreateTask(id: string, name: string, description: string, dbFault: Option<string>)
      returns (r: Result<TaskDTO, Error>)
      requires Valid()
      modifies this
      ensures Valid() && now == old(now) && log == old(log)
      ensures old(ProgressInRange()) ==> ProgressInRange()
      ensures CreateError(old(tasks), id, name, description, dbFault).Some? ==>
        r == Err(CreateError(old(tasks), id, name, description, dbFault).value)
        && tasks == old(tasks) && order == old(order)
      ensures CreateError(old(tasks), id, name, description, dbFault).None? ==>
        id !in old(tasks)
        && tasks == old(tasks)[id := NewRecord(id, name, description, now)]
        && order == old(order) + [id]
        && r == Ok(FormatTaskDTO(NewRecord(id, name, description, now)))
      ensures r.Ok? ==>
        r.value.id == id && r.value.status == Pending && r.value.progress == 0 && r.value.retries == 0
        && r.value.name == Trim(name) && r.value.description == Trim(description)
        && r.value.result.None? && r.value.error.None?
        && r.value.createdAt == r.value.updatedAt == now
    {
      var e := CreateError(tasks, id, name, description, dbFault);
      if e.Some? {
        return Err(e.value);
      }
      var t := NewRecord(id, name, description, now);
      NewRecordValid(id, name, description, now);
      tasks := tasks[id := t];
      order := order + [id];
      r := Ok(FormatTaskDTO(t));
    }

    /** `getTask`: null exactly when no document has this id. */
    function GetTask(taskId: string): (r: Option<TaskDTO>)
      reads this
      ensures r.None? <==> taskId !in tasks
      ensures r.Some? ==> r.value == FormatTaskDTO(tasks[taskId])
    {
      if taskId in tasks then Some(FormatTaskDTO(tasks[taskId])) else None
    }

    /** `getAllTasks`: every stored task exactly once, newest first. */
    function GetAllTasks(): (r: seq<TaskDTO>)
      reads this
      requires Valid()
      ensures |r| == |tasks|
      ensures forall k :: 0 <= k < |r| ==> r[k].id in tasks && r[k] == FormatTaskDTO(tasks[r[k].id])
      ensures forall id :: id in tasks ==> id in IdsOf(r)
      ensures forall i, j :: 0 <= i < j < |r| ==> r[i].id != r[j].id
      ensures forall i, j :: 0 <= i < j < |r| ==> r[i].createdAt >= r[j].createdAt
    {
      Listing(order, tasks)
    }

    /** `updateTaskStatus`: null and no change for an unknown id; otherwise
        the partial overwrite of status, progress, updatedAt and the supplied
        result or error. Progress stays in range when the written value is in
        range (ApplyUpdateKeeps). */
    method UpdateTaskStatus(taskId: string, status: Status, progress: Option<int>, result: Option<Json>, error: Option<string>)
      returns (r: Option<TaskDTO>)
      modifies this
      ensures old(Valid()) ==> Valid()
      ensures now == old(now) && order == old(order)
      ensures log == old(log) + [StatusUpdate(taskId, status, progress, result, error)]
      ensures tasks == ApplyUpdate(old(tasks), StatusUpdate(taskId, status, progress, result, error), now)
      ensures r.None? <==> taskId !in old(tasks)
      ensures r.Some? ==> r.value == FormatTaskDTO(tasks[taskId])
    {
      var u := StatusUpdate(taskId, status, progress, result, error);
      log := log + [u];
      if taskId !in tasks {
        return None;
      }
      tasks := tasks[taskId := UpdateRecord(tasks[taskId], u, now)];
      r := Some(FormatTaskDTO(tasks[taskId]));
    }

    /** `incrementRetries`: the new count, or null for an unknown id. */
    method IncrementRetries(taskId: string) returns (r: Option<nat>)
      requires Valid()
      modifies this
      ensures Valid() && now == old(now) && order == old(order) && log == old(log)
      ensures old(ProgressInRange()) ==> ProgressInRange()
      ensures taskId !in old(tasks) ==> r.None? && tasks == old(tasks)
      ensures taskId in old(tasks) ==>
        tasks == old(tasks)[taskId := BumpRetries(old(tasks)[taskId], now)]
        && r == Some(RetryCount(old(tasks)[taskId]) + 1)
    {
      if taskId !in tasks {
        return None;
      }
      var t := BumpRetries(tasks[taskId], now);
      tasks := tasks[taskId := t];
      r := Some(RetryCount(t));
    }

    /** `deleteTask`: true exactly when a document was removed. */
    method DeleteTask(taskId: string) returns (deleted: bool)
      requires Valid()
      modifies this
      ensures Valid() && now == old(now) && log == old(log)
      ensures old(ProgressInRange()) ==> ProgressInRange()
      ensures deleted <==> taskId in old(tasks)
      ensures tasks == old(tasks) - {taskId} && order == Without(old(order), taskId)
      ensures GetTask(taskId).None?
    {
      deleted := taskId in tasks;
      tasks := tasks - {taskId};
      order := Without(order, taskId);
      forall k | 0 <= k < |order| ensures order[k] in old(order) && order[k] != taskId {
        assert order[k] in order;
      }
    }
  }
}
