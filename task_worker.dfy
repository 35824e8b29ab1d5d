/** The worker: the fixed sequence of status writes one job attempt issues
    against the task store, and the job handler that unpacks the payload. */
module TaskWorker {
  import opened Common
  import opened TaskModel
  import opened TaskService
  import JobQueue

  const InitialProgress: int := 10
  const ProgressSteps: nat := 5
  const StepCap: int := 90
  const CompletedProgress: int := 100
  const FailedProgress: int := 0
  /** Store calls of an attempt that does not fail: one initial write, one
      per step, one completion write. */
  const PlannedCalls: nat := ProgressSteps + 2

  function Min(a: int, b: int): int
  {
    if a <= b then a else b
  }

  /** `Math.min(20 + i * 16, 90)` */
  function StepProgress(i: int): int
  {
    Min(20 + i * 16, StepCap)
  }

  /** The random draws behind `itemsProcessed` and `successRate`. */
  datatype WorkSample = WorkSample(itemsProcessed: int, successRate: string)

  /** The result object of a finished attempt; `processedAt` is the clock
      reading instead of an ISO-8601 string. */
  function ResultObject(processedAt: nat, sample: WorkSample): (j: Json)
    ensures Truthy(j)
  {
    JObject([("processedAt", JNum(processedAt)),
             ("itemsProcessed", JNum(sample.itemsProcessed)),
             ("successRate", JStr(sample.successRate)),
             ("executionTime", JStr("~10 seconds"))])
  }

  /** An injected failure: store call number `call` of the attempt raises an
      error with `message` instead of writing. Call 0 is the initial write,
      1..5 the step writes, 6 the completion write; a larger number never
      fires. */
  datatype Fault = Fault(call: nat, message: string)

  /** The number of the call that raises, or PlannedCalls if none does. */
  function FailingCall(fault: Option<Fault>): (k: nat)
    ensures k <= PlannedCalls
  {
    if fault.Some? && fault.value.call < PlannedCalls then fault.value.call else PlannedCalls
  }

  predicate Raises(fault: Option<Fault>, call: nat)
  {
    fault.Some? && fault.value.call == call
  }

  /** The store write of call number `call` of an attempt that has not failed. */
  function PlannedWrite(taskId: string, result: Json, call: nat): StatusUpdate
    requires call < PlannedCalls
  {
    if call == 0 then StatusUpdate(taskId, Processing, Some(InitialProgress), None, None)
    else if call <= ProgressSteps then StatusUpdate(taskId, Processing, Some(StepProgress(call)), None, None)
    else StatusUpdate(taskId, Completed, Some(CompletedProgress), Some(result), None)
  }

  /** The first `n` planned writes, in the order they are issued. */
  function PlannedUpTo(taskId: string, result: Json, n: nat): (ws: seq<StatusUpdate>)
    requires n <= PlannedCalls
    ensures |ws| == n
  {
    if n == 0 then [] else PlannedUpTo(taskId, result, n - 1) + [PlannedWrite(taskId, result, n - 1)]
  }

  lemma {:induction false} PlannedUpToAt(taskId: string, result: Json, n: nat, k: nat)
    requires k < n <= PlannedCalls
    ensures PlannedUpTo(taskId, result, n)[k] == PlannedWrite(taskId, result, k)
  {
    if k < n - 1 {
      PlannedUpToAt(taskId, result, n - 1, k);
    }
  }

  /** The write of the catch block. */
  function FailureWrite(taskId: string, message: string): StatusUpdate
  {
    StatusUpdate(taskId, Failed, Some(FailedProgress), None, Some(message))
  }

  /** The store writes one attempt performs: the planned writes up to the
      failing call, then the failure write. */
  function AttemptWrites(taskId: string, result: Json, fault: Option<Fault>): seq<StatusUpdate>
  {
    var k := FailingCall(fault);
    PlannedUpTo(taskId, result, k)
    + (if k < PlannedCalls then [FailureWrite(taskId, fault.value.message)] else [])
  }

  /** What `processTask` hands back to the queue. */
  datatype Outcome = Returned(result: Json) | Raised(message: string)

  function AttemptOutcome(result: Json, fault: Option<Fault>): Outcome
  {
    if FailingCall(fault) < PlannedCalls then Raised(fault.value.message) else Returned(result)
  }

  // ---------- the write sequence of one attempt ----------

  /** The step progress values are 36, 52, 68, 84, 90. */
  lemma StepProgressValues()
    ensures [StepProgress(1), StepProgress(2), StepProgress(3), StepProgress(4), StepProgress(5)]
            == [36, 52, 68, 84, 90]
  {
  }

  /** The k-th write of an attempt: the planned write before the failing
      call, the failure write at it. */
  lemma AttemptWriteAt(taskId: string, result: Json, fault: Option<Fault>, k: nat)
    requires k < |AttemptWrites(taskId, result, fault)|
    ensures FailingCall(fault) < PlannedCalls ==> |AttemptWrites(taskId, result, fault)| == FailingCall(fault) + 1
    ensures FailingCall(fault) == PlannedCalls ==> |AttemptWrites(taskId, result, fault)| == PlannedCalls
    ensures k < FailingCall(fault) ==> AttemptWrites(taskId, result, fault)[k] == PlannedWrite(taskId, result, k)
    ensures k >= FailingCall(fault) ==>
      fault.Some? && AttemptWrites(taskId, result, fault)[k] == FailureWrite(taskId, fault.value.message)
  {
    if k < FailingCall(fault) {
      PlannedUpToAt(taskId, result, FailingCall(fault), k);
    }
  }

  /** Every write of an attempt targets the task it was given, and an attempt
      performs one write per call up to and including the failing one. */
  lemma AttemptWritesShape(taskId: string, result: Json, fault: Option<Fault>)
    ensures var ws := AttemptWrites(taskId, result, fault);
      && |ws| == (if FailingCall(fault) < PlannedCalls then FailingCall(fault) + 1 else PlannedCalls)
      && (forall k :: 0 <= k < |ws| ==> ws[k].taskId == taskId)
  {
    var ws := AttemptWrites(taskId, result, fault);
    forall k | 0 <= k < |ws| ensures ws[k].taskId == taskId {
      AttemptWriteAt(taskId, result, fault, k);
    }
  }

  /** The first write is `processing` at 10, unless the first call raises,
      in which case the only write is the failure write. */
  lemma FirstWrite(taskId: string, result: Json, fault: Option<Fault>)
    ensures var ws := AttemptWrites(taskId, result, fault);
      && |ws| >= 1
      && (!Raises(fault, 0) ==> ws[0] == StatusUpdate(taskId, Processing, Some(10), None, None))
      && (Raises(fault, 0) ==> ws == [FailureWrite(taskId, fault.value.message)])
  {
    AttemptWriteAt(taskId, result, fault, 0);
  }

  /** Without a failure: exactly seven writes, the last `completed` at 100
      with the result, and the result is returned. */
  lemma SuccessfulAttempt(taskId: string, result: Json, fault: Option<Fault>)
    requires FailingCall(fault) == PlannedCalls
    ensures var ws := AttemptWrites(taskId, result, fault);
      && |ws| == 7
      && ws[6] == StatusUpdate(taskId, Completed, Some(100), Some(result), None)
      && AttemptOutcome(result, fault) == Returned(result)
  {
    AttemptWriteAt(taskId, result, fault, 6);
  }

  /** With a failure at call k: k + 1 writes, the last `failed` at 0 with the
      message and no result, the others the planned writes, and the error is
      raised again. */
  lemma FailedAttempt(taskId: string, result: Json, fault: Option<Fault>)
    requires FailingCall(fault) < PlannedCalls
    ensures var ws := AttemptWrites(taskId, result, fault);
      && |ws| == FailingCall(fault) + 1
      && ws[|ws| - 1] == StatusUpdate(taskId, Failed, Some(0), None, Some(fault.value.message))
      && (forall k :: 0 <= k < |ws| - 1 ==> ws[k] == PlannedWrite(taskId, result, k))
      && AttemptOutcome(result, fault) == Raised(fault.value.message)
  {
    var ws := AttemptWrites(taskId, result, fault);
    forall k | 0 <= k < |ws| ensures k < |ws| - 1 ==> ws[k] == PlannedWrite(taskId, result, k) {
      AttemptWriteAt(taskId, result, fault, k);
    }
  }

  /** Every progress value an attempt writes is given explicitly and lies in
      0..100. */
  lemma AttemptProgressInBounds(taskId: string, result: Json, fault: Option<Fault>)
    ensures var ws := AttemptWrites(taskId, result, fault);
      forall k :: 0 <= k < |ws| ==> ws[k].progress.Some? && ProgressInBounds(ws[k].progress.value)
  {
    var ws := AttemptWrites(taskId, result, fault);
    forall k | 0 <= k < |ws| ensures ws[k].progress.Some? && ProgressInBounds(ws[k].progress.value) {
      AttemptWriteAt(taskId, result, fault, k);
    }
  }

  /** The statuses of an attempt form the path processing, ..., processing
      followed by one terminal status: completed exactly when nothing failed. */
  lemma AttemptStatusPath(taskId: string, result: Json, fault: Option<Fault>)
    ensures var ws := AttemptWrites(taskId, result, fault);
      && |ws| >= 1
      && (forall k :: 0 <= k < |ws| - 1 ==> ws[k].status == Processing)
      && (ws[|ws| - 1].status == Completed <==> FailingCall(fault) == PlannedCalls)
      && (ws[|ws| - 1].status == Failed <==> FailingCall(fault) < PlannedCalls)
  {
    var ws := AttemptWrites(taskId, result, fault);
    AttemptWriteAt(taskId, result, fault, 0);
    forall k | 0 <= k < |ws| ensures ws[k].status == (if k < FailingCall(fault) && k < PlannedCalls - 1 then Processing else ws[k].status) {
      AttemptWriteAt(taskId, result, fault, k);
    }
    AttemptWriteAt(taskId, result, fault, |ws| - 1);
  }

  /** The processing writes report strictly increasing progress that never
      exceeds 90. */
  lemma ProcessingProgressIncreasing(taskId: string, result: Json, fault: Option<Fault>)
    ensures var ws := AttemptWrites(taskId, result, fault);
      && (forall k :: 0 <= k < |ws| - 1 ==> ProgressArgument(ws[k].progress) <= StepCap)
      && (forall i, j :: 0 <= i < j < |ws| - 1 ==> ProgressArgument(ws[i].progress) < ProgressArgument(ws[j].progress))
  {
    var ws := AttemptWrites(taskId, result, fault);
    AttemptWriteAt(taskId, result, fault, 0);
    forall k | 0 <= k < |ws| - 1
      ensures ws[k] == PlannedWrite(taskId, result, k) && k < PlannedCalls - 1
    {
      AttemptWriteAt(taskId, result, fault, k);
      AttemptWriteAt(taskId, result, fault, |ws| - 1);
    }
  }

  // ---------- the effect of an attempt on the store ----------

  lemma {:induction false} UpdatesElsewhere(m: map<string, TaskRecord>, ws: seq<StatusUpdate>, now: nat, id: string)
    requires forall k :: 0 <= k < |ws| ==> ws[k].taskId != id
    ensures id in ApplyUpdates(m, ws, now) <==> id in m
    ensures id in m ==> ApplyUpdates(m, ws, now)[id] == m[id]
    decreases |ws|
  {
    if ws != [] {
      UpdatesElsewhere(m, ws[..|ws| - 1], now, id);
    }
  }

  /** `updateTaskStatus` on an id with no document changes nothing. */
  lemma {:induction false} UpdatesOfUnknownTask(m: map<string, TaskRecord>, ws: seq<StatusUpdate>, now: nat, id: string)
    requires id !in m
    requires forall k :: 0 <= k < |ws| ==> ws[k].taskId == id
    ensures ApplyUpdates(m, ws, now) == m
    decreases |ws|
  {
    if ws != [] {
      UpdatesOfUnknownTask(m, ws[..|ws| - 1], now, id);
    }
  }

  /** Writes that never supply a result (or an error) leave it as it was. */
  lemma {:induction false} UpdatesKeepUnsupplied(m: map<string, TaskRecord>, ws: seq<StatusUpdate>, now: nat, id: string)
    requires id in m
    ensures id in ApplyUpdates(m, ws, now)
    ensures (forall k :: 0 <= k < |ws| ==> ws[k].result.None?) ==> ApplyUpdates(m, ws, now)[id].result == m[id].result
    ensures (forall k :: 0 <= k < |ws| ==> ws[k].error.None?) ==> ApplyUpdates(m, ws, now)[id].error == m[id].error
    decreases |ws|
  {
    ApplyUpdatesKeepsFixedFields(m, ws, now);
    if ws != [] {
      UpdatesKeepUnsupplied(m, ws[..|ws| - 1], now, id);
    }
  }

  /** The document of the processed task after one attempt: completed at 100
      with the result and its earlier error untouched, or failed at 0 with
      the message and its earlier result untouched. Every other document is
      unchanged, and an unknown task id changes nothing. */
  lemma AttemptFinalRecord(m: map<string, TaskRecord>, taskId: string, result: Json, fault: Option<Fault>, now: nat)
    ensures var m' := ApplyUpdates(m, AttemptWrites(taskId, result, fault), now);
      && m'.Keys == m.Keys
      && (forall id :: id in m && id != taskId ==> m'[id] == m[id])
      && (taskId !in m ==> m' == m)
      && (taskId in m && FailingCall(fault) == PlannedCalls ==>
            m'[taskId] == m[taskId].(status := Completed, progress := 100, result := result, updatedAt := now))
      && (taskId in m && FailingCall(fault) < PlannedCalls ==>
            m'[taskId] == m[taskId].(status := Failed, progress := 0, error := Some(fault.value.message), updatedAt := now))
  {
    AttemptCollapse(m, taskId, result, fault, now);
    AfterAttemptRecord(m, taskId, result, fault, now);
  }

  /** AttemptFinalRecord on the closed form. */
  lemma AfterAttemptRecord(m: map<string, TaskRecord>, taskId: string, result: Json, fault: Option<Fault>, now: nat)
    ensures var m' := AfterAttempt(m, taskId, result, fault, now);
      && m'.Keys == m.Keys
      && (forall id :: id in m && id != taskId ==> m'[id] == m[id])
      && (taskId !in m ==> m' == m)
      && (taskId in m && FailingCall(fault) == PlannedCalls ==>
            m'[taskId] == m[taskId].(status := Completed, progress := 100, result := result, updatedAt := now))
      && (taskId in m && FailingCall(fault) < PlannedCalls ==>
            m'[taskId] == m[taskId].(status := Failed, progress := 0, error := Some(fault.value.message), updatedAt := now))
  {
    var k := FailingCall(fault);
    if taskId in m && k < PlannedCalls {
      var t := m[taskId];
      var before := AfterPlanned(m, taskId, result, k, now);
      assert taskId in before && before[taskId].result == t.result && before[taskId].error == t.error;
    }
  }

  /** A failed attempt followed by a successful retry leaves the task
      completed with the new result and STILL carrying the first attempt's
      error, because no write ever clears `error`; its DTO then shows both
      a result and an error whenever the message is non-empty. */
  lemma StaleErrorSurvivesRetry(m: map<string, TaskRecord>, taskId: string,
                                failing: Fault, first: Json, second: Json, now1: nat, now2: nat)
    requires taskId in m
    requires failing.call < PlannedCalls
    ensures var m1 := ApplyUpdates(m, AttemptWrites(taskId, first, Some(failing)), now1);
      var m2 := ApplyUpdates(m1, AttemptWrites(taskId, second, None), now2);
      && taskId in m2
      && m2[taskId].status == Completed
      && m2[taskId].result == second
      && m2[taskId].error == Some(failing.message)
      && (failing.message != "" && Truthy(second) ==>
            FormatTaskDTO(m2[taskId]).result == Some(second)
            && FormatTaskDTO(m2[taskId]).error == Some(failing.message))
  {
    AttemptFinalRecord(m, taskId, first, Some(failing), now1);
    var m1 := ApplyUpdates(m, AttemptWrites(taskId, first, Some(failing)), now1);
    AttemptFinalRecord(m1, taskId, second, None, now2);
  }

  // ---------- the worker ----------

  /** The store after the first `n` planned writes. Only the last of them
      matters: the processing writes supply neither a result nor an error. */
  function AfterPlanned(m: map<string, TaskRecord>, taskId: string, result: Json, n: nat, now: nat): map<string, TaskRecord>
    requires n <= PlannedCalls
  {
    if n == 0 then m else ApplyUpdate(m, PlannedWrite(taskId, result, n - 1), now)
  }

  lemma AfterPlannedStep(m: map<string, TaskRecord>, taskId: string, result: Json, n: nat, now: nat)
    requires n < PlannedCalls
    ensures ApplyUpdate(AfterPlanned(m, taskId, result, n, now), PlannedWrite(taskId, result, n), now)
            == AfterPlanned(m, taskId, result, n + 1, now)
  {
    if n > 0 && taskId in m {
      var t := m[taskId];
      var u1, u2 := PlannedWrite(taskId, result, n - 1), PlannedWrite(taskId, result, n);
      assert UpdateRecord(UpdateRecord(t, u1, now), u2, now) == UpdateRecord(t, u2, now);
    }
  }

  lemma CollapseStep(m: map<string, TaskRecord>, taskId: string, result: Json, n: nat, now: nat)
    requires 0 < n <= PlannedCalls
    requires ApplyUpdates(m, PlannedUpTo(taskId, result, n - 1), now) == AfterPlanned(m, taskId, result, n - 1, now)
    ensures ApplyUpdates(m, PlannedUpTo(taskId, result, n), now) == AfterPlanned(m, taskId, result, n, now)
  {
    var p := n - 1;
    var before, w := PlannedUpTo(taskId, result, p), PlannedWrite(taskId, result, p);
    ApplyUpdatesAppend(m, before, w, now);
    AfterPlannedStep(m, taskId, result, p, now);
    assert p + 1 == n;
    calc {
      ApplyUpdates(m, PlannedUpTo(taskId, result, n), now);
      ApplyUpdates(m, before + [w], now);
      ApplyUpdate(ApplyUpdates(m, before, now), w, now);
      ApplyUpdate(AfterPlanned(m, taskId, result, p, now), w, now);
      AfterPlanned(m, taskId, result, p + 1, now);
    }
  }

  /** Applying the planned writes one by one gives the closed form. */
  lemma {:induction false} PlannedCollapse(m: map<string, TaskRecord>, taskId: string, result: Json, n: nat, now: nat)
    requires n <= PlannedCalls
    ensures ApplyUpdates(m, PlannedUpTo(taskId, result, n), now) == AfterPlanned(m, taskId, result, n, now)
  {
    if n > 0 {
      PlannedCollapse(m, taskId, result, n - 1, now);
      CollapseStep(m, taskId, result, n, now);
    }
  }

  /** The store after a whole attempt, in closed form. */
  function AfterAttempt(m: map<string, TaskRecord>, taskId: string, result: Json, fault: Option<Fault>, now: nat): map<string, TaskRecord>
  {
    var k := FailingCall(fault);
    if k < PlannedCalls then ApplyUpdate(AfterPlanned(m, taskId, result, k, now), FailureWrite(taskId, fault.value.message), now)
    else AfterPlanned(m, taskId, result, PlannedCalls, now)
  }

  lemma AttemptCollapse(m: map<string, TaskRecord>, taskId: string, result: Json, fault: Option<Fault>, now: nat)
    ensures ApplyUpdates(m, AttemptWrites(taskId, result, fault), now) == AfterAttempt(m, taskId, result, fault, now)
  {
    var k := FailingCall(fault);
    PlannedCollapse(m, taskId, result, k, now);
    if k < PlannedCalls {
      var w := FailureWrite(taskId, fault.value.message);
      assert AttemptWrites(taskId, result, fault) == PlannedUpTo(taskId, result, k) + [w];
      ApplyUpdatesAppend(m, PlannedUpTo(taskId, result, k), w, now);
    } else {
      assert AttemptWrites(taskId, result, fault) == PlannedUpTo(taskId, result, k) + [];
      assert PlannedUpTo(taskId, result, k) + [] == PlannedUpTo(taskId, result, k);
    }
  }

  /** An attempt keeps the store consistent, keeps every document and its
      retry counter, and keeps every progress in range. */
  lemma AfterAttemptKeeps(m: map<string, TaskRecord>, order: seq<string>, taskId: string, result: Json,
                          fault: Option<Fault>, now: nat)
    ensures Consistent(m, order, now) ==> Consistent(AfterAttempt(m, taskId, result, fault, now), order, now)
    ensures AllInRange(m) ==> AllInRange(AfterAttempt(m, taskId, result, fault, now))
    ensures forall id :: id in m ==>
      id in AfterAttempt(m, taskId, result, fault, now)
      && AfterAttempt(m, taskId, result, fault, now)[id].retries == m[id].retries
  {
    var k := FailingCall(fault);
    if k > 0 {
      ApplyUpdateKeeps(m, order, PlannedWrite(taskId, result, k - 1), now);
      assert ProgressInBounds(ProgressArgument(PlannedWrite(taskId, result, k - 1).progress));
    }
    if k < PlannedCalls {
      var before := AfterPlanned(m, taskId, result, k, now);
      ApplyUpdateKeeps(before, order, FailureWrite(taskId, fault.value.message), now);
    }
  }

  /** The log of an attempt: the try block's planned writes, then the catch
      block's failure write when a call raised. */
  lemma LogSuffixIsAttempt(pre: seq<StatusUpdate>, log: seq<StatusUpdate>, taskId: string, result: Json, fault: Option<Fault>)
    requires FailingCall(fault) < PlannedCalls ==>
      log == pre + PlannedUpTo(taskId, result, FailingCall(fault)) + [FailureWrite(taskId, fault.value.message)]
    requires FailingCall(fault) == PlannedCalls ==> log == pre + PlannedUpTo(taskId, result, PlannedCalls)
    ensures |pre| <= |log| && log == pre + log[|pre|..]
    ensures log[|pre|..] == AttemptWrites(taskId, result, fault)
  {
    var k := FailingCall(fault);
    if k < PlannedCalls {
      assert log == pre + (PlannedUpTo(taskId, result, k) + [FailureWrite(taskId, fault.value.message)]);
    } else {
      assert AttemptWrites(taskId, result, fault) == PlannedUpTo(taskId, result, k) + [];
    }
  }

  /** One pass of the step loop: `updateTaskStatus(taskId, 'processing',
      progress)` with `progress = StepProgress(i)`, the `i`-th planned write.
      `pre` is the log before the attempt. */
  method ReportStep(store: TaskStore, taskId: string, i: nat,
                    ghost m0: map<string, TaskRecord>, ghost result: Json, ghost pre: seq<StatusUpdate>)
    requires 1 <= i <= ProgressSteps
    requires store.tasks == AfterPlanned(m0, taskId, result, i, store.now)
    requires store.log == pre + PlannedUpTo(taskId, result, i)
    modifies store
    ensures store.now == old(store.now) && store.order == old(store.order)
    ensures store.tasks == AfterPlanned(m0, taskId, result, i + 1, store.now)
    ensures store.log == pre + PlannedUpTo(taskId, result, i + 1)
  {
    var write := StatusUpdate(taskId, Processing, Some(StepProgress(i)), None, None);
    assert write == PlannedWrite(taskId, result, i);
    var _ := store.UpdateTaskStatus(taskId, Processing, Some(StepProgress(i)), None, None);
    AfterPlannedStep(m0, taskId, result, i, store.now);
    assert pre + PlannedUpTo(taskId, result, i + 1) == (pre + PlannedUpTo(taskId, result, i)) + [write];
  }

  /** The step loop of the try block, entered after the initial write:
      steps 1..5 each write `StepProgress(i)` unless their call raises. */
  method ReportProgress(store: TaskStore, taskId: string, fault: Option<Fault>,
                        ghost m0: map<string, TaskRecord>, ghost result: Json, ghost pre: seq<StatusUpdate>)
    returns (raised: Option<string>)
    requires FailingCall(fault) >= 1
    requires store.tasks == AfterPlanned(m0, taskId, result, 1, store.now)
    requires store.log == pre + PlannedUpTo(taskId, result, 1)
    modifies store
    ensures store.now == old(store.now) && store.order == old(store.order)
    ensures raised.None? ==>
      FailingCall(fault) > ProgressSteps && store.tasks == AfterPlanned(m0, taskId, result, ProgressSteps + 1, store.now)
      && store.log == pre + PlannedUpTo(taskId, result, ProgressSteps + 1)
    ensures raised.Some? ==>
      FailingCall(fault) <= ProgressSteps && raised.value == fault.value.message
      && store.tasks == AfterPlanned(m0, taskId, result, FailingCall(fault), store.now)
      && store.log == pre + PlannedUpTo(taskId, result, FailingCall(fault))
  {
    ghost var now0 := store.now;
    var i: nat := 1;
    while i <= ProgressSteps
      invariant 1 <= i <= ProgressSteps + 1 && FailingCall(fault) >= i
      invariant store.now == now0 && store.order == old(store.order)
      invariant store.tasks == AfterPlanned(m0, taskId, result, i, now0)
      invariant store.log == pre + PlannedUpTo(taskId, result, i)
    {
      if Raises(fault, i) {
        return Some(fault.value.message);
      }
      ReportStep(store, taskId, i, m0, result, pre);
      i := i + 1;
    }
    return None;
  }

  /** The try block of `processTask`: the planned writes up to the failing
      call, each issued in turn; the result object, or the message of the
      error that escapes. */
  method TryAttempt(store: TaskStore, taskId: string, sample: WorkSample, fault: Option<Fault>)
    returns (r: Result<Json, string>)
    modifies store
    ensures store.now == old(store.now) && store.order == old(store.order)
    ensures r.Err? <==> FailingCall(fault) < PlannedCalls
    ensures r.Err? ==> r.error == fault.value.message
    ensures r.Ok? ==> r.value == ResultObject(old(store.now), sample)
    ensures store.log == old(store.log) + PlannedUpTo(taskId, ResultObject(old(store.now), sample), FailingCall(fault))
    ensures store.tasks == AfterPlanned(old(store.tasks), taskId, ResultObject(old(store.now), sample),
                                        FailingCall(fault), old(store.now))
  {
    ghost var m0, res, pre := store.tasks, ResultObject(store.now, sample), store.log;
    if Raises(fault, 0) {
      assert pre + PlannedUpTo(taskId, res, 0) == pre;
      return Err(fault.value.message);
    }
    var _ := store.UpdateTaskStatus(taskId, Processing, Some(InitialProgress), None, None);
    AfterPlannedStep(m0, taskId, res, 0, store.now);
    assert PlannedUpTo(taskId, res, 1) == [PlannedWrite(taskId, res, 0)];
    var raised := ReportProgress(store, taskId, fault, m0, res, pre);
    if raised.Some? {
      return Err(raised.value);
    }
    var result := ResultObject(store.now, sample);
    if Raises(fault, PlannedCalls - 1) {
      return Err(fault.value.message);
    }
    var _ := store.UpdateTaskStatus(taskId, Completed, Some(CompletedProgress), Some(result), None);
    AfterPlannedStep(m0, taskId, res, PlannedCalls - 1, store.now);
    assert pre + PlannedUpTo(taskId, res, PlannedCalls)
           == (pre + PlannedUpTo(taskId, res, PlannedCalls - 1)) + [PlannedWrite(taskId, res, PlannedCalls - 1)];
    return Ok(result);
  }

  /** `processTask`: one attempt against the store. `name` and `description`
      only feed log lines. The catch block writes the failure and rethrows. */
  method ProcessTask(store: TaskStore, taskId: string, name: string, description: string,
                     sample: WorkSample, fault: Option<Fault>)
    returns (outcome: Outcome, ghost writes: seq<StatusUpdate>)
    modifies store
    ensures old(store.Valid()) ==> store.Valid()
    ensures store.now == old(store.now) && store.order == old(store.order)
    ensures store.log == old(store.log) + writes
    ensures writes == AttemptWrites(taskId, ResultObject(old(store.now), sample), fault)
    ensures outcome == AttemptOutcome(ResultObject(old(store.now), sample), fault)
    ensures store.tasks == ApplyUpdates(old(store.tasks), writes, old(store.now))
    ensures forall id :: id in old(store.tasks) ==> id in store.tasks && store.tasks[id].retries == old(store.tasks[id].retries)
    ensures old(store.ProgressInRange()) ==> store.ProgressInRange()
  {
    ghost var m0, order, now, pre := store.tasks, store.order, store.now, store.log;
    ghost var res := ResultObject(now, sample);
    var r := TryAttempt(store, taskId, sample, fault);
    if r.Err? {
      ghost var before := store.tasks;
      var _ := store.UpdateTaskStatus(taskId, Failed, Some(FailedProgress), None, Some(r.error));
      assert store.tasks == AfterAttempt(m0, taskId, res, fault, now);
      outcome := Raised(r.error);
    } else {
      assert store.tasks == AfterAttempt(m0, taskId, res, fault, now);
      outcome := Returned(r.value);
    }
    writes := store.log[|pre|..];
    LogSuffixIsAttempt(pre, store.log, taskId, res, fault);
    AttemptCollapse(m0, taskId, res, fault, now);
    AfterAttemptKeeps(m0, order, taskId, res, fault, now);
  }

  /** The job handler: unpacks `job.data` and runs one attempt for it. */
  method HandleJob(store: TaskStore, job: JobQueue.Job, sample: WorkSample, fault: Option<Fault>)
    returns (outcome: Outcome, ghost writes: seq<StatusUpdate>)
    modifies store
    ensures old(store.Valid()) ==> store.Valid()
    ensures store.now == old(store.now) && store.order == old(store.order)
    ensures store.log == old(store.log) + writes
    ensures writes == AttemptWrites(job.data.taskId, ResultObject(old(store.now), sample), fault)
    ensures forall k :: 0 <= k < |writes| ==> writes[k].taskId == job.data.taskId
    ensures outcome == AttemptOutcome(ResultObject(old(store.now), sample), fault)
    ensures store.tasks == ApplyUpdates(old(store.tasks), writes, old(store.now))
    ensures old(store.ProgressInRange()) ==> store.ProgressInRange()
  {
    outcome, writes := ProcessTask(store, job.data.taskId, job.data.name, job.data.description, sample, fault);
    AttemptWritesShape(job.data.taskId, ResultObject(old(store.now), sample), fault);
  }
}
