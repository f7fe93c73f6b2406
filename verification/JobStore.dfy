/**
 Job rows and the SQL statements that change them.  Each statement is one atomic update, written as a
 function on a row or on the table and as a method of the store.
 */
module JobStore {
  import opened Collections
  import opened Options
  import opened PriorityQueue
  import opened Statuses

  datatype WorkerId = WorkerId(text: string)

  datatype Key = Key(text: string)

  datatype JobRow = JobRow(
    kind: string,
    status: JobStatus,
    priority: int,
    attempt: nat,
    maxAttempts: int,
    key: Option<Key>,
    error: Option<string>,
    worker: Option<WorkerId>,
    runAt: int,
    startedAt: Option<int>,
    completedAt: Option<int>)

  type Rows = map<Id, JobRow>

  const DEFAULT_MAX_ATTEMPTS := 3
  const DEFAULT_BATCH := 50

  datatype JobRequest = JobRequest(kind: string, priority: Option<int>, maxAttempts: Option<int>, key: Option<Key>)

  function NewRow(req: JobRequest, now: int): JobRow {
    JobRow(req.kind, Queued,
           if req.priority.Some? then req.priority.value else DEFAULT_PRIORITY, 0,
           if req.maxAttempts.Some? then req.maxAttempts.value else DEFAULT_MAX_ATTEMPTS,
           req.key, None, None, now, None, None)
  }

  predicate Claimable(r: JobRow) {
    r.status == Queued || r.status == Retrying
  }

  function RunningRow(r: JobRow, worker: WorkerId, now: int): JobRow {
    r.(status := Running, worker := Some(worker), attempt := r.attempt + 1, startedAt := Some(now))
  }

  /** Retry while attempts remain, dead-letter otherwise; no look at the current status. */
  function FailedAttempt(r: JobRow, err: string, nextRunAt: int, now: int): JobRow {
    if r.attempt < r.maxAttempts then
      r.(status := Retrying, runAt := nextRunAt, completedAt := None, error := Some(err), worker := None)
    else
      r.(status := DeadLetter, completedAt := Some(now), error := Some(err), worker := None)
  }

  predicate DueForRetry(r: JobRow, now: int) {
    r.status == Retrying && r.runAt <= now
  }

  function RequeuedRow(r: JobRow): JobRow {
    r.(status := Queued)
  }

  predicate Retryable(r: JobRow) {
    r.status == DeadLetter || r.status == Failed
  }

  function RetriedRow(r: JobRow, now: int): JobRow {
    r.(status := Queued, attempt := 0, error := None, worker := None, runAt := now, completedAt := None)
  }

  /** Unconditional, and it keeps the worker. */
  function SucceededRow(r: JobRow, now: int): JobRow {
    r.(status := Succeeded, completedAt := Some(now), error := None)
  }

  /** Unconditional, and it keeps the worker. */
  function MarkedFailed(r: JobRow, err: string, now: int): JobRow {
    r.(status := Failed, completedAt := Some(now), error := Some(err))
  }

  predicate Cancellable(r: JobRow) {
    r.status == Queued || r.status == Running
  }

  function CancelledRow(r: JobRow, now: int): JobRow {
    r.(status := Cancelled, completedAt := Some(now))
  }

  predicate OrphanOf(r: JobRow, worker: WorkerId) {
    r.status == Running && r.worker == Some(worker)
  }

  /** Back to QUEUED; the attempt count stays and is not compared with its maximum. */
  function RecoveredRow(r: JobRow): JobRow {
    r.(status := Queued, worker := None)
  }

  /** The rows with `change` applied to the chosen ones. */
  function Changed(rows: Rows, ids: set<Id>, change: JobRow -> JobRow): (rows': Rows)
    ensures rows'.Keys == rows.Keys
  {
    map id | id in rows :: if id in ids then change(rows[id]) else rows[id]
  }

  function Orphans(rows: Rows, worker: WorkerId): set<Id> {
    set id | id in rows && OrphanOf(rows[id], worker)
  }

  /** A batch the retry query may return: due and unlocked rows, earliest first, up to the limit. */
  predicate RetryBatch(rows: Rows, batch: set<Id>, now: int, limit: int, locked: set<Id>) {
    && (forall id :: id in batch ==> id in rows && id !in locked && DueForRetry(rows[id], now))
    && |batch| <= (if limit <= 0 then DEFAULT_BATCH else limit)
    && (forall id, other ::
          id in batch && other in rows && other !in batch && other !in locked && DueForRetry(rows[other], now) ==>
            rows[id].runAt <= rows[other].runAt)
    && (|batch| < (if limit <= 0 then DEFAULT_BATCH else limit) ==>
          forall id :: id in rows && id !in locked && DueForRetry(rows[id], now) ==> id in batch)
  }

  class Store {
    var rows: Rows
    var keys: map<Key, Id>

    constructor ()
      ensures rows == map[] && keys == map[]
    {
      rows, keys := map[], map[];
    }

    /** `freshId` is the id the database would generate. */
    method Create(req: JobRequest, now: int, freshId: Id) returns (id: Id, created: bool)
      requires freshId !in rows && freshId != NIL
      modifies this
      ensures created <==> req.key == None || req.key.value !in old(keys)
      ensures id == if created then freshId else old(keys)[req.key.value]
      ensures rows == if created then old(rows)[id := NewRow(req, now)] else old(rows)
      ensures keys == if created && req.key.Some? then old(keys)[req.key.value := id] else old(keys)
      ensures created ==>
                && id in rows && rows[id].status == Queued && rows[id].attempt == 0 && rows[id].kind == req.kind
                && rows[id].priority == (if req.priority.Some? then req.priority.value else 2)
                && rows[id].maxAttempts == (if req.maxAttempts.Some? then req.maxAttempts.value else 3)
                && rows[id].key == req.key && rows[id].runAt == now
                && rows[id].error == None && rows[id].worker == None
                && rows[id].startedAt == None && rows[id].completedAt == None
    {
      if req.key.Some? {
        if req.key.value in keys {
          return keys[req.key.value], false;
        }
        keys := keys[req.key.value := freshId];
      }
      rows := rows[freshId := NewRow(req, now)];
      return freshId, true;
    }

    /** `None` when the job is absent or neither QUEUED nor RETRYING. */
    method ClaimJob(id: Id, worker: WorkerId, now: int) returns (job: Option<JobRow>)
      modifies this`rows
      ensures job.Some? <==> id in old(rows) && Claimable(old(rows)[id])
      ensures rows == if job.Some? then old(rows)[id := RunningRow(old(rows)[id], worker, now)] else old(rows)
      ensures job.Some? <==> id in old(rows) && (old(rows)[id].status == Queued || old(rows)[id].status == Retrying)
      ensures job.Some? ==>
                rows[id] == old(rows)[id].(status := Running, worker := Some(worker),
                                           attempt := old(rows)[id].attempt + 1,
                                           startedAt := Some(now))
      ensures job.Some? ==> job.value == rows[id]
    {
      if id in rows && Claimable(rows[id]) {
        rows := rows[id := RunningRow(rows[id], worker, now)];
        return Some(rows[id]);
      }
      job := None;
    }

    method RecordFailure(id: Id, err: string, nextRunAt: int, now: int) returns (status: Option<JobStatus>)
      modifies this`rows
      ensures rows == if id in old(rows) then old(rows)[id := FailedAttempt(old(rows)[id], err, nextRunAt, now)]
          else old(rows)
      ensures status == if id in rows then Some(rows[id].status) else None
      ensures id in old(rows) ==>
                && rows[id].error == Some(err) && rows[id].worker == None && rows[id].attempt == old(rows)[id].attempt
                && rows[id].maxAttempts == old(rows)[id].maxAttempts && rows[id].priority == old(rows)[id].priority
                && rows[id].kind == old(rows)[id].kind && rows[id].key == old(rows)[id].key
                && rows[id].startedAt == old(rows)[id].startedAt
                && (old(rows)[id].attempt < old(rows)[id].maxAttempts ==>
                      rows[id].status == Retrying && rows[id].runAt == nextRunAt && rows[id].completedAt == None)
                && (old(rows)[id].attempt >= old(rows)[id].maxAttempts ==>
                      rows[id].status == DeadLetter && rows[id].runAt == old(rows)[id].runAt
                      && rows[id].completedAt == Some(now))
    {
      if id !in rows {
        return None;
      }
      rows := rows[id := FailedAttempt(rows[id], err, nextRunAt, now)];
      status := Some(rows[id].status);
    }

    method MarkSucceeded(id: Id, now: int)
      modifies this`rows
      ensures rows == if id in old(rows) then old(rows)[id := SucceededRow(old(rows)[id], now)] else old(rows)
      ensures id in old(rows) ==>
          rows[id] == old(rows)[id].(status := Succeeded, completedAt := Some(now), error := None)
    {
      if id in rows {
        rows := rows[id := SucceededRow(rows[id], now)];
      }
    }

    method MarkFailed(id: Id, err: string, now: int)
      modifies this`rows
      ensures rows == if id in old(rows) then old(rows)[id := MarkedFailed(old(rows)[id], err, now)] else old(rows)
      ensures id in old(rows) ==>
          rows[id] == old(rows)[id].(status := Failed, completedAt := Some(now), error := Some(err))
    {
      if id in rows {
        rows := rows[id := MarkedFailed(rows[id], err, now)];
      }
    }

    method Cancel(id: Id, now: int) returns (ok: bool)
      modifies this`rows
      ensures ok <==> id in old(rows) && Cancellable(old(rows)[id])
      ensures rows == if ok then old(rows)[id := CancelledRow(old(rows)[id], now)] else old(rows)
      ensures ok <==> id in old(rows) && (old(rows)[id].status == Queued || old(rows)[id].status == Running)
      ensures ok ==> rows[id] == old(rows)[id].(status := Cancelled, completedAt := Some(now))
    {
      ok := id in rows && Cancellable(rows[id]);
      if ok {
        rows := rows[id := CancelledRow(rows[id], now)];
      }
    }

    method ManualRetry(id: Id, now: int) returns (job: Option<JobRow>)
      modifies this`rows
      ensures job.Some? <==> id in old(rows) && Retryable(old(rows)[id])
      ensures rows == if job.Some? then old(rows)[id := RetriedRow(old(rows)[id], now)] else old(rows)
      ensures job.Some? <==> id in old(rows) && (old(rows)[id].status == DeadLetter || old(rows)[id].status == Failed)
      ensures job.Some? ==>
                rows[id] == old(rows)[id].(status := Queued, attempt := 0, error := None, worker := None, runAt := now,
                                           completedAt := None)
      ensures job.Some? ==> job.value == rows[id]
    {
      if id in rows && Retryable(rows[id]) {
        rows := rows[id := RetriedRow(rows[id], now)];
        return Some(rows[id]);
      }
      job := None;
    }

    /** `batch` is the set of rows the database picks under SKIP LOCKED; it returns them in any order. */
    method RequeueDueRetries(now: int, limit: int, locked: set<Id>, batch: set<Id>) returns (requeued: seq<Id>)
      requires RetryBatch(rows, batch, now, limit, locked)
      modifies this`rows
      ensures Elements(requeued) == batch && |requeued| == |batch|
      ensures rows == Changed(old(rows), batch, RequeuedRow)
      ensures |requeued| <= (if limit <= 0 then 50 else limit)
      ensures |requeued| < (if limit <= 0 then 50 else limit) ==>
                forall id ::
                  (id in rows && id !in locked && old(rows)[id].status == Retrying && old(rows)[id].runAt <= now) ==>
                    id in batch
      ensures forall id :: id in batch ==>
                id in old(rows) && old(rows)[id].status == Retrying && old(rows)[id].runAt <= now && id !in locked
      ensures forall id, other ::
                (id in batch && other in rows && other !in batch && other !in locked
                 && old(rows)[other].status == Retrying && old(rows)[other].runAt <= now) ==>
                  old(rows)[id].runAt <= old(rows)[other].runAt
      ensures rows.Keys == old(rows).Keys
      ensures forall id :: id in rows ==> rows[id] == if id in batch then old(rows)[id].(status := Queued)
          else old(rows)[id]
    {
      rows := Changed(rows, batch, RequeuedRow);
      requeued := Scan(batch);
    }

    method RecoverDeadWorkerJobs(worker: WorkerId) returns (recovered: seq<Id>)
      modifies this`rows
      ensures Elements(recovered) == Orphans(old(rows), worker)
      ensures forall id :: id in recovered <==>
                id in old(rows) && old(rows)[id].status == Running && old(rows)[id].worker == Some(worker)
      ensures rows == Changed(old(rows), Orphans(old(rows), worker), RecoveredRow)
      ensures rows.Keys == old(rows).Keys
      ensures forall id :: id in rows ==>
                rows[id] == if old(rows)[id].status == Running && old(rows)[id].worker == Some(worker)
                            then old(rows)[id].(status := Queued, worker := None) else old(rows)[id]
    {
      var orphans := Orphans(rows, worker);
      rows := Changed(rows, orphans, RecoveredRow);
      recovered := Scan(orphans);
      assert forall id :: id in recovered <==> id in Elements(recovered);
    }

    /** Appends the returned rows one by one. */
    method Scan(ids: set<Id>) returns (listing: seq<Id>)
      ensures Elements(listing) == ids && |listing| == |ids|
    {
      var rest := ids;
      listing := [];
      while rest != {}
        invariant rest !! Elements(listing) && rest + Elements(listing) == ids && |listing| == |Elements(listing)|
        decreases rest
      {
        var id :| id in rest;
        assert Elements(listing + [id]) == Elements(listing) + {id};
        rest := rest - {id};
        listing := listing + [id];
      }
    }
  }
}
