/**
 One workflow, its task rows and the jobs behind them, with `AdvanceWorkflow` as one atomic round.

 Idempotency keys have the form "wf:<workflow>:task:<name>"; for one workflow they are the task names.
 */
module Workflow {
  import opened Dag
  import opened Admission
  import opened Options
  import opened Statuses
  import opened PriorityQueue

  datatype TaskRow = TaskRow(name: Name, kind: string, deps: seq<Name>, status: TaskStatus, job: Option<Id>,
                             error: Option<string>)

  datatype JobView = JobView(status: JobStatus, error: Option<string>)

  /** The job rows, with a bound on the ids handed out so far. */
  datatype JobTable = JobTable(rows: map<Id, JobView>, next: nat) {
    predicate Valid() {
      next > 0 && forall id :: id in rows ==> id.bits < next
    }
  }

  /** The workflow's error text: the failed task and, when there is one, its own error. */
  datatype FailureNote = FailureNote(task: Name, cause: Option<string>)

  datatype State = State(
    status: WorkflowStatus,
    error: Option<FailureNote>,
    tasks: seq<TaskRow>,
    jobs: JobTable,
    keys: map<Name, Id>,
    enqueued: seq<Id>)

  function Coalesce<T>(a: Option<T>, b: Option<T>): Option<T> {
    if a.Some? then a else b
  }

  // ---- One round as a function -----------------------------------------------------------

  /** A RUNNING task takes over the outcome of its job, if the job has one. */
  function Synced(t: TaskRow, jobs: map<Id, JobView>): TaskRow {
    if t.status == TaskRunning && t.job.Some? && t.job.value in jobs then
      var job := jobs[t.job.value];
      match job.status
      case Succeeded => t.(status := TaskSucceeded)
      case DeadLetter => t.(status := TaskFailed, error := Coalesce(job.error, t.error))
      case Failed => t.(status := TaskFailed, error := Coalesce(job.error, t.error))
      case Cancelled => t.(status := TaskCancelled)
      case _ => t
    else t
  }

  /** The error the engine sees in memory for a failed task: the job's own, even if absent. */
  function SeenError(t: TaskRow, jobs: map<Id, JobView>): Option<string> {
    if t.status == TaskRunning && t.job.Some? && t.job.value in jobs then jobs[t.job.value].error else t.error
  }

  function SyncedAll(tasks: seq<TaskRow>, jobs: map<Id, JobView>): (r: seq<TaskRow>)
    ensures |r| == |tasks| && forall i :: 0 <= i < |r| ==> r[i] == Synced(tasks[i], jobs)
  {
    seq(|tasks|, i requires 0 <= i < |tasks| => Synced(tasks[i], jobs))
  }

  /** The last failed task among the first `n`, after synchronising. */
  function LastFailed(tasks: seq<TaskRow>, jobs: map<Id, JobView>, n: nat): (note: Option<FailureNote>)
    requires n <= |tasks|
    ensures note.Some? <==> exists i :: 0 <= i < n && Synced(tasks[i], jobs).status == TaskFailed
  {
    if n == 0 then None
    else if Synced(tasks[n - 1], jobs).status == TaskFailed then
      var e := SeenError(tasks[n - 1], jobs);
      Some(FailureNote(tasks[n - 1].name, if e == Some("") then None else e))
    else LastFailed(tasks, jobs, n - 1)
  }

  predicate AllSucceeded(tasks: seq<TaskRow>) {
    forall i :: 0 <= i < |tasks| ==> tasks[i].status == TaskSucceeded
  }

  function PendingCancelled(t: TaskRow): TaskRow {
    if t.status == TaskPending then t.(status := TaskCancelled) else t
  }

  function CancelPending(tasks: seq<TaskRow>): (r: seq<TaskRow>)
    ensures |r| == |tasks| && forall i :: 0 <= i < |r| ==> r[i] == PendingCancelled(tasks[i])
  {
    seq(|tasks|, i requires 0 <= i < |tasks| => PendingCancelled(tasks[i]))
  }

  /** The readiness query: PENDING, and no dependency row that is not SUCCEEDED. */
  predicate Ready(tasks: seq<TaskRow>, i: nat)
    requires i < |tasks|
  {
    tasks[i].status == TaskPending
    && !exists j :: 0 <= j < |tasks| && tasks[j].name in tasks[i].deps && tasks[j].status != TaskSucceeded
  }

  /** Creates or finds the job behind a task, marks the task RUNNING, and enqueues a new job. */
  function ScheduledOne(s: State, i: nat): (s': State)
    requires i < |s.tasks|
    ensures |s'.tasks| == |s.tasks|
  {
    var t := s.tasks[i];
    if t.name in s.keys then
      s.(tasks := s.tasks[i := t.(status := TaskRunning, job := Some(s.keys[t.name]))])
    else
      var id := Uuid(s.jobs.next);
      s.(tasks := s.tasks[i := t.(status := TaskRunning, job := Some(id))],
         jobs := JobTable(s.jobs.rows[id := JobView(Queued, None)], s.jobs.next + 1),
         keys := s.keys[t.name := id],
         enqueued := s.enqueued + [id])
  }

  /** Schedules, among the first `n` tasks, those that were ready when the round asked. */
  function Scheduled(s: State, n: nat): (s': State)
    requires n <= |s.tasks|
    ensures |s'.tasks| == |s.tasks|
  {
    if n == 0 then s
    else if Ready(s.tasks, n - 1) then ScheduledOne(Scheduled(s, n - 1), n - 1)
    else Scheduled(s, n - 1)
  }

  function Round(s: State): (s': State)
    ensures |s'.tasks| == |s.tasks|
  {
    if s.status.IsTerminal() then s
    else
      var synced := SyncedAll(s.tasks, s.jobs.rows);
      var failure := LastFailed(s.tasks, s.jobs.rows, |s.tasks|);
      if failure.Some? then
        s.(status := WfFailed, error := failure, tasks := CancelPending(synced))
      else if AllSucceeded(synced) && |s.tasks| > 0 then
        s.(status := WfSucceeded, tasks := synced)
      else
        Scheduled(s.(tasks := synced), |s.tasks|)
  }

  function Started(s: State): State {
    Round(s.(status := WfRunning))
  }

  function CancelledTask(t: TaskRow): TaskRow {
    if t.status == TaskPending || t.status == TaskRunning then t.(status := TaskCancelled) else t
  }

  function CancelledAll(tasks: seq<TaskRow>): (r: seq<TaskRow>)
    ensures |r| == |tasks| && forall i :: 0 <= i < |r| ==> r[i] == CancelledTask(tasks[i])
  {
    seq(|tasks|, i requires 0 <= i < |tasks| => CancelledTask(tasks[i]))
  }

  /** Cancelling always cancels the open tasks, even when the workflow itself is already terminal. */
  function CancelledWorkflow(s: State): State {
    s.(status := if s.status == WfPending || s.status == WfRunning then WfCancelled else s.status,
       tasks := CancelledAll(s.tasks))
  }

  // ---- The engine ------------------------------------------------------------------------

  class WorkflowEngine {
    var status: WorkflowStatus
    var error: Option<FailureNote>
    var tasks: seq<TaskRow>
    var jobs: JobTable
    var keys: map<Name, Id>
    var enqueued: seq<Id>

    ghost function Model(): State
      reads this
    {
      State(status, error, tasks, jobs, keys, enqueued)
    }

    /** A stored workflow: PENDING, with PENDING tasks, over an existing job table. */
    constructor (specs: seq<TaskSpec>, jobs: JobTable)
      ensures Model() == Created(specs, jobs)
      ensures status == WfPending && error == None && this.jobs == jobs && keys == map[] && enqueued == []
      ensures |tasks| == |specs| && forall i :: 0 <= i < |specs| ==>
                tasks[i] == TaskRow(specs[i].name, specs[i].kind, specs[i].deps, TaskPending, None, None)
    {
      status, error := WfPending, None;
      tasks := NewRows(specs);
      this.jobs := jobs;
      keys, enqueued := map[], [];
    }

    method UpdateStatus(newStatus: WorkflowStatus, note: Option<FailureNote>)
      modifies this
      ensures Model() == old(Model()).(status := newStatus, error := Coalesce(note, old(error)))
      ensures status == newStatus && error == if note == None then old(error) else note
    {
      status := newStatus;
      error := Coalesce(note, error);
    }

    method UpdateTask(i: nat, newStatus: TaskStatus, job: Option<Id>, err: Option<string>)
      requires i < |tasks|
      modifies this
      ensures Model() == old(Model()).(tasks := old(tasks)[i := old(tasks)[i].(
                           status := newStatus, job := Coalesce(job, old(tasks)[i].job),
                               error := Coalesce(err, old(tasks)[i].error))])
      ensures |tasks| == |old(tasks)| && forall j :: 0 <= j < |tasks| && j != i ==> tasks[j] == old(tasks)[j]
      ensures tasks[i].status == newStatus && tasks[i].job == (if job == None then old(tasks)[i].job else job)
              && tasks[i].error == if err == None then old(tasks)[i].error else err
    {
      tasks := tasks[i := tasks[i].(status := newStatus, job := Coalesce(job, tasks[i].job),
                                    error := Coalesce(err, tasks[i].error))];
    }

    /** Brings one task up to date; the result is the engine's in-memory copy of it. */
    method SyncTask(i: nat) returns (task: TaskRow)
      requires i < |tasks|
      modifies this
      ensures Model() == old(Model()).(tasks := old(tasks)[i := Synced(old(tasks)[i], jobs.rows)])
      ensures task.name == tasks[i].name && task.status == tasks[i].status
      ensures task.status == TaskFailed ==> task.error == SeenError(old(tasks)[i], jobs.rows)
      ensures |tasks| == |old(tasks)| && forall j :: 0 <= j < |tasks| && j != i ==> tasks[j] == old(tasks)[j]
      ensures var t := old(tasks)[i];
              if t.status == TaskRunning && t.job.Some? && t.job.value in jobs.rows then
                var job := jobs.rows[t.job.value];
                && (tasks[i].status == TaskSucceeded <==> job.status == Succeeded)
                && (tasks[i].status == TaskFailed <==> job.status == Failed || job.status == DeadLetter)
                && (tasks[i].status == TaskCancelled <==> job.status == Cancelled)
                && tasks[i].status != TaskPending
              else tasks[i] == t
    {
      task := tasks[i];
      if task.status == TaskRunning && task.job.Some? && task.job.value in jobs.rows {
        var job := jobs.rows[task.job.value];
        match job.status
        case Succeeded =>
          UpdateTask(i, TaskSucceeded, None, None);
          task := task.(status := TaskSucceeded);
        case DeadLetter | Failed =>
          UpdateTask(i, TaskFailed, None, job.error);
          task := task.(status := TaskFailed, error := job.error);
        case Cancelled =>
          UpdateTask(i, TaskCancelled, None, None);
          task := task.(status := TaskCancelled);
        case _ =>
      }
    }

    /** The synchronisation loop: brings every RUNNING task up to date and notes failures. */
    method SyncTasks() returns (failure: Option<FailureNote>, allSucceeded: bool)
      modifies this
      ensures Model() == old(Model()).(tasks := SyncedAll(old(tasks), jobs.rows))
      ensures failure == LastFailed(old(tasks), jobs.rows, |tasks|)
      ensures allSucceeded <==> AllSucceeded(tasks)
    {
      failure, allSucceeded := None, true;
      for i := 0 to |tasks|
        invariant Model() == old(Model()).(tasks := tasks) && |tasks| == |old(tasks)|
        invariant forall j :: 0 <= j < i ==> tasks[j] == Synced(old(tasks)[j], jobs.rows)
        invariant forall j :: i <= j < |tasks| ==> tasks[j] == old(tasks)[j]
        invariant failure == LastFailed(old(tasks), jobs.rows, i)
        invariant allSucceeded <==> forall j :: 0 <= j < i ==> tasks[j].status == TaskSucceeded
      {
        var task := SyncTask(i);
        if task.status == TaskFailed {
          failure := Some(FailureNote(task.name, if task.error == Some("") then None else task.error));
          allSucceeded := false;
        } else if task.status != TaskSucceeded {
          allSucceeded := false;
        }
      }
      assert tasks == SyncedAll(old(tasks), jobs.rows);
    }

    method CancelPendingTasks()
      modifies this
      ensures Model() == old(Model()).(tasks := CancelPending(old(tasks)))
      ensures forall i :: 0 <= i < |tasks| ==>
                tasks[i] == if old(tasks)[i].status == TaskPending then old(tasks)[i].(status := TaskCancelled)
                    else old(tasks)[i]
    {
      for i := 0 to |tasks|
        invariant Model() == old(Model()).(tasks := tasks) && |tasks| == |old(tasks)|
        invariant forall j :: 0 <= j < i ==> tasks[j] == PendingCancelled(old(tasks)[j])
        invariant forall j :: i <= j < |tasks| ==> tasks[j] == old(tasks)[j]
      {
        if tasks[i].status == TaskPending {
          UpdateTask(i, TaskCancelled, None, None);
        }
      }
      assert tasks == CancelPending(old(tasks));
    }

    /** Finds the job with this idempotency key or inserts a new one. */
    method CreateJob(key: Name) returns (id: Id, created: bool)
      modifies this
      ensures created <==> key !in old(keys)
      ensures id == if created then Uuid(old(jobs).next) else old(keys)[key]
      ensures Model() == if created then
                           old(Model()).(jobs := JobTable(old(jobs).rows[id := JobView(Queued, None)],
                                                          old(jobs).next + 1),
                                         keys := old(keys)[key := id])
                         else old(Model())
    {
      if key in keys {
        return keys[key], false;
      }
      id, created := Uuid(jobs.next), true;
      jobs := JobTable(jobs.rows[id := JobView(Queued, None)], jobs.next + 1);
      keys := keys[key := id];
    }

    method ScheduleReady()
      modifies this
      ensures Model() == Scheduled(old(Model()), |old(tasks)|)
    {
      var snapshot := tasks;
      for i := 0 to |snapshot|
        invariant Model() == Scheduled(old(Model()), i)
        invariant forall j :: i <= j < |snapshot| ==> tasks[j] == snapshot[j]
      {
        if Ready(snapshot, i) {
          var id, created := CreateJob(snapshot[i].name);
          UpdateTask(i, TaskRunning, Some(id), None);
          if created {
            enqueued := enqueued + [id];
          }
        }
      }
    }

    method AdvanceWorkflow()
      modifies this
      ensures Model() == Round(old(Model()))
    {
      if status.IsTerminal() {
        return;
      }
      var failure, allSucceeded := SyncTasks();
      if failure.Some? {
        UpdateStatus(WfFailed, failure);
        CancelPendingTasks();
        return;
      }
      if allSucceeded && |tasks| > 0 {
        UpdateStatus(WfSucceeded, None);
        return;
      }
      ScheduleReady();
    }

    method Start()
      modifies this
      ensures Model() == Started(old(Model()))
    {
      UpdateStatus(WfRunning, None);
      AdvanceWorkflow();
    }

    method Cancel()
      modifies this
      ensures Model() == CancelledWorkflow(old(Model()))
      ensures status == if old(status) == WfPending || old(status) == WfRunning then WfCancelled else old(status)
      ensures |tasks| == |old(tasks)| && jobs == old(jobs) && keys == old(keys) && enqueued == old(enqueued)
      ensures forall i :: 0 <= i < |tasks| ==>
                tasks[i] == if old(tasks)[i].status == TaskPending || old(tasks)[i].status == TaskRunning
                            then old(tasks)[i].(status := TaskCancelled) else old(tasks)[i]
    {
      if status == WfPending || status == WfRunning {
        status := WfCancelled;
      }
      tasks := CancelledAll(tasks);
    }
  }

  function NewRow(spec: TaskSpec): TaskRow {
    TaskRow(spec.name, spec.kind, spec.deps, TaskPending, None, None)
  }

  function NewRows(specs: seq<TaskSpec>): (r: seq<TaskRow>)
    ensures |r| == |specs| && forall i :: 0 <= i < |r| ==> r[i] == NewRow(specs[i])
  {
    seq(|specs|, i requires 0 <= i < |specs| => NewRow(specs[i]))
  }

  function Created(specs: seq<TaskSpec>, jobs: JobTable): State {
    State(WfPending, None, NewRows(specs), jobs, map[], [])
  }
}
