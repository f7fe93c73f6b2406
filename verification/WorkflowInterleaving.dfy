/**
 One workflow with any number of concurrent `Start` and `AdvanceWorkflow` calls, where every store or
 queue call is its own step.  Callers work on snapshots, writes are unconditional, and any call may fail.
 */
module WorkflowInterleaving {
  import opened Dag
  import opened Admission
  import opened Calls
  import opened Levels
  import opened Options
  import opened Statuses
  import opened PriorityQueue
  import opened Workflow
  import opened WorkflowRuns
  import opened WorkflowProgress

  /** Where a caller is; each value but `Idle` names the call it makes next. */
  datatype Pc =
    | Idle
    | SetRunning
    | ReadStatus
    | ReadTasks
    | ReadJob(snap: seq<TaskRow>, i: nat, failed: bool, all: bool)
    | WriteTask(snap: seq<TaskRow>, i: nat, failed: bool, all: bool, job: JobView)
    | SetFailed(snap: seq<TaskRow>)
    | CancelTask(snap: seq<TaskRow>, i: nat)
    | SetSucceeded
    | ReadReady
    | FindJob(ready: seq<nat>, k: nat)
    | InsertJob(ready: seq<nat>, k: nat)
    | RefetchJob(ready: seq<nat>, k: nat)
    | BindTask(ready: seq<nat>, k: nat, id: Id, created: bool)
    | EnqueueJob(ready: seq<nat>, k: nat, id: Id)

  /**
   The rows, and a record of what has happened: which tasks were ever marked SUCCEEDED, for which that
   write was lost, who inserted each job, and what was put on the queue.
   */
  datatype Db = Db(
    status: WorkflowStatus,
    tasks: seq<TaskRow>,
    keys: map<Name, Id>,
    jobs: JobTable,
    marked: set<Name>,
    lostMarks: set<Name>,
    creator: map<Name, Caller>,
    enqueued: seq<Id>)

  datatype Sys = Sys(db: Db, pcs: map<Caller, Pc>)

  datatype Action =
    | Call(c: Caller, viaStart: bool)
    | Move(c: Caller, fate: Fate)
    | CancelWorkflow
    | JobsChange(jobs: JobTable)

  function Initial(specs: seq<TaskSpec>, jobs: JobTable): Sys {
    Sys(Db(WfPending, NewRows(specs), map[], jobs, {}, {}, map[], []), map[])
  }

  // ---- Steps -----------------------------------------------------------------------------

  function At(s: Sys, c: Caller): Pc {
    if c in s.pcs then s.pcs[c] else Idle
  }

  function Goto(s: Sys, db: Db, c: Caller, pc: Pc): Sys {
    Sys(db, s.pcs[c := pc])
  }

  /** UpdateStatus. */
  function WithStatus(db: Db, status: WorkflowStatus, fate: Fate): Db {
    if fate == NotDone then db else db.(status := status)
  }

  /** UpdateTask: unconditional, and it keeps the job and the error when none is given. */
  function WithTask(db: Db, i: nat, status: TaskStatus, job: Option<Id>, error: Option<string>, fate: Fate): (db': Db)
    requires i < |db.tasks|
    ensures |db'.tasks| == |db.tasks|
  {
    var t := db.tasks[i];
    if fate == NotDone then db.(lostMarks := if status == TaskSucceeded then db.lostMarks + {t.name} else db.lostMarks)
    else
      db.(tasks := db.tasks[i := t.(status := status, job := Coalesce(job, t.job), error := Coalesce(error, t.error))],
          marked := if status == TaskSucceeded then db.marked + {t.name} else db.marked)
  }

  /** A fresh job row under an unused idempotency key. */
  function WithJob(db: Db, c: Caller, name: Name): Db {
    var id := Uuid(db.jobs.next);
    db.(keys := db.keys[name := id],
        jobs := JobTable(db.jobs.rows[id := JobView(Queued, None)], db.jobs.next + 1),
        creator := db.creator[name := c])
  }

  /** The end of the loop body for one task, and where the loop leads. */
  function NextTaskPc(snap: seq<TaskRow>, i: nat, failed: bool, all: bool): Pc
    requires i < |snap|
  {
    var failed' := failed || snap[i].status == TaskFailed;
    var all' := all && snap[i].status == TaskSucceeded;
    LoopPc(snap, i + 1, failed', all')
  }

  function LoopPc(snap: seq<TaskRow>, i: nat, failed: bool, all: bool): Pc {
    if i < |snap| then ReadJob(snap, i, failed, all)
    else if failed then SetFailed(snap)
    else if all && |snap| > 0 then SetSucceeded
    else ReadReady
  }

  function ReadyPc(ready: seq<nat>, k: nat): Pc {
    if k < |ready| then FindJob(ready, k) else Idle
  }

  function ReadyIndices(tasks: seq<TaskRow>, n: nat): (ready: seq<nat>)
    requires n <= |tasks|
    ensures forall k :: 0 <= k < |ready| ==> ready[k] < n && Ready(tasks, ready[k])
  {
    if n == 0 then []
    else ReadyIndices(tasks, n - 1) + if Ready(tasks, n - 1) then [n - 1] else []
  }

  /** What a job's status means for its task, if anything. */
  function Outcome(status: JobStatus): Option<TaskStatus> {
    match status
    case Succeeded => Some(TaskSucceeded)
    case DeadLetter => Some(TaskFailed)
    case Failed => Some(TaskFailed)
    case Cancelled => Some(TaskCancelled)
    case _ => None
  }

  /** The next place of a caller that has asked for the job behind task `i`. */
  function AfterReadJob(db: Db, snap: seq<TaskRow>, i: nat, failed: bool, all: bool, fate: Fate): Pc
    requires i < |snap|
  {
    var t := snap[i];
    if fate == Done && t.status == TaskRunning && t.job.Some? && t.job.value in db.jobs.rows
       && Outcome(db.jobs.rows[t.job.value].status).Some? then
      WriteTask(snap, i, failed, all, db.jobs.rows[t.job.value])
    else
      NextTaskPc(snap, i, failed, all)
  }

  /** The snapshot takes the outcome whether or not the write came through. */
  function SnapAfter(snap: seq<TaskRow>, i: nat, job: JobView): (snap': seq<TaskRow>)
    requires i < |snap| && Outcome(job.status).Some?
    ensures |snap'| == |snap|
  {
    var status := Outcome(job.status).value;
    snap[i := snap[i].(status := status, error := if status == TaskFailed then job.error else snap[i].error)]
  }

  function MoveWriteTask(s: Sys, c: Caller, snap: seq<TaskRow>, i: nat, failed: bool, all: bool, job: JobView,
                         fate: Fate): Sys
    requires i < |snap| && i < |s.db.tasks| && Outcome(job.status).Some?
  {
    var status := Outcome(job.status).value;
    var error := if status == TaskFailed then job.error else None;
    Goto(s, WithTask(s.db, i, status, None, error, fate), c, NextTaskPc(SnapAfter(snap, i, job), i, failed, all))
  }

  function MoveCancelTask(s: Sys, c: Caller, snap: seq<TaskRow>, i: nat, fate: Fate): Sys {
    if i >= |snap| || i >= |s.db.tasks| then Goto(s, s.db, c, Idle)
    else if snap[i].status == TaskPending then
      Goto(s, WithTask(s.db, i, TaskCancelled, None, None, fate), c, CancelTask(snap, i + 1))
    else Goto(s, s.db, c, CancelTask(snap, i + 1))
  }

  function AfterFindJob(db: Db, ready: seq<nat>, k: nat, fate: Fate): Pc
    requires k < |ready| && ready[k] < |db.tasks|
  {
    var name := db.tasks[ready[k]].name;
    if fate != Done then ReadyPc(ready, k + 1)
    else if name in db.keys then BindTask(ready, k, db.keys[name], false)
    else InsertJob(ready, k)
  }

  /** INSERT ... ON CONFLICT DO NOTHING. */
  function MoveInsertJob(s: Sys, c: Caller, ready: seq<nat>, k: nat, fate: Fate): Sys
    requires k < |ready| && ready[k] < |s.db.tasks|
  {
    var name := s.db.tasks[ready[k]].name;
    if fate == NotDone then Goto(s, s.db, c, ReadyPc(ready, k + 1))
    else if name in s.db.keys then
      Goto(s, s.db, c, if fate == Done then RefetchJob(ready, k) else ReadyPc(ready, k + 1))
    else
      Goto(s, WithJob(s.db, c, name), c,
           if fate == Done then BindTask(ready, k, Uuid(s.db.jobs.next), true) else ReadyPc(ready, k + 1))
  }

  function AfterRefetchJob(db: Db, ready: seq<nat>, k: nat, fate: Fate): Pc
    requires k < |ready| && ready[k] < |db.tasks|
  {
    var name := db.tasks[ready[k]].name;
    if fate == Done && name in db.keys then BindTask(ready, k, db.keys[name], false) else ReadyPc(ready, k + 1)
  }

  function MoveBindTask(s: Sys, c: Caller, ready: seq<nat>, k: nat, id: Id, created: bool, fate: Fate): Sys
    requires k < |ready| && ready[k] < |s.db.tasks|
  {
    Goto(s, WithTask(s.db, ready[k], TaskRunning, Some(id), None, fate), c,
         if fate == Done && created then EnqueueJob(ready, k, id) else ReadyPc(ready, k + 1))
  }

  function MoveEnqueueJob(s: Sys, c: Caller, ready: seq<nat>, k: nat, id: Id, fate: Fate): Sys {
    Goto(s, if fate == NotDone then s.db else s.db.(enqueued := s.db.enqueued + [id]), c, ReadyPc(ready, k + 1))
  }

  /** The indices a caller carries point at task rows. */
  predicate InRange(db: Db, pc: Pc) {
    match pc
    case ReadJob(snap, i, _, _) => i < |snap|
    case WriteTask(snap, i, _, _, job) => i < |snap| && i < |db.tasks| && Outcome(job.status).Some?
    case FindJob(ready, k) => k < |ready| && ready[k] < |db.tasks|
    case InsertJob(ready, k) => k < |ready| && ready[k] < |db.tasks|
    case RefetchJob(ready, k) => k < |ready| && ready[k] < |db.tasks|
    case BindTask(ready, k, _, _) => k < |ready| && ready[k] < |db.tasks|
    case _ => true
  }

  function Moved(s: Sys, c: Caller, fate: Fate): Sys
    requires InRange(s.db, At(s, c))
  {
    match At(s, c)
    case Idle => s
    case SetRunning => Goto(s, WithStatus(s.db, WfRunning, fate), c, if fate == Done then ReadStatus else Idle)
    case ReadStatus => Goto(s, s.db, c, if fate == Done && !s.db.status.IsTerminal() then ReadTasks else Idle)
    case ReadTasks => Goto(s, s.db, c, if fate == Done then LoopPc(s.db.tasks, 0, false, true) else Idle)
    case ReadJob(snap, i, failed, all) => Goto(s, s.db, c, AfterReadJob(s.db, snap, i, failed, all, fate))
    case WriteTask(snap, i, failed, all, job) => MoveWriteTask(s, c, snap, i, failed, all, job, fate)
    case SetFailed(snap) => Goto(s, WithStatus(s.db, WfFailed, fate), c, CancelTask(snap, 0))
    case CancelTask(snap, i) => MoveCancelTask(s, c, snap, i, fate)
    case SetSucceeded => Goto(s, WithStatus(s.db, WfSucceeded, fate), c, Idle)
    case ReadReady => Goto(s, s.db, c, if fate == Done then ReadyPc(ReadyIndices(s.db.tasks, |s.db.tasks|), 0)
                           else Idle)
    case FindJob(ready, k) => Goto(s, s.db, c, AfterFindJob(s.db, ready, k, fate))
    case InsertJob(ready, k) => MoveInsertJob(s, c, ready, k, fate)
    case RefetchJob(ready, k) => Goto(s, s.db, c, AfterRefetchJob(s.db, ready, k, fate))
    case BindTask(ready, k, id, created) => MoveBindTask(s, c, ready, k, id, created, fate)
    case EnqueueJob(ready, k, id) => MoveEnqueueJob(s, c, ready, k, id, fate)
  }

  function CancelledDb(db: Db): Db {
    db.(status := if db.status == WfPending || db.status == WfRunning then WfCancelled else db.status,
        tasks := CancelledAll(db.tasks))
  }

  function Step(s: Sys, a: Action): Sys {
    match a
    case Call(c, viaStart) =>
      if At(s, c) == Idle then Goto(s, s.db, c, if viaStart then SetRunning else ReadStatus) else s
    case Move(c, fate) => if InRange(s.db, At(s, c)) then Moved(s, c, fate) else s
    case CancelWorkflow => s.(db := CancelledDb(s.db))
    case JobsChange(jobs) => if JobsMayBecome(s.db.jobs, jobs) then s.(db := s.db.(jobs := jobs)) else s
  }

  function Run(s: Sys, actions: seq<Action>): Sys {
    if actions == [] then s else Step(Run(s, actions[..|actions| - 1]), actions[|actions| - 1])
  }

  // ---- The invariant ---------------------------------------------------------------------

  ghost predicate DepsMarked(g: Graph, s: Db, n: Name) {
    n in g && forall d :: d in g[n] ==> d in s.marked
  }

  /** What holds of a task row, stored or in a snapshot. */
  ghost predicate RowInv(s: Db, t: TaskRow) {
    && (t.job.Some? ==> t.name in s.keys && s.keys[t.name] == t.job.value)
    && (t.status == TaskSucceeded ==> t.name in s.marked + s.lostMarks)
  }

  ghost predicate SnapInv(s: Db, snap: seq<TaskRow>) {
    SameShape(s.tasks, snap) && forall j :: 0 <= j < |snap| ==> RowInv(s, snap[j])
  }

  /** So far the loop has seen only succeeded tasks, if it still says so. */
  ghost predicate LoopInv(s: Db, snap: seq<TaskRow>, i: nat, all: bool) {
    && i <= |snap| && SnapInv(s, snap)
    && (all ==> forall j :: 0 <= j < i ==> snap[j].status == TaskSucceeded)
  }

  ghost predicate AllRecorded(s: Db) {
    forall j :: 0 <= j < |s.tasks| ==> s.tasks[j].name in s.marked + s.lostMarks
  }

  ghost predicate ReadyInv(g: Graph, s: Db, ready: seq<nat>, k: nat) {
    k < |ready| && forall r :: 0 <= r < |ready| ==> ready[r] < |s.tasks| && DepsMarked(g, s, s.tasks[ready[r]].name)
  }

  /** Only the inserter of a job holds the duty to enqueue it, and only until it has done so. */
  ghost predicate MayEnqueue(s: Db, c: Caller, n: Name, id: Id) {
    n in s.keys && s.keys[n] == id && n in s.creator && s.creator[n] == c && id !in s.enqueued
  }

  ghost predicate PcInv(g: Graph, s: Db, c: Caller, pc: Pc) {
    match pc
    case ReadJob(snap, i, failed, all) => i < |snap| && LoopInv(s, snap, i, all)
    case WriteTask(snap, i, failed, all, job) =>
      i < |snap| && LoopInv(s, snap, i, all) && Outcome(job.status).Some? && snap[i].name in s.keys
    case SetFailed(snap) => SnapInv(s, snap)
    case CancelTask(snap, i) => SnapInv(s, snap)
    case SetSucceeded => AllRecorded(s)
    case FindJob(ready, k) => ReadyInv(g, s, ready, k)
    case InsertJob(ready, k) => ReadyInv(g, s, ready, k)
    case RefetchJob(ready, k) => ReadyInv(g, s, ready, k) && s.tasks[ready[k]].name in s.keys
    case BindTask(ready, k, id, created) =>
      && ReadyInv(g, s, ready, k) && s.tasks[ready[k]].name in s.keys && s.keys[s.tasks[ready[k]].name] == id
      && (created ==> MayEnqueue(s, c, s.tasks[ready[k]].name, id))
    case EnqueueJob(ready, k, id) =>
      ReadyInv(g, s, ready, k) && MayEnqueue(s, c, s.tasks[ready[k]].name, id)
    case _ => true
  }

  /** Each job belongs to one task, and that task's dependencies had all been marked SUCCEEDED. */
  ghost predicate KeysInv(g: Graph, s: Db) {
    && s.jobs.Valid()
    && (forall n :: n in s.keys ==> s.keys[n] in s.jobs.rows && DepsMarked(g, s, n))
    && (forall m, n :: m in s.keys && n in s.keys && s.keys[m] == s.keys[n] ==> m == n)
    && (forall n :: n in s.creator ==> n in s.keys)
  }

  ghost predicate TasksInv(s: Db) {
    && (forall j :: 0 <= j < |s.tasks| ==> RowInv(s, s.tasks[j]))
    && (forall j :: 0 <= j < |s.tasks| && s.tasks[j].status == TaskSucceeded ==> s.tasks[j].name in s.marked)
    && (forall n :: n in s.marked ==> n in s.keys)
  }

  /** Only task jobs are enqueued, none of them twice. */
  ghost predicate EnqueuedInv(s: Db) {
    && (forall k :: 0 <= k < |s.enqueued| ==> s.enqueued[k] in s.keys.Values)
    && (forall j, k :: 0 <= j < k < |s.enqueued| ==> s.enqueued[j] != s.enqueued[k])
  }

  ghost predicate DbInv(g: Graph, s: Db) {
    && Rows(g, s.tasks)
    && KeysInv(g, s) && TasksInv(s) && EnqueuedInv(s)
    && (s.status == WfSucceeded ==> AllRecorded(s))
  }

  ghost predicate Inv(g: Graph, s: Sys) {
    DbInv(g, s.db) && forall c :: c in s.pcs ==> PcInv(g, s.db, c, s.pcs[c])
  }

  // ---- What other callers' steps leave alone ---------------------------------------------

  ghost predicate Extends(s: Db, s': Db) {
    && SameShape(s.tasks, s'.tasks)
    && (forall n :: n in s.keys ==> n in s'.keys && s'.keys[n] == s.keys[n])
    && (forall n :: n in s.creator ==> n in s'.creator && s'.creator[n] == s.creator[n])
    && s.marked <= s'.marked && s.lostMarks <= s'.lostMarks
    && JobsKept(s.tasks, s'.tasks)
  }

  /** A task bound to a job stays bound to that job. */
  ghost predicate JobsKept(tasks: seq<TaskRow>, tasks': seq<TaskRow>) {
    |tasks| == |tasks'| && forall i :: 0 <= i < |tasks| && tasks[i].job.Some? ==> tasks'[i].job == tasks[i].job
  }

  /** Nothing `c` still has to enqueue has appeared on the queue. */
  ghost predicate DutiesKept(s: Db, s': Db, c: Caller) {
    forall n :: n in s.keys && n in s.creator && s.creator[n] == c && s.keys[n] !in s.enqueued ==>
        s.keys[n] !in s'.enqueued
  }

  lemma SnapFrame(s: Db, s': Db, snap: seq<TaskRow>)
    requires Extends(s, s') && SnapInv(s, snap)
    ensures SnapInv(s', snap)
  {
  }

  lemma ReadyFrame(g: Graph, s: Db, s': Db, ready: seq<nat>, k: nat)
    requires Extends(s, s') && ReadyInv(g, s, ready, k)
    ensures ReadyInv(g, s', ready, k)
    ensures s'.tasks[ready[k]].name == s.tasks[ready[k]].name
  {
    forall r | 0 <= r < |ready| ensures ready[r] < |s'.tasks| && DepsMarked(g, s', s'.tasks[ready[r]].name) {
      assert DepsMarked(g, s, s.tasks[ready[r]].name);
    }
  }

  lemma PcFrame(g: Graph, s: Db, s': Db, c: Caller, pc: Pc)
    requires Extends(s, s') && DutiesKept(s, s', c) && PcInv(g, s, c, pc)
    ensures PcInv(g, s', c, pc)
  {
    hide ReadyInv, SnapInv;
    match pc
    case ReadJob(snap, i, failed, all) => SnapFrame(s, s', snap);
    case WriteTask(snap, i, failed, all, job) => SnapFrame(s, s', snap);
    case SetFailed(snap) => SnapFrame(s, s', snap);
    case CancelTask(snap, i) => SnapFrame(s, s', snap);
    case FindJob(ready, k) => ReadyFrame(g, s, s', ready, k);
    case InsertJob(ready, k) => ReadyFrame(g, s, s', ready, k);
    case RefetchJob(ready, k) => ReadyLength(g, s, ready, k); ReadyFrame(g, s, s', ready, k);
    case BindTask(ready, k, id, created) => ReadyLength(g, s, ready, k); ReadyFrame(g, s, s', ready, k);
    case EnqueueJob(ready, k, id) => ReadyLength(g, s, ready, k); ReadyFrame(g, s, s', ready, k);
    case _ =>
  }

  lemma ReadyLength(g: Graph, s: Db, ready: seq<nat>, k: nat)
    requires ReadyInv(g, s, ready, k)
    ensures k < |ready| && ready[k] < |s.tasks|
  {
  }

  // ---- The writes ------------------------------------------------------------------------

  lemma KeysFrame(g: Graph, s: Db, s': Db)
    requires KeysInv(g, s) && Extends(s, s') && s'.keys == s.keys && s'.creator == s.creator
    requires JobsMayBecome(s.jobs, s'.jobs)
    ensures KeysInv(g, s')
  {
    forall n | n in s'.keys ensures DepsMarked(g, s', n) {
      assert DepsMarked(g, s, n);
    }
  }

  lemma RecordedFrame(s: Db, s': Db)
    requires Extends(s, s') && AllRecorded(s)
    ensures AllRecorded(s')
  {
  }

  lemma TaskWritten(g: Graph, s: Db, i: nat, status: TaskStatus, job: Option<Id>, error: Option<string>, fate: Fate)
    requires DbInv(g, s) && i < |s.tasks|
    requires job.Some? ==> s.tasks[i].name in s.keys && s.keys[s.tasks[i].name] == job.value
    requires status == TaskSucceeded ==> s.tasks[i].name in s.keys
    ensures var s' := WithTask(s, i, status, job, error, fate);
            && DbInv(g, s') && Extends(s, s') && s'.enqueued == s.enqueued
            && (status == TaskSucceeded ==> s.tasks[i].name in s'.marked + s'.lostMarks)
  {
    hide Rows, AllRecorded, KeysInv, TasksInv, EnqueuedInv, JobsKept, SameShape, JobsMayBecome;
    var s' := WithTask(s, i, status, job, error, fate);
    KeysValid(g, s);
    WrittenShape(s, i, status, job, error, fate);
    WrittenKeepsJobs(s, i, status, job, error, fate);
    RowsShape(g, s.tasks, s'.tasks);
    KeysFrame(g, s, s');
    WrittenTasks(s, i, status, job, error, fate);
    EnqueuedFrame(s, s');
    if s.status == WfSucceeded {
      RecordedFrame(s, s');
    }
  }

  lemma WrittenShape(s: Db, i: nat, status: TaskStatus, job: Option<Id>, error: Option<string>, fate: Fate)
    requires i < |s.tasks| && s.jobs.Valid()
    ensures SameShape(s.tasks, WithTask(s, i, status, job, error, fate).tasks) && JobsMayBecome(s.jobs, s.jobs)
  {
  }

  lemma WrittenKeepsJobs(s: Db, i: nat, status: TaskStatus, job: Option<Id>, error: Option<string>, fate: Fate)
    requires TasksInv(s) && i < |s.tasks|
    requires job.Some? ==> s.tasks[i].name in s.keys && s.keys[s.tasks[i].name] == job.value
    ensures JobsKept(s.tasks, WithTask(s, i, status, job, error, fate).tasks)
  {
  }

  lemma EnqueuedFrame(s: Db, s': Db)
    requires EnqueuedInv(s) && s'.enqueued == s.enqueued && s'.keys == s.keys
    ensures EnqueuedInv(s')
  {
  }

  lemma WrittenTasks(s: Db, i: nat, status: TaskStatus, job: Option<Id>, error: Option<string>, fate: Fate)
    requires TasksInv(s) && i < |s.tasks|
    requires job.Some? ==> s.tasks[i].name in s.keys && s.keys[s.tasks[i].name] == job.value
    requires status == TaskSucceeded ==> s.tasks[i].name in s.keys
    ensures TasksInv(WithTask(s, i, status, job, error, fate))
  {
  }

  lemma KeysValid(g: Graph, s: Db)
    requires KeysInv(g, s)
    ensures s.jobs.Valid()
  {
  }

  lemma StatusWritten(g: Graph, s: Db, status: WorkflowStatus, fate: Fate)
    requires DbInv(g, s) && (status == WfSucceeded ==> AllRecorded(s))
    ensures var s' := WithStatus(s, status, fate);
            DbInv(g, s') && Extends(s, s') && s'.enqueued == s.enqueued
  {
    hide Rows, KeysInv;
    KeysValid(g, s);
    KeysFrame(g, s, WithStatus(s, status, fate));
  }

  lemma JobInserted(g: Graph, s: Db, c: Caller, name: Name)
    requires DbInv(g, s) && name !in s.keys && DepsMarked(g, s, name)
    ensures var s' := WithJob(s, c, name);
            && DbInv(g, s') && Extends(s, s') && s'.enqueued == s.enqueued
            && MayEnqueue(s', c, name, Uuid(s.jobs.next))
  {
    hide Rows, KeysInv, EnqueuedInv, TasksInv, AllRecorded, JobsKept;
    var s' := WithJob(s, c, name);
    SameJobsKept(s.tasks);
    CreatorHasKey(g, s);
    InsertedKeys(g, s, c, name);
    InsertedQueue(g, s, c, name);
    InsertedTasks(s, c, name);
    if s.status == WfSucceeded {
      RecordedFrame(s, s');
    }
  }

  lemma SameJobsKept(tasks: seq<TaskRow>)
    ensures JobsKept(tasks, tasks)
  {
  }

  lemma CreatorHasKey(g: Graph, s: Db)
    requires KeysInv(g, s)
    ensures forall n :: n in s.creator ==> n in s.keys
  {
  }

  lemma InsertedTasks(s: Db, c: Caller, name: Name)
    requires TasksInv(s) && name !in s.keys
    ensures TasksInv(WithJob(s, c, name))
  {
  }

  lemma InsertedKeys(g: Graph, s: Db, c: Caller, name: Name)
    requires KeysInv(g, s) && name !in s.keys && DepsMarked(g, s, name)
    ensures KeysInv(g, WithJob(s, c, name))
  {
    var s' := WithJob(s, c, name);
    forall n | n in s'.keys ensures DepsMarked(g, s', n) {
      assert n != name ==> DepsMarked(g, s, n);
    }
  }

  lemma InsertedQueue(g: Graph, s: Db, c: Caller, name: Name)
    requires KeysInv(g, s) && EnqueuedInv(s) && name !in s.keys
    ensures EnqueuedInv(WithJob(s, c, name)) && Uuid(s.jobs.next) !in s.enqueued
  {
    var s' := WithJob(s, c, name);
    var id := Uuid(s.jobs.next);
    forall k | 0 <= k < |s.enqueued| ensures s.enqueued[k] in s'.keys.Values && s.enqueued[k] != id {
      assert s.enqueued[k] in s.keys.Values;
      var n :| n in s.keys && s.keys[n] == s.enqueued[k];
      assert s'.keys[n] == s.enqueued[k];
    }
  }

  lemma JobEnqueued(g: Graph, s: Db, c: Caller, name: Name, id: Id)
    requires DbInv(g, s) && MayEnqueue(s, c, name, id)
    ensures var s' := s.(enqueued := s.enqueued + [id]);
            DbInv(g, s') && Extends(s, s') && forall o :: o != c ==> DutiesKept(s, s', o)
  {
    hide Rows;
    var s' := s.(enqueued := s.enqueued + [id]);
    KeysFrame(g, s, s');
    assert s.keys[name] in s.keys.Values;
  }

  lemma DbCancelled(g: Graph, s: Db)
    requires DbInv(g, s)
    ensures DbInv(g, CancelledDb(s)) && Extends(s, CancelledDb(s))
  {
    hide Rows, KeysInv;
    RowsShape(g, s.tasks, CancelledDb(s).tasks);
    KeysValid(g, s);
    KeysFrame(g, s, CancelledDb(s));
  }

  lemma DbJobsChanged(g: Graph, s: Db, jobs: JobTable)
    requires DbInv(g, s) && JobsMayBecome(s.jobs, jobs)
    ensures DbInv(g, s.(jobs := jobs)) && Extends(s, s.(jobs := jobs))
  {
    hide Rows, KeysInv;
    KeysFrame(g, s, s.(jobs := jobs));
  }

  // ---- One step --------------------------------------------------------------------------

  /** A move of `c`: the rows stay sound, nobody else is disturbed, and `c` stands where it may. */
  ghost predicate GoodMove(g: Graph, s: Sys, s': Sys, c: Caller) {
    && DbInv(g, s'.db) && Extends(s.db, s'.db)
    && (forall o :: o != c ==> DutiesKept(s.db, s'.db, o))
    && c in s'.pcs && s'.pcs == s.pcs[c := s'.pcs[c]]
    && PcInv(g, s'.db, c, s'.pcs[c])
  }

  lemma GoodMoveInv(g: Graph, s: Sys, s': Sys, c: Caller)
    requires Inv(g, s) && GoodMove(g, s, s', c)
    ensures Inv(g, s')
  {
    hide DbInv, PcInv, Extends, DutiesKept;
    forall o | o in s'.pcs ensures PcInv(g, s'.db, o, s'.pcs[o]) {
      if o != c {
        PcFrame(g, s.db, s'.db, o, s.pcs[o]);
      }
    }
  }

  lemma NextReady(g: Graph, s: Db, c: Caller, ready: seq<nat>, k: nat)
    requires ReadyInv(g, s, ready, k)
    ensures PcInv(g, s, c, ReadyPc(ready, k + 1))
  {
  }

  lemma NextTask(g: Graph, s: Db, c: Caller, snap: seq<TaskRow>, i: nat, failed: bool, all: bool)
    requires i < |snap| && LoopInv(s, snap, i, all)
    ensures PcInv(g, s, c, NextTaskPc(snap, i, failed, all))
  {
  }

  lemma QueriedReady(g: Graph, s: Db, c: Caller)
    requires DbInv(g, s)
    ensures PcInv(g, s, c, ReadyPc(ReadyIndices(s.tasks, |s.tasks|), 0))
  {
    var ready := ReadyIndices(s.tasks, |s.tasks|);
    forall r | 0 <= r < |ready| ensures DepsMarked(g, s, s.tasks[ready[r]].name) {
      ReadyDepsMarked(g, s, ready[r]);
    }
  }

  lemma ReadyDepsMarked(g: Graph, s: Db, i: nat)
    requires Rows(g, s.tasks) && TasksInv(s) && i < |s.tasks| && Ready(s.tasks, i)
    ensures DepsMarked(g, s, s.tasks[i].name)
  {
    forall d | d in g[s.tasks[i].name] ensures d in s.marked {
      assert Edge(g, s.tasks[i].name, d);
      var j :| 0 <= j < |s.tasks| && s.tasks[j].name == d;
      assert s.tasks[j].name in s.tasks[i].deps;
    }
  }

  lemma WriteTaskGood(g: Graph, s: Sys, c: Caller, fate: Fate)
    requires Inv(g, s) && At(s, c).WriteTask?
    ensures InRange(s.db, At(s, c)) && GoodMove(g, s, Moved(s, c, fate), c)
  {
    hide DbInv, Rows, NextTaskPc, WithTask;
    var WriteTask(snap, i, failed, all, job) := At(s, c);
    var status := Outcome(job.status).value;
    TaskWritten(g, s.db, i, status, None, if status == TaskFailed then job.error else None, fate);
    var s' := Moved(s, c, fate);
    var snap' := SnapAfter(snap, i, job);
    SnapFrame(s.db, s'.db, snap);
    assert SnapInv(s'.db, snap') by {
      assert forall j :: 0 <= j < |snap| && j != i ==> snap'[j] == snap[j];
    }
    NextTask(g, s'.db, c, snap', i, failed, all);
  }

  lemma LoopGood(g: Graph, s: Sys, c: Caller, fate: Fate)
    requires Inv(g, s) && (At(s, c).ReadTasks? || At(s, c).ReadJob?)
    ensures InRange(s.db, At(s, c)) && GoodMove(g, s, Moved(s, c, fate), c)
  {
    hide DbInv, Rows;
    match At(s, c)
    case ReadTasks =>
      RowsAreSnap(g, s.db);
    case ReadJob(snap, i, failed, all) =>
      NextTask(g, s.db, c, snap, i, failed, all);
  }

  lemma RowsAreSnap(g: Graph, s: Db)
    requires DbInv(g, s)
    ensures SnapInv(s, s.tasks)
  {
    hide Rows;
  }

  lemma StatusGood(g: Graph, s: Sys, c: Caller, fate: Fate)
    requires Inv(g, s)
    requires At(s, c).SetRunning? || At(s, c).ReadStatus? || At(s, c).SetFailed? || At(s, c).SetSucceeded? ||
        At(s, c).ReadReady?
    ensures GoodMove(g, s, Moved(s, c, fate), c)
  {
    hide DbInv, Rows, ReadyIndices, ReadyPc;
    match At(s, c)
    case SetRunning => StatusWritten(g, s.db, WfRunning, fate);
    case ReadStatus =>
    case SetFailed(snap) =>
      StatusWritten(g, s.db, WfFailed, fate);
      SnapFrame(s.db, WithStatus(s.db, WfFailed, fate), snap);
    case SetSucceeded => StatusWritten(g, s.db, WfSucceeded, fate);
    case ReadReady => QueriedReady(g, s.db, c);
  }

  lemma CancelTaskGood(g: Graph, s: Sys, c: Caller, fate: Fate)
    requires Inv(g, s) && At(s, c).CancelTask?
    ensures GoodMove(g, s, Moved(s, c, fate), c)
  {
    hide DbInv, Rows, SnapInv;
    var CancelTask(snap, i) := At(s, c);
    if i < |snap| && i < |s.db.tasks| && snap[i].status == TaskPending {
      TaskWritten(g, s.db, i, TaskCancelled, None, None, fate);
      SnapFrame(s.db, WithTask(s.db, i, TaskCancelled, None, None, fate), snap);
    }
  }

  lemma FindJobGood(g: Graph, s: Sys, c: Caller, fate: Fate)
    requires Inv(g, s) && (At(s, c).FindJob? || At(s, c).RefetchJob?)
    ensures InRange(s.db, At(s, c)) && GoodMove(g, s, Moved(s, c, fate), c)
  {
    hide DbInv, Rows, ReadyInv, ReadyPc;
    match At(s, c)
    case FindJob(ready, k) =>
      ReadyLength(g, s.db, ready, k);
      NextReady(g, s.db, c, ready, k);
    case RefetchJob(ready, k) =>
      ReadyLength(g, s.db, ready, k);
      NextReady(g, s.db, c, ready, k);
  }

  lemma InsertJobGood(g: Graph, s: Sys, c: Caller, fate: Fate)
    requires Inv(g, s) && At(s, c).InsertJob?
    ensures InRange(s.db, At(s, c)) && GoodMove(g, s, Moved(s, c, fate), c)
  {
    hide DbInv, Rows, ReadyInv, ReadyPc;
    var InsertJob(ready, k) := At(s, c);
    ReadyLength(g, s.db, ready, k);
    NextReady(g, s.db, c, ready, k);
    var name := s.db.tasks[ready[k]].name;
    if fate != NotDone && name !in s.db.keys {
      ReadyMarked(g, s.db, ready, k);
      JobInserted(g, s.db, c, name);
      var db' := WithJob(s.db, c, name);
      ReadyFrame(g, s.db, db', ready, k);
      NextReady(g, db', c, ready, k);
    }
  }

  lemma ReadyMarked(g: Graph, s: Db, ready: seq<nat>, k: nat)
    requires ReadyInv(g, s, ready, k)
    ensures DepsMarked(g, s, s.tasks[ready[k]].name)
  {
  }

  lemma BindTaskGood(g: Graph, s: Sys, c: Caller, fate: Fate)
    requires Inv(g, s) && At(s, c).BindTask?
    ensures InRange(s.db, At(s, c)) && GoodMove(g, s, Moved(s, c, fate), c)
  {
    hide DbInv, Rows, ReadyInv, ReadyPc;
    var BindTask(ready, k, id, created) := At(s, c);
    ReadyLength(g, s.db, ready, k);
    TaskWritten(g, s.db, ready[k], TaskRunning, Some(id), None, fate);
    var db' := WithTask(s.db, ready[k], TaskRunning, Some(id), None, fate);
    ReadyFrame(g, s.db, db', ready, k);
    NextReady(g, db', c, ready, k);
  }

  lemma EnqueueJobGood(g: Graph, s: Sys, c: Caller, fate: Fate)
    requires Inv(g, s) && At(s, c).EnqueueJob?
    ensures InRange(s.db, At(s, c)) && GoodMove(g, s, Moved(s, c, fate), c)
  {
    hide DbInv, Rows, ReadyInv, ReadyPc;
    var EnqueueJob(ready, k, id) := At(s, c);
    ReadyLength(g, s.db, ready, k);
    NextReady(g, s.db, c, ready, k);
    if fate != NotDone {
      JobEnqueued(g, s.db, c, s.db.tasks[ready[k]].name, id);
      var db' := s.db.(enqueued := s.db.enqueued + [id]);
      ReadyFrame(g, s.db, db', ready, k);
      NextReady(g, db', c, ready, k);
    }
  }

  lemma MoveInv(g: Graph, s: Sys, c: Caller, fate: Fate)
    requires Inv(g, s) && At(s, c) != Idle && InRange(s.db, At(s, c))
    ensures Inv(g, Moved(s, c, fate)) && Extends(s.db, Moved(s, c, fate).db)
  {
    hide Inv, Moved, Extends, DutiesKept, DbInv, PcInv;
    match At(s, c) {
      case SetRunning => StatusGood(g, s, c, fate);
      case ReadStatus => StatusGood(g, s, c, fate);
      case ReadTasks => LoopGood(g, s, c, fate);
      case ReadJob(_, _, _, _) => LoopGood(g, s, c, fate);
      case WriteTask(_, _, _, _, _) => WriteTaskGood(g, s, c, fate);
      case SetFailed(_) => StatusGood(g, s, c, fate);
      case CancelTask(_, _) => CancelTaskGood(g, s, c, fate);
      case SetSucceeded => StatusGood(g, s, c, fate);
      case ReadReady => StatusGood(g, s, c, fate);
      case FindJob(_, _) => FindJobGood(g, s, c, fate);
      case InsertJob(_, _) => InsertJobGood(g, s, c, fate);
      case RefetchJob(_, _) => FindJobGood(g, s, c, fate);
      case BindTask(_, _, _, _) => BindTaskGood(g, s, c, fate);
      case EnqueueJob(_, _, _) => EnqueueJobGood(g, s, c, fate);
    }
    GoodMoveInv(g, s, Moved(s, c, fate), c);
  }

  lemma EnvironmentInv(g: Graph, s: Sys, db: Db)
    requires Inv(g, s) && DbInv(g, db) && Extends(s.db, db) && db.enqueued == s.db.enqueued
    ensures Inv(g, s.(db := db))
  {
    hide DbInv, PcInv, Extends;
    forall c | c in s.pcs ensures PcInv(g, db, c, s.pcs[c]) {
      PcFrame(g, s.db, db, c, s.pcs[c]);
    }
  }

  lemma StepInv(g: Graph, s: Sys, a: Action)
    requires Inv(g, s)
    ensures Inv(g, Step(s, a)) && Extends(s.db, Step(s, a).db)
  {
    hide DbInv, Moved, InRange, Extends;
    ExtendsSelf(s.db);
    match a
    case Call(c, viaStart) =>
    case Move(c, fate) =>
      if InRange(s.db, At(s, c)) {
        if At(s, c) == Idle {
          IdleStays(s, c, fate);
        } else {
          MoveInv(g, s, c, fate);
        }
      }
    case CancelWorkflow =>
      DbCancelled(g, s.db);
      EnvironmentInv(g, s, CancelledDb(s.db));
    case JobsChange(jobs) =>
      if JobsMayBecome(s.db.jobs, jobs) {
        DbJobsChanged(g, s.db, jobs);
        EnvironmentInv(g, s, s.db.(jobs := jobs));
      }
  }

  lemma ExtendsSelf(db: Db)
    ensures Extends(db, db)
  {
  }

  lemma IdleStays(s: Sys, c: Caller, fate: Fate)
    requires At(s, c) == Idle && InRange(s.db, Idle)
    ensures Moved(s, c, fate) == s
  {
  }

  lemma InitialInv(specs: seq<TaskSpec>, jobs: JobTable)
    requires Admissible(specs) && jobs.Valid()
    ensures Inv(GraphOf(specs), Initial(specs, jobs))
  {
    hide Rows, Admissible, GraphOf;
    AdmittedRows(specs);
  }

  lemma {:induction false} RunInv(specs: seq<TaskSpec>, jobs: JobTable, actions: seq<Action>)
    requires Admissible(specs) && jobs.Valid()
    ensures Inv(GraphOf(specs), Run(Initial(specs, jobs), actions))
  {
    hide Inv, Step, Admissible, GraphOf;
    if actions == [] {
      InitialInv(specs, jobs);
    } else {
      RunInv(specs, jobs, actions[..|actions| - 1]);
      StepInv(GraphOf(specs), Run(Initial(specs, jobs), actions[..|actions| - 1]), actions[|actions| - 1]);
    }
  }

  // ---- What every interleaving guarantees ------------------------------------------------

  /** A key appears only where a caller was about to insert it, its dependencies marked. */
  lemma KeyAppears(g: Graph, s: Sys, a: Action, n: Name)
    requires Inv(g, s) && n !in s.db.keys && n in Step(s, a).db.keys
    ensures DepsMarked(g, s.db, n)
  {
    hide DbInv, Rows, ReadyPc, NextTaskPc, LoopPc;
    var Move(c, fate) := a;
    var InsertJob(ready, k) := At(s, c);
    ReadyMarked(g, s.db, ready, k);
  }

  /** Everything a chain leads to is marked once the first task's dependencies are. */
  lemma {:induction false} ChainMarked(g: Graph, db: Db, p: seq<Name>)
    requires IsChain(g, p) && |p| > 1
    requires KeysInv(g, db) && TasksInv(db) && DepsMarked(g, db, p[0])
    ensures p[|p| - 1] in db.marked
    decreases |p|
  {
    hide TasksInv;
    assert Edge(g, p[0], p[1]);
    assert p[1] in db.marked;
    if |p| > 2 {
      MarkedKey(db, p[1]);
      ChainTail(g, p);
      assert DepsMarked(g, db, p[1]);
      ChainMarked(g, db, p[1..]);
    }
  }

  lemma MarkedKey(db: Db, n: Name)
    requires TasksInv(db) && n in db.marked
    ensures n in db.keys
  {
  }

  /** The states that interleavings of a validated workflow lead to. */
  ghost predicate Reachable(specs: seq<TaskSpec>, s: Sys) {
    exists jobs: JobTable, actions :: Admissible(specs) && jobs.Valid() && s == Run(Initial(specs, jobs), actions)
  }

  lemma ReachableInv(specs: seq<TaskSpec>, s: Sys)
    requires Reachable(specs, s)
    ensures Inv(GraphOf(specs), s)
  {
    hide Admissible, GraphOf, Run, Inv;
    var jobs: JobTable, actions :| Admissible(specs) && jobs.Valid() && s == Run(Initial(specs, jobs), actions);
    RunInv(specs, jobs, actions);
  }

  /** No caller is ever stuck: the indices it carries point at rows its snapshot and the store have. */
  lemma AlwaysInRange(specs: seq<TaskSpec>, s: Sys, c: Caller)
    requires Reachable(specs, s)
    ensures InRange(s.db, At(s, c))
  {
    hide Reachable, GraphOf, DbInv;
    ReachableInv(specs, s);
    match At(s, c)
    case WriteTask(snap, i, _, _, _) =>
    case _ =>
  }

  /** Wherever a task has a job, every ancestor has been marked SUCCEEDED at some point. */
  lemma AncestorsMarked(specs: seq<TaskSpec>, s: Sys, n: Name, m: Name)
    requires Reachable(specs, s) && Reaches(GraphOf(specs), n, m) && n in s.db.keys
    ensures m in s.db.marked
  {
    hide Reachable, GraphOf, TasksInv, Rows;
    var g := GraphOf(specs);
    ReachableInv(specs, s);
    var p :| IsChain(g, p) && |p| > 1 && p[0] == n && p[|p| - 1] == m;
    ChainMarked(g, s.db, p);
  }

  /**
   In every interleaving, the job of task `n` is created only after every ancestor of `n` has been marked
   SUCCEEDED, even though status writes are unconditional and may undo one another.
   */
  lemma AncestorsFirst(specs: seq<TaskSpec>, s: Sys, a: Action, n: Name, m: Name)
    requires Reachable(specs, s) && Reaches(GraphOf(specs), n, m)
    requires n !in s.db.keys && n in Step(s, a).db.keys
    ensures m in s.db.marked
  {
    hide Reachable, GraphOf, Step, KeysInv, TasksInv, Rows;
    var g := GraphOf(specs);
    ReachableInv(specs, s);
    KeyAppears(g, s, a, n);
    var p :| IsChain(g, p) && |p| > 1 && p[0] == n && p[|p| - 1] == m;
    ChainMarked(g, s.db, p);
  }

  /** No call of the run failed without effect. */
  predicate NothingLost(actions: seq<Action>) {
    forall i :: 0 <= i < |actions| ==> !(actions[i].Move? && actions[i].fate == NotDone)
  }

  lemma StepLoses(s: Sys, a: Action)
    requires !(a.Move? && a.fate == NotDone)
    ensures Step(s, a).db.lostMarks == s.db.lostMarks
  {
    hide ReadyPc, NextTaskPc, LoopPc, ReadyIndices;
  }

  lemma {:induction false} RunLoses(s: Sys, actions: seq<Action>)
    requires NothingLost(actions)
    ensures Run(s, actions).db.lostMarks == s.db.lostMarks
  {
    hide Step;
    if actions != [] {
      RunLoses(s, actions[..|actions| - 1]);
      StepLoses(Run(s, actions[..|actions| - 1]), actions[|actions| - 1]);
    }
  }

  /**
   A workflow marked SUCCEEDED has had each task marked SUCCEEDED, or the write that should have done so
   was lost; without lost writes, each task was marked.
   */
  lemma SucceededMeansMarked(specs: seq<TaskSpec>, jobs: JobTable, actions: seq<Action>, i: nat)
    requires Admissible(specs) && jobs.Valid() && i < |specs|
    requires Run(Initial(specs, jobs), actions).db.status == WfSucceeded
    ensures var db := Run(Initial(specs, jobs), actions).db;
            && specs[i].name in db.marked + db.lostMarks
            && (NothingLost(actions) ==> specs[i].name in db.marked)
  {
    hide Admissible, GraphOf, Step, KeysInv, TasksInv, Rows, PcInv;
    RunInv(specs, jobs, actions);
    RunShape(specs, jobs, actions);
    if NothingLost(actions) {
      RunLoses(Initial(specs, jobs), actions);
    }
    var db := Run(Initial(specs, jobs), actions).db;
    assert db.tasks[i].name in db.marked + db.lostMarks;
  }

  lemma {:induction false} RunShape(specs: seq<TaskSpec>, jobs: JobTable, actions: seq<Action>)
    requires Admissible(specs) && jobs.Valid()
    ensures SameShape(NewRows(specs), Run(Initial(specs, jobs), actions).db.tasks)
  {
    hide Admissible, GraphOf, Step, Inv;
    if actions != [] {
      var init := actions[..|actions| - 1];
      RunShape(specs, jobs, init);
      RunInv(specs, jobs, init);
      StepInv(GraphOf(specs), Run(Initial(specs, jobs), init), actions[|actions| - 1]);
    }
  }

  /** Once a task has a job it keeps that job for ever, in the key table and in its row, and a bound row stays bound. */
  lemma {:induction false} OneJobForEver(specs: seq<TaskSpec>, jobs: JobTable, before: seq<Action>, after: seq<Action>,
                                         n: Name)
    requires Admissible(specs) && jobs.Valid() && n in Run(Initial(specs, jobs), before).db.keys
    ensures var db := Run(Initial(specs, jobs), before).db;
            var db' := Run(Initial(specs, jobs), before + after).db;
            && n in db'.keys && db'.keys[n] == db.keys[n]
            && forall i :: 0 <= i < |db'.tasks| && db'.tasks[i].name == n && db'.tasks[i].job.Some? ==>
                 db'.tasks[i].job.value == db.keys[n]
    ensures JobsKept(Run(Initial(specs, jobs), before).db.tasks, Run(Initial(specs, jobs), before + after).db.tasks)
    decreases |after|
  {
    hide Admissible, GraphOf, Step, KeysInv, Rows, PcInv, AllRecorded, EnqueuedInv;
    RunInv(specs, jobs, before + after);
    if after == [] {
      assert before + after == before;
    } else {
      var init := after[..|after| - 1];
      OneJobForEver(specs, jobs, before, init, n);
      RunInv(specs, jobs, before + init);
      StepInv(GraphOf(specs), Run(Initial(specs, jobs), before + init), after[|after| - 1]);
      assert (before + after)[..|before + after| - 1] == before + init;
    }
  }

  /** The engine never puts a job on the queue twice, and no two tasks share a job. */
  lemma EnqueuedOnce(specs: seq<TaskSpec>, jobs: JobTable, actions: seq<Action>)
    requires Admissible(specs) && jobs.Valid()
    ensures var db := Run(Initial(specs, jobs), actions).db;
            && (forall j, k :: 0 <= j < k < |db.enqueued| ==> db.enqueued[j] != db.enqueued[k])
            && (forall k :: 0 <= k < |db.enqueued| ==> db.enqueued[k] in db.keys.Values)
            && (forall m, n :: m in db.keys && n in db.keys && db.keys[m] == db.keys[n] ==> m == n)
  {
    hide Admissible, GraphOf, Step, TasksInv, Rows, PcInv, AllRecorded;
    RunInv(specs, jobs, actions);
  }
}
