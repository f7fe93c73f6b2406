/**
 Runs of one workflow whose steps are whole rounds: what holds in every state, why a live
 workflow always has work in flight, and how many rounds it takes.
 */
module WorkflowRuns {
  import opened Dag
  import opened Admission
  import opened Options
  import opened Statuses
  import opened PriorityQueue
  import opened Workflow

  datatype Action =
    | Start
    | Advance
    | Cancel
    | JobsChange(jobs: JobTable)

  /**
   `Start` follows creation, so it meets a PENDING workflow.  The poller lists RUNNING workflows and no
   statement makes a workflow PENDING again.  Jobs change freely but never vanish.
   */
  predicate Enabled(s: State, a: Action) {
    match a
    case Start => s.status == WfPending
    case Advance => s.status != WfPending
    case JobsChange(jobs) => JobsMayBecome(s.jobs, jobs)
    case _ => true
  }

  predicate JobsMayBecome(before: JobTable, after: JobTable) {
    after.Valid() && forall id :: id in before.rows ==> id in after.rows
  }

  function Step(s: State, a: Action): State {
    if !Enabled(s, a) then s
    else
      match a
      case Start => Started(s)
      case Advance => Round(s)
      case Cancel => CancelledWorkflow(s)
      case JobsChange(jobs) => s.(jobs := jobs)
  }

  function Run(s: State, actions: seq<Action>): State {
    if actions == [] then s else Step(Run(s, actions[..|actions| - 1]), actions[|actions| - 1])
  }

  // ---- What scheduling does --------------------------------------------------------------

  predicate Grows(s: State, s': State) {
    && (forall k :: k in s.keys ==> k in s'.keys && s'.keys[k] == s.keys[k])
    && (forall id :: id in s.jobs.rows ==> id in s'.jobs.rows && s'.jobs.rows[id] == s.jobs.rows[id])
  }

  /** Keys and task rows only refer to jobs that exist. */
  predicate Linked(s: State) {
    && s.jobs.Valid()
    && (forall k :: k in s.keys ==> s.keys[k] in s.jobs.rows)
    && (forall i :: 0 <= i < |s.tasks| && s.tasks[i].job.Some? ==>
          s.tasks[i].name in s.keys && s.keys[s.tasks[i].name] == s.tasks[i].job.value)
    && (forall i :: 0 <= i < |s.tasks| && s.tasks[i].status in {TaskRunning, TaskSucceeded, TaskFailed} ==>
          s.tasks[i].job.Some?)
  }

  predicate ScheduledRow(t: TaskRow, ready: bool, t': TaskRow, keys: map<Name, Id>) {
    if ready then t.name in keys && t' == t.(status := TaskRunning, job := Some(keys[t.name])) else t' == t
  }

  lemma OneScheduled(s: State, i: nat)
    requires i < |s.tasks| && Linked(s)
    ensures var s' := ScheduledOne(s, i);
            && Linked(s') && Grows(s, s') && s'.status == s.status
            && ScheduledRow(s.tasks[i], true, s'.tasks[i], s'.keys)
            && (forall j :: 0 <= j < |s.tasks| && j != i ==> s'.tasks[j] == s.tasks[j])
            && (forall k :: k in s'.keys && k !in s.keys ==> k == s.tasks[i].name)
  {
  }

  /** `s'` is `s` with the ready tasks among the first `n` scheduled. */
  ghost predicate SchedulingOf(s: State, s': State, n: nat)
    requires n <= |s.tasks| == |s'.tasks|
  {
    && Linked(s') && Grows(s, s') && s'.status == s.status
    && (forall i :: 0 <= i < n ==> ScheduledRow(s.tasks[i], Ready(s.tasks, i), s'.tasks[i], s'.keys))
    && (forall i :: n <= i < |s.tasks| ==> s'.tasks[i] == s.tasks[i])
    && (forall k :: k in s'.keys && k !in s.keys ==>
        exists i :: 0 <= i < n && Ready(s.tasks, i) && s.tasks[i].name == k)
  }

  lemma {:induction false} ScheduledRows(s: State, n: nat)
    requires n <= |s.tasks| && Linked(s)
    ensures SchedulingOf(s, Scheduled(s, n), n)
  {
    hide Ready, Linked, ScheduledOne;
    if n > 0 {
      ScheduledRows(s, n - 1);
      if Ready(s.tasks, n - 1) {
        OneScheduled(Scheduled(s, n - 1), n - 1);
      }
    }
  }

  // ---- Invariants of every run -----------------------------------------------------------

  ghost predicate Has(tasks: seq<TaskRow>, status: TaskStatus) {
    exists i :: 0 <= i < |tasks| && tasks[i].status == status
  }

  /** What each workflow status says about the tasks. */
  ghost predicate StatusInv(s: State) {
    match s.status
    case WfPending => s.keys == map[] && forall i :: 0 <= i < |s.tasks| ==>
        s.tasks[i].status == TaskPending && s.tasks[i].job == None
    case WfRunning => !Has(s.tasks, TaskFailed)
    case WfSucceeded => AllSucceeded(s.tasks)
    case WfFailed => Has(s.tasks, TaskFailed) && !Has(s.tasks, TaskPending)
    case WfCancelled => !Has(s.tasks, TaskPending) && !Has(s.tasks, TaskRunning)
  }

  ghost predicate Inv(s: State) {
    Linked(s) && StatusInv(s)
  }

  lemma SyncKeepsLinks(s: State)
    requires Linked(s)
    ensures Linked(s.(tasks := SyncedAll(s.tasks, s.jobs.rows)))
    ensures Linked(s.(tasks := CancelPending(SyncedAll(s.tasks, s.jobs.rows))))
  {
  }

  /** The three outcomes of a round, told apart by the synchronised tasks. */
  lemma RoundCases(s: State)
    requires !s.status.IsTerminal() && s.tasks != []
    ensures var synced := SyncedAll(s.tasks, s.jobs.rows);
            && (Has(synced, TaskFailed) ==>
                  Round(s).status == WfFailed && Round(s).tasks == CancelPending(synced)
                  && Round(s).jobs == s.jobs && Round(s).keys == s.keys)
            && (!Has(synced, TaskFailed) && AllSucceeded(synced) ==>
                Round(s) == s.(status := WfSucceeded, tasks := synced))
            && (!Has(synced, TaskFailed) && !AllSucceeded(synced) ==>
                Round(s) == Scheduled(s.(tasks := synced), |s.tasks|))
  {
    hide Scheduled, AllSucceeded;
    var synced := SyncedAll(s.tasks, s.jobs.rows);
    assert Has(synced, TaskFailed) <==> LastFailed(s.tasks, s.jobs.rows, |s.tasks|).Some? by {
      if Has(synced, TaskFailed) {
        var i :| 0 <= i < |synced| && synced[i].status == TaskFailed;
        assert Synced(s.tasks[i], s.jobs.rows).status == TaskFailed;
      } else {
        forall i | 0 <= i < |s.tasks| ensures Synced(s.tasks[i], s.jobs.rows).status != TaskFailed {
          assert synced[i] == Synced(s.tasks[i], s.jobs.rows);
        }
      }
    }
  }

  lemma EmptyRound(s: State)
    requires s.tasks == []
    ensures Round(s) == s
  {
    assert s.(tasks := s.tasks) == s;
  }

  lemma CancelPendingInv(s: State, s': State, synced: seq<TaskRow>)
    requires Linked(s.(tasks := CancelPending(synced))) && Has(synced, TaskFailed)
    requires s'.status == WfFailed && s'.tasks == CancelPending(synced) && s'.jobs == s.jobs && s'.keys == s.keys
    ensures Inv(s')
  {
    var i :| 0 <= i < |synced| && synced[i].status == TaskFailed;
    assert s'.tasks[i].status == TaskFailed;
  }

  lemma SchedulingInv(s: State)
    requires Linked(s) && s.status == WfRunning && !Has(s.tasks, TaskFailed)
    ensures Inv(Scheduled(s, |s.tasks|))
  {
    hide Ready, Linked, Grows, Scheduled;
    ScheduledRows(s, |s.tasks|);
  }

  lemma LinkedStatus(s: State, status: WorkflowStatus)
    requires Linked(s)
    ensures Linked(s.(status := status))
  {
  }

  lemma RoundInv(s: State)
    requires Linked(s) && s.status == WfRunning
    ensures Inv(Round(s))
  {
    hide Ready, Linked, Grows, Scheduled, Round;
    if s.tasks == [] {
      EmptyRound(s);
    } else {
      var synced := SyncedAll(s.tasks, s.jobs.rows);
      SyncKeepsLinks(s);
      RoundCases(s);
      if Has(synced, TaskFailed) {
        CancelPendingInv(s, Round(s), synced);
      } else if AllSucceeded(synced) {
        LinkedStatus(s.(tasks := synced), WfSucceeded);
      } else {
        SchedulingInv(s.(tasks := synced));
      }
    }
  }

  lemma StepInv(s: State, a: Action)
    requires Inv(s)
    ensures Inv(Step(s, a))
  {
    hide Round, LastFailed;
    if s.status == WfRunning {
      RoundInv(s);
    } else if s.status == WfPending {
      RoundInv(s.(status := WfRunning));
    } else {
      TerminalRound(s);
    }
    CancelInv(s);
  }

  lemma TerminalRound(s: State)
    requires s.status.IsTerminal()
    ensures Round(s) == s
  {
  }

  lemma CancelInv(s: State)
    requires Inv(s)
    ensures Inv(CancelledWorkflow(s))
  {
    var s' := CancelledWorkflow(s);
    if s.status == WfFailed {
      var i :| 0 <= i < |s.tasks| && s.tasks[i].status == TaskFailed;
      assert s'.tasks[i].status == TaskFailed;
    }
  }

  /** Every state of every run, however cancellations and job changes fall. */
  lemma {:induction false} Invariant(specs: seq<TaskSpec>, jobs: JobTable, actions: seq<Action>)
    requires jobs.Valid()
    ensures Inv(Run(Created(specs, jobs), actions))
  {
    hide Round, Inv;
    if actions == [] {
      CreatedInv(specs, jobs);
    } else {
      Invariant(specs, jobs, actions[..|actions| - 1]);
      StepInv(Run(Created(specs, jobs), actions[..|actions| - 1]), actions[|actions| - 1]);
    }
  }

  /** What the status of a workflow says about its tasks, in every state of every run. */
  lemma StatusMeans(specs: seq<TaskSpec>, jobs: JobTable, actions: seq<Action>)
    requires jobs.Valid()
    ensures var s := Run(Created(specs, jobs), actions);
            && (s.status == WfSucceeded ==> forall i :: 0 <= i < |s.tasks| ==> s.tasks[i].status == TaskSucceeded)
            && (s.status == WfFailed ==>
                  && (exists i :: 0 <= i < |s.tasks| && s.tasks[i].status == TaskFailed)
                  && (forall i :: 0 <= i < |s.tasks| ==> s.tasks[i].status != TaskPending))
            && (s.status == WfCancelled ==>
                  forall i :: 0 <= i < |s.tasks| ==>
                      s.tasks[i].status != TaskPending && s.tasks[i].status != TaskRunning)
            && (s.status == WfRunning ==> forall i :: 0 <= i < |s.tasks| ==> s.tasks[i].status != TaskFailed)
            && (forall i :: 0 <= i < |s.tasks| && s.tasks[i].status == TaskRunning ==>
                  s.tasks[i].job.Some? && s.tasks[i].job.value in s.jobs.rows)
  {
    hide Run;
    Invariant(specs, jobs, actions);
  }

  lemma CreatedInv(specs: seq<TaskSpec>, jobs: JobTable)
    requires jobs.Valid()
    ensures Inv(Created(specs, jobs))
  {
  }

  /** A terminal workflow keeps its status, and its tasks keep the jobs they have. */
  ghost predicate Frozen(s: State, s': State) {
    && s'.status == s.status && s'.keys == s.keys && s'.enqueued == s.enqueued
    && |s'.tasks| == |s.tasks|
    && forall i :: 0 <= i < |s.tasks| ==> s'.tasks[i].job == s.tasks[i].job
  }

  lemma {:induction false} TerminalFrozen(s: State, actions: seq<Action>)
    requires s.status == WfSucceeded || s.status == WfFailed || s.status == WfCancelled
    ensures Frozen(s, Run(s, actions))
  {
    if actions != [] {
      TerminalFrozen(s, actions[..|actions| - 1]);
    }
  }

  // ---- Progress measure ------------------------------------------------------------------

  function Weight(t: TaskRow): nat {
    if t.status == TaskPending then 2 else if t.status == TaskRunning then 1 else 0
  }

  function Measure(tasks: seq<TaskRow>): nat {
    if tasks == [] then 0 else Weight(tasks[0]) + Measure(tasks[1..])
  }

  predicate Lighter(t: TaskRow, t': TaskRow) {
    t' == t || Weight(t') < Weight(t)
  }

  lemma {:induction false} LighterMeasure(tasks: seq<TaskRow>, tasks': seq<TaskRow>)
    requires |tasks'| == |tasks| && forall i :: 0 <= i < |tasks| ==> Lighter(tasks[i], tasks'[i])
    ensures Measure(tasks') <= Measure(tasks) <= 2 * |tasks|
    ensures tasks' != tasks ==> Measure(tasks') < Measure(tasks)
  {
    if tasks != [] {
      LighterMeasure(tasks[1..], tasks'[1..]);
      if tasks' != tasks && tasks'[0] == tasks[0] {
        assert tasks == [tasks[0]] + tasks[1..];
        assert tasks' == [tasks'[0]] + tasks'[1..];
      }
    }
  }

  lemma RoundLighter(s: State)
    requires Linked(s)
    ensures forall i :: 0 <= i < |s.tasks| ==> Lighter(s.tasks[i], Round(s).tasks[i])
  {
    hide Ready, Linked, Grows, Scheduled, LastFailed;
    if !s.status.IsTerminal() {
      SyncKeepsLinks(s);
      ScheduledRows(s.(tasks := SyncedAll(s.tasks, s.jobs.rows)), |s.tasks|);
      forall i | 0 <= i < |s.tasks| ensures Lighter(s.tasks[i], Round(s).tasks[i]) {
        ReadyPending(SyncedAll(s.tasks, s.jobs.rows), i);
      }
    }
  }

  lemma ReadyPending(tasks: seq<TaskRow>, i: nat)
    requires i < |tasks|
    ensures Ready(tasks, i) ==> tasks[i].status == TaskPending
  {
  }

  /** A round that changes any task strictly lowers 2 * #PENDING + #RUNNING. */
  lemma RoundDescends(s: State)
    requires Linked(s)
    ensures Measure(Round(s).tasks) <= Measure(s.tasks)
    ensures Round(s).tasks != s.tasks ==> Measure(Round(s).tasks) < Measure(s.tasks)
  {
    hide Round;
    RoundLighter(s);
    LighterMeasure(s.tasks, Round(s).tasks);
  }

  /** The number of rounds in a run, Start's included, that change some task. */
  function ChangingRounds(s: State, actions: seq<Action>): nat {
    if actions == [] then 0
    else
      var before := Run(s, actions[..|actions| - 1]);
      var a := actions[|actions| - 1];
      ChangingRounds(s, actions[..|actions| - 1])
      + if (a == Advance || a == Start) && Step(before, a).tasks != before.tasks then 1 else 0
  }

  lemma StepMeasure(s: State, a: Action)
    requires Inv(s)
    ensures Measure(Step(s, a).tasks) + (if (a == Advance || a == Start) && Step(s, a).tasks != s.tasks then 1 else 0)
         <= Measure(s.tasks)
  {
    hide Round, Measure;
    match a
    case Start =>
      RoundDescends(s.(status := WfRunning));
    case Advance =>
      RoundDescends(s);
    case Cancel =>
      LighterMeasure(s.tasks, CancelledWorkflow(s).tasks);
    case JobsChange(_) =>
  }

  /** However long the run, at most two rounds per task change anything. */
  lemma {:induction false} ChangesBounded(specs: seq<TaskSpec>, jobs: JobTable, actions: seq<Action>)
    requires jobs.Valid()
    ensures ChangingRounds(Created(specs, jobs), actions) + Measure(Run(Created(specs, jobs), actions).tasks)
         <= 2 * |specs|
  {
    hide Inv, Step;
    var s := Created(specs, jobs);
    if actions == [] {
      LighterMeasure(s.tasks, s.tasks);
    } else {
      var init := actions[..|actions| - 1];
      ChangesBounded(specs, jobs, init);
      Invariant(specs, jobs, init);
      StepMeasure(Run(s, init), actions[|actions| - 1]);
    }
  }

  // ---- What a round makes of each task ---------------------------------------------------

  /** The task is RUNNING and the row of its job has this status. */
  predicate JobSays(s: State, t: TaskRow, status: JobStatus) {
    t.status == TaskRunning && t.job.Some? && t.job.value in s.jobs.rows && s.jobs.rows[t.job.value].status == status
  }

  predicate FailsNow(s: State, t: TaskRow) {
    t.status == TaskFailed || JobSays(s, t, DeadLetter) || JobSays(s, t, Failed)
  }

  lemma SyncedOutcome(s: State, t: TaskRow)
    ensures var t' := Synced(t, s.jobs.rows);
            && (t'.status == TaskSucceeded <==> t.status == TaskSucceeded || JobSays(s, t, Succeeded))
            && (t'.status == TaskFailed <==> FailsNow(s, t))
            && (t'.status == TaskCancelled <==> t.status == TaskCancelled || JobSays(s, t, Cancelled))
            && (t'.status == TaskPending <==> t.status == TaskPending)
            && t'.name == t.name && t'.deps == t.deps && t'.kind == t.kind && t'.job == t.job
            && (t'.error != t.error ==> JobSays(s, t, DeadLetter) || JobSays(s, t, Failed))
            && (JobSays(s, t, DeadLetter) || JobSays(s, t, Failed) ==>
                  t'.error == if s.jobs.rows[t.job.value].error.Some? then s.jobs.rows[t.job.value].error else t.error)
  {
  }

  /** Some task has failed, or its job has. */
  ghost predicate AnyFails(s: State) {
    exists j :: 0 <= j < |s.tasks| && FailsNow(s, s.tasks[j])
  }

  lemma FailureSeen(s: State)
    ensures Has(SyncedAll(s.tasks, s.jobs.rows), TaskFailed) <==> AnyFails(s)
  {
    var synced := SyncedAll(s.tasks, s.jobs.rows);
    forall j | 0 <= j < |s.tasks| ensures synced[j].status == TaskFailed <==> FailsNow(s, s.tasks[j]) {
      SyncedOutcome(s, s.tasks[j]);
    }
    if Has(synced, TaskFailed) {
      var j :| 0 <= j < |synced| && synced[j].status == TaskFailed;
      assert FailsNow(s, s.tasks[j]);
    }
    if AnyFails(s) {
      var j :| 0 <= j < |s.tasks| && FailsNow(s, s.tasks[j]);
      assert synced[j].status == TaskFailed;
    }
  }

  /**
   Which status a round of a RUNNING workflow gives each task: success, failure and cancellation exactly as its
   job says, cancellation of what is PENDING when anything fails, and otherwise RUNNING for a PENDING task exactly
   when every row it depends on has succeeded.
   */
  lemma RoundOutcomes(s: State, i: nat)
    requires s.status == WfRunning && Linked(s) && i < |s.tasks|
    ensures var t, t' := s.tasks[i], Round(s).tasks[i];
            && t'.name == t.name && t'.deps == t.deps && t'.kind == t.kind
            && (t'.status == TaskSucceeded <==> t.status == TaskSucceeded || JobSays(s, t, Succeeded))
            && (t'.status == TaskFailed <==> FailsNow(s, t))
            && (t'.status == TaskCancelled <==>
                  t.status == TaskCancelled || JobSays(s, t, Cancelled) || (t.status == TaskPending && AnyFails(s)))
            && (t.status == TaskPending && !AnyFails(s) ==>
                  (t'.status == TaskRunning <==>
                     forall j :: 0 <= j < |s.tasks| && s.tasks[j].name in t.deps ==>
                       s.tasks[j].status == TaskSucceeded || JobSays(s, s.tasks[j], Succeeded)))
            && (JobSays(s, t, DeadLetter) || JobSays(s, t, Failed) ==>
                  t'.error == if s.jobs.rows[t.job.value].error.Some? then s.jobs.rows[t.job.value].error else t.error)
  {
    hide Round, Scheduled, Synced, FailsNow, JobSays, Ready, Linked, AnyFails;
    var synced := SyncedAll(s.tasks, s.jobs.rows);
    SyncedOutcome(s, s.tasks[i]);
    FailureSeen(s);
    RoundCases(s);
    if AnyFails(s) {
      assert Round(s).tasks[i] == PendingCancelled(synced[i]);
    } else if AllSucceeded(synced) {
      assert Round(s).tasks[i] == synced[i];
    } else {
      var mid := s.(tasks := synced);
      SyncKeepsLinks(s);
      ScheduledRows(mid, |s.tasks|);
      ReadyMeans(s, i);
    }
  }

  lemma ReadyMeans(s: State, i: nat)
    requires i < |s.tasks|
    ensures var synced := SyncedAll(s.tasks, s.jobs.rows);
            Ready(synced, i) <==>
              s.tasks[i].status == TaskPending
              && forall j :: 0 <= j < |s.tasks| && s.tasks[j].name in s.tasks[i].deps ==>
                   s.tasks[j].status == TaskSucceeded || JobSays(s, s.tasks[j], Succeeded)
  {
    hide Synced, JobSays, FailsNow;
    var synced := SyncedAll(s.tasks, s.jobs.rows);
    forall j | 0 <= j < |s.tasks|
      ensures synced[j].name == s.tasks[j].name && synced[j].deps == s.tasks[j].deps
      ensures synced[j].status == TaskSucceeded <==>
          s.tasks[j].status == TaskSucceeded || JobSays(s, s.tasks[j], Succeeded)
      ensures synced[j].status == TaskPending <==> s.tasks[j].status == TaskPending
    {
      SyncedOutcome(s, s.tasks[j]);
    }
  }

  /** The status a round gives a RUNNING workflow with tasks. */
  lemma RoundStatus(s: State)
    requires s.status == WfRunning && s.tasks != []
    ensures Round(s).status == WfFailed <==> AnyFails(s)
    ensures Round(s).status == WfSucceeded <==>
              forall i :: 0 <= i < |s.tasks| ==> s.tasks[i].status == TaskSucceeded || JobSays(s, s.tasks[i], Succeeded)
    ensures Round(s).status in {WfRunning, WfFailed, WfSucceeded}
  {
    hide Round, Scheduled, Synced, FailsNow, JobSays, AnyFails;
    var synced := SyncedAll(s.tasks, s.jobs.rows);
    FailureSeen(s);
    RoundCases(s);
    StaysRunning(s.(tasks := synced), |s.tasks|);
    forall i | 0 <= i < |s.tasks|
      ensures synced[i].status == TaskSucceeded <==>
          s.tasks[i].status == TaskSucceeded || JobSays(s, s.tasks[i], Succeeded)
      ensures synced[i].status == TaskFailed <==> FailsNow(s, s.tasks[i])
    {
      SyncedOutcome(s, s.tasks[i]);
    }
    if AnyFails(s) {
      var j :| 0 <= j < |s.tasks| && synced[j].status == TaskFailed;
      assert !AllSucceeded(synced);
    }
  }

  /** The workflow's error names the last failed task, with its own error text unless that is empty. */
  lemma {:induction false} NoteNames(tasks: seq<TaskRow>, jobs: map<Id, JobView>, n: nat) returns (i: nat)
    requires n <= |tasks| && LastFailed(tasks, jobs, n).Some?
    ensures i < n && Synced(tasks[i], jobs).status == TaskFailed
    ensures forall j :: i < j < n ==> Synced(tasks[j], jobs).status != TaskFailed
    ensures LastFailed(tasks, jobs, n).value.task == tasks[i].name
    ensures LastFailed(tasks, jobs, n).value.cause ==
              if SeenError(tasks[i], jobs) == Some("") then None else SeenError(tasks[i], jobs)
  {
    if Synced(tasks[n - 1], jobs).status == TaskFailed {
      i := n - 1;
    } else {
      i := NoteNames(tasks, jobs, n - 1);
    }
  }

  lemma FailureNamed(s: State) returns (i: nat)
    requires s.status == WfRunning && Round(s).status == WfFailed
    ensures i < |s.tasks| && FailsNow(s, s.tasks[i]) && forall j :: i < j < |s.tasks| ==> !FailsNow(s, s.tasks[j])
    ensures Round(s).error.Some? && Round(s).error.value.task == s.tasks[i].name
    ensures var seen := if JobSays(s, s.tasks[i], DeadLetter) || JobSays(s, s.tasks[i], Failed)
                        then s.jobs.rows[s.tasks[i].job.value].error else s.tasks[i].error;
            Round(s).error.value.cause == if seen == Some("") then None else seen
  {
    hide Synced, LastFailed, Scheduled;
    StaysRunning(s.(tasks := SyncedAll(s.tasks, s.jobs.rows)), |s.tasks|);
    i := NoteNames(s.tasks, s.jobs.rows, |s.tasks|);
    forall j | 0 <= j < |s.tasks| ensures Synced(s.tasks[j], s.jobs.rows).status == TaskFailed <==>
        FailsNow(s, s.tasks[j]) {
      SyncedOutcome(s, s.tasks[j]);
    }
  }

  lemma {:induction false} StaysRunning(s: State, n: nat)
    requires n <= |s.tasks|
    ensures Scheduled(s, n).status == s.status
  {
    hide Ready;
    if n > 0 {
      StaysRunning(s, n - 1);
    }
  }

  // ---- Every task's job is enqueued ------------------------------------------------------

  /** The queue has been sent exactly the task jobs, each of them once. */
  ghost predicate Dispatched(s: State) {
    && (forall k :: k in s.keys ==> s.keys[k] in s.enqueued)
    && (forall i, j :: 0 <= i < j < |s.enqueued| ==> s.enqueued[i] != s.enqueued[j])
    && (forall x :: x in s.enqueued ==> x in s.keys.Values)
  }

  /** Old jobs are as before, new ones are QUEUED without an error, and new keys name new jobs. */
  predicate NewJobsQueued(s: State, s': State) {
    && (forall id :: id in s.jobs.rows ==> id in s'.jobs.rows && s'.jobs.rows[id] == s.jobs.rows[id])
    && (forall id :: id in s'.jobs.rows && id !in s.jobs.rows ==> s'.jobs.rows[id] == JobView(Queued, None))
    && (forall k :: k in s'.keys && k !in s.keys ==> s'.keys[k] in s'.jobs.rows && s'.keys[k] !in s.jobs.rows)
  }

  lemma DispatchedOne(s: State, i: nat)
    requires i < |s.tasks| && Linked(s) && Dispatched(s)
    ensures Dispatched(ScheduledOne(s, i))
  {
    var s' := ScheduledOne(s, i);
    if s.tasks[i].name !in s.keys {
      forall x | x in s.enqueued ensures x in s.jobs.rows {
        var k :| k in s.keys && s.keys[k] == x;
      }
      assert Uuid(s.jobs.next) !in s.jobs.rows;
      forall x | x in s'.enqueued ensures x in s'.keys.Values {
        if x in s.enqueued {
          var k :| k in s.keys && s.keys[k] == x;
          assert k in s'.keys && s'.keys[k] == x;
        } else {
          assert s'.keys[s.tasks[i].name] == x;
        }
      }
    }
  }

  lemma NewOne(s: State, i: nat)
    requires i < |s.tasks| && Linked(s)
    ensures NewJobsQueued(s, ScheduledOne(s, i))
  {
    assert Uuid(s.jobs.next) !in s.jobs.rows;
  }

  lemma NewJobsJoin(s: State, mid: State, s': State)
    requires NewJobsQueued(s, mid) && NewJobsQueued(mid, s') && forall k :: k in mid.keys ==>
        k in s'.keys && s'.keys[k] == mid.keys[k]
    ensures NewJobsQueued(s, s')
  {
  }

  lemma {:induction false} DispatchedScheduled(s: State, n: nat)
    requires n <= |s.tasks| && Linked(s) && Dispatched(s)
    ensures Dispatched(Scheduled(s, n)) && NewJobsQueued(s, Scheduled(s, n))
  {
    hide Ready, Dispatched, ScheduledOne, Linked, NewJobsQueued;
    if n == 0 {
      NothingNew(s);
    } else {
      var mid := Scheduled(s, n - 1);
      DispatchedScheduled(s, n - 1);
      ScheduledRows(s, n - 1);
      if Ready(s.tasks, n - 1) {
        DispatchedOne(mid, n - 1);
        NewOne(mid, n - 1);
        OneScheduled(mid, n - 1);
        NewJobsJoin(s, mid, ScheduledOne(mid, n - 1));
      }
    }
  }

  lemma NothingNew(s: State)
    ensures NewJobsQueued(s, s)
  {
  }

  lemma DispatchedRound(s: State)
    requires Linked(s) && Dispatched(s)
    ensures Dispatched(Round(s)) && NewJobsQueued(s, Round(s))
  {
    hide Scheduled, Ready, LastFailed, AllSucceeded, Linked;
    SyncKeepsLinks(s);
    DispatchedScheduled(s.(tasks := SyncedAll(s.tasks, s.jobs.rows)), |s.tasks|);
  }

  lemma DispatchedStep(s: State, a: Action)
    requires Linked(s) && Dispatched(s)
    ensures Dispatched(Step(s, a))
    ensures !a.JobsChange? ==> NewJobsQueued(s, Step(s, a))
  {
    hide Round, Linked;
    match a
    case Start =>
      LinkedStatus(s, WfRunning);
      DispatchedRound(s.(status := WfRunning));
    case Advance => DispatchedRound(s);
    case _ =>
  }

  /** In every run each task's job has been put on the queue, exactly once and nothing else with it. */
  lemma {:induction false} AllDispatched(specs: seq<TaskSpec>, jobs: JobTable, actions: seq<Action>)
    requires jobs.Valid()
    ensures Dispatched(Run(Created(specs, jobs), actions))
  {
    hide Step, Dispatched, Linked, StatusInv;
    if actions == [] {
      NothingDispatched(specs, jobs);
    } else {
      var init := actions[..|actions| - 1];
      AllDispatched(specs, jobs, init);
      Invariant(specs, jobs, init);
      DispatchedStep(Run(Created(specs, jobs), init), actions[|actions| - 1]);
    }
  }

  lemma NothingDispatched(specs: seq<TaskSpec>, jobs: JobTable)
    ensures Dispatched(Created(specs, jobs))
  {
  }

  /** Whatever a run's `Start`, round or cancellation adds to the job table is a QUEUED job. */
  lemma NewJobsAreQueued(specs: seq<TaskSpec>, jobs: JobTable, actions: seq<Action>, a: Action)
    requires jobs.Valid() && !a.JobsChange?
    ensures NewJobsQueued(Run(Created(specs, jobs), actions), Step(Run(Created(specs, jobs), actions), a))
  {
    hide Run, Step, Dispatched, Linked, StatusInv;
    AllDispatched(specs, jobs, actions);
    Invariant(specs, jobs, actions);
    DispatchedStep(Run(Created(specs, jobs), actions), a);
  }
}
