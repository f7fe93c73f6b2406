/**
 Progress of an admitted workflow under whole rounds.  Acyclicity, established at admission, is
 what makes both results true.
 */
module WorkflowProgress {
  import opened Dag
  import opened Options
  import opened Admission
  import opened Statuses
  import opened Workflow
  import opened WorkflowRuns
  import opened Levels

  /** What admission gives about the task rows of a workflow with dependency graph `g`. */
  ghost predicate Rows(g: Graph, tasks: seq<TaskRow>) {
    && (forall i :: 0 <= i < |tasks| ==> tasks[i].name in g && g[tasks[i].name] == tasks[i].deps)
    && (forall n :: n in g ==> exists i :: 0 <= i < |tasks| && tasks[i].name == n)
    && (forall i, j :: 0 <= i < j < |tasks| ==> tasks[i].name != tasks[j].name)
    && Closed(g)
  }

  lemma AdmittedRows(specs: seq<TaskSpec>)
    requires Admissible(specs)
    ensures Acyclic(GraphOf(specs)) && Rows(GraphOf(specs), NewRows(specs)) && |GraphOf(specs)| == |specs|
  {
    var g := GraphOf(specs);
    GraphOfTasks(specs);
    AdmissibleClosed(specs);
    forall n | n in g ensures exists i :: 0 <= i < |specs| && NewRows(specs)[i].name == n {
      NamesOfMember(specs, n);
      var i :| 0 <= i < |specs| && specs[i].name == n;
      assert NewRows(specs)[i].name == n;
    }
  }

  predicate SameShape(tasks: seq<TaskRow>, tasks': seq<TaskRow>) {
    |tasks| == |tasks'| && forall i :: 0 <= i < |tasks| ==>
        tasks'[i].name == tasks[i].name && tasks'[i].deps == tasks[i].deps
  }

  lemma RowsShape(g: Graph, tasks: seq<TaskRow>, tasks': seq<TaskRow>)
    requires Rows(g, tasks) && SameShape(tasks, tasks')
    ensures Rows(g, tasks')
  {
    forall n | n in g ensures exists i :: 0 <= i < |tasks'| && tasks'[i].name == n {
      var i :| 0 <= i < |tasks| && tasks[i].name == n;
      assert tasks'[i].name == n;
    }
  }

  /** A task whose dependencies have all succeeded is ready; otherwise one of them stands open. */
  lemma ReadyOrBlocked(g: Graph, tasks: seq<TaskRow>, i: nat) returns (j: nat)
    requires Acyclic(g) && Rows(g, tasks) && i < |tasks| && tasks[i].status == TaskPending && !Ready(tasks, i)
    ensures j < |tasks| && tasks[j].status != TaskSucceeded
    ensures Edge(g, tasks[i].name, tasks[j].name) && Depth(g, tasks[j].name) < Depth(g, tasks[i].name)
  {
    j :| 0 <= j < |tasks| && tasks[j].name in tasks[i].deps && tasks[j].status != TaskSucceeded;
    EdgeLowersDepth(g, tasks[i].name, tasks[j].name);
  }

  // ---- No stall --------------------------------------------------------------------------

  /** Among PENDING and SUCCEEDED tasks, a pending one of least depth is ready. */
  lemma {:induction false} SomeReady(g: Graph, tasks: seq<TaskRow>, i: nat) returns (r: nat)
    requires Acyclic(g) && Rows(g, tasks) && i < |tasks| && tasks[i].status == TaskPending
    requires forall j :: 0 <= j < |tasks| ==> tasks[j].status in {TaskPending, TaskSucceeded}
    ensures r < |tasks| && Ready(tasks, r)
    decreases Depth(g, tasks[i].name)
  {
    hide Rows;
    if Ready(tasks, i) {
      r := i;
    } else {
      var j := ReadyOrBlocked(g, tasks, i);
      r := SomeReady(g, tasks, j);
    }
  }

  /** Scheduling leaves a task in flight, unless everything is done, failed or cancelled. */
  lemma SchedulingLeavesWork(g: Graph, s: State) returns (i: nat)
    requires Linked(s) && Acyclic(g) && Rows(g, s.tasks)
    requires !Has(s.tasks, TaskFailed) && !Has(s.tasks, TaskCancelled) && !AllSucceeded(s.tasks)
    ensures var s' := Scheduled(s, |s.tasks|);
            i < |s'.tasks| && s'.tasks[i].status == TaskRunning
  {
    hide Ready, Rows, Grows, Scheduled, Linked, Acyclic;
    ScheduledRows(s, |s.tasks|);
    if k :| 0 <= k < |s.tasks| && s.tasks[k].status == TaskRunning {
      ReadyPending(s.tasks, k);
      i := k;
    } else {
      var k :| 0 <= k < |s.tasks| && s.tasks[k].status != TaskSucceeded;
      assert s.tasks[k].status == TaskPending;
      i := SomeReady(g, s.tasks, k);
    }
  }

  lemma SchedulingKeepsCancelled(s: State)
    requires Linked(s)
    ensures Has(s.tasks, TaskCancelled) ==> Has(Scheduled(s, |s.tasks|).tasks, TaskCancelled)
    ensures Linked(Scheduled(s, |s.tasks|))
  {
    hide Ready, Grows, Scheduled, Linked;
    ScheduledRows(s, |s.tasks|);
    if k :| 0 <= k < |s.tasks| && s.tasks[k].status == TaskCancelled {
      ReadyPending(s.tasks, k);
      assert Scheduled(s, |s.tasks|).tasks[k].status == TaskCancelled;
    }
  }

  lemma RoundLeavesWork(g: Graph, s: State) returns (i: nat)
    requires s.status == WfRunning && Linked(s) && Acyclic(g) && Rows(g, s.tasks)
    requires Round(s).status == WfRunning && !Has(Round(s).tasks, TaskCancelled) && s.tasks != []
    ensures i < |Round(s).tasks| && Round(s).tasks[i].status == TaskRunning
    ensures Round(s).tasks[i].job.Some? && Round(s).tasks[i].job.value in Round(s).jobs.rows
  {
    hide Ready, Rows, Grows, Scheduled, Acyclic, Round, AllSucceeded, Has;
    var mid := s.(tasks := SyncedAll(s.tasks, s.jobs.rows));
    SyncKeepsLinks(s);
    RoundCases(s);
    RowsShape(g, s.tasks, mid.tasks);
    SchedulingKeepsCancelled(mid);
    i := SchedulingLeavesWork(g, mid);
  }

  lemma ScheduledShape(s: State)
    requires Linked(s)
    ensures SameShape(s.tasks, Scheduled(s, |s.tasks|).tasks)
  {
    hide Ready, Scheduled, Linked, Grows;
    ScheduledRows(s, |s.tasks|);
  }

  lemma SyncedShape(s: State)
    ensures var synced := SyncedAll(s.tasks, s.jobs.rows);
            SameShape(s.tasks, synced) && SameShape(s.tasks, CancelPending(synced))
  {
  }

  lemma RoundShape(s: State)
    requires Inv(s)
    ensures SameShape(s.tasks, Round(s).tasks)
  {
    hide Ready, Scheduled, Linked, Round, StatusInv, Has, AllSucceeded, SyncedAll, CancelPending;
    if s.status.IsTerminal() {
      TerminalRound(s);
    } else if s.tasks == [] {
      EmptyRound(s);
    } else {
      SyncKeepsLinks(s);
      SyncedShape(s);
      ScheduledShape(s.(tasks := SyncedAll(s.tasks, s.jobs.rows)));
      RoundCases(s);
    }
  }

  lemma StepShape(s: State, a: Action)
    requires Inv(s)
    ensures SameShape(s.tasks, Step(s, a).tasks)
  {
    hide Round, Inv;
    if a == Start && Enabled(s, a) {
      StartingInv(s);
      RoundShape(s.(status := WfRunning));
    } else if a == Advance {
      RoundShape(s);
    }
  }

  lemma StartingInv(s: State)
    requires Inv(s) && s.status == WfPending
    ensures Inv(s.(status := WfRunning))
  {
    hide Linked;
    LinkedStatus(s, WfRunning);
  }

  /** Runs keep a workflow's names and dependencies. */
  lemma {:induction false} RunRows(specs: seq<TaskSpec>, jobs: JobTable, actions: seq<Action>)
    requires Admissible(specs) && jobs.Valid()
    ensures Rows(GraphOf(specs), Run(Created(specs, jobs), actions).tasks)
    ensures |Run(Created(specs, jobs), actions).tasks| == |specs|
  {
    hide Admissible, GraphOf, Rows, Step, Inv;
    if actions == [] {
      AdmittedRows(specs);
    } else {
      var init := actions[..|actions| - 1];
      var s := Run(Created(specs, jobs), init);
      RunRows(specs, jobs, init);
      Invariant(specs, jobs, init);
      StepShape(s, actions[|actions| - 1]);
      RowsShape(GraphOf(specs), s.tasks, Step(s, actions[|actions| - 1]).tasks);
    }
  }

  /** In any run, a round that leaves a workflow live leaves a task in flight, bound to a job. */
  lemma NoStall(specs: seq<TaskSpec>, jobs: JobTable, actions: seq<Action>) returns (i: nat)
    requires Admissible(specs) && jobs.Valid()
    requires var s := Run(Created(specs, jobs), actions);
             s.status == WfRunning && Round(s).status == WfRunning && !Has(Round(s).tasks, TaskCancelled)
    ensures var s' := Round(Run(Created(specs, jobs), actions));
            && i < |s'.tasks| && s'.tasks[i].status == TaskRunning
            && s'.tasks[i].job.Some? && s'.tasks[i].job.value in s'.jobs.rows
  {
    hide Admissible, GraphOf, Rows, Run, Round, Linked, Has;
    RunRows(specs, jobs, actions);
    Invariant(specs, jobs, actions);
    AdmittedRows(specs);
    NonEmpty(specs);
    i := RoundLeavesWork(GraphOf(specs), Run(Created(specs, jobs), actions));
  }

  // ---- The exact number of rounds --------------------------------------------------------

  /** The job table a round observes; every RUNNING task's job has succeeded in it. */
  ghost predicate JobsDone(s: State, jobs: JobTable) {
    && JobsMayBecome(s.jobs, jobs)
    && forall i :: 0 <= i < |s.tasks| && s.tasks[i].status == TaskRunning && s.tasks[i].job.Some? ==>
         s.tasks[i].job.value in jobs.rows && jobs.rows[s.tasks[i].job.value].status == Succeeded
  }

  /** The state after round `k`: Start is round 1, and round k + 1 observes the job table `seen[k - 1]`. */
  ghost function AfterRound(specs: seq<TaskSpec>, jobs: JobTable, seen: seq<JobTable>, k: nat): State
    requires 1 <= k <= |seen| + 1
  {
    if k == 1 then Started(Created(specs, jobs))
    else Round(AfterRound(specs, jobs, seen, k - 1).(jobs := seen[k - 2]))
  }

  /** Depths below k - 1 are done, depth k - 1 is in flight, the rest waits. */
  ghost predicate Lockstep(g: Graph, s: State, k: nat)
    requires Acyclic(g)
  {
    && s.status == WfRunning
    && forall i :: 0 <= i < |s.tasks| ==>
         s.tasks[i].status == if Depth(g, s.tasks[i].name) + 1 < k then TaskSucceeded
                              else if Depth(g, s.tasks[i].name) + 1 == k then TaskRunning
                              else TaskPending
  }

  /** The number of tasks on a longest dependency chain. */
  ghost predicate LongestChain(g: Graph, d: nat)
    requires Acyclic(g)
  {
    && (forall n :: n in g ==> Depth(g, n) < d)
    && exists n :: n in g && Depth(g, n) + 1 == d
  }

  /** With depths below `k` done and the rest pending, exactly the tasks of depth `k` are ready. */
  lemma ReadyAtDepth(g: Graph, tasks: seq<TaskRow>, k: nat, i: nat)
    requires Acyclic(g) && Rows(g, tasks) && i < |tasks|
    requires forall j :: 0 <= j < |tasks| ==> tasks[j].status == if Depth(g, tasks[j].name) < k then TaskSucceeded
        else TaskPending
    ensures Ready(tasks, i) <==> Depth(g, tasks[i].name) == k
  {
    var d := Depth(g, tasks[i].name);
    if d > k {
      var b := DepthStep(g, tasks[i].name);
      assert b in g;
      var j :| 0 <= j < |tasks| && tasks[j].name == b;
      assert tasks[j].name in tasks[i].deps && tasks[j].status != TaskSucceeded;
    } else if d == k && !Ready(tasks, i) {
      var j := ReadyOrBlocked(g, tasks, i);
    }
  }

  /** One scheduling step of the lockstep. */
  lemma LockstepSchedule(g: Graph, s: State, k: nat)
    requires Acyclic(g) && Rows(g, s.tasks) && Linked(s) && s.status == WfRunning
    requires forall j :: 0 <= j < |s.tasks| ==> s.tasks[j].status == if Depth(g, s.tasks[j].name) < k then TaskSucceeded
        else TaskPending
    ensures var s' := Scheduled(s, |s.tasks|);
            Lockstep(g, s', k + 1) && Linked(s') && Rows(g, s'.tasks) && SameShape(s.tasks, s'.tasks)
  {
    hide Ready, Rows, Linked, Scheduled, Grows;
    var s' := Scheduled(s, |s.tasks|);
    ScheduledRows(s, |s.tasks|);
    forall i | 0 <= i < |s.tasks|
      ensures Ready(s.tasks, i) <==> Depth(g, s.tasks[i].name) == k
      ensures s'.tasks[i].name == s.tasks[i].name && s'.tasks[i].deps == s.tasks[i].deps
    {
      ReadyAtDepth(g, s.tasks, k, i);
    }
    RowsShape(g, s.tasks, s'.tasks);
  }

  /** Synchronising a lockstep state against a table in which its jobs have succeeded. */
  lemma LockstepSync(g: Graph, s: State, jobs: JobTable, k: nat)
    requires Acyclic(g) && Rows(g, s.tasks) && Linked(s) && Lockstep(g, s, k) && JobsDone(s, jobs)
    ensures var mid := s.(jobs := jobs, tasks := SyncedAll(s.tasks, jobs.rows));
            && Linked(s.(jobs := jobs)) && Linked(mid) && Rows(g, mid.tasks)
            && (forall j :: 0 <= j < |mid.tasks| ==>
                mid.tasks[j].status == if Depth(g, mid.tasks[j].name) < k then TaskSucceeded else TaskPending)
  {
    hide Rows, Acyclic;
    var mid := s.(jobs := jobs, tasks := SyncedAll(s.tasks, jobs.rows));
    RowsShape(g, s.tasks, mid.tasks);
    SyncKeepsLinks(s.(jobs := jobs));
  }

  lemma LockstepRound(g: Graph, s: State, jobs: JobTable, k: nat, d: nat)
    requires Acyclic(g) && Rows(g, s.tasks) && Linked(s) && Lockstep(g, s, k) && JobsDone(s, jobs)
    requires LongestChain(g, d) && k <= d
    ensures var s' := Round(s.(jobs := jobs));
            && Linked(s') && Rows(g, s'.tasks)
            && (k < d ==> Lockstep(g, s', k + 1))
            && (k == d ==> s'.status == WfSucceeded && AllSucceeded(s'.tasks))
  {
    hide Scheduled, Acyclic, Linked, Rows, Lockstep, JobsDone, Round, Depth;
    var start := s.(jobs := jobs);
    var synced := SyncedAll(s.tasks, jobs.rows);
    var mid := start.(tasks := synced);
    LockstepSync(g, s, jobs, k);
    LockstepRunning(g, s, k);
    var t := DeepestRow(g, synced, d);
    RoundCases(start);
    if k < d {
      assert synced[t].status == TaskPending;
      LockstepSchedule(g, mid, k);
    } else {
      RowsDepth(g, synced, d);
      assert AllSucceeded(synced);
      LinkedStatus(mid, WfSucceeded);
    }
  }

  lemma DeepestRow(g: Graph, tasks: seq<TaskRow>, d: nat) returns (t: nat)
    requires Acyclic(g) && Rows(g, tasks) && LongestChain(g, d)
    ensures t < |tasks| && Depth(g, tasks[t].name) + 1 == d
  {
    hide Acyclic;
    var deepest :| deepest in g && Depth(g, deepest) + 1 == d;
    t :| 0 <= t < |tasks| && tasks[t].name == deepest;
  }

  lemma RowsDepth(g: Graph, tasks: seq<TaskRow>, d: nat)
    requires Acyclic(g) && Rows(g, tasks) && LongestChain(g, d)
    ensures forall i :: 0 <= i < |tasks| ==> Depth(g, tasks[i].name) < d
  {
    hide Acyclic;
  }

  lemma LockstepRunning(g: Graph, s: State, k: nat)
    requires Acyclic(g) && Lockstep(g, s, k)
    ensures s.status == WfRunning
  {
  }

  /** Every round of the run observes the previous round's jobs as succeeded. */
  ghost predicate AlwaysDone(specs: seq<TaskSpec>, jobs: JobTable, seen: seq<JobTable>) {
    forall k {:trigger AfterRound(specs, jobs, seen, k)} :: 1 <= k <= |seen| ==>
      JobsDone(AfterRound(specs, jobs, seen, k), seen[k - 1])
  }

  lemma {:induction false} LockstepHolds(specs: seq<TaskSpec>, jobs: JobTable, seen: seq<JobTable>, d: nat, k: nat)
    requires Admissible(specs) && jobs.Valid() && LongestChain(GraphOf(specs), d)
    requires AlwaysDone(specs, jobs, seen) && 1 <= k <= d && k <= |seen| + 1
    ensures var s := AfterRound(specs, jobs, seen, k);
            Lockstep(GraphOf(specs), s, k) && Linked(s) && Rows(GraphOf(specs), s.tasks)
    decreases k
  {
    hide Ready, Scheduled, Acyclic, Rows, Admissible, JobsDone, GraphOf;
    var g := GraphOf(specs);
    AdmittedRows(specs);
    if k == 1 {
      FirstRound(specs, jobs);
    } else {
      LockstepHolds(specs, jobs, seen, d, k - 1);
      LockstepRound(g, AfterRound(specs, jobs, seen, k - 1), seen[k - 2], k - 1, d);
    }
  }

  lemma FirstRound(specs: seq<TaskSpec>, jobs: JobTable)
    requires Admissible(specs) && jobs.Valid()
    ensures var s := Started(Created(specs, jobs));
            && Lockstep(GraphOf(specs), s, 1) && Linked(s) && Rows(GraphOf(specs), s.tasks)
            && SameShape(NewRows(specs), s.tasks)
  {
    hide Scheduled, Acyclic, Rows, Lockstep, Round, Admissible, GraphOf, Linked;
    var g := GraphOf(specs);
    AdmittedRows(specs);
    CreatedInv(specs, jobs);
    var s := Created(specs, jobs).(status := WfRunning);
    LinkedStatus(Created(specs, jobs), WfRunning);
    NonEmpty(specs);
    assert SyncedAll(s.tasks, jobs.rows) == s.tasks;
    assert s.(tasks := s.tasks) == s;
    assert s.tasks[0].status == TaskPending;
    RoundCases(s);
    LockstepSchedule(g, s, 0);
  }

  lemma NonEmpty(specs: seq<TaskSpec>)
    requires Admissible(specs)
    ensures specs != []
  {
  }

  /**
   When every task's job succeeds between rounds, round k of an admitted workflow finds depths below
   k - 1 done and depth k - 1 in flight, and with D tasks on a longest chain the workflow succeeds in
   round D + 1, at most one more than it has tasks.
   */
  lemma ExactRounds(specs: seq<TaskSpec>, jobs: JobTable, seen: seq<JobTable>, d: nat)
    requires Admissible(specs) && jobs.Valid() && LongestChain(GraphOf(specs), d) && |seen| == d
    requires AlwaysDone(specs, jobs, seen)
    ensures 1 <= d <= |specs|
    ensures forall k :: 1 <= k <= d ==> Lockstep(GraphOf(specs), AfterRound(specs, jobs, seen, k), k)
    ensures AfterRound(specs, jobs, seen, d + 1).status == WfSucceeded
    ensures AllSucceeded(AfterRound(specs, jobs, seen, d + 1).tasks)
  {
    hide Ready, Scheduled, Acyclic, Rows, Admissible, JobsDone, GraphOf, Lockstep, Linked, LongestChain, Round,
         AfterRound, AlwaysDone;
    var g := GraphOf(specs);
    AdmittedRows(specs);
    LongestChainBound(specs, d);
    forall k | 1 <= k <= d ensures Lockstep(g, AfterRound(specs, jobs, seen, k), k) {
      LockstepHolds(specs, jobs, seen, d, k);
    }
    LastRound(specs, jobs, seen, d);
  }

  lemma LastRound(specs: seq<TaskSpec>, jobs: JobTable, seen: seq<JobTable>, d: nat)
    requires Admissible(specs) && jobs.Valid() && LongestChain(GraphOf(specs), d) && |seen| == d && d >= 1
    requires AlwaysDone(specs, jobs, seen)
    ensures AfterRound(specs, jobs, seen, d + 1).status == WfSucceeded
    ensures AllSucceeded(AfterRound(specs, jobs, seen, d + 1).tasks)
  {
    hide Ready, Scheduled, Acyclic, Rows, Admissible, JobsDone, GraphOf, Lockstep, Linked, LongestChain, Round;
    AdmittedRows(specs);
    LockstepHolds(specs, jobs, seen, d, d);
    LockstepRound(GraphOf(specs), AfterRound(specs, jobs, seen, d), seen[d - 1], d, d);
  }

  lemma LongestChainBound(specs: seq<TaskSpec>, d: nat)
    requires Admissible(specs) && LongestChain(GraphOf(specs), d)
    ensures 1 <= d <= |specs|
  {
    hide Acyclic, Depth;
    GraphOfTasks(specs);
    AdmissibleClosed(specs);
    var deepest :| deepest in GraphOf(specs) && Depth(GraphOf(specs), deepest) + 1 == d;
    DepthBelowSize(GraphOf(specs), deepest);
  }

  /** The number of tasks on a longest chain is well defined. */
  lemma {:induction false} LongestChainWithin(g: Graph, bound: nat) returns (d: nat)
    requires Acyclic(g) && g != map[] && forall n :: n in g ==> Depth(g, n) < bound
    ensures LongestChain(g, d)
    decreases bound
  {
    hide Acyclic, Depth;
    if exists n :: n in g && Depth(g, n) + 1 == bound {
      d := bound;
    } else {
      var some :| some in g.Keys;
      assert Depth(g, some) < bound;
      d := LongestChainWithin(g, bound - 1);
    }
  }

  /** An admitted workflow has a longest chain, of at most as many tasks as it has. */
  lemma LongestChainExists(specs: seq<TaskSpec>)
    requires Admissible(specs)
    ensures exists d :: 1 <= d <= |specs| && LongestChain(GraphOf(specs), d)
  {
    hide Acyclic, Depth;
    var g := GraphOf(specs);
    GraphOfTasks(specs);
    AdmissibleClosed(specs);
    forall n | n in g ensures Depth(g, n) < |specs| {
      DepthBelowSize(g, n);
    }
    assert specs[0].name in g;
    var d := LongestChainWithin(g, |specs|);
    LongestChainBound(specs, d);
  }

  // ---- The request that creates a workflow ------------------------------------------------

  datatype WorkflowResponse = BadWorkflow | NotStored | CreatedAndStarted

  /** A task without dependencies. */
  predicate IsRoot(t: TaskSpec) {
    t.deps == []
  }

  /**
   The handler: validate, store, start.  Nothing is stored for an invalid request, and after a valid one
   exactly the tasks without dependencies run.
   */
  method CreateWorkflow(name: string, specs: seq<TaskSpec>, jobs: JobTable, storeUp: bool)
    returns (response: WorkflowResponse, engine: WorkflowEngine?)
    requires jobs.Valid()
    ensures response == BadWorkflow <==> name == "" || !Admissible(specs)
    ensures response == NotStored <==> name != "" && Admissible(specs) && !storeUp
    ensures response == CreatedAndStarted <==> engine != null
    ensures engine != null ==>
              && fresh(engine) && engine.Model() == Started(Created(specs, jobs)) && engine.status == WfRunning
              && |engine.tasks| == |specs|
              && forall i :: 0 <= i < |specs| ==>
                   && engine.tasks[i].name == specs[i].name
                   && engine.tasks[i].status == (if IsRoot(specs[i]) then TaskRunning else TaskPending)
                   && (IsRoot(specs[i]) ==>
                         && engine.tasks[i].job.Some? && engine.tasks[i].job.value in engine.enqueued
                         && engine.tasks[i].job.value in engine.jobs.rows && engine.tasks[i].job.value !in jobs.rows
                         && engine.jobs.rows[engine.tasks[i].job.value] == JobView(Queued, None))
    ensures engine != null ==>
              forall i, j :: 0 <= i < j < |engine.enqueued| ==> engine.enqueued[i] != engine.enqueued[j]
  {
    hide Admissible, Started, Created;
    if name == "" {
      return BadWorkflow, null;
    }
    var verdict, _, _ := ValidateDag(specs);
    if verdict != Accepted {
      return BadWorkflow, null;
    }
    if !storeUp {
      return NotStored, null;
    }
    engine := new WorkflowEngine(specs, jobs);
    engine.Start();
    RootsRun(specs, jobs);
    RootsDispatched(specs, jobs);
    response := CreatedAndStarted;
  }

  lemma RootsDispatched(specs: seq<TaskSpec>, jobs: JobTable)
    requires jobs.Valid()
    ensures var s := Started(Created(specs, jobs));
            && (forall i, j :: 0 <= i < j < |s.enqueued| ==> s.enqueued[i] != s.enqueued[j])
            && forall i :: 0 <= i < |s.tasks| && s.tasks[i].status == TaskRunning ==>
                 && s.tasks[i].job.Some? && s.tasks[i].job.value in s.enqueued
                 && s.tasks[i].job.value in s.jobs.rows && s.tasks[i].job.value !in jobs.rows
                 && s.jobs.rows[s.tasks[i].job.value] == JobView(Queued, None)
  {
    hide Round;
    var created := Created(specs, jobs);
    CreatedInv(specs, jobs);
    NothingDispatched(specs, jobs);
    DispatchedStep(created, Start);
    StepInv(created, Start);
  }

  lemma RootsRun(specs: seq<TaskSpec>, jobs: JobTable)
    requires Admissible(specs) && jobs.Valid()
    ensures var s := Started(Created(specs, jobs));
            && s.status == WfRunning && |s.tasks| == |specs|
            && forall i :: 0 <= i < |specs| ==>
                 s.tasks[i].name == specs[i].name &&
                     s.tasks[i].status == (if IsRoot(specs[i]) then TaskRunning else TaskPending)
  {
    hide Started, Created, Acyclic, Linked, Admissible, Rows, GraphOf;
    var g := GraphOf(specs);
    AdmittedRows(specs);
    FirstRound(specs, jobs);
    SpecsInGraph(specs);
    forall i | 0 <= i < |specs| ensures Depth(g, specs[i].name) == 0 <==> IsRoot(specs[i]) {
      RootDepth(g, specs[i].name);
    }
  }

  lemma SpecsInGraph(specs: seq<TaskSpec>)
    requires Admissible(specs)
    ensures forall i :: 0 <= i < |specs| ==>
        specs[i].name in GraphOf(specs) && GraphOf(specs)[specs[i].name] == specs[i].deps
  {
    hide Acyclic;
    GraphOfTasks(specs);
  }

  lemma RootDepth(g: Graph, n: Name)
    requires Acyclic(g) && n in g
    ensures Depth(g, n) == 0 <==> g[n] == []
  {
    hide Acyclic;
    if g[n] != [] {
      assert Edge(g, n, g[n][0]);
      EdgeLowersDepth(g, n, g[n][0]);
    } else if Depth(g, n) > 0 {
      var b := DepthStep(g, n);
      assert false;
    }
  }

  // ---- A cancellation that Start overrides -------------------------------------------------

  /**
   `Start` sets RUNNING without looking at the status.  After a cancellation between creation and start,
   the workflow stays RUNNING with every task cancelled, whatever rounds and job changes follow.
   */
  lemma {:induction false} StartOverridesCancel(specs: seq<TaskSpec>, jobs: JobTable, later: seq<Action>)
    requires specs != [] && jobs.Valid()
    requires forall i :: 0 <= i < |later| ==> later[i].Advance? || later[i].JobsChange?
    ensures var s := Run(Started(CancelledWorkflow(Created(specs, jobs))), later);
            s.status == WfRunning && |s.tasks| == |specs| && forall i :: 0 <= i < |s.tasks| ==>
                s.tasks[i].status == TaskCancelled
  {
    hide Ready, Round;
    if later == [] {
      CancelledStaysStuck(CancelledWorkflow(Created(specs, jobs)).(status := WfRunning));
    } else {
      StartOverridesCancel(specs, jobs, later[..|later| - 1]);
      CancelledStaysStuck(Run(Started(CancelledWorkflow(Created(specs, jobs))), later[..|later| - 1]));
    }
  }

  /** `Start` on a terminal workflow: a round from RUNNING finds again what the tasks say. */
  lemma StartOnTerminal(s: State)
    requires Inv(s) && s.status.IsTerminal() && s.tasks != []
    ensures Started(s).status ==
            if Has(s.tasks, TaskFailed) then WfFailed
            else if AllSucceeded(s.tasks) then WfSucceeded
            else WfRunning
    ensures Started(s).status == WfRunning ==> s.status == WfCancelled
  {
    hide Ready, Scheduled, Round;
    var running := s.(status := WfRunning);
    TerminalSynced(s);
    RoundCases(running);
    LinkedStatus(s, WfRunning);
    ScheduledRows(running, |s.tasks|);
    assert running.(tasks := s.tasks) == running;
  }

  lemma TerminalSynced(s: State)
    requires Inv(s) && s.status.IsTerminal()
    ensures Has(s.tasks, TaskFailed) ==> Has(SyncedAll(s.tasks, s.jobs.rows), TaskFailed)
    ensures !Has(s.tasks, TaskFailed) ==> SyncedAll(s.tasks, s.jobs.rows) == s.tasks
  {
    if i :| 0 <= i < |s.tasks| && s.tasks[i].status == TaskFailed {
      assert SyncedAll(s.tasks, s.jobs.rows)[i].status == TaskFailed;
    }
  }

  /** `Start` preserves every terminal status but one: a cancelled workflow never stays cancelled. */
  lemma StartKeepsTerminal(s: State)
    requires Inv(s) && s.status.IsTerminal() && s.tasks != []
    ensures Started(s).status == s.status <==> s.status != WfCancelled
  {
    hide Inv, Round;
    StartOnTerminal(s);
    TerminalTasks(s);
  }

  lemma TerminalTasks(s: State)
    requires Inv(s) && s.status.IsTerminal()
    ensures s.status == WfFailed ==> Has(s.tasks, TaskFailed)
    ensures s.status == WfSucceeded ==> AllSucceeded(s.tasks) && !Has(s.tasks, TaskFailed)
  {
  }

  lemma CancelledStaysStuck(s: State)
    requires s.status == WfRunning && s.tasks != []
    requires forall i :: 0 <= i < |s.tasks| ==> s.tasks[i].status == TaskCancelled
    ensures Round(s) == s
  {
    hide Ready, Scheduled;
    assert SyncedAll(s.tasks, s.jobs.rows) == s.tasks;
    assert s.(tasks := s.tasks) == s;
    assert s.tasks[0].status == TaskCancelled;
    NothingReady(s, |s.tasks|);
  }

  lemma {:induction false} NothingReady(s: State, n: nat)
    requires n <= |s.tasks| && forall i :: 0 <= i < |s.tasks| ==> s.tasks[i].status == TaskCancelled
    ensures Scheduled(s, n) == s
  {
    if n > 0 {
      NothingReady(s, n - 1);
    }
  }
}
