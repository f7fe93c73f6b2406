/**
 Marking a task SUCCEEDED is a write whose failure the engine ignores, so one lost write is enough for a
 SUCCEEDED workflow whose task is never marked, short of another `Start`.
 */
module LostWrites {
  import opened Admission
  import opened Calls
  import opened Dag
  import opened Options
  import opened PriorityQueue
  import opened Statuses
  import opened Workflow
  import opened WorkflowInterleaving

  const TASK := Name("a")
  const SPECS := [TaskSpec(TASK, "t", [])]
  const NO_JOBS := JobTable(map[], 1)
  const JOB := Uuid(1)
  const ENGINE := Caller(0)
  const POLLER := Caller(1)
  const DONE_JOB := JobTable(map[JOB := JobView(Succeeded, None)], 2)

  function Go(c: Caller): Action {
    Move(c, Done)
  }

  /** `Start` schedules the task, its job succeeds, and the poller's write of that success fails. */
  const LOST_WRITE := [
    Call(ENGINE, true), Go(ENGINE), Go(ENGINE), Go(ENGINE), Go(ENGINE),
    Go(ENGINE), Go(ENGINE), Go(ENGINE), Go(ENGINE), Go(ENGINE),
    JobsChange(DONE_JOB),
    Call(POLLER, false), Go(POLLER), Go(POLLER), Go(POLLER), Move(POLLER, NotDone), Go(POLLER)]

  const PENDING_ROW := TaskRow(TASK, "t", [], TaskPending, None, None)
  const RUNNING_ROW := TaskRow(TASK, "t", [], TaskRunning, Some(JOB), None)

  /** The caller has read the pending task and looks for ready ones. */
  const LOOKING := Sys(Db(WfRunning, [PENDING_ROW], map[], NO_JOBS, {}, {}, map[], []), map[ENGINE := ReadReady])

  /** The job is inserted and the task bound to it. */
  const BOUND := Sys(Db(WfRunning, [RUNNING_ROW], map[TASK := JOB], JobTable(map[JOB := JobView(Queued, None)], 2),
                        {}, {}, map[TASK := ENGINE], [JOB]),
                     map[ENGINE := Idle])

  lemma RunSnoc(s: Sys, actions: seq<Action>, k: nat)
    requires k < |actions|
    ensures Run(s, actions[..k + 1]) == Step(Run(s, actions[..k]), actions[k])
  {
    hide Step;
    assert actions[..k + 1][..k] == actions[..k];
  }

  function Five(s: Sys, k: nat): Sys
    requires k + 5 <= |LOST_WRITE|
  {
    Step(Step(Step(Step(Step(s, LOST_WRITE[k]), LOST_WRITE[k + 1]), LOST_WRITE[k + 2]), LOST_WRITE[k + 3]),
         LOST_WRITE[k + 4])
  }

  lemma RunFive(s: Sys, k: nat)
    requires k + 5 <= |LOST_WRITE|
    ensures Run(s, LOST_WRITE[..k + 5]) == Five(Run(s, LOST_WRITE[..k]), k)
  {
    hide Run, Step;
    RunSnoc(s, LOST_WRITE, k);
    RunSnoc(s, LOST_WRITE, k + 1);
    RunSnoc(s, LOST_WRITE, k + 2);
    RunSnoc(s, LOST_WRITE, k + 3);
    RunSnoc(s, LOST_WRITE, k + 4);
  }

  const STARTED := LOOKING.(pcs := map[ENGINE := ReadTasks])

  lemma Starts()
    ensures Step(Step(Step(Initial(SPECS, NO_JOBS), LOST_WRITE[0]), LOST_WRITE[1]), LOST_WRITE[2]) == STARTED
  {
    hide Ready, LoopPc, AfterReadJob, ReadyIndices;
    var s := Initial(SPECS, NO_JOBS);
    assert s.db.tasks == [PENDING_ROW];
    var called := Step(s, LOST_WRITE[0]);
    assert called == Sys(s.db, map[ENGINE := SetRunning]);
    assert Step(called, LOST_WRITE[1]) == LOOKING.(pcs := map[ENGINE := ReadStatus]);
  }

  lemma Reads()
    ensures Step(Step(STARTED, LOST_WRITE[3]), LOST_WRITE[4]) == LOOKING
  {
    hide Ready, ReadyIndices;
    assert Step(STARTED, LOST_WRITE[3]).pcs == map[ENGINE := ReadJob([PENDING_ROW], 0, false, true)];
  }

  lemma ReadsTasks()
    ensures Five(Initial(SPECS, NO_JOBS), 0) == LOOKING
  {
    hide Step, Initial;
    Starts();
    Reads();
  }

  lemma OneReady()
    ensures ReadyIndices([PENDING_ROW], 1) == [0]
  {
    assert ReadyIndices([PENDING_ROW], 0) == [];
    assert Ready([PENDING_ROW], 0);
  }

  lemma Inserts()
    ensures Step(Step(LOOKING, LOST_WRITE[5]), LOST_WRITE[6]) == LOOKING.(pcs := map[ENGINE := InsertJob([0], 0)])
  {
    hide ReadyIndices;
    OneReady();
  }

  /** The job row exists, and the task is about to be bound to it. */
  const BINDING := Sys(BOUND.db.(tasks := [PENDING_ROW], enqueued := []), map[ENGINE := BindTask([0], 0, JOB, true)])

  lemma InsertsJob()
    ensures Step(LOOKING.(pcs := map[ENGINE := InsertJob([0], 0)]), LOST_WRITE[7]) == BINDING
  {
    hide Ready, ReadyIndices;
  }

  lemma Binds()
    ensures Step(Step(BINDING, LOST_WRITE[8]), LOST_WRITE[9]) == BOUND
  {
    hide Ready, ReadyIndices;
    var s := Step(BINDING, LOST_WRITE[8]);
    assert s.db.tasks == [RUNNING_ROW];
    assert s.pcs == map[ENGINE := EnqueueJob([0], 0, JOB)];
  }

  lemma Schedules()
    ensures Five(LOOKING, 5) == BOUND
  {
    hide Step;
    Inserts();
    InsertsJob();
    Binds();
  }

  /** The job succeeds and the poller gets as far as the write. */
  const WRITING := Sys(BOUND.db.(jobs := DONE_JOB),
                       map[ENGINE := Idle, POLLER := WriteTask([RUNNING_ROW], 0, false, true,
                                                               JobView(Succeeded, None))])

  const POLLED := WRITING.(pcs := map[ENGINE := Idle, POLLER := ReadTasks])

  lemma Polls()
    ensures Step(Step(Step(BOUND, LOST_WRITE[10]), LOST_WRITE[11]), LOST_WRITE[12]) == POLLED
  {
    hide Ready, LoopPc, AfterReadJob, ReadyIndices;
    var finished := Step(BOUND, LOST_WRITE[10]);
    assert finished == Sys(WRITING.db, map[ENGINE := Idle]);
    assert Step(finished, LOST_WRITE[11]) == WRITING.(pcs := map[ENGINE := Idle, POLLER := ReadStatus]);
  }

  lemma ReadsJob()
    ensures Step(Step(POLLED, LOST_WRITE[13]), LOST_WRITE[14]) == WRITING
  {
    hide Ready, ReadyIndices;
    assert Step(POLLED, LOST_WRITE[13]).pcs == map[ENGINE := Idle, POLLER := ReadJob([RUNNING_ROW], 0, false, true)];
  }

  lemma SeesSuccess()
    ensures Five(BOUND, 10) == WRITING
  {
    hide Step;
    Polls();
    ReadsJob();
  }

  lemma LosesWrite()
    ensures Step(Step(WRITING, LOST_WRITE[15]), LOST_WRITE[16]) ==
              Sys(WRITING.db.(status := WfSucceeded, lostMarks := {TASK}), map[ENGINE := Idle, POLLER := Idle])
  {
    assert WRITING.db.tasks[0] == RUNNING_ROW;
  }

  lemma SpecsAdmissible()
    ensures Admissible(SPECS) && NO_JOBS.Valid()
  {
    hide Acyclic;
    var g := GraphOf(SPECS);
    GraphOfTasks(SPECS);
    assert SPECS[0].name in g && g[TASK] == [];
    assert NamesOf(SPECS) == {TASK};
    assert IsTopological(g, [TASK]);
    TopologicalImpliesAcyclic(g, [TASK]);
  }

  lemma EndOfRun()
    ensures Run(Initial(SPECS, NO_JOBS), LOST_WRITE) ==
              Sys(WRITING.db.(status := WfSucceeded, lostMarks := {TASK}), map[ENGINE := Idle, POLLER := Idle])
  {
    hide Run, Step, Five, Initial;
    var s := Initial(SPECS, NO_JOBS);
    assert Run(s, LOST_WRITE[..0]) == s by { EmptyRun(s); }
    RunFive(s, 0);
    ReadsTasks();
    RunFive(s, 5);
    Schedules();
    RunFive(s, 10);
    SeesSuccess();
    RunSnoc(s, LOST_WRITE, 15);
    RunSnoc(s, LOST_WRITE, 16);
    LosesWrite();
    assert LOST_WRITE[..17] == LOST_WRITE;
  }

  /** The workflow is SUCCEEDED although no task was ever marked so, and its row still says RUNNING. */
  lemma SucceededWithoutMark()
    ensures Admissible(SPECS) && NO_JOBS.Valid()
    ensures var db := Run(Initial(SPECS, NO_JOBS), LOST_WRITE).db;
            db.status == WfSucceeded && db.marked == {} && db.tasks == [RUNNING_ROW] && db.lostMarks == {TASK}
  {
    hide Run, Step, Initial, Admissible;
    SpecsAdmissible();
    EndOfRun();
  }

  lemma EmptyRun(s: Sys)
    ensures Run(s, LOST_WRITE[..0]) == s
  {
  }

  // ---- And nothing repairs it ------------------------------------------------------------

  /** The workflow is terminal and no caller is past its look at the status. */
  ghost predicate Concluded(s: Sys) {
    s.db.status.IsTerminal() && forall c :: c in s.pcs ==> s.pcs[c] == Idle || s.pcs[c] == ReadStatus
  }

  predicate StartsAgain(a: Action) {
    a.Call? && a.viaStart
  }

  lemma ConcludedStep(s: Sys, a: Action)
    requires Concluded(s) && !StartsAgain(a)
    ensures Concluded(Step(s, a)) && Step(s, a).db.status == s.db.status && Step(s, a).db.marked == s.db.marked
  {
    hide Ready, ReadyIndices;
  }

  /** Short of another `Start`, a concluded workflow keeps its status and gets no marks, whatever else happens. */
  lemma {:induction false} NoMoreMarks(s: Sys, later: seq<Action>)
    requires Concluded(s) && forall k :: 0 <= k < |later| ==> !StartsAgain(later[k])
    ensures Concluded(Run(s, later)) && Run(s, later).db.status == s.db.status && Run(s, later).db.marked == s.db.marked
  {
    hide Concluded, Step, StartsAgain;
    if later != [] {
      NoMoreMarks(s, later[..|later| - 1]);
      ConcludedStep(Run(s, later[..|later| - 1]), later[|later| - 1]);
    }
  }

  lemma {:induction false} RunConcat(s: Sys, first: seq<Action>, second: seq<Action>)
    ensures Run(s, first + second) == Run(Run(s, first), second)
  {
    hide Step;
    if second == [] {
      assert first + second == first;
    } else {
      var n := |second| - 1;
      assert (first + second)[..|first + second| - 1] == first + second[..n];
      RunConcat(s, first, second[..n]);
    }
  }

  /** After the lost write the workflow stays SUCCEEDED and its task is never marked SUCCEEDED. */
  lemma NeverMarked(later: seq<Action>)
    requires forall k :: 0 <= k < |later| ==> !StartsAgain(later[k])
    ensures var db := Run(Initial(SPECS, NO_JOBS), LOST_WRITE + later).db;
            && db.status == WfSucceeded && db.marked == {}
            && forall i :: 0 <= i < |db.tasks| ==> db.tasks[i].status != TaskSucceeded
  {
    hide Run, Initial, Admissible, GraphOf, StartsAgain;
    var s := Run(Initial(SPECS, NO_JOBS), LOST_WRITE);
    EndOfRun();
    NoMoreMarks(s, later);
    RunConcat(Initial(SPECS, NO_JOBS), LOST_WRITE, later);
    SpecsAdmissible();
    RunInv(SPECS, NO_JOBS, LOST_WRITE + later);
    UnmarkedRows(GraphOf(SPECS), Run(Initial(SPECS, NO_JOBS), LOST_WRITE + later));
  }

  lemma UnmarkedRows(g: Graph, s: Sys)
    requires Inv(g, s) && s.db.marked == {}
    ensures forall i :: 0 <= i < |s.db.tasks| ==> s.db.tasks[i].status != TaskSucceeded
  {
    hide PcInv, KeysInv, EnqueuedInv, AllRecorded;
  }
}
