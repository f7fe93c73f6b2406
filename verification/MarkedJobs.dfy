/**
 What the marks of the interleaved model mean: a task is marked SUCCEEDED only after the row of its job said so,
 and without failing calls every job that is created reaches the queue.
 */
module MarkedJobs {
  import opened Admission
  import opened Calls
  import opened Dag
  import opened Options
  import opened PriorityQueue
  import opened Statuses
  import opened Workflow
  import opened WorkflowInterleaving

  function SucceededNow(jobs: JobTable): set<Id> {
    set id | id in jobs.rows && jobs.rows[id].status == Succeeded
  }

  /** The jobs whose row has said Succeeded in some state of the run. */
  function EverSucceeded(s: Sys, actions: seq<Action>): set<Id> {
    SucceededNow(Run(s, actions).db.jobs) + if actions == [] then {} else EverSucceeded(s, actions[..|actions| - 1])
  }

  lemma {:induction false} EverSucceededWhen(s: Sys, actions: seq<Action>, id: Id) returns (k: nat)
    requires id in EverSucceeded(s, actions)
    ensures k <= |actions|
    ensures var jobs := Run(s, actions[..k]).db.jobs; id in jobs.rows && jobs.rows[id].status == Succeeded
  {
    if id in SucceededNow(Run(s, actions).db.jobs) {
      k := |actions|;
      assert actions[..k] == actions;
    } else {
      var init := actions[..|actions| - 1];
      k := EverSucceededWhen(s, init, id);
      assert init[..k] == actions[..k];
    }
  }

  /** Marks, written or lost, and marks about to be written all belong to jobs that have succeeded. */
  ghost predicate MarksInv(s: Sys, ever: set<Id>) {
    && SucceededNow(s.db.jobs) <= ever
    && (forall n :: n in s.db.marked + s.db.lostMarks ==> n in s.db.keys && s.db.keys[n] in ever)
    && (forall c :: c in s.pcs ==> PcMarks(s.db, s.pcs[c], ever))
  }

  ghost predicate PcMarks(db: Db, pc: Pc, ever: set<Id>) {
    pc.WriteTask? && pc.job.status == Succeeded ==>
      pc.i < |pc.snap| && pc.snap[pc.i].name in db.keys && db.keys[pc.snap[pc.i].name] in ever
  }

  lemma MoreJobs(s: Sys, ever: set<Id>, more: set<Id>)
    requires MarksInv(s, ever) && ever <= more
    ensures MarksInv(s, more)
  {
  }

  /** A move that adds no marks, no successes and no mark to be written. */
  lemma QuietMove(s: Sys, s': Sys, c: Caller, ever: set<Id>)
    requires MarksInv(s, ever) && SucceededNow(s'.db.jobs) <= ever
    requires s'.db.marked == s.db.marked && s'.db.lostMarks == s.db.lostMarks
    requires forall n :: n in s.db.keys ==> n in s'.db.keys && s'.db.keys[n] == s.db.keys[n]
    requires c in s'.pcs && s'.pcs == s.pcs[c := s'.pcs[c]] && PcMarks(s'.db, s'.pcs[c], ever)
    ensures MarksInv(s', ever)
  {
    hide SucceededNow;
  }

  lemma ReadsJob(g: Graph, s: Sys, c: Caller, fate: Fate, ever: set<Id>)
    requires Inv(g, s) && MarksInv(s, ever) && At(s, c).ReadJob?
    ensures InRange(s.db, At(s, c)) && MarksInv(Moved(s, c, fate), ever)
  {
    hide DbInv;
    QuietMove(s, Moved(s, c, fate), c, ever);
  }

  lemma WritesMark(g: Graph, s: Sys, c: Caller, fate: Fate, ever: set<Id>)
    requires Inv(g, s) && MarksInv(s, ever) && At(s, c).WriteTask?
    ensures InRange(s.db, At(s, c)) && MarksInv(Moved(s, c, fate), ever)
  {
    hide DbInv, SucceededNow, Outcome, NextTaskPc, LoopPc;
    var WriteTask(snap, i, failed, all, job) := At(s, c);
    var s' := Moved(s, c, fate);
    OutcomeMeans(job.status);
    assert s.db.tasks[i].name == snap[i].name;
    NextIsQuiet(SnapAfter(snap, i, job), i, failed, all);
    assert forall n :: n in s'.db.marked + s'.db.lostMarks ==>
        n in s.db.marked + s.db.lostMarks || (n == snap[i].name && job.status == Succeeded);
  }

  /** A job's status decides what is written: success for Succeeded alone. */
  lemma OutcomeMeans(status: JobStatus)
    ensures Outcome(status) == Some(TaskSucceeded) <==> status == Succeeded
    ensures Outcome(status) == Some(TaskFailed) <==> status == Failed || status == DeadLetter
    ensures Outcome(status) == Some(TaskCancelled) <==> status == Cancelled
    ensures Outcome(status) != Some(TaskPending) && Outcome(status) != Some(TaskRunning)
  {
  }

  lemma NextIsQuiet(snap: seq<TaskRow>, i: nat, failed: bool, all: bool)
    requires i < |snap|
    ensures !NextTaskPc(snap, i, failed, all).WriteTask?
  {
  }

  lemma StatusMoves(s: Sys, c: Caller, fate: Fate, ever: set<Id>)
    requires MarksInv(s, ever) && InRange(s.db, At(s, c)) && c in s.pcs
    requires At(s, c).SetRunning? || At(s, c).ReadStatus? || At(s, c).ReadTasks? || At(s, c).SetFailed? ||
        At(s, c).CancelTask?
             || At(s, c).SetSucceeded? || At(s, c).ReadReady?
    ensures MarksInv(Moved(s, c, fate), ever)
  {
    hide Ready, ReadyIndices, MarksInv;
    MarksNow(s, ever);
    QuietMove(s, Moved(s, c, fate), c, ever);
  }

  lemma SchedulingMoves(s: Sys, c: Caller, fate: Fate, ever: set<Id>)
    requires MarksInv(s, ever) && InRange(s.db, At(s, c)) && c in s.pcs
    requires At(s, c).FindJob? || At(s, c).InsertJob? || At(s, c).RefetchJob? || At(s, c).BindTask? ||
        At(s, c).EnqueueJob?
    ensures MarksInv(Moved(s, c, fate), ever)
  {
    hide Ready, ReadyIndices, MarksInv;
    MarksNow(s, ever);
    QuietMove(s, Moved(s, c, fate), c, ever);
  }

  lemma MarksNow(s: Sys, ever: set<Id>)
    requires MarksInv(s, ever)
    ensures SucceededNow(s.db.jobs) <= ever
  {
  }

  lemma MarksStep(g: Graph, s: Sys, a: Action, ever: set<Id>)
    requires Inv(g, s) && MarksInv(s, ever)
    ensures MarksInv(Step(s, a), ever + SucceededNow(Step(s, a).db.jobs))
  {
    hide Inv, Moved, SucceededNow, CancelledAll, InRange;
    var s' := Step(s, a);
    var more := ever + SucceededNow(s'.db.jobs);
    match a {
      case Move(c, fate) =>
        if InRange(s.db, At(s, c)) {
          if At(s, c).WriteTask? {
            WritesMark(g, s, c, fate, ever);
          } else if At(s, c).ReadJob? {
            ReadsJob(g, s, c, fate, ever);
          } else if At(s, c) == Idle {
            NobodyMoves(s, c, fate);
          } else if At(s, c).FindJob? || At(s, c).InsertJob? || At(s, c).RefetchJob? || At(s, c).BindTask?
                    || At(s, c).EnqueueJob? {
            SchedulingMoves(s, c, fate, ever);
          } else {
            StatusMoves(s, c, fate, ever);
          }
        }
        MoreJobs(s', ever, more);
      case _ =>
        MoreJobs(s, ever, more);
    }
  }

  lemma NobodyMoves(s: Sys, c: Caller, fate: Fate)
    requires At(s, c) == Idle
    ensures InRange(s.db, At(s, c)) && Moved(s, c, fate) == s
  {
  }

  lemma {:induction false} MarksRun(specs: seq<TaskSpec>, jobs: JobTable, actions: seq<Action>)
    requires Admissible(specs) && jobs.Valid()
    ensures MarksInv(Run(Initial(specs, jobs), actions), EverSucceeded(Initial(specs, jobs), actions))
  {
    hide Admissible, GraphOf, Step, Inv, SucceededNow;
    if actions != [] {
      var init := actions[..|actions| - 1];
      MarksRun(specs, jobs, init);
      RunInv(specs, jobs, init);
      MarksStep(GraphOf(specs), Run(Initial(specs, jobs), init), actions[|actions| - 1],
                EverSucceeded(Initial(specs, jobs), init));
    }
  }

  /** In every interleaving a task is marked SUCCEEDED only after the row of its own job said Succeeded. */
  lemma MarkedMeansSucceeded(specs: seq<TaskSpec>, jobs: JobTable, actions: seq<Action>, n: Name)
    requires Admissible(specs) && jobs.Valid() && n in Run(Initial(specs, jobs), actions).db.marked
    ensures var db := Run(Initial(specs, jobs), actions).db;
            && n in db.keys
            && exists k :: 0 <= k <= |actions| &&
                 var then_ := Run(Initial(specs, jobs), actions[..k]).db.jobs;
                 db.keys[n] in then_.rows && then_.rows[db.keys[n]].status == Succeeded
  {
    hide Admissible, Run, EverSucceeded;
    MarksRun(specs, jobs, actions);
    var k := EverSucceededWhen(Initial(specs, jobs), actions, Run(Initial(specs, jobs), actions).db.keys[n]);
  }

  /** A workflow is marked SUCCEEDED only after every task's job has succeeded, lost writes or not. */
  lemma SucceededMeansJobsDid(specs: seq<TaskSpec>, jobs: JobTable, actions: seq<Action>, i: nat)
    requires Admissible(specs) && jobs.Valid() && i < |specs|
    requires Run(Initial(specs, jobs), actions).db.status == WfSucceeded
    ensures var db := Run(Initial(specs, jobs), actions).db;
            && specs[i].name in db.keys
            && exists k :: 0 <= k <= |actions| &&
                 var then_ := Run(Initial(specs, jobs), actions[..k]).db.jobs;
                 db.keys[specs[i].name] in then_.rows && then_.rows[db.keys[specs[i].name]].status == Succeeded
  {
    hide Admissible, Run, EverSucceeded;
    MarksRun(specs, jobs, actions);
    SucceededMeansMarked(specs, jobs, actions, i);
    var k := EverSucceededWhen(Initial(specs, jobs), actions,
                               Run(Initial(specs, jobs), actions).db.keys[specs[i].name]);
  }

  // ---- Every created job reaches the queue -----------------------------------------------

  /** The caller has created the job and goes on to enqueue it. */
  predicate Duty(pc: Pc, id: Id) {
    (pc.BindTask? && pc.created && pc.id == id) || (pc.EnqueueJob? && pc.id == id)
  }

  ghost predicate OnItsWay(s: Sys, n: Name)
    requires n in s.db.keys
  {
    s.db.keys[n] in s.db.enqueued || (n in s.db.creator && Duty(At(s, s.db.creator[n]), s.db.keys[n]))
  }

  ghost predicate AllOnTheirWay(s: Sys) {
    forall n :: n in s.db.keys ==> OnItsWay(s, n)
  }

  predicate NoFailures(actions: seq<Action>) {
    forall k :: 0 <= k < |actions| && actions[k].Move? ==> actions[k].fate == Done
  }

  /** A move that creates nothing and lets go of a duty only by enqueuing. */
  lemma DutiesHeld(s: Sys, s': Sys, c: Caller)
    requires AllOnTheirWay(s) && s'.db.keys == s.db.keys && s'.db.creator == s.db.creator
    requires forall id :: id in s.db.enqueued ==> id in s'.db.enqueued
    requires c in s'.pcs && s'.pcs == s.pcs[c := s'.pcs[c]]
    requires forall id :: Duty(At(s, c), id) ==> Duty(s'.pcs[c], id) || id in s'.db.enqueued
    ensures AllOnTheirWay(s')
  {
    hide Duty;
    forall n | n in s'.db.keys ensures OnItsWay(s', n) {
      assert OnItsWay(s, n);
    }
  }

  lemma InsertsOnItsWay(s: Sys, c: Caller)
    requires AllOnTheirWay(s) && InRange(s.db, At(s, c)) && At(s, c).InsertJob?
    ensures AllOnTheirWay(Moved(s, c, Done))
  {
    hide ReadyPc;
    var s' := Moved(s, c, Done);
    forall n | n in s'.db.keys ensures OnItsWay(s', n) {
      if n in s.db.keys {
        assert OnItsWay(s, n);
      }
    }
  }

  lemma DutiesDone(s: Sys, c: Caller)
    requires AllOnTheirWay(s) && InRange(s.db, At(s, c)) && (At(s, c).BindTask? || At(s, c).EnqueueJob?)
    ensures AllOnTheirWay(Moved(s, c, Done))
  {
    hide ReadyPc, AllOnTheirWay, OnItsWay;
    DutiesHeld(s, Moved(s, c, Done), c);
  }

  lemma NoDuties(s: Sys, c: Caller)
    requires AllOnTheirWay(s) && InRange(s.db, At(s, c)) && At(s, c) != Idle
    requires !At(s, c).InsertJob? && !At(s, c).BindTask? && !At(s, c).EnqueueJob?
    ensures AllOnTheirWay(Moved(s, c, Done))
  {
    hide Ready, ReadyIndices, ReadyPc, LoopPc, NextTaskPc, Outcome, SnapAfter, AllOnTheirWay, OnItsWay;
    DutiesHeld(s, Moved(s, c, Done), c);
  }

  lemma OnItsWayStep(s: Sys, a: Action)
    requires AllOnTheirWay(s) && (a.Move? ==> a.fate == Done)
    ensures AllOnTheirWay(Step(s, a))
  {
    hide Moved, CancelledAll, InRange, AllOnTheirWay, OnItsWay;
    match a
    case Call(c, viaStart) =>
      if At(s, c) == Idle {
        DutiesHeld(s, Step(s, a), c);
      }
    case Move(c, fate) =>
      if InRange(s.db, At(s, c)) {
        if At(s, c) == Idle {
          StaysIdle(s, c);
        } else if At(s, c).InsertJob? {
          InsertsOnItsWay(s, c);
        } else if At(s, c).BindTask? || At(s, c).EnqueueJob? {
          DutiesDone(s, c);
        } else {
          NoDuties(s, c);
        }
      }
    case _ => SameDuties(s, Step(s, a));
  }

  lemma StaysIdle(s: Sys, c: Caller)
    requires At(s, c) == Idle && InRange(s.db, Idle)
    ensures Moved(s, c, Done) == s
  {
  }

  lemma SameDuties(s: Sys, s': Sys)
    requires AllOnTheirWay(s) && s'.db.keys == s.db.keys && s'.db.creator == s.db.creator
    requires s'.db.enqueued == s.db.enqueued && s'.pcs == s.pcs
    ensures AllOnTheirWay(s')
  {
    forall n | n in s'.db.keys ensures OnItsWay(s', n) {
      assert OnItsWay(s, n);
    }
  }

  lemma {:induction false} OnItsWayRun(specs: seq<TaskSpec>, jobs: JobTable, actions: seq<Action>)
    requires NoFailures(actions)
    ensures AllOnTheirWay(Run(Initial(specs, jobs), actions))
  {
    hide Step;
    if actions != [] {
      OnItsWayRun(specs, jobs, actions[..|actions| - 1]);
      OnItsWayStep(Run(Initial(specs, jobs), actions[..|actions| - 1]), actions[|actions| - 1]);
    }
  }

  /** Without failing calls, once every caller has returned, each task's job has been enqueued. */
  lemma EnqueuedUnlessFailed(specs: seq<TaskSpec>, jobs: JobTable, actions: seq<Action>, n: Name)
    requires NoFailures(actions)
    requires var s := Run(Initial(specs, jobs), actions);
             n in s.db.keys && forall c :: c in s.pcs ==> s.pcs[c] == Idle
    ensures var db := Run(Initial(specs, jobs), actions).db; db.keys[n] in db.enqueued
  {
    hide Run;
    OnItsWayRun(specs, jobs, actions);
    assert OnItsWay(Run(Initial(specs, jobs), actions), n);
  }
}
