/**
 The single-call model refines the rounds: a caller whose calls all succeed and that nobody disturbs makes
 exactly one round of `AdvanceWorkflow`.
 */
module RoundRefinement {
  import opened Calls
  import opened Options
  import opened PriorityQueue
  import opened Statuses
  import opened Workflow
  import opened WorkflowInterleaving

  /** The workflow as the rounds see it; the interleaved model leaves out its error text. */
  function View(db: Db): State {
    State(db.status, None, db.tasks, db.jobs, db.keys, db.enqueued)
  }

  function Unnamed(s: State): State {
    s.(error := None)
  }

  /** `n` moves of the caller, all of them successful. */
  function Alone(s: Sys, c: Caller, n: nat): Sys {
    if n == 0 then s else Step(Alone(s, c, n - 1), Move(c, Done))
  }

  lemma {:induction false} AloneAdd(s: Sys, c: Caller, m: nat, n: nat)
    ensures Alone(s, c, m + n) == Alone(Alone(s, c, m), c, n)
  {
    hide Step;
    if n > 0 {
      AloneAdd(s, c, m, n - 1);
      assert m + n - 1 == m + (n - 1);
    }
  }

  lemma {:induction false} AloneRuns(s: Sys, c: Caller, n: nat)
    ensures Run(s, seq(n, _ => Move(c, Done))) == Alone(s, c, n)
  {
    hide Step;
    var moves := seq(n, _ => Move(c, Done));
    if n > 0 {
      AloneRuns(s, c, n - 1);
      assert moves[..n - 1] == seq(n - 1, _ => Move(c, Done));
    }
  }

  // ---- The synchronisation loop ----------------------------------------------------------

  /** After `i` tasks of the loop over `tasks`: stored rows, snapshot and flags. */
  ghost predicate Synchronising(db: Db, db0: Db, snap: seq<TaskRow>, i: nat, failed: bool, all: bool) {
    && View(db).(tasks := db0.tasks) == View(db0)
    && i <= |snap| == |db0.tasks| == |db.tasks|
    && (forall j :: 0 <= j < i ==>
        db.tasks[j] == Synced(db0.tasks[j], db0.jobs.rows) && snap[j].status == db.tasks[j].status)
    && (forall j :: i <= j < |snap| ==> db.tasks[j] == db0.tasks[j] && snap[j] == db0.tasks[j])
    && (failed <==> exists j :: 0 <= j < i && db.tasks[j].status == TaskFailed)
    && (all <==> forall j :: 0 <= j < i ==> db.tasks[j].status == TaskSucceeded)
  }

  lemma PassKeeps(db: Db, db': Db, db0: Db, snap: seq<TaskRow>, snap': seq<TaskRow>, i: nat, failed: bool, all: bool)
    requires Synchronising(db, db0, snap, i, failed, all) && i < |snap|
    requires |snap'| == |snap| && forall j :: 0 <= j < |snap| && j != i ==> snap'[j] == snap[j]
    requires var t' := Synced(snap[i], db.jobs.rows);
             View(db') == View(db).(tasks := db.tasks[i := t']) && snap'[i].status == t'.status
    ensures var t' := Synced(snap[i], db.jobs.rows);
            Synchronising(db', db0, snap', i + 1, failed || t'.status == TaskFailed, all && t'.status == TaskSucceeded)
  {
    hide Synced;
    var t' := Synced(snap[i], db.jobs.rows);
    assert db'.tasks == db.tasks[i := t'];
    assert db.jobs == db0.jobs;
    if failed {
      var j :| 0 <= j < i && db.tasks[j].status == TaskFailed;
      assert db'.tasks[j].status == TaskFailed;
    }
  }

  /** What one pass of the loop writes: the synchronised row, and its status in the snapshot. */
  lemma OnePass(s: Sys, c: Caller, snap: seq<TaskRow>, i: nat, failed: bool, all: bool)
    returns (n: nat, snap': seq<TaskRow>)
    requires At(s, c) == ReadJob(snap, i, failed, all) && i < |snap| == |s.db.tasks| && s.db.tasks[i] == snap[i]
    ensures |snap'| == |snap| && (forall j :: 0 <= j < |snap| && j != i ==> snap'[j] == snap[j])
    ensures var s' := Alone(s, c, n);
            var t' := Synced(snap[i], s.db.jobs.rows);
            && At(s', c) == LoopPc(snap', i + 1, failed || t'.status == TaskFailed, all && t'.status == TaskSucceeded)
            && View(s'.db) == View(s.db).(tasks := s.db.tasks[i := t']) && snap'[i].status == t'.status
  {
    hide LoopPc;
    var t := snap[i];
    var s1 := Step(s, Move(c, Done));
    assert Alone(s, c, 1) == s1 by { assert Alone(s, c, 0) == s; }
    if t.status == TaskRunning && t.job.Some? && t.job.value in s.db.jobs.rows
       && Outcome(s.db.jobs.rows[t.job.value].status).Some? {
      var job := s.db.jobs.rows[t.job.value];
      snap' := SnapAfter(snap, i, job);
      n := 2;
      assert At(s1, c) == WriteTask(snap, i, failed, all, job);
      assert Alone(s, c, 2) == Step(s1, Move(c, Done));
      WritesSynced(s1, c, snap, i, failed, all, job);
    } else {
      n, snap' := 1, snap;
      assert s.db.tasks[i := t] == s.db.tasks;
    }
  }

  lemma WritesSynced(s: Sys, c: Caller, snap: seq<TaskRow>, i: nat, failed: bool, all: bool, job: JobView)
    requires At(s, c) == WriteTask(snap, i, failed, all, job) && i < |snap| == |s.db.tasks| && s.db.tasks[i] == snap[i]
    requires snap[i].status == TaskRunning && snap[i].job.Some? && snap[i].job.value in s.db.jobs.rows
    requires s.db.jobs.rows[snap[i].job.value] == job && Outcome(job.status).Some?
    ensures var s' := Step(s, Move(c, Done));
            var t' := Synced(snap[i], s.db.jobs.rows);
            && At(s', c) == LoopPc(SnapAfter(snap, i, job), i + 1, failed || t'.status == TaskFailed, all &&
                                   t'.status == TaskSucceeded)
            && View(s'.db) == View(s.db).(tasks := s.db.tasks[i := t']) &&
                SnapAfter(snap, i, job)[i].status == t'.status
  {
    hide LoopPc;
  }

  lemma {:induction false} SyncLoop(s: Sys, c: Caller, db0: Db, snap: seq<TaskRow>, i: nat, failed: bool, all: bool)
    returns (n: nat, snap': seq<TaskRow>, failed': bool, all': bool)
    requires Synchronising(s.db, db0, snap, i, failed, all) && At(s, c) == LoopPc(snap, i, failed, all)
    ensures var s' := Alone(s, c, n);
            Synchronising(s'.db, db0, snap', |snap'|, failed', all') &&
                At(s', c) == LoopPc(snap', |snap'|, failed', all')
    decreases |snap| - i
  {
    hide Synced, Step, Alone, View;
    if i == |snap| {
      n, snap', failed', all' := 0, snap, failed, all;
      StandStill(s, c);
    } else {
      var m, next := OnePass(s, c, snap, i, failed, all);
      var s1 := Alone(s, c, m);
      PassKeeps(s.db, s1.db, db0, snap, next, i, failed, all);
      var t' := Synced(snap[i], s.db.jobs.rows);
      var rest;
      rest, snap', failed', all' := SyncLoop(s1, c, db0, next, i + 1, failed || t'.status == TaskFailed,
                                             all && t'.status == TaskSucceeded);
      n := m + rest;
      AloneAdd(s, c, m, rest);
    }
  }

  lemma StandStill(s: Sys, c: Caller)
    ensures Alone(s, c, 0) == s
  {
  }

  lemma OneMove(s: Sys, c: Caller)
    ensures Alone(s, c, 1) == Step(s, Move(c, Done))
  {
    hide Step;
    assert Alone(s, c, 0) == s;
  }

  // ---- The failure cascade ---------------------------------------------------------------

  /** The cascade after `i` tasks. */
  ghost predicate Cancelling(db: Db, db0: Db, snap: seq<TaskRow>, i: nat) {
    && i <= |snap| == |db.tasks| == |db0.tasks|
    && View(db).(tasks := db0.tasks) == View(db0)
    && (forall j :: 0 <= j < |snap| ==> snap[j].status == db0.tasks[j].status)
    && (forall j :: 0 <= j < i ==> db.tasks[j] == PendingCancelled(db0.tasks[j]))
    && (forall j :: i <= j < |snap| ==> db.tasks[j] == db0.tasks[j])
  }

  lemma CancelPass(s: Sys, c: Caller, db0: Db, snap: seq<TaskRow>, i: nat)
    requires At(s, c) == CancelTask(snap, i) && Cancelling(s.db, db0, snap, i) && i < |snap|
    ensures var s' := Step(s, Move(c, Done));
            At(s', c) == CancelTask(snap, i + 1) && Cancelling(s'.db, db0, snap, i + 1)
  {
    var s' := Step(s, Move(c, Done));
    CancelOne(s, c, snap, i);
    forall j | 0 <= j < i + 1 ensures s'.db.tasks[j] == PendingCancelled(db0.tasks[j]) {
      assert j < i ==> s.db.tasks[j] == PendingCancelled(db0.tasks[j]);
    }
  }

  lemma CancelOne(s: Sys, c: Caller, snap: seq<TaskRow>, i: nat)
    requires At(s, c) == CancelTask(snap, i) && i < |snap| == |s.db.tasks| && snap[i].status == s.db.tasks[i].status
    ensures var s' := Step(s, Move(c, Done));
            At(s', c) == CancelTask(snap, i + 1)
            && View(s'.db) == View(s.db).(tasks := s.db.tasks[i := PendingCancelled(s.db.tasks[i])])
  {
    if snap[i].status != TaskPending {
      assert s.db.tasks[i := s.db.tasks[i]] == s.db.tasks;
    }
  }

  lemma {:induction false} CancelLoop(s: Sys, c: Caller, db0: Db, snap: seq<TaskRow>, i: nat) returns (n: nat)
    requires At(s, c) == CancelTask(snap, i) && Cancelling(s.db, db0, snap, i)
    ensures var s' := Alone(s, c, n); At(s', c) == Idle && View(s'.db) == View(db0).(tasks := CancelPending(db0.tasks))
    decreases |snap| - i
  {
    hide Step, Alone;
    OneMove(s, c);
    if i == |snap| {
      n := 1;
      CancelEnds(s, c, snap, i);
      assert s.db.tasks == CancelPending(db0.tasks);
    } else {
      CancelPass(s, c, db0, snap, i);
      var rest := CancelLoop(Step(s, Move(c, Done)), c, db0, snap, i + 1);
      n := 1 + rest;
      AloneAdd(s, c, 1, rest);
    }
  }

  lemma CancelEnds(s: Sys, c: Caller, snap: seq<TaskRow>, i: nat)
    requires At(s, c) == CancelTask(snap, i) && i >= |snap|
    ensures var s' := Step(s, Move(c, Done)); At(s', c) == Idle && s'.db == s.db
  {
  }

  // ---- Scheduling ------------------------------------------------------------------------

  /** Schedules the listed tasks, in order. */
  function ScheduledList(s: State, ready: seq<nat>): (s': State)
    requires forall k :: 0 <= k < |ready| ==> ready[k] < |s.tasks|
    ensures |s'.tasks| == |s.tasks|
  {
    if ready == [] then s else ScheduledOne(ScheduledList(s, ready[..|ready| - 1]), ready[|ready| - 1])
  }

  lemma {:induction false} ListIsScheduled(s: State, n: nat)
    requires n <= |s.tasks|
    ensures ScheduledList(s, ReadyIndices(s.tasks, n)) == Scheduled(s, n)
  {
    hide Ready, ScheduledOne;
    if n > 0 {
      ListIsScheduled(s, n - 1);
      var before := ReadyIndices(s.tasks, n - 1);
      if Ready(s.tasks, n - 1) {
        assert (before + [n - 1])[..|before|] == before;
      } else {
        assert before + [] == before;
      }
    }
  }

  lemma FindsJob(s: Sys, c: Caller, ready: seq<nat>, k: nat)
    requires At(s, c) == FindJob(ready, k) && k < |ready| && ready[k] < |s.db.tasks|
    ensures var s', name := Step(s, Move(c, Done)), s.db.tasks[ready[k]].name;
            && s'.db == s.db
            && At(s', c) == if name in s.db.keys then BindTask(ready, k, s.db.keys[name], false)
                else InsertJob(ready, k)
  {
    hide ReadyPc;
  }

  lemma InsertsJob(s: Sys, c: Caller, ready: seq<nat>, k: nat)
    requires At(s, c) == InsertJob(ready, k) && k < |ready| && ready[k] < |s.db.tasks|
    requires s.db.tasks[ready[k]].name !in s.db.keys
    ensures var s', name := Step(s, Move(c, Done)), s.db.tasks[ready[k]].name;
            && At(s', c) == BindTask(ready, k, Uuid(s.db.jobs.next), true)
            && s'.db == WithJob(s.db, c, name)
  {
    hide ReadyPc;
  }

  lemma BindsJob(s: Sys, c: Caller, ready: seq<nat>, k: nat, id: Id, created: bool)
    requires At(s, c) == BindTask(ready, k, id, created) && k < |ready| && ready[k] < |s.db.tasks|
    ensures var s', t := Step(s, Move(c, Done)), s.db.tasks[ready[k]];
            && At(s', c) == (if created then EnqueueJob(ready, k, id) else ReadyPc(ready, k + 1))
            && View(s'.db) == View(s.db).(tasks := s.db.tasks[ready[k] := t.(status := TaskRunning, job := Some(id))])
  {
    hide ReadyPc;
  }

  lemma EnqueuesJob(s: Sys, c: Caller, ready: seq<nat>, k: nat, id: Id)
    requires At(s, c) == EnqueueJob(ready, k, id)
    ensures var s' := Step(s, Move(c, Done));
            At(s', c) == ReadyPc(ready, k + 1) && s'.db == s.db.(enqueued := s.db.enqueued + [id])
  {
    hide ReadyPc;
  }

  /** One ready task: find or insert its job, bind it, and enqueue a new one. */
  lemma OneReady(s: Sys, c: Caller, ready: seq<nat>, k: nat) returns (n: nat)
    requires At(s, c) == FindJob(ready, k) && k < |ready| && ready[k] < |s.db.tasks|
    ensures var s' := Alone(s, c, n);
            At(s', c) == ReadyPc(ready, k + 1) && View(s'.db) == ScheduledOne(View(s.db), ready[k])
  {
    hide ReadyPc, Step;
    var name := s.db.tasks[ready[k]].name;
    OneMove(s, c);
    FindsJob(s, c, ready, k);
    var found := Alone(s, c, 1);
    OneMove(found, c);
    if name in s.db.keys {
      BindsJob(found, c, ready, k, s.db.keys[name], false);
      AloneAdd(s, c, 1, 1);
      n := 2;
    } else {
      InsertsJob(found, c, ready, k);
      var inserted := Alone(found, c, 1);
      var id := Uuid(s.db.jobs.next);
      OneMove(inserted, c);
      BindsJob(inserted, c, ready, k, id, true);
      var bound := Alone(inserted, c, 1);
      OneMove(bound, c);
      EnqueuesJob(bound, c, ready, k, id);
      AloneAdd(inserted, c, 1, 1);
      AloneAdd(found, c, 1, 2);
      AloneAdd(s, c, 1, 3);
      n := 4;
    }
  }

  lemma {:induction false} ReadyLoop(s: Sys, c: Caller, start: State, ready: seq<nat>, k: nat) returns (n: nat)
    requires At(s, c) == ReadyPc(ready, k) && k <= |ready|
    requires forall j :: 0 <= j < |ready| ==> ready[j] < |start.tasks|
    requires View(s.db) == ScheduledList(start, ready[..k])
    ensures var s' := Alone(s, c, n); At(s', c) == Idle && View(s'.db) == ScheduledList(start, ready)
    decreases |ready| - k
  {
    hide Step, Alone, ScheduledOne;
    if k == |ready| {
      n := 0;
      StandStill(s, c);
      assert ready[..k] == ready;
    } else {
      var m := OneReady(s, c, ready, k);
      assert ready[..k + 1][..k] == ready[..k];
      var rest := ReadyLoop(Alone(s, c, m), c, start, ready, k + 1);
      n := m + rest;
      AloneAdd(s, c, m, rest);
    }
  }

  // ---- The whole call --------------------------------------------------------------------

  lemma RoundFails(s: Sys, c: Caller, db0: Db, snap: seq<TaskRow>) returns (n: nat)
    requires At(s, c) == SetFailed(snap) && |snap| == |s.db.tasks| && !db0.status.IsTerminal()
    requires s.db.tasks == SyncedAll(db0.tasks, db0.jobs.rows) && View(s.db).(tasks := db0.tasks) == View(db0)
    requires forall j :: 0 <= j < |snap| ==> snap[j].status == s.db.tasks[j].status
    requires LastFailed(db0.tasks, db0.jobs.rows, |db0.tasks|).Some?
    ensures var s' := Alone(s, c, n); At(s', c) == Idle && View(s'.db) == Unnamed(Round(View(db0)))
  {
    hide Step, Alone, Scheduled, SyncedAll, LastFailed;
    OneMove(s, c);
    Fails(s, c, snap);
    var failing := Alone(s, c, 1);
    var rest := CancelLoop(failing, c, failing.db, snap, 0);
    n := 1 + rest;
    AloneAdd(s, c, 1, rest);
  }

  lemma RoundSchedules(s: Sys, c: Caller, db0: Db) returns (n: nat)
    requires At(s, c) == ReadReady && !db0.status.IsTerminal()
    requires s.db.tasks == SyncedAll(db0.tasks, db0.jobs.rows) && View(s.db).(tasks := db0.tasks) == View(db0)
    requires LastFailed(db0.tasks, db0.jobs.rows, |db0.tasks|) == None &&
        !(AllSucceeded(s.db.tasks) && |s.db.tasks| > 0)
    ensures var s' := Alone(s, c, n); At(s', c) == Idle && View(s'.db) == Unnamed(Round(View(db0)))
  {
    hide Step, Alone, Scheduled, SyncedAll, LastFailed, ScheduledList, ReadyIndices;
    OneMove(s, c);
    Queries(s, c);
    var ready := ReadyIndices(s.db.tasks, |s.db.tasks|);
    NothingScheduled(View(s.db), ready);
    var rest := ReadyLoop(Alone(s, c, 1), c, View(s.db), ready, 0);
    n := 1 + rest;
    AloneAdd(s, c, 1, rest);
    ListIsScheduled(View(s.db), |s.db.tasks|);
    ScheduledUnnamed(View(s.db), |s.db.tasks|);
    assert View(s.db) == View(db0).(tasks := s.db.tasks);
  }

  lemma AfterSync(s: Sys, c: Caller, db0: Db, snap: seq<TaskRow>, failed: bool, all: bool) returns (n: nat)
    requires Synchronising(s.db, db0, snap, |snap|, failed, all) && At(s, c) == LoopPc(snap, |snap|, failed, all)
    requires !db0.status.IsTerminal()
    ensures var s' := Alone(s, c, n); At(s', c) == Idle && View(s'.db) == Unnamed(Round(View(db0)))
  {
    hide Step, Alone, Scheduled, Synced, LastFailed;
    var synced := SyncedAll(db0.tasks, db0.jobs.rows);
    assert s.db.tasks == synced;
    FailureFlag(db0, synced);
    if failed {
      n := RoundFails(s, c, db0, snap);
    } else if all && |snap| > 0 {
      n := 1;
      OneMove(s, c);
      Succeeds(s, c);
    } else {
      n := RoundSchedules(s, c, db0);
    }
  }

  lemma FailureFlag(db0: Db, synced: seq<TaskRow>)
    requires synced == SyncedAll(db0.tasks, db0.jobs.rows)
    ensures LastFailed(db0.tasks, db0.jobs.rows, |db0.tasks|).Some? <==>
        exists j :: 0 <= j < |synced| && synced[j].status == TaskFailed
  {
    hide Synced;
    if j :| 0 <= j < |synced| && synced[j].status == TaskFailed {
      assert Synced(db0.tasks[j], db0.jobs.rows).status == TaskFailed;
    } else {
      forall j | 0 <= j < |db0.tasks| ensures Synced(db0.tasks[j], db0.jobs.rows).status != TaskFailed {
        assert synced[j] == Synced(db0.tasks[j], db0.jobs.rows);
      }
    }
  }

  lemma Fails(s: Sys, c: Caller, snap: seq<TaskRow>)
    requires At(s, c) == SetFailed(snap)
    ensures var s' := Step(s, Move(c, Done)); At(s', c) == CancelTask(snap, 0) && s'.db == s.db.(status := WfFailed)
  {
  }

  lemma Succeeds(s: Sys, c: Caller)
    requires At(s, c) == SetSucceeded
    ensures var s' := Step(s, Move(c, Done)); At(s', c) == Idle && s'.db == s.db.(status := WfSucceeded)
  {
  }

  lemma Queries(s: Sys, c: Caller)
    requires At(s, c) == ReadReady
    ensures var s' := Step(s, Move(c, Done));
            At(s', c) == ReadyPc(ReadyIndices(s.db.tasks, |s.db.tasks|), 0) && s'.db == s.db
  {
    hide ReadyIndices, ReadyPc;
  }

  lemma NothingScheduled(s: State, ready: seq<nat>)
    ensures ScheduledList(s, ready[..0]) == s
  {
  }

  lemma {:induction false} ScheduledUnnamed(s: State, n: nat)
    requires n <= |s.tasks|
    ensures Scheduled(Unnamed(s), n) == Unnamed(Scheduled(s, n))
  {
    hide Ready;
    if n > 0 {
      ScheduledUnnamed(s, n - 1);
    }
  }

  /** A call and `n` successful moves. */
  function Undisturbed(c: Caller, viaStart: bool, n: nat): seq<Action> {
    [Call(c, viaStart)] + seq(n, _ => Move(c, Done))
  }

  lemma {:induction false} RunConcat(s: Sys, first: seq<Action>, second: seq<Action>)
    ensures Run(s, first + second) == Run(Run(s, first), second)
  {
    hide Step;
    if second == [] {
      assert first + second == first;
    } else {
      var n := |second| - 1;
      assert (first + second)[..|first + second| - 1] == first + second[..n];
      RunConcat(s, first, second[..n]);
    }
  }

  lemma UndisturbedRuns(s: Sys, c: Caller, viaStart: bool, n: nat)
    requires At(s, c) == Idle
    ensures var called := Goto(s, s.db, c, if viaStart then SetRunning else ReadStatus);
            Run(s, Undisturbed(c, viaStart, n)) == Alone(called, c, n)
  {
    hide Alone;
    var call := Call(c, viaStart);
    RunConcat(s, [call], seq(n, _ => Move(c, Done)));
    assert [call][..0] == [];
    assert Run(s, [call]) == Step(s, call);
    AloneRuns(Step(s, call), c, n);
  }

  /** An undisturbed `AdvanceWorkflow` whose calls all succeed is one round, its error text aside. */
  lemma RoundAlone(s: Sys, c: Caller) returns (n: nat)
    requires At(s, c) == Idle
    ensures var s' := Run(s, Undisturbed(c, false, n));
            At(s', c) == Idle && View(s'.db) == Unnamed(Round(View(s.db)))
  {
    hide Step, Alone, Round, Run;
    n := RoundMoves(Goto(s, s.db, c, ReadStatus), c);
    UndisturbedRuns(s, c, false, n);
  }

  lemma RoundMoves(s: Sys, c: Caller) returns (n: nat)
    requires At(s, c) == ReadStatus
    ensures var s' := Alone(s, c, n); At(s', c) == Idle && View(s'.db) == Unnamed(Round(View(s.db)))
  {
    hide Step, Alone, Round, LoopPc;
    OneMove(s, c);
    Looks(s, c);
    var s1 := Alone(s, c, 1);
    if s.db.status.IsTerminal() {
      n := 1;
      RoundOfTerminal(View(s.db));
    } else {
      OneMove(s1, c);
      ReadsAll(s1, c);
      var s2 := Alone(s1, c, 1);
      AloneAdd(s, c, 1, 1);
      StartsSync(s2.db);
      var m, snap, failed, all := SyncLoop(s2, c, s2.db, s2.db.tasks, 0, false, true);
      AloneAdd(s, c, 2, m);
      var rest := AfterSync(Alone(s2, c, m), c, s2.db, snap, failed, all);
      AloneAdd(s, c, 2 + m, rest);
      n := 2 + m + rest;
    }
  }

  lemma StartsSync(db: Db)
    ensures Synchronising(db, db, db.tasks, 0, false, true)
  {
  }

  lemma RoundOfTerminal(s: State)
    requires s.status.IsTerminal()
    ensures Round(s) == s
  {
  }

  lemma Looks(s: Sys, c: Caller)
    requires At(s, c) == ReadStatus
    ensures var s' := Step(s, Move(c, Done));
            s'.db == s.db && At(s', c) == if s.db.status.IsTerminal() then Idle else ReadTasks
  {
  }

  lemma ReadsAll(s: Sys, c: Caller)
    requires At(s, c) == ReadTasks
    ensures var s' := Step(s, Move(c, Done)); s'.db == s.db && At(s', c) == LoopPc(s.db.tasks, 0, false, true)
  {
    hide LoopPc;
  }

  /** An undisturbed `Start` is the status change followed by that round. */
  lemma StartAlone(s: Sys, c: Caller) returns (n: nat)
    requires At(s, c) == Idle
    ensures var s' := Run(s, Undisturbed(c, true, n));
            At(s', c) == Idle && View(s'.db) == Unnamed(Started(View(s.db)))
  {
    hide Step, Alone, Round, Run;
    var called := Goto(s, s.db, c, SetRunning);
    OneMove(called, c);
    SetsRunning(called, c);
    var rest := RoundMoves(Alone(called, c, 1), c);
    AloneAdd(called, c, 1, rest);
    n := 1 + rest;
    UndisturbedRuns(s, c, true, n);
  }

  lemma SetsRunning(s: Sys, c: Caller)
    requires At(s, c) == SetRunning
    ensures var s' := Step(s, Move(c, Done)); At(s', c) == ReadStatus && s'.db == s.db.(status := WfRunning)
  {
  }

  /** A cancellation is one step in both models. */
  lemma CancelAlone(s: Sys)
    ensures View(Step(s, CancelWorkflow).db) == CancelledWorkflow(View(s.db))
  {
  }

  // ---- What the fate of a call decides ---------------------------------------------------

  /** A call without effect leaves the stored workflow and the queue alone. */
  lemma NoEffect(s: Sys, c: Caller)
    ensures View(Step(s, Move(c, NotDone)).db) == View(s.db)
  {
    hide Ready, ReadyIndices, LoopPc;
  }

  /** One whose caller sees an error may have changed them just as a successful one. */
  lemma UnseenEffect(s: Sys, c: Caller)
    ensures View(Step(s, Move(c, DoneUnseen)).db) == View(Step(s, Move(c, Done)).db)
  {
    hide Ready, ReadyIndices, LoopPc;
  }

  /**
   After a failed call the engine goes on as if nothing had happened when it only updates statuses in the loops,
   moves on to the next task when it schedules, leaves a task as it is when it cannot read its job, and otherwise
   gives up.
   */
  lemma AfterFailure(s: Sys, c: Caller)
    requires InRange(s.db, At(s, c))
    ensures var pc, next, usual := At(s, c), At(Step(s, Move(c, NotDone)), c), At(Step(s, Move(c, Done)), c);
            && (pc.WriteTask? || pc.SetFailed? || pc.CancelTask? ==> next == usual)
            && (pc.SetRunning? || pc.ReadStatus? || pc.ReadTasks? || pc.ReadReady? || pc.SetSucceeded? ==> next == Idle)
            && (pc.FindJob? || pc.InsertJob? || pc.RefetchJob? || pc.BindTask? || pc.EnqueueJob? ==>
                  next == if pc.k + 1 < |pc.ready| then FindJob(pc.ready, pc.k + 1) else Idle)
            && (pc.ReadJob? ==>
                  next == LoopPc(pc.snap, pc.i + 1, pc.failed || pc.snap[pc.i].status == TaskFailed,
                                 pc.all && pc.snap[pc.i].status == TaskSucceeded))
  {
    hide Ready, ReadyIndices, LoopPc;
  }

  /** An error the caller sees sends it the same way whether or not the call took effect. */
  lemma UnseenGoesOn(s: Sys, c: Caller)
    ensures At(Step(s, Move(c, DoneUnseen)), c) == At(Step(s, Move(c, NotDone)), c)
  {
    hide Ready, ReadyIndices, LoopPc;
  }
}
