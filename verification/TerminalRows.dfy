/**
 Terminal job statuses are not absorbing: results are written without a look at the status.  They are final
 exactly when no worker is still between its claim and its resolving update, manual retries aside.
 */
module TerminalRows {
  import opened Calls
  import opened Collections
  import opened JobLifecycle
  import opened JobStore
  import opened NoLostJobs
  import opened PriorityQueue
  import opened Statuses

  predicate Retries(a: Action, id: Id) {
    a.RetryJob? && a.id == id
  }

  predicate NoRetry(actions: seq<Action>, id: Id) {
    forall k :: 0 <= k < |actions| ==> !Retries(actions[k], id)
  }

  /** Only a manual retry of the job can change its row. */
  ghost predicate Final(s: Sys, id: Id)
    requires id in s.rows
  {
    forall actions :: NoRetry(actions, id) ==> id in Run(s, actions).rows && Run(s, actions).rows[id] == s.rows[id]
  }

  /** A terminal row nobody executes. */
  ghost predicate Settled(s: Sys, id: Id) {
    id in s.rows && s.rows[id].status.IsTerminal() && Executors(s.procs, id) == {}
  }

  lemma NotExecuting(s: Sys, id: Id, p: Caller)
    requires Settled(s, id) && p in s.procs && s.procs[p].Executing?
    ensures s.procs[p].id != id
  {
    assert p !in Executors(s.procs, id);
  }

  lemma StillSettled(s: Sys, s': Sys, id: Id)
    requires Settled(s, id) && id in s'.rows && s'.rows[id] == s.rows[id]
    requires forall p :: p in s'.procs && s'.procs[p].Executing? && s'.procs[p].id == id ==>
               p in s.procs && s.procs[p].Executing? && s.procs[p].id == id
    ensures Settled(s', id)
  {
    assert forall p :: p in Executors(s'.procs, id) ==> p in Executors(s.procs, id);
  }

  lemma SettledQueueStep(s: Sys, a: Action, id: Id)
    requires Settled(s, id) && Enabled(s, a)
    requires a.EnqueueNext? || a.TakeFromQueue? || a.AckJob? || a.ReturnStale? || a.Die?
    ensures Settled(Apply(s, a), id) && Apply(s, a).rows == s.rows
  {
    hide Settled, PriorityQueue.Claimed, PriorityQueue.Requeued, PriorityQueue.Enqueued, ClaimedId;
    assert id in s.rows by { InRows(s, id); }
    StillSettled(s, Apply(s, a), id);
  }

  lemma InRows(s: Sys, id: Id)
    requires Settled(s, id)
    ensures id in s.rows
  {
  }

  lemma SettledWorkerStep(s: Sys, a: Action, id: Id)
    requires Settled(s, id) && Enabled(s, a) && (a.StartJob? || a.FinishJob?)
    ensures Settled(Apply(s, a), id) && Apply(s, a).rows[id] == s.rows[id]
  {
    hide Executors, OutcomeRow, OutcomeAudit, RunningRow;
    if a.FinishJob? {
      NotExecuting(s, id, a.p);
    }
    StillSettled(s, Apply(s, a), id);
  }

  lemma SettledCommit(s: Sys, a: Action, id: Id)
    requires Settled(s, id) && Enabled(s, a) && !Retries(a, id)
    requires a.CreateJob? || a.RequeueRetries? || a.RecoverWorker? || a.CancelJob? || a.RetryJob?
    ensures Settled(Apply(s, a), id) && Apply(s, a).rows[id] == s.rows[id]
  {
    hide Executors, CancelledRow, RetriedRow, NewRow, RecoveredRow, RequeuedRow, RecoveredAudit;
    if a.RecoverWorker? {
      assert id !in Orphans(s.rows, a.worker) && id !in Elements(a.listing);
    } else if a.RequeueRetries? {
      assert id !in Elements(a.batch);
    }
    StillSettled(s, Apply(s, a), id);
  }

  lemma {:induction false} SettledRun(s: Sys, actions: seq<Action>, id: Id)
    requires Settled(s, id) && NoRetry(actions, id)
    ensures Settled(Run(s, actions), id) && Run(s, actions).rows[id] == s.rows[id]
  {
    hide Apply, Enabled, Executors;
    if actions != [] {
      var n := |actions| - 1;
      SettledRun(s, actions[..n], id);
      var before, a := Run(s, actions[..n]), actions[n];
      if Enabled(before, a) {
        if a.EnqueueNext? || a.TakeFromQueue? || a.AckJob? || a.ReturnStale? || a.Die? {
          SettledQueueStep(before, a, id);
        } else if a.StartJob? || a.FinishJob? {
          SettledWorkerStep(before, a, id);
        } else {
          SettledCommit(before, a, id);
        }
      }
    }
  }

  /** The result that a worker still executing the job may write over a terminal status. */
  function LateOutcome(status: JobStatus): Outcome {
    if status == Succeeded then NoHandler("late") else Succeeds
  }

  lemma LateResultChanges(s: Sys, id: Id, p: Caller, now: int)
    requires Inv(s) && id in s.rows && p in Executors(s.procs, id)
    ensures var s' := Step(s, FinishJob(p, LateOutcome(s.rows[id].status), now, Done));
            id in s'.rows && s'.rows[id].status != s.rows[id].status
  {
    hide JobInv;
  }

  /** A terminal row is final, manual retries aside, exactly when no worker still executes the job. */
  lemma FinalUnlessExecuting(s: Sys, id: Id)
    requires Inv(s) && id in s.rows && s.rows[id].status.IsTerminal()
    ensures Final(s, id) <==> Executors(s.procs, id) == {}
    ensures Executors(s.procs, id) != {} ==>
              exists a :: !Retries(a, id) && id in Step(s, a).rows && Step(s, a).rows[id].status != s.rows[id].status
  {
    hide Executors, Step, Inv;
    if Executors(s.procs, id) == {} {
      forall actions | NoRetry(actions, id)
        ensures id in Run(s, actions).rows && Run(s, actions).rows[id] == s.rows[id]
      {
        SettledRun(s, actions, id);
      }
    } else {
      var p :| p in Executors(s.procs, id);
      var late := FinishJob(p, LateOutcome(s.rows[id].status), 0, Done);
      LateResultChanges(s, id, p, 0);
      RunOne(s, late);
      assert NoRetry([late], id);
    }
  }

  /** A claimed job is cancelled, and then its worker succeeds. */
  const LATE_RESULT := DEATH_BEFORE_CLAIM[..4] + [CancelJob(SECOND, JOB, 2, Done), FinishJob(FIRST, Succeeds, 3, Done)]

  lemma CancelledThenSucceeded()
    ensures var cancelled, late := Run(INITIAL, LATE_RESULT[..5]), Run(INITIAL, LATE_RESULT);
            && JOB in cancelled.rows && cancelled.rows[JOB].status == Cancelled
            && JOB in late.rows && late.rows[JOB].status == Succeeded
  {
    hide Run;
    UntilStarted();
    assert LATE_RESULT[..4] == DEATH_BEFORE_CLAIM[..4];
    RunSnoc(INITIAL, LATE_RESULT, 4);
    RunSnoc(INITIAL, LATE_RESULT, 5);
    assert LATE_RESULT[..6] == LATE_RESULT;
  }
}
