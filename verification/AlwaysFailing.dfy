/** A job whose every execution fails is dead-lettered after exactly its maximum number of executions. */
module AlwaysFailing {
  import opened Collections
  import opened Calls
  import opened PriorityQueue
  import opened Statuses
  import opened JobStore
  import opened JobLifecycle

  predicate On(procs: map<Caller, Proc>, p: Caller, id: Id) {
    p in procs && (procs[p].Claiming? || procs[p].Executing?) && procs[p].id == id
  }

  /** The step does not recover, cancel or retry the job, and every execution of it ends with a recorded failure. */
  predicate OnlyFails(s: Sys, a: Action, id: Id) {
    match a
    case StartJob(p, _, fate) => On(s.procs, p, id) ==> fate != DoneUnseen
    case FinishJob(p, outcome, _, fate) => On(s.procs, p, id) ==> outcome.Fails? && fate != NotDone
    case RecoverWorker(_, _, listing, _) => id !in listing
    case CancelJob(_, x, _, _) => x != id
    case RetryJob(_, x, _, _) => x != id
    case Die(p) => On(s.procs, p, id) ==> s.procs[p].Claiming?
    case _ => true
  }

  ghost predicate OnlyFailingRun(s: Sys, actions: seq<Action>, id: Id) {
    forall k :: 0 <= k < |actions| ==> OnlyFails(Run(s, actions[..k]), actions[k], id)
  }

  /** With `e` workers executing the job: every claim is being executed or has failed. */
  predicate Failing(r: JobRow, a: Audit, e: nat) {
    && a.recoveries == 0 && a.everRecovered == 0
    && a.claims == a.failures + e
    && e == (if r.status == Running then 1 else 0)
    && (r.status == Queued || r.status == Retrying || r.status == Running ||
        (r.status == DeadLetter && r.attempt >= r.maxAttempts))
  }

  ghost predicate FailingIn(s: Sys, id: Id) {
    id in s.rows && id in s.audit ==> Failing(s.rows[id], s.audit[id], |Executors(s.procs, id)|)
  }

  lemma SameJob(s: Sys, s': Sys, id: Id)
    requires FailingIn(s, id) && Inv(s)
    requires id in s'.rows && id in s'.audit ==>
        id in s.rows && s'.rows[id] == s.rows[id] && s'.audit[id] == s.audit[id]
    requires forall p :: (p in s'.procs && s'.procs[p].Executing? && s'.procs[p].id == id) <==>
                         (p in s.procs && s.procs[p].Executing? && s.procs[p].id == id)
    ensures FailingIn(s', id)
  {
    hide Failing, JobInv;
    assert Executors(s'.procs, id) == Executors(s.procs, id);
  }

  lemma ClaimFails(s: Sys, p: Caller, worker: WorkerId, now: int, id: Id)
    requires FailingIn(s, id) && Inv(s) && p in s.procs && s.procs[p] == Claiming(id, worker) && id in s.rows &&
        Claimable(s.rows[id])
    ensures FailingIn(StartedJob(s, p, id, worker, now, Done), id)
  {
    hide JobInv, Executors;
    ExecutorsAdd(s.procs, p, Executing(id, worker), id);
  }

  lemma StartFails(s: Sys, p: Caller, x: Id, worker: WorkerId, now: int, fate: Fate, id: Id)
    requires FailingIn(s, id) && Inv(s) && p in s.procs && s.procs[p] == Claiming(x, worker) &&
        (x == id ==> fate != DoneUnseen)
    ensures FailingIn(StartedJob(s, p, x, worker, now, fate), id)
  {
    hide JobInv, Failing, RunningRow;
    if x == id && fate == Done && id in s.rows && Claimable(s.rows[id]) {
      ClaimFails(s, p, worker, now, id);
    } else {
      SameJob(s, StartedJob(s, p, x, worker, now, fate), id);
    }
  }

  lemma FinishFails(s: Sys, p: Caller, x: Id, worker: WorkerId, outcome: Outcome, now: int, fate: Fate, id: Id)
    requires FailingIn(s, id) && Inv(s) && p in s.procs && s.procs[p] == Executing(x, worker)
    requires x == id ==> outcome.Fails? && fate != NotDone
    ensures FailingIn(Finished(s, p, x, outcome, now, fate), id)
  {
    var s' := Finished(s, p, x, outcome, now, fate);
    if x == id {
      ExecutorsAck(s.procs, p, id, id);
    } else {
      SameJob(s, s', id);
    }
  }

  lemma CreateFails(s: Sys, p: Caller, x: Id, req: JobRequest, now: int, fate: Fate, id: Id)
    requires FailingIn(s, id) && Inv(s) && x !in s.rows && p !in s.procs
    ensures FailingIn(Created(s, p, x, req, now, fate), id)
  {
    hide JobInv;
    var s' := Created(s, p, x, req, now, fate);
    if x == id && fate != NotDone {
      assert Executors(s'.procs, id) == {};
    } else {
      SameJob(s, s', id);
    }
  }

  lemma RequeueFails(s: Sys, p: Caller, batch: seq<Id>, now: int, limit: int, locked: set<Id>, fate: Fate, id: Id)
    requires FailingIn(s, id) && Inv(s) && p !in s.procs && RetryBatch(s.rows, Elements(batch), now, limit, locked)
    ensures FailingIn(RetriesQueued(s, p, batch, fate), id)
  {
    hide JobInv;
    var s' := RetriesQueued(s, p, batch, fate);
    if fate != NotDone && id in Elements(batch) {
      assert Executors(s'.procs, id) == Executors(s.procs, id);
    } else {
      SameJob(s, s', id);
    }
  }

  /** Queue steps and deaths leave the job's row, its audit and its executors alone. */
  lemma QueueStepFails(s: Sys, a: Action, id: Id)
    requires FailingIn(s, id) && Inv(s) && Enabled(s, a) && OnlyFails(s, a, id)
    requires a.EnqueueNext? || a.TakeFromQueue? || a.AckJob? || a.ReturnStale? || a.Die?
    ensures FailingIn(Apply(s, a), id)
  {
    hide JobInv, FailingIn, Executors, PriorityQueue.Claimed, PriorityQueue.Requeued, PriorityQueue.Enqueued, ClaimedId;
    SameJob(s, Apply(s, a), id);
  }

  /** So do recoveries, cancellations and retries of other jobs. */
  lemma OthersStepFails(s: Sys, a: Action, id: Id)
    requires FailingIn(s, id) && Inv(s) && Enabled(s, a) && OnlyFails(s, a, id)
    requires a.RecoverWorker? || a.CancelJob? || a.RetryJob?
    ensures FailingIn(Apply(s, a), id)
  {
    hide JobInv, FailingIn, Executors, Orphans, CancelledRow, RetriedRow, RecoveredRow, Cancellable, Retryable,
         RecoveredAudit;
    SameJob(s, Apply(s, a), id);
  }

  lemma StepFails(s: Sys, a: Action, id: Id)
    requires FailingIn(s, id) && Inv(s) && OnlyFails(s, a, id)
    ensures FailingIn(Step(s, a), id)
  {
    hide FailingIn, Inv, RetryBatch, Created, EnqueuedNext, Taken, StartedJob, Finished, Recovered, RetriesQueued,
         CancelledJob, RetriedJob;
    if Enabled(s, a) {
      match a
      case CreateJob(p, x, req, now, fate) => CreateFails(s, p, x, req, now, fate, id);
      case StartJob(p, now, fate) => StartFails(s, p, s.procs[p].id, s.procs[p].worker, now, fate, id);
      case FinishJob(p, outcome, now, fate) =>
        FinishFails(s, p, s.procs[p].id, s.procs[p].worker, outcome, now, fate, id);
      case RequeueRetries(p, batch, now, limit, locked, fate) =>
        RequeueFails(s, p, batch, now, limit, locked, fate, id);
      case RecoverWorker(_, _, _, _) => OthersStepFails(s, a, id);
      case CancelJob(_, _, _, _) => OthersStepFails(s, a, id);
      case RetryJob(_, _, _, _) => OthersStepFails(s, a, id);
      case _ => QueueStepFails(s, a, id);
    }
  }

  lemma {:induction false} RunFails(actions: seq<Action>, id: Id)
    requires OnlyFailingRun(INITIAL, actions, id)
    ensures FailingIn(Run(INITIAL, actions), id)
  {
    hide Step, OnlyFails, Failing;
    if actions != [] {
      var n := |actions| - 1;
      var before := actions[..n];
      assert forall k :: 0 <= k < n ==> before[..k] == actions[..k];
      RunFails(before, id);
      RunInv(before);
      StepFails(Run(INITIAL, before), actions[n], id);
    }
  }

  ghost predicate ReachableFailing(s: Sys, id: Id) {
    exists actions :: s == Run(INITIAL, actions) && OnlyFailingRun(INITIAL, actions, id)
  }

  /**
   Whatever else happens to other jobs, and despite stale requeues, repeated deliveries and workers lost before
   `ClaimJob`: dead-lettered after `max_attempts` failed executions, not before, and never executed again.
   */
  lemma DeadLetterAfterMaxAttempts(s: Sys, id: Id)
    requires ReachableFailing(s, id) && id in s.rows
    ensures id in s.audit
    ensures s.rows[id].status == DeadLetter <==> s.audit[id].failures == s.rows[id].maxAttempts
    ensures s.audit[id].failures <= s.audit[id].claims <= s.rows[id].maxAttempts
    ensures s.audit[id].claims == s.audit[id].failures + |Executors(s.procs, id)| && |Executors(s.procs, id)| <= 1
  {
    hide Run, OnlyFailingRun;
    var actions :| s == Run(INITIAL, actions) && OnlyFailingRun(INITIAL, actions, id);
    RunFails(actions, id);
    RunInv(actions);
  }
}
