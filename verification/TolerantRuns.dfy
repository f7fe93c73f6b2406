/**
 Runs in which holders of an id may die and their calls may fail, as long as the queue backs each job they
 let go.  No QUEUED job is lost in such a run.
 */
module TolerantRuns {
  import opened Calls
  import opened JobLifecycle
  import opened JobStore
  import opened NoLostJobs
  import opened Options
  import opened PriorityQueue
  import opened Redelivery

  /** The step leaves nobody to carry the job on: its holder dies or fails, or a commit or take goes unseen. */
  predicate Drops(s: Sys, a: Action, id: Id)
    requires s.queue.Valid()
  {
    match a
    case CreateJob(_, x, _, _, fate) => x == id && fate == DoneUnseen
    case EnqueueNext(p, _, fate) => fate == NotDone && p in s.procs && Holds(s.procs[p], id)
    case TakeFromQueue(_, _, _, fate) => fate == DoneUnseen && ClaimedId(s.queue, DEFAULT_WEIGHTS) == Some(id)
    case StartJob(p, _, fate) => fate == NotDone && p in s.procs && Holds(s.procs[p], id)
    case RequeueRetries(_, batch, _, _, _, fate) => fate == DoneUnseen && id in batch
    case RecoverWorker(_, _, listing, fate) => fate == DoneUnseen && id in listing
    case RetryJob(_, x, _, fate) => x == id && fate == DoneUnseen
    case Die(p) => p in s.procs && Holds(s.procs[p], id)
    case _ => false
  }

  /** Whatever QUEUED job the step drops, the queue holds it and no acknowledgement of it is outstanding. */
  ghost predicate Tolerable(s: Sys, a: Action)
    requires s.queue.Valid()
  {
    forall id :: Drops(s, a, id) && QueuedIn(Step(s, a), id) ==> Backed(s, id)
  }

  ghost predicate TolerableRun(s: Sys, actions: seq<Action>) {
    actions != [] ==>
      var init := actions[..|actions| - 1];
      TolerableRun(s, init) && Run(s, init).queue.Valid() && Tolerable(Run(s, init), actions[|actions| - 1])
  }

  /** A reliable step drops nothing, so reliable runs are tolerable. */
  lemma ReliableDropsNothing(s: Sys, a: Action, id: Id)
    requires s.queue.Valid() && Reliable(s, a)
    ensures !Drops(s, a, id)
  {
    hide ClaimedId;
  }

  /** In line, in somebody's hands, or kept by the queue for redelivery. */
  ghost predicate Accounted(s: Sys, id: Id) {
    s.queue.Valid() && (s.queue.Waiting(id) || Held(s, id) || Backed(s, id))
  }

  ghost predicate AllAccounted(s: Sys) {
    NIL !in s.rows && forall id :: QueuedIn(s, id) ==> Accounted(s, id)
  }

  lemma BecomesQueued(s: Sys, a: Action, id: Id)
    requires Enabled(s, a) && s.audit.Keys == s.rows.Keys
    requires !QueuedIn(s, id) && QueuedIn(Apply(s, a), id) && (Drops(s, a, id) ==> Backed(s, id))
    ensures Accounted(Apply(s, a), id)
  {
    hide Queue.Waiting, Queue.Present, PriorityQueue.Claimed, PriorityQueue.Requeued, PriorityQueue.Enqueued, ClaimedId,
      RetriedRow, RecoveredAudit, CancelledRow;
    var s' := Apply(s, a);
    if Drops(s, a, id) {
      assert s'.queue == s.queue && s'.procs == s.procs;
    } else {
      QueuedByCommit(s, a, id);
      StillHeld(s, s', a.p, id);
    }
  }

  /** Only these four steps make a row QUEUED, and their caller goes on to enqueue it. */
  lemma QueuedByCommit(s: Sys, a: Action, id: Id)
    requires Enabled(s, a) && s.audit.Keys == s.rows.Keys
    requires !QueuedIn(s, id) && QueuedIn(Apply(s, a), id) && !Drops(s, a, id)
    ensures a.CreateJob? || a.RequeueRetries? || a.RecoverWorker? || a.RetryJob?
    ensures a.p in Apply(s, a).procs && Holds(Apply(s, a).procs[a.p], id)
  {
    hide Queue.Waiting, Queue.Present, PriorityQueue.Claimed, PriorityQueue.Requeued, PriorityQueue.Enqueued, ClaimedId,
      RecoveredAudit;
  }

  lemma WaitingStep(s: Sys, a: Action, id: Id)
    requires Enabled(s, a) && s.queue.Waiting(id) && !Drops(s, a, id)
    ensures Accounted(Apply(s, a), id)
  {
    hide Queue.Waiting, Queue.Present, PriorityQueue.Claimed, PriorityQueue.Requeued, PriorityQueue.Enqueued, ClaimedId,
      Backed, Created, StartedJob, Finished, Recovered, RetriesQueued, CancelledJob, RetriedJob;
    var s' := Apply(s, a);
    match a
    case EnqueueNext(p, now, _) =>
      var ids := s.procs[p].ids;
      EnqueueGrows(s.queue, ids[0], if ids[0] in s.rows then s.rows[ids[0]].priority else DEFAULT_PRIORITY, now);
    case TakeFromQueue(p, _, deadline, fate) =>
      ClaimTakesOne(s.queue, DEFAULT_WEIGHTS, deadline);
      if fate == Done && ClaimedId(s.queue, DEFAULT_WEIGHTS) == Some(id) {
        StillHeld(s, s', p, id);
      }
    case AckJob(p, _) => AckKeepsTiers(s.queue, s.procs[p].id, id);
    case ReturnStale(now) => RequeueGrows(s.queue, now, DEFAULT_PRIORITY);
    case _ => SameQueue(s, a);
  }

  lemma AckKeepsTiers(q: Queue, x: Id, id: Id)
    requires q.Valid() && q.Waiting(id)
    ensures Acked(q, x).Valid() && Acked(q, x).Waiting(id)
  {
  }

  lemma SameQueue(s: Sys, a: Action)
    requires Enabled(s, a) && !(a.EnqueueNext? || a.TakeFromQueue? || a.AckJob? || a.ReturnStale?)
    ensures Apply(s, a).queue == s.queue
  {
  }

  /** The step of a holder itself: an enqueue that works, or a claim in the store. */
  lemma HolderStep(s: Sys, a: Action, p: Caller, id: Id)
    requires Enabled(s, a) && s.audit.Keys == s.rows.Keys && p in s.procs && Holds(s.procs[p], id) && id != NIL
    requires (a.EnqueueNext? || a.StartJob?) && a.p == p && !Drops(s, a, id)
    requires QueuedIn(s, id) && QueuedIn(Apply(s, a), id)
    ensures Accounted(Apply(s, a), id)
  {
    hide Queue.Waiting, PriorityQueue.Enqueued;
    var s' := Apply(s, a);
    if a.EnqueueNext? {
      var ids := s.procs[p].ids;
      EnqueueGrows(s.queue, ids[0], if ids[0] in s.rows then s.rows[ids[0]].priority else DEFAULT_PRIORITY, a.now);
      if id != ids[0] {
        assert id in ids[1..];
        StillHeld(s, s', p, id);
      }
    }
  }

  /** Every other step leaves a holder as it is, its death excepted. */
  lemma HolderUndisturbed(s: Sys, a: Action, p: Caller, id: Id)
    requires Enabled(s, a) && p in s.procs && Holds(s.procs[p], id) && !Drops(s, a, id)
    requires !((a.EnqueueNext? || a.StartJob?) && a.p == p)
    ensures p in Apply(s, a).procs && Apply(s, a).procs[p] == s.procs[p]
  {
    hide PriorityQueue.Claimed, PriorityQueue.Requeued, PriorityQueue.Enqueued, ClaimedId;
  }

  lemma HeldStep(s: Sys, a: Action, id: Id)
    requires Enabled(s, a) && s.audit.Keys == s.rows.Keys && Held(s, id) && id != NIL && !Drops(s, a, id)
    requires QueuedIn(s, id) && QueuedIn(Apply(s, a), id)
    ensures Accounted(Apply(s, a), id)
  {
    hide Apply, Enabled, Drops, QueuedIn, Holds;
    var p :| p in s.procs && Holds(s.procs[p], id);
    if (a.EnqueueNext? || a.StartJob?) && a.p == p {
      HolderStep(s, a, p, id);
    } else {
      HolderUndisturbed(s, a, p, id);
      StillHeld(s, Apply(s, a), p, id);
      ApplyValid(s, a);
    }
  }

  lemma ApplyValid(s: Sys, a: Action)
    requires Enabled(s, a)
    ensures Apply(s, a).queue.Valid()
  {
    hide PriorityQueue.Claimed, PriorityQueue.Requeued, PriorityQueue.Enqueued, ClaimedId;
  }

  lemma AccountedStep(s: Sys, a: Action, id: Id)
    requires Inv(s) && NIL !in s.rows && (QueuedIn(s, id) ==> Accounted(s, id))
    requires QueuedIn(Step(s, a), id) && (Drops(s, a, id) ==> Backed(s, id))
    ensures Accounted(Step(s, a), id)
  {
    hide Apply, Drops, Backed, Queue.Waiting, Held, JobInv, Executors;
    if Enabled(s, a) {
      if !QueuedIn(s, id) {
        BecomesQueued(s, a, id);
      } else if Backed(s, id) {
        BackedStep(s, a, id);
        ApplyValid(s, a);
      } else if s.queue.Waiting(id) {
        WaitingStep(s, a, id);
      } else {
        HeldStep(s, a, id);
      }
    }
  }

  lemma NoNilStep(s: Sys, a: Action)
    requires NIL !in s.rows
    ensures NIL !in Step(s, a).rows
  {
    hide PriorityQueue.Claimed, PriorityQueue.Requeued, PriorityQueue.Enqueued, ClaimedId;
  }

  lemma {:induction false} QueuedJobsAccounted(actions: seq<Action>)
    requires TolerableRun(INITIAL, actions)
    ensures AllAccounted(Run(INITIAL, actions))
  {
    hide Step, Accounted, Drops, Backed;
    if actions != [] {
      var init, a := actions[..|actions| - 1], actions[|actions| - 1];
      QueuedJobsAccounted(init);
      RunInv(init);
      var s := Run(INITIAL, init);
      NoNilStep(s, a);
      forall id | QueuedIn(Step(s, a), id) ensures Accounted(Step(s, a), id) {
        AccountedStep(s, a, id);
      }
    }
  }

  lemma AccountedIsNotLost(s: Sys, id: Id)
    requires QueuedIn(s, id) && Accounted(s, id)
    ensures !Lost(s, id)
  {
  }

  /** In a tolerable run no QUEUED job is ever lost. */
  lemma NothingLost(actions: seq<Action>, id: Id)
    requires TolerableRun(INITIAL, actions)
    ensures !Lost(Run(INITIAL, actions), id)
  {
    hide Run, TolerableRun, Accounted;
    QueuedJobsAccounted(actions);
    if QueuedIn(Run(INITIAL, actions), id) {
      AccountedIsNotLost(Run(INITIAL, actions), id);
    }
  }
}
