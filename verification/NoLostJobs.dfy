/** No QUEUED job is lost while no call fails between the two stores and nobody dies holding an id. */
module NoLostJobs {
  import opened Collections
  import opened Calls
  import opened Options
  import opened PriorityQueue
  import opened Statuses
  import opened JobStore
  import opened JobLifecycle

  /** A component about to put the id in the queue, or a worker about to claim the row. */
  predicate Holds(c: Proc, id: Id) {
    (c.Enqueuing? && id in c.ids) || (c.Claiming? && c.id == id)
  }

  ghost predicate Held(s: Sys, id: Id) {
    exists p :: p in s.procs && Holds(s.procs[p], id)
  }

  /** Every QUEUED job waits in a tier or is held. */
  ghost predicate NoneLost(s: Sys) {
    && s.queue.Valid()
    && NIL !in s.rows
    && forall id :: id in s.rows && s.rows[id].status == Queued ==> s.queue.Waiting(id) || Held(s, id)
  }

  /**
   What a run must avoid: a store change or queue claim whose caller never learns of it, a failed enqueue or
   `ClaimJob`, and the death of whoever holds an id.  A death after `ClaimJob` is allowed, and so are lost
   acknowledgements, lost outcomes and any number of stale requeues, cancellations and retries.
   */
  predicate Reliable(s: Sys, a: Action) {
    match a
    case CreateJob(_, _, _, _, fate) => fate != DoneUnseen
    case EnqueueNext(_, _, fate) => fate != NotDone
    case TakeFromQueue(_, _, _, fate) => fate != DoneUnseen
    case StartJob(_, _, fate) => fate != NotDone
    case RequeueRetries(_, _, _, _, _, fate) => fate != DoneUnseen
    case RecoverWorker(_, _, _, fate) => fate != DoneUnseen
    case RetryJob(_, _, _, fate) => fate != DoneUnseen
    case Die(p) => p in s.procs ==> !s.procs[p].Enqueuing? && !s.procs[p].Claiming?
    case _ => true
  }

  ghost predicate ReliableRun(s: Sys, actions: seq<Action>) {
    forall k :: 0 <= k < |actions| ==> Reliable(Run(s, actions[..k]), actions[k])
  }

  // ---- One step --------------------------------------------------------------------------

  /** Rows not made QUEUED by the step keep a holder that goes on holding, or a place in the tiers. */
  lemma KeepsHolders(s: Sys, s': Sys)
    requires NoneLost(s) && s'.queue.Valid() && NIL !in s'.rows
    requires forall id :: id in s'.rows && s'.rows[id].status == Queued ==>
               || s'.queue.Waiting(id) || Held(s', id)
               || (id in s.rows && s.rows[id].status == Queued && (s.queue.Waiting(id) ==> s'.queue.Waiting(id)))
    requires forall p, id :: p in s.procs && Holds(s.procs[p], id) && id in s'.rows && s'.rows[id].status == Queued ==>
               s'.queue.Waiting(id) || Held(s', id)
    ensures NoneLost(s')
  {
    hide Holds, Queue.Waiting, Queue.Valid;
  }

  lemma StillHeld(s: Sys, s': Sys, p: Caller, id: Id)
    requires p in s'.procs && Holds(s'.procs[p], id)
    ensures Held(s', id)
  {
  }

  /** Adding a process to an idle slot keeps every other holder. */
  lemma ThenKeeps(s: Sys, p: Caller, next: Proc, fate: Fate)
    requires NoneLost(s) && (p in s.procs ==> !s.procs[p].Enqueuing? && !s.procs[p].Claiming?)
    ensures NoneLost(Then(s, p, next, fate))
  {
    hide Queue.Waiting, Queue.Valid;
    var s' := Then(s, p, next, fate);
    forall q, id | q in s.procs && Holds(s.procs[q], id) ensures Held(s', id) {
      StillHeld(s, s', q, id);
    }
    KeepsHolders(s, s');
  }

  /** A commit that makes some rows QUEUED, whose caller goes on to enqueue all of them. */
  lemma CommitKeeps(s: Sys, s': Sys, p: Caller, ids: seq<Id>)
    requires NoneLost(s) && p !in s.procs && s'.procs == s.procs[p := Enqueuing(ids)] && s'.queue == s.queue &&
        NIL !in s'.rows
    requires forall id :: id in s'.rows && id !in ids && s'.rows[id].status == Queued ==>
        id in s.rows && s.rows[id].status == Queued
    ensures NoneLost(s')
  {
    hide Queue.Waiting, Queue.Valid;
    forall q, id | q in s.procs && Holds(s.procs[q], id) ensures Held(s', id) {
      StillHeld(s, s', q, id);
    }
    forall id | id in ids ensures Held(s', id) {
      StillHeld(s, s', p, id);
    }
    KeepsHolders(s, s');
  }

  /** A change of the rows alone that makes nothing QUEUED. */
  lemma NothingQueued(s: Sys, s': Sys)
    requires NoneLost(s) && s'.procs == s.procs && s'.queue == s.queue && NIL !in s'.rows
    requires forall id :: id in s'.rows && s'.rows[id].status == Queued ==> id in s.rows && s.rows[id].status == Queued
    ensures NoneLost(s')
  {
    hide Queue.Waiting, Queue.Valid;
    forall q, id | q in s.procs && Holds(s.procs[q], id) ensures Held(s', id) {
      StillHeld(s, s', q, id);
    }
    KeepsHolders(s, s');
  }

  /** A change of the queue alone that takes nothing out of the tiers. */
  lemma TiersGrow(s: Sys, queue: Queue)
    requires NoneLost(s) && queue.Valid() && forall id :: s.queue.Waiting(id) ==> queue.Waiting(id)
    ensures NoneLost(s.(queue := queue))
  {
    hide Queue.Waiting, Queue.Valid;
    var s' := s.(queue := queue);
    forall q, id | q in s.procs && Holds(s.procs[q], id) ensures Held(s', id) {
      StillHeld(s, s', q, id);
    }
    KeepsHolders(s, s');
  }

  lemma EnqueueGrows(q: Queue, id: Id, priority: int, now: int)
    requires q.Valid()
    ensures forall x :: q.Waiting(x) || x == id ==> PriorityQueue.Enqueued(q, id, priority, now).Waiting(x)
  {
  }

  lemma RequeueGrows(q: Queue, now: int, priority: int)
    requires q.Valid()
    ensures forall x :: q.Waiting(x) ==> PriorityQueue.Requeued(q, now, priority).Waiting(x)
  {
    hide Stale;
  }

  lemma ClaimTakesOne(q: Queue, w: Weights, deadline: int)
    requires q.Valid() && w.Positive()
    ensures forall x :: q.Waiting(x) && ClaimedId(q, w) != Some(x) ==> PriorityQueue.Claimed(q, w, deadline).Waiting(x)
  {
    hide IsFirst, SearchOrder, Slot, FirstBusy;
    var tier := ClaimTier(q, w);
    if tier.Some? {
      assert tier.value < 3;
    }
  }

  lemma EnqueueKeeps(s: Sys, p: Caller, ids: seq<Id>, now: int, fate: Fate)
    requires NoneLost(s) && fate != NotDone && p in s.procs && s.procs[p] == Enqueuing(ids) && ids != []
    ensures NoneLost(EnqueuedNext(s, p, ids, now, fate))
  {
    hide Queue.Waiting, PriorityQueue.Enqueued;
    var s' := EnqueuedNext(s, p, ids, now, fate);
    var priority := if ids[0] in s.rows then s.rows[ids[0]].priority else DEFAULT_PRIORITY;
    EnqueueGrows(s.queue, ids[0], priority, now);
    forall q, id | q in s.procs && Holds(s.procs[q], id) && id in s.rows ensures s'.queue.Waiting(id) || Held(s', id) {
      if q != p {
        StillHeld(s, s', q, id);
      } else if id != ids[0] {
        assert id in ids[1..];
        StillHeld(s, s', p, id);
      }
    }
    KeepsHolders(s, s');
  }

  lemma TakeKeeps(s: Sys, p: Caller, worker: WorkerId, deadline: int, fate: Fate)
    requires NoneLost(s) && fate != DoneUnseen && p !in s.procs
    ensures NoneLost(Taken(s, p, worker, deadline, fate))
  {
    hide Queue.Waiting, PriorityQueue.Claimed, ClaimedId;
    if fate == Done {
      var s' := Taken(s, p, worker, deadline, fate);
      var id := ClaimedId(s.queue, DEFAULT_WEIGHTS);
      ClaimTakesOne(s.queue, DEFAULT_WEIGHTS, deadline);
      forall q, x | q in s.procs && Holds(s.procs[q], x) ensures Held(s', x) {
        StillHeld(s, s', q, x);
      }
      if id.Some? {
        StillHeld(s, s', p, id.value);
      }
      KeepsHolders(s, s');
    }
  }

  /** The claimer lets go of the id only once its row is no longer QUEUED. */
  lemma StartKeeps(s: Sys, p: Caller, id: Id, worker: WorkerId, now: int, fate: Fate)
    requires NoneLost(s) && s.audit.Keys == s.rows.Keys && fate != NotDone && p in s.procs &&
        s.procs[p] == Claiming(id, worker)
    ensures NoneLost(StartedJob(s, p, id, worker, now, fate))
  {
    hide Queue.Waiting;
    var s' := StartedJob(s, p, id, worker, now, fate);
    assert id in s'.rows ==> s'.rows[id].status != Queued;
    forall q, x | q in s.procs && Holds(s.procs[q], x) && x in s'.rows && s'.rows[x].status == Queued
      ensures Held(s', x)
    {
      assert q != p;
      StillHeld(s, s', q, x);
    }
    KeepsHolders(s, s');
  }

  lemma FinishKeeps(s: Sys, p: Caller, id: Id, worker: WorkerId, outcome: Outcome, now: int, fate: Fate)
    requires NoneLost(s) && p in s.procs && s.procs[p] == Executing(id, worker)
    ensures NoneLost(Finished(s, p, id, outcome, now, fate))
  {
    hide Queue.Waiting, Queue.Valid;
    var s' := Finished(s, p, id, outcome, now, fate);
    NothingQueued(s, s'.(procs := s.procs));
    ThenKeeps(s'.(procs := s.procs), p, Acking(id), Done);
  }

  lemma CreateKeeps(s: Sys, p: Caller, id: Id, req: JobRequest, now: int, fate: Fate)
    requires NoneLost(s) && id != NIL && fate != DoneUnseen && p !in s.procs
    ensures NoneLost(Created(s, p, id, req, now, fate))
  {
    hide NoneLost;
    if fate == Done {
      CommitKeeps(s, Created(s, p, id, req, now, fate), p, [id]) by {
        NoNil(s);
      }
    }
  }

  lemma NoNil(s: Sys)
    requires NoneLost(s)
    ensures NIL !in s.rows
  {
  }

  lemma RecoverKeeps(s: Sys, p: Caller, worker: WorkerId, listing: seq<Id>, fate: Fate)
    requires NoneLost(s) && fate != DoneUnseen && p !in s.procs
    ensures NoneLost(Recovered(s, p, listing, fate))
  {
    hide NoneLost, RecoveredRow;
    NoNil(s);
    if fate == Done {
      var s' := Recovered(s, p, listing, fate);
      if listing == [] {
        NothingQueued(s, s');
      } else {
        CommitKeeps(s, s', p, listing);
      }
    }
  }

  lemma RequeueKeeps(s: Sys, p: Caller, batch: seq<Id>, fate: Fate)
    requires NoneLost(s) && fate != DoneUnseen && p !in s.procs
    ensures NoneLost(RetriesQueued(s, p, batch, fate))
  {
    hide NoneLost, RequeuedRow;
    NoNil(s);
    if fate == Done {
      var s' := RetriesQueued(s, p, batch, fate);
      if batch == [] {
        NothingQueued(s, s');
      } else {
        CommitKeeps(s, s', p, batch);
      }
    }
  }

  lemma CancelKeeps(s: Sys, p: Caller, id: Id, now: int, fate: Fate)
    requires NoneLost(s) && p !in s.procs
    ensures NoneLost(CancelledJob(s, p, id, now, fate))
  {
    hide NoneLost;
    NoNil(s);
    if fate != NotDone && id in s.rows && Cancellable(s.rows[id]) {
      var s' := s.(rows := s.rows[id := CancelledRow(s.rows[id], now)]);
      NothingQueued(s, s');
      ThenKeeps(s', p, Acking(id), fate);
    }
  }

  lemma RetryKeeps(s: Sys, p: Caller, id: Id, now: int, fate: Fate)
    requires NoneLost(s) && fate != DoneUnseen && p !in s.procs
    ensures NoneLost(RetriedJob(s, p, id, now, fate))
  {
    hide NoneLost;
    NoNil(s);
    if fate == Done && id in s.rows && id in s.audit && Retryable(s.rows[id]) {
      CommitKeeps(s, RetriedJob(s, p, id, now, fate), p, [id]);
    }
  }

  /** An acknowledgement touches only the in-progress set, so even a stale second one loses nothing. */
  lemma AckKeeps(s: Sys, p: Caller, id: Id, fate: Fate)
    requires NoneLost(s) && p in s.procs && s.procs[p] == Acking(id)
    ensures NoneLost(Ended(if fate == NotDone then s else s.(queue := Acked(s.queue, id)), p))
  {
    var s' := if fate == NotDone then s else s.(queue := Acked(s.queue, id));
    TiersGrow(s, s'.queue);
    ThenKeeps(s', p, Acking(id), NotDone);
  }

  lemma StepKeeps(s: Sys, a: Action)
    requires NoneLost(s) && Inv(s) && Reliable(s, a)
    ensures NoneLost(Step(s, a))
  {
    hide NoneLost, RetryBatch, Created, EnqueuedNext, Taken, StartedJob, Finished, Recovered, RetriesQueued,
         CancelledJob, RetriedJob, Elements, Orphans, JobInv, Executors;
    if Enabled(s, a) {
      match a
      case CreateJob(p, id, req, now, fate) => CreateKeeps(s, p, id, req, now, fate);
      case EnqueueNext(p, now, fate) => EnqueueKeeps(s, p, s.procs[p].ids, now, fate);
      case TakeFromQueue(p, worker, deadline, fate) => TakeKeeps(s, p, worker, deadline, fate);
      case StartJob(p, now, fate) => StartKeeps(s, p, s.procs[p].id, s.procs[p].worker, now, fate);
      case FinishJob(p, outcome, now, fate) => FinishKeeps(s, p, s.procs[p].id, s.procs[p].worker, outcome, now, fate);
      case AckJob(p, fate) => AckKeeps(s, p, s.procs[p].id, fate);
      case ReturnStale(now) =>
        RequeueGrows(s.queue, now, DEFAULT_PRIORITY);
        TiersGrow(s, PriorityQueue.Requeued(s.queue, now, DEFAULT_PRIORITY));
      case RequeueRetries(p, batch, _, _, _, fate) => RequeueKeeps(s, p, batch, fate);
      case RecoverWorker(p, worker, listing, fate) => RecoverKeeps(s, p, worker, listing, fate);
      case CancelJob(p, id, now, fate) => CancelKeeps(s, p, id, now, fate);
      case RetryJob(p, id, now, fate) => RetryKeeps(s, p, id, now, fate);
      case Die(p) => ThenKeeps(s, p, s.procs[p], NotDone);
    }
  }

  // ---- Whole runs ------------------------------------------------------------------------

  lemma {:induction false} NoQueuedJobLost(actions: seq<Action>)
    requires ReliableRun(INITIAL, actions)
    ensures NoneLost(Run(INITIAL, actions))
  {
    hide Step, Reliable, NoneLost;
    if actions == [] {
      NothingYet();
    } else {
      var n := |actions| - 1;
      var before := actions[..n];
      assert forall k :: 0 <= k < n ==> before[..k] == actions[..k];
      NoQueuedJobLost(before);
      RunInv(before);
      StepKeeps(Run(INITIAL, before), actions[n]);
    }
  }

  lemma NothingYet()
    ensures NoneLost(INITIAL)
  {
  }

  // ---- Why the death of a claimer is excluded ---------------------------------------------

  /** A QUEUED job that no set holds and no component mentions. */
  ghost predicate Lost(s: Sys, id: Id) {
    && s.queue.Valid()
    && id in s.rows && s.rows[id].status == Queued
    && !s.queue.Present(id)
    && forall p :: p in s.procs ==> !Mentions(s.procs[p], id)
  }

  predicate Mentions(c: Proc, id: Id) {
    if c.Enqueuing? then id in c.ids else c.id == id
  }

  predicate Cancels(a: Action, id: Id) {
    a.CancelJob? && a.id == id
  }

  lemma QueueKeepsAway(q: Queue, id: Id, now: int, deadline: int)
    requires q.Valid() && !q.Present(id)
    ensures !PriorityQueue.Requeued(q, now, DEFAULT_PRIORITY).Present(id)
    ensures !PriorityQueue.Claimed(q, DEFAULT_WEIGHTS, deadline).Present(id) &&
        ClaimedId(q, DEFAULT_WEIGHTS) != Some(id)
    ensures forall x, priority :: x != id ==> !PriorityQueue.Enqueued(q, x, priority, now).Present(id)
    ensures forall x :: !Acked(q, x).Present(id)
  {
    hide Before, SearchOrder, Slot, FirstBusy;
    var tier := ClaimTier(q, DEFAULT_WEIGHTS);
    if tier.Some? {
      assert q.Waiting(First(q.tiers[tier.value]));
    }
  }

  lemma LostQueueStep(s: Sys, a: Action, id: Id)
    requires Lost(s, id) && Enabled(s, a) && (a.EnqueueNext? || a.TakeFromQueue? || a.AckJob? || a.ReturnStale?)
    ensures Lost(Apply(s, a), id)
  {
    hide Queue.Present, PriorityQueue.Claimed, PriorityQueue.Requeued, PriorityQueue.Enqueued, ClaimedId;
    match a
    case EnqueueNext(p, now, fate) => QueueKeepsAway(s.queue, id, now, 0);
    case TakeFromQueue(p, worker, deadline, fate) => QueueKeepsAway(s.queue, id, 0, deadline);
    case AckJob(p, fate) => QueueKeepsAway(s.queue, id, 0, 0);
    case ReturnStale(now) => QueueKeepsAway(s.queue, id, now, 0);
  }

  lemma LostWorkerStep(s: Sys, a: Action, id: Id)
    requires Lost(s, id) && Enabled(s, a) && (a.StartJob? || a.FinishJob? || a.Die?)
    ensures Lost(Apply(s, a), id)
  {
    hide Queue.Present, Queue.Waiting, OutcomeRow, OutcomeAudit, RunningRow;
  }

  lemma LostCommit(s: Sys, a: Action, id: Id)
    requires Lost(s, id) && Enabled(s, a) && !Cancels(a, id)
    requires a.CreateJob? || a.RequeueRetries? || a.RecoverWorker? || a.CancelJob? || a.RetryJob?
    ensures Lost(Apply(s, a), id)
  {
    hide Queue.Present, Queue.Waiting, CancelledRow, RetriedRow, NewRow, RecoveredRow, RequeuedRow, RecoveredAudit;
    if a.RecoverWorker? {
      assert id !in Orphans(s.rows, a.worker) && id !in Elements(a.listing);
    } else if a.RequeueRetries? {
      assert id !in Elements(a.batch);
    }
  }

  /** No component ever finds such a job again: it stays QUEUED and absent unless a client cancels it. */
  lemma {:induction false} LostForEver(s: Sys, actions: seq<Action>, id: Id)
    requires Lost(s, id) && forall k :: 0 <= k < |actions| ==> !Cancels(actions[k], id)
    ensures Lost(Run(s, actions), id)
  {
    hide Lost, Apply, Enabled;
    if actions != [] {
      var n := |actions| - 1;
      LostForEver(s, actions[..n], id);
      var before := Run(s, actions[..n]);
      var a := actions[n];
      if Enabled(before, a) {
        if a.EnqueueNext? || a.TakeFromQueue? || a.AckJob? || a.ReturnStale? {
          LostQueueStep(before, a, id);
        } else if a.StartJob? || a.FinishJob? || a.Die? {
          LostWorkerStep(before, a, id);
        } else {
          LostCommit(before, a, id);
        }
      }
    }
  }

  const JOB := Uuid(1)
  const FIRST := Caller(1)
  const SECOND := Caller(2)
  const WORKER := WorkerId("w")
  const REQUEST := JobRequest("t", None, None, None)

  /** One failing attempt, a retry, a second worker that dies before `ClaimJob`, and the first one's late Ack. */
  const DEATH_BEFORE_CLAIM := [
    CreateJob(FIRST, JOB, REQUEST, 0, Done),
    EnqueueNext(FIRST, 0, Done),
    TakeFromQueue(FIRST, WORKER, 30000, Done),
    StartJob(FIRST, 1, Done),
    FinishJob(FIRST, Fails("e", 2), 2, Done),
    RequeueRetries(SECOND, [JOB], 2, 100, {}, Done),
    EnqueueNext(SECOND, 2, Done),
    TakeFromQueue(SECOND, WORKER, 30002, Done),
    Die(SECOND),
    AckJob(FIRST, Done)]

  lemma ClaimOnly(q: Queue, id: Id, score: int, deadline: int)
    requires q.Valid() && q.tiers == [map[], map[id := score], map[]]
    ensures ClaimedId(q, DEFAULT_WEIGHTS) == Some(id)
    ensures PriorityQueue.Claimed(q, DEFAULT_WEIGHTS, deadline) ==
        Queue([map[], map[], map[]], q.inProgress[id := deadline], q.counter + 1)
  {
    hide SearchOrder, Slot, FirstBusy;
    assert id in q.tiers[1];
    assert q.tiers[1] - {id} == map[];
  }

  const FAILED_ROW := FailedAttempt(RunningRow(NewRow(REQUEST, 0), WORKER, 1), "e", 2, 2)

  /** The first worker has recorded the failure and not yet acknowledged. */
  const RECORDED := Sys(map[JOB := FAILED_ROW], Queue([map[], map[], map[]], map[JOB := 30000], 1),
                        map[FIRST := Acking(JOB)], map[JOB := Audit(1, 0, 0, 1)])

  /** The first worker executes the job. */
  const STARTED := Sys(map[JOB := RunningRow(NewRow(REQUEST, 0), WORKER, 1)],
                       Queue([map[], map[], map[]], map[JOB := 30000], 1),
                       map[FIRST := Executing(JOB, WORKER)], map[JOB := Audit(1, 0, 0, 0)])

  const ENQUEUED := Sys(map[JOB := NewRow(REQUEST, 0)], Queue([map[], map[JOB := 0], map[]], map[], 0), map[],
                        map[JOB := Audit(0, 0, 0, 0)])

  lemma UntilEnqueued()
    ensures Run(INITIAL, DEATH_BEFORE_CLAIM[..2]) == ENQUEUED
    ensures forall k :: 0 <= k < 2 ==> Reliable(Run(INITIAL, DEATH_BEFORE_CLAIM[..k]), DEATH_BEFORE_CLAIM[k])
  {
    RunSnoc(INITIAL, DEATH_BEFORE_CLAIM, 0);
    RunSnoc(INITIAL, DEATH_BEFORE_CLAIM, 1);
  }

  lemma UntilStarted()
    ensures Run(INITIAL, DEATH_BEFORE_CLAIM[..4]) == STARTED
    ensures forall k :: 0 <= k < 4 ==> Reliable(Run(INITIAL, DEATH_BEFORE_CLAIM[..k]), DEATH_BEFORE_CLAIM[k])
  {
    hide Run, PriorityQueue.Claimed, ClaimedId;
    UntilEnqueued();
    ClaimOnly(ENQUEUED.queue, JOB, 0, 30000);
    RunSnoc(INITIAL, DEATH_BEFORE_CLAIM, 2);
    RunSnoc(INITIAL, DEATH_BEFORE_CLAIM, 3);
  }

  lemma UntilRecorded()
    ensures Run(INITIAL, DEATH_BEFORE_CLAIM[..5]) == RECORDED
    ensures forall k :: 0 <= k < 5 ==> Reliable(Run(INITIAL, DEATH_BEFORE_CLAIM[..k]), DEATH_BEFORE_CLAIM[k])
  {
    hide Run;
    UntilStarted();
    RunSnoc(INITIAL, DEATH_BEFORE_CLAIM, 4);
  }

  /** The scheduler has put the retry back in its tier. */
  const WAITING := Sys(map[JOB := RequeuedRow(FAILED_ROW)], Queue([map[], map[JOB := 2], map[]], map[JOB := 30000], 1),
                       map[FIRST := Acking(JOB)], map[JOB := Audit(1, 0, 0, 1)])

  lemma UntilWaiting()
    ensures Run(INITIAL, DEATH_BEFORE_CLAIM[..7]) == WAITING
    ensures forall k :: 5 <= k < 7 ==> Reliable(Run(INITIAL, DEATH_BEFORE_CLAIM[..k]), DEATH_BEFORE_CLAIM[k])
  {
    hide Run, Step;
    UntilRecorded();
    RunSnoc(INITIAL, DEATH_BEFORE_CLAIM, 5);
    RunSnoc(INITIAL, DEATH_BEFORE_CLAIM, 6);
    RetryStep();
    RetryReliable();
  }

  lemma RetryReliable()
    ensures forall s: Sys, k :: 5 <= k < 7 ==> Reliable(s, DEATH_BEFORE_CLAIM[k])
  {
  }

  lemma RetryCommitted()
    ensures Step(RECORDED, DEATH_BEFORE_CLAIM[5]) ==
              RECORDED.(rows := WAITING.rows, procs := map[FIRST := Acking(JOB), SECOND := Enqueuing([JOB])])
  {
    assert Elements([JOB]) == {JOB};
  }

  lemma RetryStep()
    ensures Step(Step(RECORDED, DEATH_BEFORE_CLAIM[5]), DEATH_BEFORE_CLAIM[6]) == WAITING
  {
    hide RetriesQueued;
    RetryCommitted();
  }

  const TAKEN_AGAIN := Sys(WAITING.rows, Queue([map[], map[], map[]], map[JOB := 30002], 2),
                           map[FIRST := Acking(JOB), SECOND := Claiming(JOB, WORKER)], WAITING.audit)

  lemma TakesAgain()
    ensures Step(WAITING, DEATH_BEFORE_CLAIM[7]) == TAKEN_AGAIN
  {
    hide FailedAttempt, RequeuedRow, PriorityQueue.Claimed, ClaimedId;
    ClaimOnly(WAITING.queue, JOB, 2, 30002);
  }

  /** A second worker takes the job, dies, and the first one acknowledges. */
  lemma AfterDeath()
    ensures Step(Step(Step(WAITING, DEATH_BEFORE_CLAIM[7]), DEATH_BEFORE_CLAIM[8]), DEATH_BEFORE_CLAIM[9]) ==
              Sys(WAITING.rows, Queue([map[], map[], map[]], map[], 2), map[], WAITING.audit)
    ensures !Reliable(Step(WAITING, DEATH_BEFORE_CLAIM[7]), DEATH_BEFORE_CLAIM[8])
  {
    hide FailedAttempt, RequeuedRow, Taken;
    TakesAgain();
  }

  /**
   The only unreliable step is the death of a worker between its Redis claim and `ClaimJob`; the other worker's
   acknowledgement then removes the last trace of the QUEUED job.
   */
  lemma DeathBeforeClaimLosesJob()
    ensures forall k :: 0 <= k < |DEATH_BEFORE_CLAIM| ==>
              (Reliable(Run(INITIAL, DEATH_BEFORE_CLAIM[..k]), DEATH_BEFORE_CLAIM[k]) <==> k != 8)
    ensures Lost(Run(INITIAL, DEATH_BEFORE_CLAIM), JOB)
  {
    hide Run, Step, FailedAttempt;
    UntilRecorded();
    UntilWaiting();
    RunSnoc(INITIAL, DEATH_BEFORE_CLAIM, 7);
    RunSnoc(INITIAL, DEATH_BEFORE_CLAIM, 8);
    RunSnoc(INITIAL, DEATH_BEFORE_CLAIM, 9);
    AfterDeath();
    assert DEATH_BEFORE_CLAIM[..10] == DEATH_BEFORE_CLAIM;
  }
}
