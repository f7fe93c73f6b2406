/**
 The components that move jobs between the two stores, each as the sequence of calls it makes.  Run alone,
 a component does exactly what its steps do in the interleaved model.
 */
module Components {
  import opened Collections
  import opened Calls
  import opened Options
  import opened PriorityQueue
  import opened Statuses
  import opened JobStore
  import opened JobLifecycle
  import Backoff

  const DEFAULT_BATCH_SIZE := 100
  const DEFAULT_DEAD_TIMEOUT_MS := 30000

  /** The interleaved state whose rows and queue are these. */
  ghost predicate Matches(s: Sys, jobs: Store, q: RedisQueue)
    reads jobs, q
  {
    s.rows == jobs.rows && s.queue == q.Model() && s.queue.Valid() && s.audit.Keys == s.rows.Keys
  }

  function EnqueueScript(p: Caller, ids: seq<Id>, clock: nat -> int, failing: set<Id>): (script: seq<Action>)
    ensures |script| == |ids|
  {
    seq(|ids|, k requires 0 <= k < |ids| => EnqueueNext(p, clock(k), if ids[k] in failing then NotDone else Done))
  }

  function Rest(procs: map<Caller, Proc>, p: Caller, ids: seq<Id>): map<Caller, Proc> {
    if ids == [] then procs - {p} else procs[p := Enqueuing(ids)]
  }

  lemma EnqueueOne(s: Sys, s0: Sys, p: Caller, ids: seq<Id>, now: int, fate: Fate)
    requires s.queue.Valid() && p !in s0.procs && s.procs == Rest(s0.procs, p, ids) && ids != []
    ensures Step(s, EnqueueNext(p, now, fate)) == EnqueuedNext(s, p, ids, now, fate)
    ensures EnqueuedNext(s, p, ids, now, fate).procs == Rest(s0.procs, p, ids[1..])
  {
    assert (s0.procs[p := Enqueuing(ids)])[p := Enqueuing(ids[1..])] == s0.procs[p := Enqueuing(ids[1..])];
  }

  /** The positions among the first `n` whose enqueue works; the queue refuses the nil id. */
  function Accepted(ids: seq<Id>, failing: set<Id>, n: nat): set<nat>
    requires n <= |ids|
  {
    set k: nat | k < n && ids[k] !in failing && ids[k] != NIL
  }

  lemma AcceptedNext(ids: seq<Id>, failing: set<Id>, k: nat)
    requires k < |ids|
    ensures |Accepted(ids, failing, k + 1)| ==
              |Accepted(ids, failing, k)| + if ids[k] !in failing && ids[k] != NIL then 1 else 0
  {
    if ids[k] !in failing && ids[k] != NIL {
      assert Accepted(ids, failing, k + 1) == Accepted(ids, failing, k) + {k};
    } else {
      assert Accepted(ids, failing, k + 1) == Accepted(ids, failing, k);
    }
  }

  /** The loop that puts committed jobs into the queue; a failed call is logged and skipped. */
  method EnqueueAll(jobs: Store, q: RedisQueue, ids: seq<Id>, clock: nat -> int, failing: set<Id>, ghost s: Sys,
                    ghost p: Caller)
    returns (enqueued: nat)
    requires Matches(s, jobs, q) && p !in s.procs && Elements(ids) <= jobs.rows.Keys
    modifies q
    ensures Run(s.(procs := Rest(s.procs, p, ids)), EnqueueScript(p, ids, clock, failing)) ==
        s.(queue := q.Model(), procs := s.procs - {p})
    ensures q.Model().Valid()
    ensures forall x :: old(q.Model()).Waiting(x) ==> q.Model().Waiting(x)
    ensures forall k :: 0 <= k < |ids| && ids[k] !in failing && ids[k] != NIL ==>
        ids[k] in q.tiers[TierOf(jobs.rows[ids[k]].priority)]
    ensures forall id :: id in Elements(ids) && id !in failing && id != NIL ==> q.Model().Waiting(id)
    ensures enqueued == |Accepted(ids, failing, |ids|)|
  {
    hide EnqueuedNext, Rest, PriorityQueue.Enqueued, Run, Step;
    ghost var start := s.(procs := Rest(s.procs, p, ids));
    ghost var script := EnqueueScript(p, ids, clock, failing);
    enqueued := 0;
    EmptyRun(start, script);
    assert ids[0..] == ids;
    for k := 0 to |ids|
      invariant q.Model().Valid() && jobs.rows == s.rows
      invariant Run(start, script[..k]) == s.(queue := q.Model(), procs := Rest(s.procs, p, ids[k..]))
      invariant forall x :: old(q.Model()).Waiting(x) ==> q.Model().Waiting(x)
      invariant forall j :: 0 <= j < k && ids[j] !in failing && ids[j] != NIL ==>
          ids[j] in q.tiers[TierOf(jobs.rows[ids[j]].priority)]
      invariant enqueued == |Accepted(ids, failing, k)|
    {
      ghost var before := Run(start, script[..k]);
      var id := ids[k];
      AcceptedNext(ids, failing, k);
      assert id in Elements(ids);
      RunSnoc(start, script, k);
      EnqueueOne(before, s, p, ids[k..], clock(k), if id in failing then NotDone else Done);
      assert ids[k..][1..] == ids[k + 1..];
      assert ids[k..][0] == id;
      EnqueuedQueue(before, p, ids[k..], clock(k), if id in failing then NotDone else Done);
      if id !in failing {
        EnqueuePlaces(q.Model(), id, jobs.rows[id].priority, clock(k));
        var ok := q.Enqueue(id, jobs.rows[id].priority, clock(k));
        if ok {
          enqueued := enqueued + 1;
        }
      }
    }
    assert script[..|ids|] == script;
    RestEmpty(s.procs, p, ids);
  }

  lemma EmptyRun(s: Sys, script: seq<Action>)
    ensures Run(s, script[..0]) == s
  {
  }

  lemma RestEmpty(procs: map<Caller, Proc>, p: Caller, ids: seq<Id>)
    ensures Rest(procs, p, ids[|ids|..]) == procs - {p}
  {
  }

  lemma EnqueuedQueue(s: Sys, p: Caller, ids: seq<Id>, now: int, fate: Fate)
    requires s.queue.Valid() && ids != [] && ids[0] in s.rows
    ensures EnqueuedNext(s, p, ids, now, fate) ==
              s.(queue := if fate == NotDone || ids[0] == NIL then s.queue
                 else PriorityQueue.Enqueued(s.queue, ids[0], s.rows[ids[0]].priority, now),
                 procs := EnqueuedNext(s, p, ids, now, fate).procs)
  {
  }

  lemma EnqueuePlaces(q: Queue, id: Id, priority: int, now: int)
    requires q.Valid()
    ensures var q' := PriorityQueue.Enqueued(q, id, priority, now);
            && q'.Valid() && id in q'.tiers[TierOf(priority)]
            && (forall x :: q.Waiting(x) ==> q'.Waiting(x))
            && (forall i, x :: 0 <= i < 3 && x in q.tiers[i] ==> x in q'.tiers[i])
  {
  }

  /** A committed batch followed by the loop that enqueues it. */
  lemma CommitThenEnqueue(s: Sys, a: Action, p: Caller, ids: seq<Id>, script: seq<Action>, committed: Sys, queue: Queue)
    requires p !in s.procs && committed.procs == s.procs
    requires Step(s, a) == committed.(procs := Rest(s.procs, p, ids))
    requires Run(committed.(procs := Rest(s.procs, p, ids)), script) ==
        committed.(queue := queue, procs := s.procs - {p})
    ensures Run(s, [a] + script) == committed.(queue := queue)
  {
    hide Step, Rest;
    RunConcat(s, [a], script);
    RunOne(s, a);
    assert s.procs - {p} == s.procs;
  }

  class RetryScheduler {
    const jobs: Store
    const q: RedisQueue
    const batchSize: int

    constructor (jobs: Store, q: RedisQueue, batchSize: int)
      ensures this.jobs == jobs && this.q == q && this.batchSize == if batchSize <= 0 then DEFAULT_BATCH_SIZE
          else batchSize
    {
      this.jobs, this.q := jobs, q;
      this.batchSize := if batchSize <= 0 then DEFAULT_BATCH_SIZE else batchSize;
    }

    /** `None` when the store refuses the call; `failing` are the ids whose enqueue fails. */
    method PollAndRequeue(storeUp: bool, now: int, clock: nat -> int, locked: set<Id>, batch: set<Id>, failing: set<Id>,
                          ghost s: Sys, ghost p: Caller)
      returns (enqueued: Option<nat>, ghost requeued: seq<Id>)
      requires Matches(s, jobs, q) && p !in s.procs && RetryBatch(jobs.rows, batch, now, batchSize, locked)
      modifies jobs, q
      ensures q.Model().Valid()
      ensures enqueued == None <==> !storeUp
      ensures !storeUp ==> jobs.rows == old(jobs.rows) && q.Model() == old(q.Model())
      ensures storeUp ==>
                && Elements(requeued) == batch
                && jobs.rows == Changed(old(jobs.rows), batch, RequeuedRow)
                && Run(s, [RequeueRetries(p, requeued, now, batchSize, locked, Done)]
                          + EnqueueScript(p, requeued, clock, failing)) ==
                     s.(rows := jobs.rows, queue := q.Model())
                && (forall id :: id in batch && id !in failing && id != NIL ==>
                    id in q.Model().tiers[TierOf(jobs.rows[id].priority)])
                && enqueued.value == |Accepted(requeued, failing, |requeued|)| && |requeued| == |batch|
    {
      hide Run, Step, RetryBatch, EnqueueScript;
      requeued := [];
      BatchKnown(jobs.rows, batch, now, batchSize, locked);
      if !storeUp {
        return None, requeued;
      }
      var listing := jobs.RequeueDueRetries(now, batchSize, locked, batch);
      requeued := listing;
      ghost var committed := s.(rows := jobs.rows);
      RequeueStep(s, p, listing, now, batchSize, locked);
      if |listing| == 0 {
        assert [RequeueRetries(p, requeued, now, batchSize, locked, Done)]
                 + EnqueueScript(p, listing, clock, failing) ==
               [RequeueRetries(p, requeued, now, batchSize, locked, Done)];
        RunOne(s, RequeueRetries(p, requeued, now, batchSize, locked, Done));
        return Some(0), requeued;
      }
      var n := EnqueueAll(jobs, q, listing, clock, failing, committed, p);
      CommitThenEnqueue(s, RequeueRetries(p, requeued, now, batchSize, locked, Done), p, listing,
                        EnqueueScript(p, listing, clock, failing), committed, q.Model());
      enqueued := Some(n);
    }
  }

  lemma BatchKnown(rows: Rows, batch: set<Id>, now: int, limit: int, locked: set<Id>)
    requires RetryBatch(rows, batch, now, limit, locked)
    ensures batch <= rows.Keys
  {
  }

  lemma RequeueStep(s: Sys, p: Caller, batch: seq<Id>, now: int, limit: int, locked: set<Id>)
    requires s.queue.Valid() && p !in s.procs && RetryBatch(s.rows, Elements(batch), now, limit, locked)
    ensures Step(s, RequeueRetries(p, batch, now, limit, locked, Done)) ==
              s.(rows := Changed(s.rows, Elements(batch), RequeuedRow), procs := Rest(s.procs, p, batch))
  {
    hide RetryBatch;
    if batch == [] {
      assert s.procs - {p} == s.procs;
    }
  }

  datatype WorkerStatus = Active | Draining | Offline

  datatype WorkerRow = WorkerRow(status: WorkerStatus, lastHeartbeat: int)

  /** ACTIVE workers whose last heartbeat is older than the cutoff. */
  function DeadWorkers(workers: map<WorkerId, WorkerRow>, cutoff: int): set<WorkerId> {
    set w | w in workers && workers[w].status == Active && workers[w].lastHeartbeat < cutoff
  }

  /** The RUNNING jobs of some workers. */
  function OrphansOf(rows: Rows, owners: set<WorkerId>): set<Id> {
    set id | id in rows && rows[id].status == Running && rows[id].worker.Some? && rows[id].worker.value in owners
  }

  function Marked(workers: map<WorkerId, WorkerRow>, marked: set<WorkerId>): map<WorkerId, WorkerRow> {
    map w | w in workers :: if w in marked then workers[w].(status := Offline) else workers[w]
  }

  lemma OneMoreOwner(rows: Rows, owners: set<WorkerId>, w: WorkerId)
    ensures var before := Changed(rows, OrphansOf(rows, owners), RecoveredRow);
            && Changed(before, Orphans(before, w), RecoveredRow) ==
                Changed(rows, OrphansOf(rows, owners + {w}), RecoveredRow)
            && OrphansOf(rows, owners + {w}) == OrphansOf(rows, owners) + Orphans(before, w)
  {
  }

  lemma RecoverStep(s: Sys, p: Caller, w: WorkerId, listing: seq<Id>) returns (committed: Sys)
    requires s.queue.Valid() && s.audit.Keys == s.rows.Keys && p !in s.procs && Elements(listing) == Orphans(s.rows, w)
    ensures Step(s, RecoverWorker(p, w, listing, Done)) == committed.(procs := Rest(s.procs, p, listing))
    ensures committed == s.(rows := Changed(s.rows, Elements(listing), RecoveredRow), audit := committed.audit)
    ensures committed.audit.Keys == s.audit.Keys && Elements(listing) <= s.rows.Keys
  {
    hide RecoveredAudit, RecoveredRow;
    committed := Step(s, RecoverWorker(p, w, listing, Done)).(procs := s.procs);
    if listing == [] {
      assert s.procs - {p} == s.procs;
    }
  }

  class WorkerSupervisor {
    const jobs: Store
    const q: RedisQueue
    const deadTimeout: int
    var workers: map<WorkerId, WorkerRow>

    constructor (jobs: Store, q: RedisQueue, deadTimeout: int)
      ensures this.jobs == jobs && this.q == q && workers == map[]
      ensures this.deadTimeout == if deadTimeout <= 0 then DEFAULT_DEAD_TIMEOUT_MS else deadTimeout
    {
      this.jobs, this.q, workers := jobs, q, map[];
      this.deadTimeout := if deadTimeout <= 0 then DEFAULT_DEAD_TIMEOUT_MS else deadTimeout;
    }

    /**
     `dead` is the listing of the dead workers; marking fails for `unmarked`, recovering for `unrecovered`, and
     enqueuing for `failing`.  A failed recovery is not tried again: the worker is already OFFLINE.
     */
    method ReapDeadWorkers(now: int, dead: seq<WorkerId>, unmarked: set<WorkerId>, unrecovered: set<WorkerId>,
                           clocks: nat -> nat -> int, failing: set<Id>, ghost s: Sys, ghost p: Caller)
      returns (ghost actions: seq<Action>)
      requires Matches(s, jobs, q) && p !in s.procs && Elements(dead) == DeadWorkers(workers, now - deadTimeout)
      modifies this, jobs, q
      ensures q.Model().Valid()
      ensures workers == Marked(old(workers), DeadWorkers(old(workers), now - deadTimeout) - unmarked)
      ensures var orphans := OrphansOf(old(jobs.rows), DeadWorkers(old(workers), now - deadTimeout) - unrecovered);
              && jobs.rows == Changed(old(jobs.rows), orphans, RecoveredRow)
              && forall id :: id in orphans && id !in failing && id != NIL ==> q.Model().Waiting(id)
      ensures workers.Keys == old(workers).Keys
      ensures forall w :: w in workers ==>
                workers[w] == if old(workers)[w].status == Active && old(workers)[w].lastHeartbeat < now - deadTimeout
                                 && w !in unmarked then old(workers)[w].(status := Offline)
                              else old(workers)[w]
      ensures jobs.rows.Keys == old(jobs.rows).Keys
      ensures forall id :: id in jobs.rows ==>
                var r := old(jobs.rows)[id];
                jobs.rows[id] == if r.status == Running && r.worker.Some? && r.worker.value in old(workers)
                                    && old(workers)[r.worker.value].status == Active
                                    && old(workers)[r.worker.value].lastHeartbeat < now - deadTimeout
                                    && r.worker.value !in unrecovered then r.(status := Queued, worker := None)
                                 else r
      ensures var s' := Run(s, actions); s'.rows == jobs.rows && s'.queue == q.Model() && s'.procs == s.procs
    {
      hide Run, Step, EnqueueScript, Changed, OrphansOf, Marked, DeadWorkers, Orphans;
      actions := [];
      ghost var current := s;
      ghost var owners: set<WorkerId> := {};
      ghost var marked: set<WorkerId> := {};
      ReapNothing(s, workers, jobs.rows);
      ReapMeans(workers, jobs.rows, now - deadTimeout, unmarked, unrecovered);
      for k := 0 to |dead|
        invariant owners == Elements(dead[..k]) - unrecovered && marked == Elements(dead[..k]) - unmarked
        invariant workers == Marked(old(workers), marked)
        invariant jobs.rows == Changed(old(jobs.rows), OrphansOf(old(jobs.rows), owners), RecoveredRow)
        invariant current == Run(s, actions) && Matches(current, jobs, q) && current.procs == s.procs
        invariant forall id :: id in OrphansOf(old(jobs.rows), owners) && id !in failing && id != NIL ==>
            q.Model().Waiting(id)
      {
        var w := dead[k];
        assert dead[..k + 1] == dead[..k] + [w];
        assert Elements(dead[..k + 1]) == Elements(dead[..k]) + {w};
        if w !in unmarked {
          MarkOneMore(old(workers), marked, w);
          workers := Marked(workers, {w});
          marked := marked + {w};
        }
        if w !in unrecovered {
          OneMoreOwner(old(jobs.rows), owners, w);
          var recovered := jobs.RecoverDeadWorkerJobs(w);
          ghost var committed := RecoverStep(current, p, w, recovered);
          var _ := EnqueueAll(jobs, q, recovered, clocks(k), failing, committed, p);
          ghost var script := EnqueueScript(p, recovered, clocks(k), failing);
          CommitThenEnqueue(current, RecoverWorker(p, w, recovered, Done), p, recovered, script, committed, q.Model());
          RunConcat(s, actions, [RecoverWorker(p, w, recovered, Done)] + script);
          actions := actions + ([RecoverWorker(p, w, recovered, Done)] + script);
          current := committed.(queue := q.Model());
          owners := owners + {w};
        }
      }
      assert dead[..|dead|] == dead;
    }
  }

  /** What reaping amounts to, worker by worker and job by job. */
  lemma ReapMeans(workers: map<WorkerId, WorkerRow>, rows: Rows, cutoff: int, unmarked: set<WorkerId>,
                  unrecovered: set<WorkerId>)
    ensures var marked := Marked(workers, DeadWorkers(workers, cutoff) - unmarked);
            && marked.Keys == workers.Keys
            && forall w :: w in workers ==>
                 marked[w] == if workers[w].status == Active && workers[w].lastHeartbeat < cutoff && w !in unmarked
                              then workers[w].(status := Offline) else workers[w]
    ensures var rows' := Changed(rows, OrphansOf(rows, DeadWorkers(workers, cutoff) - unrecovered), RecoveredRow);
            forall id :: id in rows ==>
              var r := rows[id];
              rows'[id] == if r.status == Running && r.worker.Some? && r.worker.value in workers
                              && workers[r.worker.value].status == Active
                              && workers[r.worker.value].lastHeartbeat < cutoff
                              && r.worker.value !in unrecovered then r.(status := Queued, worker := None)
                           else r
  {
  }

  lemma ReapNothing(s: Sys, workers: map<WorkerId, WorkerRow>, rows: Rows)
    ensures Run(s, []) == s && Marked(workers, {}) == workers
    ensures OrphansOf(rows, {}) == {} && Changed(rows, {}, RecoveredRow) == rows
  {
  }

  lemma MarkOneMore(workers: map<WorkerId, WorkerRow>, marked: set<WorkerId>, w: WorkerId)
    ensures Marked(Marked(workers, marked), {w}) == Marked(workers, marked + {w})
  {
  }

  /** How a claimed job ends, given what its handler returned. */
  function OutcomeOf(r: JobRow, handlers: set<string>, execErr: Option<string>, draw: real, now: int): Outcome
    requires 0.0 <= draw < 1.0
  {
    if r.kind !in handlers then NoHandler("no handler registered for job type \"" + r.kind + "\"")
    else if execErr.Some? then
      Fails(execErr.value, now + Backoff.CalculateBackoff(r.attempt, Backoff.DEFAULT_BASE_DELAY,
                                                          Backoff.DEFAULT_MAX_DELAY, draw))
    else Succeeds
  }

  predicate Eligible(rows: Rows, id: Id) {
    id in rows && Claimable(rows[id])
  }

  /** One delivery: claim in the store, execute and resolve if it was eligible, acknowledge. */
  function ProcessScript(p: Caller, eligible: bool, claimed: int, outcome: Outcome, finished: int,
                         claimFate: Fate, resolveFate: Fate, ackFate: Fate): seq<Action>
  {
    [StartJob(p, claimed, claimFate)] +
    (if claimFate != Done then []
     else (if eligible then [FinishJob(p, outcome, finished, resolveFate)] else []) + [AckJob(p, ackFate)])
  }

  lemma RunFour(s: Sys, a: Action, b: Action, c: Action)
    ensures Run(s, [a] + []) == Step(s, a)
    ensures Run(s, [a] + ([] + [b])) == Step(Step(s, a), b)
    ensures Run(s, [a] + ([b] + [c])) == Step(Step(Step(s, a), b), c)
  {
    hide Step;
    RunOne(s, a);
    RunOne(Step(s, a), b);
    RunOne(Step(Step(s, a), b), c);
    RunConcat(s, [a], []);
    RunConcat(s, [a], [b]);
    RunConcat(Step(s, a), [b], [c]);
    RunConcat(s, [a], [b] + [c]);
    assert [] + [b] == [b];
    assert [a] + [] == [a];
  }

  class Worker {
    const id: WorkerId
    const jobs: Store
    const q: RedisQueue
    var handlers: set<string>

    constructor (id: WorkerId, jobs: Store, q: RedisQueue)
      ensures this.id == id && this.jobs == jobs && this.q == q && handlers == {}
    {
      this.id, this.jobs, this.q, handlers := id, jobs, q, {};
    }

    method RegisterHandler(kind: string)
      modifies this
      ensures handlers == old(handlers) + {kind}
    {
      handlers := handlers + {kind};
    }

    /** One turn of the worker's loop: `None` when the queue is empty. */
    method ClaimNext(now: int, visibilityTimeout: int, ghost s: Sys, ghost p: Caller) returns (claimed: Option<Id>)
      requires Matches(s, jobs, q) && p !in s.procs
      modifies q
      ensures q.Model().Valid()
      ensures claimed == None <==> forall x :: !old(q.Model()).Waiting(x)
      ensures claimed.Some? ==> old(q.Model()).Waiting(claimed.value) && claimed.value in q.inProgress
      ensures var deadline := now + if visibilityTimeout <= 0 then DEFAULT_VISIBILITY_MS else visibilityTimeout;
              Run(s, [TakeFromQueue(p, id, deadline, Done)]) ==
                s.(queue := q.Model(), procs := if claimed.Some? then s.procs[p := Claiming(claimed.value, id)]
                   else s.procs)
    {
      hide Run, PriorityQueue.Claimed, ClaimedId, ClaimTier;
      ghost var deadline := now + if visibilityTimeout <= 0 then DEFAULT_VISIBILITY_MS else visibilityTimeout;
      RunOne(s, TakeFromQueue(p, id, deadline, Done));
      ClaimWaits(q.Model(), deadline);
      claimed := q.ClaimWithWeights(now, visibilityTimeout, Weights(6, 3, 1));
    }

    /** One tick of the stale recovery loop. */
    method RecoverStale(now: int, ghost s: Sys) returns (count: nat)
      requires Matches(s, jobs, q)
      modifies q
      ensures q.Model().Valid()
      ensures count == |set x | x in old(q.inProgress) && old(q.inProgress)[x] <= now|
      ensures forall x :: x in old(q.inProgress) && old(q.inProgress)[x] <= now ==>
          x in q.tiers[1] && x !in q.inProgress
      ensures Run(s, [ReturnStale(now)]) == s.(queue := q.Model())
    {
      hide Run, PriorityQueue.Requeued;
      RunOne(s, ReturnStale(now));
      count := q.RequeueStale(now, DEFAULT_PRIORITY);
    }

    /**
     `execErr` is what the handler returns.  A job that is not eligible is acknowledged and otherwise left
     alone; an outcome the store refuses is acknowledged all the same.
     */
    method ProcessJob(jobID: Id, execErr: Option<string>, draw: real, claimed: int, finished: int,
                      claimFate: Fate, resolveFate: Fate, ackFate: Fate, ghost s: Sys, ghost p: Caller)
      requires 0.0 <= draw < 1.0
      requires Matches(s, jobs, q) && p in s.procs && s.procs[p] == Claiming(jobID, id)
      modifies jobs, q
      ensures q.Model().Valid()
      ensures claimFate == NotDone || !Eligible(old(jobs.rows), jobID) ==> jobs.rows == old(jobs.rows)
      ensures claimFate == Done && Eligible(old(jobs.rows), jobID) ==>
                var running := RunningRow(old(jobs.rows)[jobID], id, claimed);
                jobs.rows == old(jobs.rows)[jobID := if resolveFate == NotDone then running
                                                     else
                    OutcomeRow(running, OutcomeOf(running, handlers, execErr, draw, finished), finished)]
      ensures claimFate == Done && resolveFate != NotDone && jobID in old(jobs.rows)
              && (old(jobs.rows)[jobID].status == Queued || old(jobs.rows)[jobID].status == Retrying) ==>
                var r, r' := old(jobs.rows)[jobID], jobs.rows[jobID];
                && r'.attempt == r.attempt + 1 && r'.maxAttempts == r.maxAttempts && r'.startedAt == Some(claimed)
                && (r.kind !in handlers ==> r'.status == Failed && r'.error.Some? && r'.completedAt == Some(finished))
                && (r.kind in handlers && execErr == None ==>
                      r'.status == Succeeded && r'.error == None && r'.completedAt == Some(finished))
                && (r.kind in handlers && execErr.Some? && r.attempt + 1 < r.maxAttempts ==>
                      && r'.status == Retrying && r'.error == execErr && r'.worker == None
                      && finished <= r'.runAt < finished + 3_600_000_000_000
                      && r'.runAt < finished + 1_000_000_000 * Backoff.Pow2(r.attempt))
                && (r.kind in handlers && execErr.Some? && r.attempt + 1 >= r.maxAttempts ==>
                      r'.status == DeadLetter && r'.error == execErr && r'.completedAt == Some(finished))
      ensures q.Model() == if claimFate == Done && ackFate != NotDone then Acked(old(q.Model()), jobID)
          else old(q.Model())
      ensures var outcome := if Eligible(old(jobs.rows), jobID)
                             then OutcomeOf(RunningRow(old(jobs.rows)[jobID], id, claimed), handlers, execErr, draw,
                                            finished) else Succeeds;
              var s' := Run(s, ProcessScript(p, Eligible(old(jobs.rows), jobID), claimed, outcome, finished, claimFate,
                                             resolveFate, ackFate));
              s'.rows == jobs.rows && s'.queue == q.Model() && s'.procs == s.procs - {p}
    {
      hide Run, OutcomeOf, OutcomeRow, RunningRow, ProcessScript, Claimable;
      ProcessRun(s, p, jobID, id, claimed,
                 if Eligible(jobs.rows, jobID) then OutcomeOf(RunningRow(jobs.rows[jobID], id, claimed), handlers,
                                                              execErr, draw, finished) else Succeeds,
                 finished, claimFate, resolveFate, ackFate);
      if claimFate == NotDone {
        return;
      }
      var job := jobs.ClaimJob(jobID, id, claimed);
      if claimFate == DoneUnseen {
        return;
      }
      if job.Some? {
        Resolve(jobID, job.value, execErr, draw, finished, resolveFate);
      }
      if ackFate != NotDone {
        q.Ack(jobID);
      }
    }

    /** Runs the handler and writes the outcome; what the store refuses is lost. */
    method Resolve(jobID: Id, job: JobRow, execErr: Option<string>, draw: real, now: int, fate: Fate)
      requires 0.0 <= draw < 1.0 && jobID in jobs.rows && jobs.rows[jobID] == job
      modifies jobs
      ensures jobID in jobs.rows
      ensures fate != NotDone ==>
                var r' := jobs.rows[jobID];
                && r'.attempt == job.attempt && r'.maxAttempts == job.maxAttempts && r'.startedAt == job.startedAt
                && (job.kind !in handlers ==> r'.status == Failed && r'.error.Some? && r'.completedAt == Some(now))
                && (job.kind in handlers && execErr == None ==>
                      r'.status == Succeeded && r'.error == None && r'.completedAt == Some(now))
                && (job.kind in handlers && execErr.Some? && job.attempt < job.maxAttempts ==>
                      && r'.status == Retrying && r'.error == execErr && r'.worker == None && now <= r'.runAt
                      && (job.attempt > 0 ==>
                            && r'.runAt < now + 3_600_000_000_000
                            && r'.runAt < now + 1_000_000_000 * Backoff.Pow2(job.attempt - 1)))
                && (job.kind in handlers && execErr.Some? && job.attempt >= job.maxAttempts ==>
                      r'.status == DeadLetter && r'.error == execErr && r'.completedAt == Some(now))
      ensures jobs.rows == if fate == NotDone then old(jobs.rows)
                           else old(jobs.rows)[jobID := OutcomeRow(job, OutcomeOf(job, handlers, execErr, draw, now),
                                                                   now)]
    {
      hide Backoff.CalculateBackoff, Backoff.Ceiling, Backoff.EffectiveMax, FailedAttempt, SucceededRow, MarkedFailed,
           Backoff.Pow2;
      if job.kind !in handlers {
        if fate != NotDone {
          jobs.MarkFailed(jobID, "no handler registered for job type \"" + job.kind + "\"", now);
        }
        return;
      }
      if execErr.Some? {
        var delay := Backoff.CalculateBackoff(job.attempt, Backoff.DEFAULT_BASE_DELAY, Backoff.DEFAULT_MAX_DELAY, draw);
        Backoff.DelayRange(job.attempt, Backoff.DEFAULT_BASE_DELAY, Backoff.DEFAULT_MAX_DELAY, draw, delay);
        if job.attempt > 0 {
          Backoff.DefaultDelay(job.attempt, draw, delay);
        }
        if fate != NotDone {
          var _ := jobs.RecordFailure(jobID, execErr.value, now + delay, now);
        }
      } else if fate != NotDone {
        jobs.MarkSucceeded(jobID, now);
      }
    }
  }

  lemma ClaimWaits(q: Queue, deadline: int)
    requires q.Valid()
    ensures ClaimedId(q, DEFAULT_WEIGHTS) == None <==> forall x :: !q.Waiting(x)
    ensures ClaimedId(q, DEFAULT_WEIGHTS).Some? ==>
              && q.Waiting(ClaimedId(q, DEFAULT_WEIGHTS).value)
              && ClaimedId(q, DEFAULT_WEIGHTS).value in PriorityQueue.Claimed(q, DEFAULT_WEIGHTS, deadline).inProgress
  {
    hide IsFirst, SearchOrder, Slot, FirstBusy;
    ClaimTakesLeast(q, DEFAULT_WEIGHTS, deadline);
    var tier := ClaimTier(q, DEFAULT_WEIGHTS);
    if tier.Some? {
      assert tier.value < 3;
    }
  }

  lemma ProcessRun(s: Sys, p: Caller, id: Id, worker: WorkerId, claimed: int, outcome: Outcome, finished: int,
                   claimFate: Fate, resolveFate: Fate, ackFate: Fate)
    requires s.queue.Valid() && s.audit.Keys == s.rows.Keys && p in s.procs && s.procs[p] == Claiming(id, worker)
    ensures var s' := Run(s, ProcessScript(p, Eligible(s.rows, id), claimed, outcome, finished, claimFate, resolveFate,
                                           ackFate));
            && s'.procs == s.procs - {p}
            && s'.queue == (if claimFate == Done && ackFate != NotDone then Acked(s.queue, id) else s.queue)
            && (claimFate == NotDone || !Eligible(s.rows, id) ==> s'.rows == s.rows)
            && (claimFate == DoneUnseen && Eligible(s.rows, id) ==>
                s'.rows == s.rows[id := RunningRow(s.rows[id], worker, claimed)])
            && (claimFate == Done && Eligible(s.rows, id) ==>
                  s'.rows == s.rows[id := if resolveFate == NotDone then RunningRow(s.rows[id], worker, claimed)
                                          else OutcomeRow(RunningRow(s.rows[id], worker, claimed), outcome, finished)])
  {
    hide Run, Step, Claimable, RunningRow, OutcomeRow;
    RunFour(s, StartJob(p, claimed, claimFate),
            if Eligible(s.rows, id) then FinishJob(p, outcome, finished, resolveFate)
                else AckJob(p, ackFate), AckJob(p, ackFate));
    ProcessSteps(s, p, id, worker, claimed, outcome, finished, claimFate, resolveFate, ackFate);
  }

  /** The steps of one delivery, one after the other. */
  lemma ProcessSteps(s: Sys, p: Caller, id: Id, worker: WorkerId, claimed: int, outcome: Outcome, finished: int,
                     claimFate: Fate, resolveFate: Fate, ackFate: Fate)
    requires s.queue.Valid() && s.audit.Keys == s.rows.Keys && p in s.procs && s.procs[p] == Claiming(id, worker)
    ensures var one := Step(s, StartJob(p, claimed, claimFate));
            var two := Step(one, if Eligible(s.rows, id) then FinishJob(p, outcome, finished, resolveFate)
                            else AckJob(p, ackFate));
            var three := Step(two, AckJob(p, ackFate));
            var acked := if ackFate == NotDone then s.queue else Acked(s.queue, id);
            && (claimFate != Done ==> one.procs == s.procs - {p} && one.queue == s.queue)
            && (claimFate == NotDone || !Eligible(s.rows, id) ==> one.rows == s.rows)
            && (claimFate != NotDone && Eligible(s.rows, id) ==>
                one.rows == s.rows[id := RunningRow(s.rows[id], worker, claimed)])
            && (claimFate == Done && !Eligible(s.rows, id) ==>
                two.procs == s.procs - {p} && two.queue == acked && two.rows == s.rows)
            && (claimFate == Done && Eligible(s.rows, id) ==>
                  && three.procs == s.procs - {p} && three.queue == acked
                  && three.rows == s.rows[id := if resolveFate == NotDone then RunningRow(s.rows[id], worker, claimed)
                                                else OutcomeRow(RunningRow(s.rows[id], worker, claimed), outcome,
                                                                finished)])
  {
    hide Claimable, RunningRow, OutcomeRow, OutcomeAudit;
  }

  datatype Response = BadRequest | StoreError | Conflict | NewJob(id: Id) | Replay(id: Id) | Updated

  /** What the job endpoint lets through. */
  predicate Acceptable(req: JobRequest) {
    && req.kind != ""
    && (req.priority.Some? ==> 1 <= req.priority.value <= 3)
    && (req.maxAttempts.Some? ==> req.maxAttempts.value >= 1)
    && (req.key.Some? ==> 1 <= |req.key.value.text| <= 128)
  }

  function Try(up: bool): Fate {
    if up then Done else NotDone
  }

  lemma RunTwo(s: Sys, a: Action, b: Action)
    ensures Run(s, [a, b]) == Step(Step(s, a), b)
  {
    hide Step;
    assert [a, b] == [a] + [b];
    RunConcat(s, [a], [b]);
    RunOne(s, a);
    RunOne(Step(s, a), b);
  }

  lemma CreateSteps(s: Sys, p: Caller, id: Id, req: JobRequest, now: int, later: int, queueUp: bool)
    requires s.queue.Valid() && p !in s.procs && id !in s.rows && id != NIL && Acceptable(req)
    ensures var s' := Run(s, [CreateJob(p, id, req, now, Done), EnqueueNext(p, later, Try(queueUp))]);
            && s'.rows == s.rows[id := NewRow(req, now)] && s'.procs == s.procs
            && s'.queue == if queueUp then PriorityQueue.Enqueued(s.queue, id, NewRow(req, now).priority, later)
                else s.queue
  {
    hide Run, PriorityQueue.Enqueued, NewRow;
    RunTwo(s, CreateJob(p, id, req, now, Done), EnqueueNext(p, later, Try(queueUp)));
    assert s.procs[p := Enqueuing([id])] - {p} == s.procs;
  }

  lemma RetryKeepsPriority(r: JobRow, now: int)
    ensures RetriedRow(r, now).priority == r.priority
  {
  }

  lemma RetrySteps(s: Sys, p: Caller, id: Id, now: int, later: int, queueUp: bool)
    requires s.queue.Valid() && p !in s.procs && s.audit.Keys == s.rows.Keys && id in s.rows && Retryable(s.rows[id])
    ensures var s' := Run(s, [RetryJob(p, id, now, Done), EnqueueNext(p, later, Try(queueUp))]);
            && s'.rows == s.rows[id := RetriedRow(s.rows[id], now)] && s'.procs == s.procs
            && s'.queue == if queueUp && id != NIL then PriorityQueue.Enqueued(s.queue, id, s.rows[id].priority, later)
                else s.queue
  {
    hide Run, PriorityQueue.Enqueued, RetriedRow;
    assert RetriedRow(s.rows[id], now).priority == s.rows[id].priority by { RetryKeepsPriority(s.rows[id], now); }
    RunTwo(s, RetryJob(p, id, now, Done), EnqueueNext(p, later, Try(queueUp)));
    assert s.procs[p := Enqueuing([id])] - {p} == s.procs;
  }

  lemma CancelSteps(s: Sys, p: Caller, id: Id, now: int, queueUp: bool)
    requires s.queue.Valid() && p !in s.procs && id in s.rows && Cancellable(s.rows[id])
    ensures var s' := Run(s, [CancelJob(p, id, now, Done), AckJob(p, Try(queueUp))]);
            && s'.rows == s.rows[id := CancelledRow(s.rows[id], now)] && s'.procs == s.procs
            && s'.queue == if queueUp then Acked(s.queue, id) else s.queue
  {
    hide Run, CancelledRow, Acked;
    RunTwo(s, CancelJob(p, id, now, Done), AckJob(p, Try(queueUp)));
    assert s.procs[p := Acking(id)] - {p} == s.procs;
  }

  /** The HTTP handlers: the store first, then the queue, whose failure is only logged. */
  class Handler {
    const jobs: Store
    const q: RedisQueue

    constructor (jobs: Store, q: RedisQueue)
      ensures this.jobs == jobs && this.q == q
    {
      this.jobs, this.q := jobs, q;
    }

    method CreateJob(req: JobRequest, storeUp: bool, queueUp: bool, now: int, later: int, freshId: Id, ghost s: Sys,
                     ghost p: Caller)
      returns (response: Response)
      requires Matches(s, jobs, q) && p !in s.procs && freshId !in jobs.rows && freshId != NIL
      modifies jobs, q
      ensures response == BadRequest <==> !Acceptable(req)
      ensures response == BadRequest <==>
                || req.kind == "" || (req.priority.Some? && req.priority.value !in {1, 2, 3})
                || (req.maxAttempts.Some? && req.maxAttempts.value < 1)
                || (req.key.Some? && (|req.key.value.text| == 0 || |req.key.value.text| > 128))
      ensures response == NewJob(freshId) <==>
          Acceptable(req) && storeUp && (req.key == None || req.key.value !in old(jobs.keys))
      ensures Acceptable(req) && storeUp && req.key.Some? && req.key.value in old(jobs.keys) ==>
          response == Replay(old(jobs.keys)[req.key.value])
      ensures response != NewJob(freshId) ==>
          jobs.rows == old(jobs.rows) && q.Model() == old(q.Model()) && jobs.keys == old(jobs.keys)
      ensures response == NewJob(freshId) ==>
                && jobs.rows == old(jobs.rows)[freshId := NewRow(req, now)]
                && (queueUp ==>
                      var tier := (if req.priority.Some? then req.priority.value else 2) - 1;
                      q.tiers == old(q.tiers)[tier := old(q.tiers)[tier][freshId := later]])
                && (!queueUp ==> q.tiers == old(q.tiers)) && q.inProgress == old(q.inProgress)
                && jobs.keys == (if req.key.Some? then old(jobs.keys)[req.key.value := freshId] else old(jobs.keys))
                && var s' := Run(s, [JobLifecycle.CreateJob(p, freshId, req, now, Done),
                                     EnqueueNext(p, later, Try(queueUp))]);
                   s'.rows == jobs.rows && s'.queue == q.Model() && s'.procs == s.procs
    {
      hide Run, PriorityQueue.Enqueued;
      if req.kind == "" {
        return BadRequest;
      }
      if req.priority.Some? && (req.priority.value < 1 || req.priority.value > 3) {
        return BadRequest;
      }
      if req.maxAttempts.Some? && req.maxAttempts.value < 1 {
        return BadRequest;
      }
      if req.key.Some? && (|req.key.value.text| == 0 || |req.key.value.text| > 128) {
        return BadRequest;
      }
      if !storeUp {
        return StoreError;
      }
      var id, created := jobs.Create(req, now, freshId);
      if !created {
        return Replay(id);
      }
      CreateSteps(s, p, id, req, now, later, queueUp);
      if queueUp {
        var _ := q.Enqueue(id, jobs.rows[id].priority, later);
      }
      response := NewJob(id);
    }

    method CancelJob(id: Id, storeUp: bool, queueUp: bool, now: int, ghost s: Sys, ghost p: Caller)
      returns (response: Response)
      requires Matches(s, jobs, q) && p !in s.procs
      modifies jobs, q
      ensures response == Updated <==> storeUp && id in old(jobs.rows) && Cancellable(old(jobs.rows)[id])
      ensures response != Updated ==>
                jobs.rows == old(jobs.rows) && q.Model() == old(q.Model()) && response == if storeUp then Conflict
                    else StoreError
      ensures response == Updated ==>
                && jobs.rows == old(jobs.rows)[id := CancelledRow(old(jobs.rows)[id], now)]
                && q.Model() == (if queueUp then Acked(old(q.Model()), id) else old(q.Model()))
                && q.tiers == old(q.tiers) && q.inProgress ==
                    (if queueUp then old(q.inProgress) - {id} else old(q.inProgress))
                && var s' := Run(s, [JobLifecycle.CancelJob(p, id, now, Done), AckJob(p, Try(queueUp))]);
                   s'.rows == jobs.rows && s'.queue == q.Model() && s'.procs == s.procs
    {
      hide Run, CancelledRow, Acked;
      if !storeUp {
        return StoreError;
      }
      var ok := jobs.Cancel(id, now);
      if !ok {
        return Conflict;
      }
      CancelSteps(s, p, id, now, queueUp);
      if queueUp {
        q.Ack(id);
      }
      response := Updated;
    }

    method RetryJob(id: Id, storeUp: bool, queueUp: bool, now: int, later: int, ghost s: Sys, ghost p: Caller)
      returns (response: Response)
      requires Matches(s, jobs, q) && p !in s.procs
      modifies jobs, q
      ensures response == Updated <==> storeUp && id in old(jobs.rows) && Retryable(old(jobs.rows)[id])
      ensures response != Updated ==>
                jobs.rows == old(jobs.rows) && q.Model() == old(q.Model()) && response == if storeUp then Conflict
                    else StoreError
      ensures response == Updated ==>
                && jobs.rows == old(jobs.rows)[id := RetriedRow(old(jobs.rows)[id], now)]
                && (queueUp && id != NIL ==>
                      var priority := old(jobs.rows)[id].priority;
                      var tier := if 1 <= priority <= 3 then priority - 1 else 1;
                      q.tiers == old(q.tiers)[tier := old(q.tiers)[tier][id := later]])
                && q.inProgress == old(q.inProgress)
                && var s' := Run(s, [JobLifecycle.RetryJob(p, id, now, Done), EnqueueNext(p, later, Try(queueUp))]);
                   s'.rows == jobs.rows && s'.queue == q.Model() && s'.procs == s.procs
    {
      hide Run, PriorityQueue.Enqueued;
      if !storeUp {
        return StoreError;
      }
      var job := jobs.ManualRetry(id, now);
      if job == None {
        return Conflict;
      }
      RetrySteps(s, p, id, now, later, queueUp);
      if queueUp {
        var _ := q.Enqueue(id, job.value.priority, later);
      }
      response := Updated;
    }
  }
}
