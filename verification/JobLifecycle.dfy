/**
 Jobs across both stores: SQL statements and Redis scripts are atomic, and everything between them may
 interleave.  Any number of workers, schedulers, supervisors and API requests act at once; calls may fail
 and processes may die.
 */
module JobLifecycle {
  import opened Collections
  import opened Calls
  import opened Options
  import opened PriorityQueue
  import opened Statuses
  import opened JobStore

  /** A goroutine or request between two store or queue calls, named by what it does next. */
  datatype Proc =
    | Claiming(id: Id, worker: WorkerId)
    | Executing(id: Id, worker: WorkerId)
    | Acking(id: Id)
    | Enqueuing(ids: seq<Id>)

  datatype Outcome = Succeeds | Fails(err: string, nextRunAt: int) | NoHandler(err: string)

  /** What has happened to one job: claims and recoveries since creation or manual retry, and over all time. */
  datatype Audit = Audit(claims: nat, recoveries: nat, everRecovered: nat, failures: nat)

  datatype Sys = Sys(rows: Rows, queue: Queue, procs: map<Caller, Proc>, audit: map<Id, Audit>)

  datatype Action =
    | CreateJob(p: Caller, id: Id, req: JobRequest, now: int, fate: Fate)
    | EnqueueNext(p: Caller, now: int, fate: Fate)
    | TakeFromQueue(p: Caller, worker: WorkerId, deadline: int, fate: Fate)
    | StartJob(p: Caller, now: int, fate: Fate)
    | FinishJob(p: Caller, outcome: Outcome, now: int, fate: Fate)
    | AckJob(p: Caller, fate: Fate)
    | ReturnStale(now: int)
    | RequeueRetries(p: Caller, batch: seq<Id>, now: int, limit: int, locked: set<Id>, fate: Fate)
    | RecoverWorker(p: Caller, worker: WorkerId, listing: seq<Id>, fate: Fate)
    | CancelJob(p: Caller, id: Id, now: int, fate: Fate)
    | RetryJob(p: Caller, id: Id, now: int, fate: Fate)
    | Die(p: Caller)

  const INITIAL := Sys(map[], EMPTY, map[], map[])

  // ---- Steps -----------------------------------------------------------------------------

  function Ended(s: Sys, p: Caller): Sys {
    s.(procs := s.procs - {p})
  }

  /** The component goes on only if it saw its call succeed. */
  function Then(s: Sys, p: Caller, next: Proc, fate: Fate): Sys {
    if fate == Done then s.(procs := s.procs[p := next]) else Ended(s, p)
  }

  function WithRow(s: Sys, id: Id, row: JobRow, audit: Audit): Sys {
    s.(rows := s.rows[id := row], audit := s.audit[id := audit])
  }

  function Created(s: Sys, p: Caller, id: Id, req: JobRequest, now: int, fate: Fate): Sys {
    if fate == NotDone then s
    else Then(WithRow(s, id, NewRow(req, now), Audit(0, 0, 0, 0)), p, Enqueuing([id]), fate)
  }

  function EnqueuedNext(s: Sys, p: Caller, ids: seq<Id>, now: int, fate: Fate): Sys
    requires s.queue.Valid() && ids != []
  {
    var priority := if ids[0] in s.rows then s.rows[ids[0]].priority else DEFAULT_PRIORITY;
    var queue := if fate == NotDone || ids[0] == NIL then s.queue
        else PriorityQueue.Enqueued(s.queue, ids[0], priority, now);
    s.(queue := queue, procs := if |ids| == 1 then s.procs - {p} else s.procs[p := Enqueuing(ids[1..])])
  }

  function Taken(s: Sys, p: Caller, worker: WorkerId, deadline: int, fate: Fate): Sys
    requires s.queue.Valid()
  {
    if fate == NotDone then s
    else
      var id := ClaimedId(s.queue, DEFAULT_WEIGHTS);
      var s' := s.(queue := PriorityQueue.Claimed(s.queue, DEFAULT_WEIGHTS, deadline));
      if id.Some? then Then(s', p, Claiming(id.value, worker), fate) else s'
  }

  function StartedJob(s: Sys, p: Caller, id: Id, worker: WorkerId, now: int, fate: Fate): Sys {
    if fate == NotDone then Ended(s, p)
    else if id in s.rows && id in s.audit && Claimable(s.rows[id]) then
      var a := s.audit[id];
      Then(WithRow(s, id, RunningRow(s.rows[id], worker, now), a.(claims := a.claims + 1)), p, Executing(id, worker),
           fate)
    else Then(s, p, Acking(id), fate)
  }

  function OutcomeRow(r: JobRow, outcome: Outcome, now: int): JobRow {
    match outcome
    case Succeeds => SucceededRow(r, now)
    case Fails(err, nextRunAt) => FailedAttempt(r, err, nextRunAt, now)
    case NoHandler(err) => MarkedFailed(r, err, now)
  }

  function OutcomeAudit(a: Audit, outcome: Outcome): Audit {
    if outcome.Fails? then a.(failures := a.failures + 1) else a
  }

  /** The worker acknowledges whether or not the store took the outcome. */
  function Finished(s: Sys, p: Caller, id: Id, outcome: Outcome, now: int, fate: Fate): Sys {
    var s' := if fate == NotDone || id !in s.rows || id !in s.audit then s
              else WithRow(s, id, OutcomeRow(s.rows[id], outcome, now), OutcomeAudit(s.audit[id], outcome));
    s'.(procs := s'.procs[p := Acking(id)])
  }

  function RecoveredAudit(a: Audit): Audit {
    a.(recoveries := a.recoveries + 1, everRecovered := a.everRecovered + 1)
  }

  function Recovered(s: Sys, p: Caller, listing: seq<Id>, fate: Fate): Sys {
    if fate == NotDone then s
    else
      var ids := Elements(listing);
      var s' := s.(rows := Changed(s.rows, ids, RecoveredRow),
                   audit := map id | id in s.audit :: if id in ids then RecoveredAudit(s.audit[id]) else s.audit[id]);
      if listing == [] then s' else Then(s', p, Enqueuing(listing), fate)
  }

  function RetriesQueued(s: Sys, p: Caller, batch: seq<Id>, fate: Fate): Sys {
    if fate == NotDone then s
    else
      var s' := s.(rows := Changed(s.rows, Elements(batch), RequeuedRow));
      if batch == [] then s' else Then(s', p, Enqueuing(batch), fate)
  }

  function CancelledJob(s: Sys, p: Caller, id: Id, now: int, fate: Fate): Sys {
    if fate == NotDone || id !in s.rows || !Cancellable(s.rows[id]) then s
    else Then(s.(rows := s.rows[id := CancelledRow(s.rows[id], now)]), p, Acking(id), fate)
  }

  function RetriedJob(s: Sys, p: Caller, id: Id, now: int, fate: Fate): Sys {
    if fate == NotDone || id !in s.rows || id !in s.audit || !Retryable(s.rows[id]) then s
    else Then(WithRow(s, id, RetriedRow(s.rows[id], now), s.audit[id].(claims := 0, recoveries := 0, failures := 0)), p,
              Enqueuing([id]), fate)
  }

  /** Whether the step can happen; the API refuses a maximum below 1, and ids come from the database. */
  predicate Enabled(s: Sys, a: Action) {
    && s.queue.Valid()
    && match a
       case CreateJob(p, id, req, _, _) =>
         p !in s.procs && id !in s.rows && id != NIL && (req.maxAttempts.Some? ==> req.maxAttempts.value >= 1)
       case EnqueueNext(p, _, _) => p in s.procs && s.procs[p].Enqueuing? && s.procs[p].ids != []
       case TakeFromQueue(p, _, _, _) => p !in s.procs
       case StartJob(p, _, _) => p in s.procs && s.procs[p].Claiming?
       case FinishJob(p, _, _, _) => p in s.procs && s.procs[p].Executing?
       case AckJob(p, _) => p in s.procs && s.procs[p].Acking?
       case ReturnStale(_) => true
       case RequeueRetries(p, batch, now, limit, locked, _) =>
         p !in s.procs && RetryBatch(s.rows, Elements(batch), now, limit, locked)
       case RecoverWorker(p, worker, listing, _) => p !in s.procs && Elements(listing) == Orphans(s.rows, worker)
       case CancelJob(p, _, _, _) => p !in s.procs
       case RetryJob(p, _, _, _) => p !in s.procs
       case Die(p) => p in s.procs
  }

  function Apply(s: Sys, a: Action): Sys
    requires Enabled(s, a)
  {
    match a
    case CreateJob(p, id, req, now, fate) => Created(s, p, id, req, now, fate)
    case EnqueueNext(p, now, fate) => EnqueuedNext(s, p, s.procs[p].ids, now, fate)
    case TakeFromQueue(p, worker, deadline, fate) => Taken(s, p, worker, deadline, fate)
    case StartJob(p, now, fate) => StartedJob(s, p, s.procs[p].id, s.procs[p].worker, now, fate)
    case FinishJob(p, outcome, now, fate) => Finished(s, p, s.procs[p].id, outcome, now, fate)
    case AckJob(p, fate) => Ended(if fate == NotDone then s else s.(queue := Acked(s.queue, s.procs[p].id)), p)
    case ReturnStale(now) => s.(queue := PriorityQueue.Requeued(s.queue, now, DEFAULT_PRIORITY))
    case RequeueRetries(p, batch, _, _, _, fate) => RetriesQueued(s, p, batch, fate)
    case RecoverWorker(p, _, listing, fate) => Recovered(s, p, listing, fate)
    case CancelJob(p, id, now, fate) => CancelledJob(s, p, id, now, fate)
    case RetryJob(p, id, now, fate) => RetriedJob(s, p, id, now, fate)
    case Die(p) => Ended(s, p)
  }

  function Step(s: Sys, a: Action): Sys {
    if Enabled(s, a) then Apply(s, a) else s
  }

  function Run(s: Sys, actions: seq<Action>): Sys {
    if actions == [] then s else Step(Run(s, actions[..|actions| - 1]), actions[|actions| - 1])
  }

  lemma RunSnoc(s: Sys, actions: seq<Action>, k: nat)
    requires k < |actions|
    ensures Run(s, actions[..k + 1]) == Step(Run(s, actions[..k]), actions[k])
  {
    hide Step;
    assert actions[..k + 1][..k] == actions[..k];
  }

  lemma RunOne(s: Sys, a: Action)
    ensures Run(s, [a]) == Step(s, a)
  {
    hide Step;
    assert [a][..0] == [];
  }

  lemma {:induction false} RunConcat(s: Sys, first: seq<Action>, second: seq<Action>)
    ensures Run(s, first + second) == Run(Run(s, first), second)
  {
    hide Step;
    if second == [] {
      assert first + second == first;
    } else {
      var n := |second| - 1;
      assert (first + second)[..|first + second| - 1] == first + second[..n];
      RunConcat(s, first, second[..n]);
    }
  }

  // ---- What the fate of a call decides ---------------------------------------------------

  function FateOf(a: Action): Fate {
    if a.ReturnStale? || a.Die? then Done else a.fate
  }

  function WithFate(a: Action, fate: Fate): Action {
    if a.ReturnStale? || a.Die? then a else a.(fate := fate)
  }

  /** A call without effect changes neither store nor queue. */
  lemma NoEffect(s: Sys, a: Action)
    requires FateOf(a) == NotDone
    ensures Step(s, a).rows == s.rows && Step(s, a).queue == s.queue && Step(s, a).audit == s.audit
  {
    hide PriorityQueue.Claimed, PriorityQueue.Enqueued;
  }

  lemma UnseenQueueEffect(s: Sys, a: Action)
    requires a.EnqueueNext? || a.TakeFromQueue? || a.AckJob? || a.ReturnStale? || a.Die?
    ensures var seen, unseen := Step(s, WithFate(a, Done)), Step(s, WithFate(a, DoneUnseen));
            unseen.rows == seen.rows && unseen.queue == seen.queue && unseen.audit == seen.audit
  {
    hide PriorityQueue.Claimed, PriorityQueue.Enqueued, PriorityQueue.Requeued, ClaimedId;
  }

  lemma UnseenStart(s: Sys, a: Action)
    requires a.StartJob?
    ensures var seen, unseen := Step(s, WithFate(a, Done)), Step(s, WithFate(a, DoneUnseen));
            unseen.rows == seen.rows && unseen.queue == seen.queue && unseen.audit == seen.audit
  {
    hide RunningRow, Claimable;
  }

  lemma UnseenFinish(s: Sys, a: Action)
    requires a.FinishJob?
    ensures var seen, unseen := Step(s, WithFate(a, Done)), Step(s, WithFate(a, DoneUnseen));
            unseen.rows == seen.rows && unseen.queue == seen.queue && unseen.audit == seen.audit
  {
    hide OutcomeRow, OutcomeAudit;
  }

  lemma UnseenRequest(s: Sys, a: Action)
    requires a.CreateJob? || a.CancelJob? || a.RetryJob?
    ensures var seen, unseen := Step(s, WithFate(a, Done)), Step(s, WithFate(a, DoneUnseen));
            unseen.rows == seen.rows && unseen.queue == seen.queue && unseen.audit == seen.audit
  {
    hide NewRow, RetriedRow, CancelledRow, Cancellable, Retryable;
  }

  lemma UnseenBatch(s: Sys, a: Action)
    requires a.RequeueRetries? || a.RecoverWorker?
    ensures var seen, unseen := Step(s, WithFate(a, Done)), Step(s, WithFate(a, DoneUnseen));
            unseen.rows == seen.rows && unseen.queue == seen.queue && unseen.audit == seen.audit
  {
    hide RetryBatch, Orphans, RecoveredAudit, RecoveredRow, RequeuedRow, Changed;
  }

  /** A call whose caller sees an error may have changed store and queue just as a successful one. */
  lemma UnseenEffect(s: Sys, a: Action)
    ensures var seen, unseen := Step(s, WithFate(a, Done)), Step(s, WithFate(a, DoneUnseen));
            unseen.rows == seen.rows && unseen.queue == seen.queue && unseen.audit == seen.audit
  {
    hide Step, WithFate;
    if a.EnqueueNext? || a.TakeFromQueue? || a.AckJob? || a.ReturnStale? || a.Die? {
      UnseenQueueEffect(s, a);
    } else if a.StartJob? {
      UnseenStart(s, a);
    } else if a.FinishJob? {
      UnseenFinish(s, a);
    } else if a.RequeueRetries? || a.RecoverWorker? {
      UnseenBatch(s, a);
    } else {
      UnseenRequest(s, a);
    }
  }

  /** A request, scheduler, supervisor or worker that sees its first call fail goes no further. */
  lemma ErrorEndsCaller(s: Sys, a: Action, fate: Fate)
    requires a.CreateJob? || a.TakeFromQueue? || a.RequeueRetries? || a.RecoverWorker? || a.CancelJob? || a.RetryJob?
    requires fate != Done && Enabled(s, WithFate(a, fate))
    ensures Step(s, WithFate(a, fate)).procs == s.procs
  {
    hide PriorityQueue.Claimed, ClaimedId, RetryBatch, Orphans, NewRow, RetriedRow, CancelledRow, RecoveredAudit;
    hide RecoveredRow, RequeuedRow, Cancellable, Retryable, Changed;
    assert s.procs - {a.p} == s.procs;
  }

  // ---- One job ---------------------------------------------------------------------------

  /** The workers between a successful claim of the job in the store and their resolving update. */
  function Executors(procs: map<Caller, Proc>, id: Id): set<Caller> {
    set p | p in procs && procs[p].Executing? && procs[p].id == id
  }

  predicate Occupied(status: JobStatus) {
    status == Running || status == Cancelled
  }

  /** What every reachable state says about a job with `e` workers executing it. */
  predicate JobInv(r: JobRow, a: Audit, e: nat) {
    && r.maxAttempts >= 1
    && r.attempt == a.claims <= r.maxAttempts + a.recoveries
    && (Claimable(r) ==> a.claims < r.maxAttempts + a.recoveries)
    && e <= a.everRecovered + (if Occupied(r.status) then 1 else 0)
    && FieldsAgree(r)
  }

  /** What the status says about the other columns. */
  predicate FieldsAgree(r: JobRow) {
    && (r.completedAt.Some? <==> r.status.IsTerminal())
    && (r.status == Running ==> r.worker.Some? && r.startedAt.Some?)
    && (r.status == Queued || r.status == Retrying || r.status == DeadLetter ==> r.worker == None)
    && (r.status == Failed || r.status == Retrying || r.status == DeadLetter ==> r.error.Some?)
    && (r.status == Succeeded ==> r.error == None)
    && r.status != Timeout
  }

  lemma ClaimRow(r: JobRow, a: Audit, e: nat, worker: WorkerId, now: int)
    requires JobInv(r, a, e) && Claimable(r)
    ensures JobInv(RunningRow(r, worker, now), a.(claims := a.claims + 1), e + 1)
    ensures JobInv(RunningRow(r, worker, now), a.(claims := a.claims + 1), e)
  {
  }

  lemma ResolveRow(r: JobRow, a: Audit, e: nat, outcome: Outcome, now: int)
    requires JobInv(r, a, e) && e > 0
    ensures JobInv(OutcomeRow(r, outcome, now), OutcomeAudit(a, outcome), e - 1)
  {
  }

  lemma FewerExecutors(r: JobRow, a: Audit, e: nat, e': nat)
    requires JobInv(r, a, e) && e' <= e
    ensures JobInv(r, a, e')
  {
  }

  lemma RecoverRow(r: JobRow, a: Audit, e: nat, worker: WorkerId)
    requires JobInv(r, a, e) && OrphanOf(r, worker)
    ensures JobInv(RecoveredRow(r), RecoveredAudit(a), e)
  {
  }

  lemma RequeueRow(r: JobRow, a: Audit, e: nat, now: int)
    requires JobInv(r, a, e) && DueForRetry(r, now)
    ensures JobInv(RequeuedRow(r), a, e)
  {
  }

  lemma CancelRow(r: JobRow, a: Audit, e: nat, now: int)
    requires JobInv(r, a, e) && Cancellable(r)
    ensures JobInv(CancelledRow(r, now), a, e)
  {
  }

  lemma RetryRow(r: JobRow, a: Audit, e: nat, now: int)
    requires JobInv(r, a, e) && Retryable(r)
    ensures JobInv(RetriedRow(r, now), a.(claims := 0, recoveries := 0, failures := 0), e)
  {
  }

  ghost predicate Inv(s: Sys) {
    && s.queue.Valid()
    && s.audit.Keys == s.rows.Keys
    && (forall p :: p in s.procs && s.procs[p].Executing? ==> s.procs[p].id in s.rows)
    && (forall id :: id in s.rows ==> JobInv(s.rows[id], s.audit[id], |Executors(s.procs, id)|))
  }

  lemma ExecutorsAdd(procs: map<Caller, Proc>, p: Caller, next: Proc, id: Id)
    requires p !in procs || !procs[p].Executing?
    ensures |Executors(procs[p := next], id)| == |Executors(procs, id)| + if next.Executing? && next.id == id then 1
        else 0
  {
    var before, after := Executors(procs, id), Executors(procs[p := next], id);
    assert p !in before;
    if next.Executing? && next.id == id {
      assert after == before + {p};
    } else {
      assert after == before;
    }
  }

  lemma ExecutorsRemove(procs: map<Caller, Proc>, p: Caller, id: Id)
    requires p in procs
    ensures |Executors(procs - {p}, id)| == |Executors(procs, id)| - if procs[p].Executing? && procs[p].id == id then 1
        else 0
  {
    var before, after := Executors(procs, id), Executors(procs - {p}, id);
    assert after == before - {p};
    assert p in before <==> procs[p].Executing? && procs[p].id == id;
  }

  lemma ExecutorsAck(procs: map<Caller, Proc>, p: Caller, done: Id, id: Id)
    requires p in procs
    ensures |Executors(procs[p := Acking(done)], id)| == |Executors(procs, id)| - if procs[p].Executing? &&
        procs[p].id == id then 1 else 0
  {
    var before, after := Executors(procs, id), Executors(procs[p := Acking(done)], id);
    assert after == before - {p};
    assert p in before <==> procs[p].Executing? && procs[p].id == id;
  }

  // ---- Every step keeps the invariant ----------------------------------------------------

  /** The rows with their audits, a new row for `id` among them, and executors of other jobs as before. */
  lemma OneRowInv(s: Sys, s': Sys, id: Id, row: JobRow, audit: Audit)
    requires Inv(s) && s'.queue.Valid()
    requires s'.rows == s.rows[id := row] && s'.audit == s.audit[id := audit]
    requires forall p :: p in s'.procs && s'.procs[p].Executing? ==> s'.procs[p].id in s'.rows
    requires forall x :: x in s.rows && x != id ==> |Executors(s'.procs, x)| <= |Executors(s.procs, x)|
    requires JobInv(row, audit, |Executors(s'.procs, id)|)
    ensures Inv(s')
  {
    hide JobInv, Executors;
    forall x | x in s'.rows ensures JobInv(s'.rows[x], s'.audit[x], |Executors(s'.procs, x)|) {
      if x != id {
        FewerExecutors(s.rows[x], s.audit[x], |Executors(s.procs, x)|, |Executors(s'.procs, x)|);
      }
    }
  }

  /** Same rows and audits, no new executors. */
  lemma SameRowsInv(s: Sys, s': Sys)
    requires Inv(s) && s'.queue.Valid() && s'.rows == s.rows && s'.audit == s.audit
    requires forall p :: p in s'.procs && s'.procs[p].Executing? ==> p in s.procs && s'.procs[p] == s.procs[p]
    ensures Inv(s')
  {
    hide JobInv;
    forall x | x in s'.rows ensures JobInv(s'.rows[x], s'.audit[x], |Executors(s'.procs, x)|) {
      FewerByInclusion(s'.procs, s.procs, x);
      FewerExecutors(s.rows[x], s.audit[x], |Executors(s.procs, x)|, |Executors(s'.procs, x)|);
    }
  }

  lemma FewerByInclusion(procs: map<Caller, Proc>, before: map<Caller, Proc>, id: Id)
    requires forall p :: p in procs && procs[p].Executing? ==> p in before && procs[p] == before[p]
    ensures |Executors(procs, id)| <= |Executors(before, id)|
  {
    SubsetSize(Executors(procs, id), Executors(before, id));
  }

  /** A component that executes nothing goes on to something that executes nothing. */
  lemma ThenInv(s: Sys, p: Caller, next: Proc, fate: Fate)
    requires Inv(s) && !next.Executing?
    ensures Inv(Then(s, p, next, fate))
  {
    hide JobInv, Executors;
    SameRowsInv(s, Then(s, p, next, fate));
  }

  lemma CreateInv(s: Sys, p: Caller, id: Id, req: JobRequest, now: int, fate: Fate)
    requires Inv(s) && id !in s.rows && (req.maxAttempts.Some? ==> req.maxAttempts.value >= 1)
    ensures Inv(Created(s, p, id, req, now, fate))
  {
    var row, audit := NewRow(req, now), Audit(0, 0, 0, 0);
    assert Executors(s.procs, id) == {};
    OneRowInv(s, WithRow(s, id, row, audit), id, row, audit);
    ThenInv(WithRow(s, id, row, audit), p, Enqueuing([id]), fate);
  }

  lemma StartInv(s: Sys, p: Caller, id: Id, worker: WorkerId, now: int, fate: Fate)
    requires Inv(s) && p in s.procs && s.procs[p] == Claiming(id, worker)
    ensures Inv(StartedJob(s, p, id, worker, now, fate))
  {
    hide JobInv, Executors, Claimable;
    var s' := StartedJob(s, p, id, worker, now, fate);
    if fate != NotDone && id in s.rows && Claimable(s.rows[id]) {
      var row, audit := RunningRow(s.rows[id], worker, now), s.audit[id].(claims := s.audit[id].claims + 1);
      ClaimRow(s.rows[id], s.audit[id], |Executors(s.procs, id)|, worker, now);
      forall x ensures |Executors(s'.procs, x)| == |Executors(s.procs, x)| + if fate == Done && x == id then 1 else 0 {
        ExecutorsAdd(s.procs, p, Executing(id, worker), x);
        ExecutorsRemove(s.procs, p, x);
      }
      OneRowInv(s, s', id, row, audit);
    } else {
      SameRowsInv(s, s');
    }
  }

  lemma FinishInv(s: Sys, p: Caller, id: Id, worker: WorkerId, outcome: Outcome, now: int, fate: Fate)
    requires Inv(s) && p in s.procs && s.procs[p] == Executing(id, worker)
    ensures Inv(Finished(s, p, id, outcome, now, fate))
  {
    hide JobInv, OutcomeRow, OutcomeAudit;
    var s' := Finished(s, p, id, outcome, now, fate);
    if fate != NotDone {
      forall x ensures |Executors(s'.procs, x)| == |Executors(s.procs, x)| - if x == id then 1 else 0 {
        ExecutorsAck(s.procs, p, id, x);
      }
      ResolveRow(s.rows[id], s.audit[id], |Executors(s.procs, id)|, outcome, now);
      OneRowInv(s, s', id, OutcomeRow(s.rows[id], outcome, now), OutcomeAudit(s.audit[id], outcome));
    } else {
      SameRowsInv(s, s');
    }
  }

  lemma RecoverInv(s: Sys, p: Caller, worker: WorkerId, listing: seq<Id>, fate: Fate)
    requires Inv(s) && Elements(listing) == Orphans(s.rows, worker)
    ensures Inv(Recovered(s, p, listing, fate))
  {
    hide JobInv, Executors, OrphanOf, RecoveredRow, RecoveredAudit;
    var ids := Elements(listing);
    var s' := s.(rows := Changed(s.rows, ids, RecoveredRow),
                 audit := map id | id in s.audit :: if id in ids then RecoveredAudit(s.audit[id]) else s.audit[id]);
    forall x | x in s'.rows ensures JobInv(s'.rows[x], s'.audit[x], |Executors(s'.procs, x)|) {
      if x in ids {
        RecoverRow(s.rows[x], s.audit[x], |Executors(s.procs, x)|, worker);
      }
    }
    assert Inv(s');
    ThenInv(s', p, Enqueuing(listing), fate);
  }

  lemma RequeueInv(s: Sys, p: Caller, batch: seq<Id>, now: int, limit: int, locked: set<Id>, fate: Fate)
    requires Inv(s) && RetryBatch(s.rows, Elements(batch), now, limit, locked)
    ensures Inv(RetriesQueued(s, p, batch, fate))
  {
    hide JobInv, Executors, DueForRetry, RequeuedRow;
    var s' := s.(rows := Changed(s.rows, Elements(batch), RequeuedRow));
    forall x | x in s'.rows ensures JobInv(s'.rows[x], s'.audit[x], |Executors(s'.procs, x)|) {
      if x in Elements(batch) {
        RequeueRow(s.rows[x], s.audit[x], |Executors(s.procs, x)|, now);
      }
    }
    assert Inv(s');
    ThenInv(s', p, Enqueuing(batch), fate);
  }

  lemma CancelInv(s: Sys, p: Caller, id: Id, now: int, fate: Fate)
    requires Inv(s)
    ensures Inv(CancelledJob(s, p, id, now, fate))
  {
    hide JobInv, Executors, Cancellable, CancelledRow;
    if fate != NotDone && id in s.rows && Cancellable(s.rows[id]) {
      var row := CancelledRow(s.rows[id], now);
      CancelRow(s.rows[id], s.audit[id], |Executors(s.procs, id)|, now);
      var s' := s.(rows := s.rows[id := row]);
      assert s.audit == s.audit[id := s.audit[id]];
      OneRowInv(s, s', id, row, s.audit[id]);
      ThenInv(s', p, Acking(id), fate);
    }
  }

  lemma RetryInv(s: Sys, p: Caller, id: Id, now: int, fate: Fate)
    requires Inv(s)
    ensures Inv(RetriedJob(s, p, id, now, fate))
  {
    hide JobInv, Executors, Retryable, RetriedRow;
    if fate != NotDone && id in s.rows && Retryable(s.rows[id]) {
      var row, audit := RetriedRow(s.rows[id], now), s.audit[id].(claims := 0, recoveries := 0, failures := 0);
      RetryRow(s.rows[id], s.audit[id], |Executors(s.procs, id)|, now);
      OneRowInv(s, WithRow(s, id, row, audit), id, row, audit);
      ThenInv(WithRow(s, id, row, audit), p, Enqueuing([id]), fate);
    }
  }

  /** Queue steps and deaths leave the rows alone. */
  lemma QuietInv(s: Sys, a: Action)
    requires Inv(s) && Enabled(s, a)
    requires a.EnqueueNext? || a.TakeFromQueue? || a.AckJob? || a.ReturnStale? || a.Die?
    ensures Inv(Apply(s, a))
  {
    hide JobInv, Executors, PriorityQueue.Claimed, PriorityQueue.Requeued, PriorityQueue.Enqueued, ClaimedId;
    SameRowsInv(s, Apply(s, a));
  }

  lemma StepInv(s: Sys, a: Action)
    requires Inv(s)
    ensures Inv(Step(s, a))
  {
    hide Inv, RetryBatch, Orphans, Created, EnqueuedNext, Taken, StartedJob, Finished, Recovered, RetriesQueued,
         CancelledJob, RetriedJob;
    if Enabled(s, a) {
      match a
      case CreateJob(p, id, req, now, fate) => CreateInv(s, p, id, req, now, fate);
      case StartJob(p, now, fate) => StartInv(s, p, s.procs[p].id, s.procs[p].worker, now, fate);
      case FinishJob(p, outcome, now, fate) => FinishInv(s, p, s.procs[p].id, s.procs[p].worker, outcome, now, fate);
      case RequeueRetries(p, batch, now, limit, locked, fate) => RequeueInv(s, p, batch, now, limit, locked, fate);
      case RecoverWorker(p, worker, listing, fate) => RecoverInv(s, p, worker, listing, fate);
      case CancelJob(p, id, now, fate) => CancelInv(s, p, id, now, fate);
      case RetryJob(p, id, now, fate) => RetryInv(s, p, id, now, fate);
      case _ => QuietInv(s, a);
    }
  }

  lemma {:induction false} RunInv(actions: seq<Action>)
    ensures Inv(Run(INITIAL, actions))
  {
    hide Step;
    if actions != [] {
      RunInv(actions[..|actions| - 1]);
      StepInv(Run(INITIAL, actions[..|actions| - 1]), actions[|actions| - 1]);
    }
  }

  /** The states that some run leads to. */
  ghost predicate Reachable(s: Sys) {
    exists actions :: s == Run(INITIAL, actions)
  }

  lemma ReachableInv(s: Sys)
    requires Reachable(s)
    ensures Inv(s)
  {
    hide Inv;
    var actions :| s == Run(INITIAL, actions);
    RunInv(actions);
  }

  /**
   At most one worker more than the job's dead-worker recoveries is ever between a successful claim and its
   resolving update: mutual exclusion when there were none.
   */
  lemma BoundedExecution(s: Sys, id: Id)
    requires Reachable(s) && id in s.rows
    ensures id in s.audit && |Executors(s.procs, id)| <= 1 + s.audit[id].everRecovered
  {
    hide Reachable;
    ReachableInv(s);
  }

  /** Attempts are the claims since creation or manual retry, at most the maximum plus the recoveries since then. */
  lemma AttemptAccounting(s: Sys, id: Id)
    requires Reachable(s) && id in s.rows
    ensures id in s.audit
    ensures s.rows[id].attempt == s.audit[id].claims <= s.rows[id].maxAttempts + s.audit[id].recoveries
    ensures Claimable(s.rows[id]) ==> s.rows[id].attempt < s.rows[id].maxAttempts + s.audit[id].recoveries
  {
    hide Reachable;
    ReachableInv(s);
  }

  /**
   `completed_at` is set exactly in the terminal statuses; a RUNNING row names its worker and one waiting for a
   worker names none; failed attempts leave an error and success clears it.
   */
  lemma RowsConsistent(s: Sys, id: Id)
    requires Reachable(s) && id in s.rows
    ensures s.rows[id].completedAt.Some? <==> s.rows[id].status.IsTerminal()
    ensures s.rows[id].completedAt.Some? <==> s.rows[id].status in {Succeeded, Failed, Cancelled, DeadLetter}
    ensures s.rows[id].status == Running ==> s.rows[id].worker.Some? && s.rows[id].startedAt.Some?
    ensures s.rows[id].status in {Queued, Retrying, DeadLetter} ==> s.rows[id].worker == None
    ensures s.rows[id].status in {Failed, Retrying, DeadLetter} ==> s.rows[id].error.Some?
    ensures s.rows[id].status == Succeeded ==> s.rows[id].error == None
  {
    hide Reachable;
    ReachableInv(s);
  }
}
