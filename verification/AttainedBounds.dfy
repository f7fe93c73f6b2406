/** The bounds on attempts and on concurrent executions are attained, for every maximum and number of recoveries. */
module AttainedBounds {
  import opened Calls
  import opened Collections
  import opened JobLifecycle
  import opened JobStore
  import opened NoLostJobs
  import opened Options
  import opened PriorityQueue
  import opened Redelivery
  import opened Statuses

  lemma ReachStep(s: Sys, a: Action)
    requires Reachable(s)
    ensures Reachable(Step(s, a))
  {
    hide Step;
    var actions :| s == Run(INITIAL, actions);
    RunConcat(INITIAL, actions, [a]);
    RunOne(s, a);
  }

  /** One job, nothing in the tiers, and a component about to enqueue it. */
  predicate Ready(s: Sys, p: Caller, row: JobRow, audit: Audit) {
    && s.rows == map[JOB := row] && s.audit == map[JOB := audit]
    && Claimable(row) && row.priority == DEFAULT_PRIORITY
    && AllTiersEmpty(s.queue)
    && p in s.procs && s.procs[p] == Enqueuing([JOB])
  }

  lemma EnqueuesJob(s: Sys, p: Caller, row: JobRow, audit: Audit)
    requires Ready(s, p, row, audit)
    ensures Step(s, EnqueueNext(p, 0, Done)) ==
              s.(queue := s.queue.(tiers := [map[], map[JOB := 0], map[]]), procs := s.procs - {p})
  {
  }

  lemma TakesJob(s: Sys, p: Caller)
    requires s.queue.Valid() && s.queue.tiers == [map[], map[JOB := 0], map[]] && p !in s.procs
    ensures var s' := Step(s, TakeFromQueue(p, WORKER, 0, Done));
            AllTiersEmpty(s'.queue) && s' == s.(queue := s'.queue, procs := s.procs[p := Claiming(JOB, WORKER)])
  {
    hide PriorityQueue.Claimed, ClaimedId;
    ClaimOnly(s.queue, JOB, 0, 0);
  }

  lemma StartsJob(s: Sys, p: Caller, row: JobRow, audit: Audit)
    requires s.queue.Valid() && s.rows == map[JOB := row] && s.audit == map[JOB := audit] && Claimable(row)
    requires p in s.procs && s.procs[p] == Claiming(JOB, WORKER)
    ensures Step(s, StartJob(p, 0, Done)) ==
              s.(rows := map[JOB := RunningRow(row, WORKER, 0)],
                 audit := map[JOB := audit.(claims := audit.claims + 1)],
                 procs := s.procs[p := Executing(JOB, WORKER)])
  {
    hide RunningRow, Claimable;
  }

  /** From the queue to a worker. */
  lemma Delivered(s: Sys, p: Caller, row: JobRow, audit: Audit) returns (s': Sys)
    requires Reachable(s) && Ready(s, p, row, audit)
    ensures Reachable(s') && AllTiersEmpty(s'.queue)
    ensures s'.rows == map[JOB := RunningRow(row, WORKER, 0)] &&
        s'.audit == map[JOB := audit.(claims := audit.claims + 1)]
    ensures s'.procs == s.procs[p := Executing(JOB, WORKER)]
  {
    hide Reachable, RunningRow, Step;
    EnqueuesJob(s, p, row, audit);
    ReachStep(s, EnqueueNext(p, 0, Done));
    var waiting := Step(s, EnqueueNext(p, 0, Done));
    TakesJob(waiting, p);
    ReachStep(waiting, TakeFromQueue(p, WORKER, 0, Done));
    var taken := Step(waiting, TakeFromQueue(p, WORKER, 0, Done));
    StartsJob(taken, p, row, audit);
    ReachStep(taken, StartJob(p, 0, Done));
    s' := Step(taken, StartJob(p, 0, Done));
    assert (s.procs - {p})[p := Claiming(JOB, WORKER)][p := Executing(JOB, WORKER)] ==
        s.procs[p := Executing(JOB, WORKER)];
  }

  /** The job runs on attempt `attempt` of `max`, after `recovered` recoveries that left as many extra executors. */
  ghost predicate Busy(s: Sys, max: nat, attempt: nat, recovered: nat) {
    && s.rows.Keys == {JOB} && s.audit.Keys == {JOB}
    && RunsAs(s.rows[JOB], max, attempt)
    && s.audit[JOB].recoveries == s.audit[JOB].everRecovered == recovered
    && AllTiersEmpty(s.queue)
    && |Executors(s.procs, JOB)| == recovered + 1
  }

  predicate RunsAs(r: JobRow, max: nat, attempt: nat) {
    && r.status == Running && r.worker == Some(WORKER) && r.priority == DEFAULT_PRIORITY
    && r.maxAttempts == max && r.attempt == attempt
  }

  lemma Created(max: nat) returns (s: Sys)
    requires max >= 1
    ensures Reachable(s) && Busy(s, max, 1, 0)
  {
    hide Executors;
    var req := JobRequest("t", None, Some(max), None);
    var create := CreateJob(FIRST, JOB, req, 0, Done);
    assert Run(INITIAL, []) == INITIAL;
    ReachStep(INITIAL, create);
    var created := Step(INITIAL, create);
    assert created.rows == map[JOB := NewRow(req, 0)];
    s := Delivered(created, FIRST, NewRow(req, 0), Audit(0, 0, 0, 0));
    assert Executors(s.procs, JOB) == {FIRST} by { OneExecutor(s.procs); }
  }

  lemma OneExecutor(procs: map<Caller, Proc>)
    requires procs == map[FIRST := Executing(JOB, WORKER)]
    ensures Executors(procs, JOB) == {FIRST}
  {
  }

  /** The supervisor takes a worker for dead that goes on, and a second worker starts. */
  lemma RecoveredOnce(s: Sys, max: nat, attempt: nat, recovered: nat) returns (s': Sys)
    requires Reachable(s) && Busy(s, max, attempt, recovered)
    ensures Reachable(s') && Busy(s', max, attempt + 1, recovered + 1)
  {
    hide Executors, Reachable;
    var bound := NumbersBelow(s.procs.Keys);
    var p := Caller(bound);
    assert p !in s.procs.Keys;
    var row, audit := RecoveredRow(s.rows[JOB]), RecoveredAudit(s.audit[JOB]);
    RecoversJob(s, p);
    ReachStep(s, RecoverWorker(p, WORKER, [JOB], Done));
    s' := Delivered(Step(s, RecoverWorker(p, WORKER, [JOB], Done)), p, row, audit);
    assert s'.procs == s.procs[p := Executing(JOB, WORKER)];
    ExecutorsAdd(s.procs, p, Executing(JOB, WORKER), JOB);
  }

  lemma RecoversJob(s: Sys, p: Caller)
    requires s.queue.Valid() && s.rows.Keys == {JOB} && s.audit.Keys == {JOB} && OrphanOf(s.rows[JOB], WORKER) &&
        p !in s.procs
    ensures Step(s, RecoverWorker(p, WORKER, [JOB], Done)) ==
              s.(rows := map[JOB := RecoveredRow(s.rows[JOB])], audit := map[JOB := RecoveredAudit(s.audit[JOB])],
                 procs := s.procs[p := Enqueuing([JOB])])
  {
    hide RecoveredRow, RecoveredAudit;
    assert Elements([JOB]) == {JOB} == Orphans(s.rows, WORKER);
  }

  /** The failure is recorded and acknowledged, and the scheduler picks up the retry. */
  lemma FailedAndDue(s: Sys, p: Caller) returns (s': Sys)
    requires Reachable(s) && s.queue.Valid() && s.rows.Keys == {JOB} && s.audit.Keys == {JOB}
    requires s.rows[JOB].attempt < s.rows[JOB].maxAttempts
    requires p in s.procs && s.procs[p].Executing? && s.procs[p].id == JOB
    ensures Reachable(s') && s'.queue == Acked(s.queue, JOB)
    ensures s'.rows == map[JOB := RequeuedRow(FailedAttempt(s.rows[JOB], "e", 0, 0))]
    ensures s'.audit == map[JOB := s.audit[JOB].(failures := s.audit[JOB].failures + 1)]
    ensures s'.procs == (s.procs - {p})[p := Enqueuing([JOB])]
  {
    hide Reachable, Step, RequeuedRow, Acked;
    FailsJob(s, p);
    var finish := FinishJob(p, Fails("e", 0), 0, Done);
    ReachStep(s, finish);
    var acking := Step(s, finish);
    AcksJob(acking, p);
    ReachStep(acking, AckJob(p, Done));
    var acked := Step(acking, AckJob(p, Done));
    assert acked.procs == s.procs - {p};
    RequeuesJob(acked, p);
    ReachStep(acked, RequeueRetries(p, [JOB], 0, 0, {}, Done));
    s' := Step(acked, RequeueRetries(p, [JOB], 0, 0, {}, Done));
  }

  lemma AcksJob(s: Sys, p: Caller)
    requires s.queue.Valid() && p in s.procs && s.procs[p] == Acking(JOB)
    ensures Step(s, AckJob(p, Done)) == s.(queue := Acked(s.queue, JOB), procs := s.procs - {p})
    ensures Acked(s.queue, JOB).Valid()
  {
  }

  /** A failed attempt below the maximum, retried. */
  lemma FailedOnce(s: Sys, max: nat, attempt: nat) returns (s': Sys)
    requires Reachable(s) && Busy(s, max, attempt, 0) && attempt < max
    ensures Reachable(s') && Busy(s', max, attempt + 1, 0)
  {
    hide Executors, Reachable;
    var p := SomeExecutor(s);
    var due := FailedAndDue(s, p);
    s' := Delivered(due, p, due.rows[JOB], due.audit[JOB]);
    ExecutorsRemove(s.procs, p, JOB);
    ExecutorsAdd(s.procs - {p}, p, Executing(JOB, WORKER), JOB);
    assert s'.procs == (s.procs - {p})[p := Executing(JOB, WORKER)];
  }

  lemma SomeExecutor(s: Sys) returns (p: Caller)
    requires |Executors(s.procs, JOB)| > 0
    ensures p in s.procs && s.procs[p].Executing? && s.procs[p].id == JOB
  {
    p :| p in Executors(s.procs, JOB);
  }

  lemma FailsJob(s: Sys, p: Caller)
    requires s.queue.Valid() && s.rows.Keys == {JOB} && s.audit.Keys == {JOB}
    requires p in s.procs && s.procs[p].Executing? && s.procs[p].id == JOB
    ensures Step(s, FinishJob(p, Fails("e", 0), 0, Done)) ==
              s.(rows := map[JOB := FailedAttempt(s.rows[JOB], "e", 0, 0)],
                 audit := map[JOB := s.audit[JOB].(failures := s.audit[JOB].failures + 1)],
                 procs := s.procs[p := Acking(JOB)])
  {
    hide FailedAttempt;
  }

  lemma RequeuesJob(s: Sys, p: Caller)
    requires s.queue.Valid() && s.rows.Keys == {JOB} && DueForRetry(s.rows[JOB], 0) && p !in s.procs
    ensures Step(s, RequeueRetries(p, [JOB], 0, 0, {}, Done)) ==
              s.(rows := map[JOB := RequeuedRow(s.rows[JOB])], procs := s.procs[p := Enqueuing([JOB])])
  {
    hide RequeuedRow, DueForRetry;
    assert Elements([JOB]) == {JOB};
  }

  lemma {:induction false} AfterFailures(max: nat, attempt: nat) returns (s: Sys)
    requires 1 <= attempt <= max
    ensures Reachable(s) && Busy(s, max, attempt, 0)
  {
    hide Reachable, Busy;
    if attempt == 1 {
      s := Created(max);
    } else {
      var before := AfterFailures(max, attempt - 1);
      s := FailedOnce(before, max, attempt - 1);
    }
  }

  lemma {:induction false} AfterRecoveries(max: nat, recovered: nat) returns (s: Sys)
    requires max >= 1
    ensures Reachable(s) && Busy(s, max, max + recovered, recovered)
  {
    hide Reachable, Busy;
    if recovered == 0 {
      s := AfterFailures(max, max);
    } else {
      var before := AfterRecoveries(max, recovered - 1);
      s := RecoveredOnce(before, max, max + recovered - 1, recovered - 1);
    }
  }

  /**
   For every maximum and number of recoveries some reachable state has a job with one executor more than its
   recoveries and as many attempts as its maximum and its recoveries together.
   */
  lemma BoundsAttained(max: nat, recovered: nat) returns (s: Sys)
    requires max >= 1
    ensures Reachable(s) && JOB in s.rows && JOB in s.audit
    ensures s.audit[JOB].recoveries == s.audit[JOB].everRecovered == recovered && s.rows[JOB].maxAttempts == max
    ensures |Executors(s.procs, JOB)| == 1 + s.audit[JOB].everRecovered
    ensures s.rows[JOB].attempt == s.rows[JOB].maxAttempts + s.audit[JOB].recoveries
  {
    hide Reachable;
    s := AfterRecoveries(max, recovered);
  }
}
