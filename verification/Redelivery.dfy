/**
 What the in-progress set is for: a QUEUED job whose claimer dies comes back, unless an earlier worker can
 still acknowledge it.
 */
module Redelivery {
  import opened Calls
  import opened JobLifecycle
  import opened JobStore
  import opened NoLostJobs
  import opened Options
  import opened PriorityQueue
  import opened Statuses

  /** An earlier worker whose acknowledgement of the job is still to come. */
  predicate Resolving(c: Proc, id: Id) {
    (c.Executing? || c.Acking?) && c.id == id
  }

  ghost predicate Unresolved(s: Sys, id: Id) {
    forall p :: p in s.procs ==> !Resolving(s.procs[p], id)
  }

  /** The queue holds the job and no outstanding acknowledgement can take it out. */
  ghost predicate Backed(s: Sys, id: Id) {
    s.queue.Valid() && s.queue.Present(id) && Unresolved(s, id)
  }

  predicate QueuedIn(s: Sys, id: Id) {
    id in s.rows && s.rows[id].status == Queued
  }

  // ---- Backed jobs stay backed -----------------------------------------------------------

  lemma QueueKeeps(q: Queue, id: Id, now: int, deadline: int)
    requires q.Valid() && q.Present(id)
    ensures PriorityQueue.Requeued(q, now, DEFAULT_PRIORITY).Present(id)
    ensures PriorityQueue.Claimed(q, DEFAULT_WEIGHTS, deadline).Present(id)
    ensures forall x, priority :: PriorityQueue.Enqueued(q, x, priority, now).Present(id)
    ensures forall x :: x != id ==> Acked(q, x).Present(id)
  {
    hide IsFirst, SearchOrder, Slot, FirstBusy;
    var tier := ClaimTier(q, DEFAULT_WEIGHTS);
    if tier.Some? {
      assert tier.value < 3;
    }
  }

  lemma BackedQueueStep(s: Sys, a: Action, id: Id)
    requires Backed(s, id) && Enabled(s, a)
    requires a.EnqueueNext? || a.TakeFromQueue? || a.AckJob? || a.ReturnStale?
    ensures Backed(Apply(s, a), id) && Apply(s, a).rows == s.rows
  {
    hide Queue.Present, PriorityQueue.Claimed, PriorityQueue.Requeued, PriorityQueue.Enqueued, ClaimedId;
    match a
    case EnqueueNext(p, now, fate) => QueueKeeps(s.queue, id, now, 0);
    case TakeFromQueue(p, worker, deadline, fate) => QueueKeeps(s.queue, id, 0, deadline);
    case AckJob(p, fate) => QueueKeeps(s.queue, id, 0, 0);
    case ReturnStale(now) => QueueKeeps(s.queue, id, now, 0);
  }

  lemma BackedWorkerStep(s: Sys, a: Action, id: Id)
    requires Backed(s, id) && QueuedIn(s, id) && s.audit.Keys == s.rows.Keys && Enabled(s, a)
    requires a.StartJob? || a.FinishJob? || a.Die?
    ensures QueuedIn(Apply(s, a), id) ==> Backed(Apply(s, a), id)
  {
    hide Queue.Present, Queue.Waiting, OutcomeRow, OutcomeAudit;
  }

  lemma BackedCommit(s: Sys, a: Action, id: Id)
    requires Backed(s, id) && QueuedIn(s, id) && Enabled(s, a)
    requires a.CreateJob? || a.RequeueRetries? || a.RecoverWorker? || a.CancelJob? || a.RetryJob?
    ensures QueuedIn(Apply(s, a), id) ==> Backed(Apply(s, a), id)
  {
    hide Queue.Present, Queue.Waiting, NewRow, RecoveredRow, RequeuedRow, RecoveredAudit;
  }

  /** Claimers may die, `ClaimJob` may fail and takes may go unseen: the queue keeps the job. */
  lemma BackedStep(s: Sys, a: Action, id: Id)
    requires Backed(s, id) && QueuedIn(s, id) && Inv(s)
    ensures QueuedIn(Step(s, a), id) ==> Backed(Step(s, a), id)
  {
    hide Backed, Apply, Enabled, JobInv, Executors;
    if Enabled(s, a) {
      if a.EnqueueNext? || a.TakeFromQueue? || a.AckJob? || a.ReturnStale? {
        BackedQueueStep(s, a, id);
      } else if a.StartJob? || a.FinishJob? || a.Die? {
        BackedWorkerStep(s, a, id);
      } else {
        BackedCommit(s, a, id);
      }
    }
  }

  /** The row is QUEUED in every state of the run. */
  ghost predicate StaysQueued(s: Sys, actions: seq<Action>, id: Id) {
    QueuedIn(Run(s, actions), id) && (actions != [] ==> StaysQueued(s, actions[..|actions| - 1], id))
  }

  lemma {:induction false} InvRun(s: Sys, actions: seq<Action>)
    requires Inv(s)
    ensures Inv(Run(s, actions))
  {
    hide Step, Inv;
    if actions != [] {
      InvRun(s, actions[..|actions| - 1]);
      StepInv(Run(s, actions[..|actions| - 1]), actions[|actions| - 1]);
    }
  }

  lemma {:induction false} BackedRun(s: Sys, actions: seq<Action>, id: Id)
    requires Inv(s) && Backed(s, id) && StaysQueued(s, actions, id)
    ensures Backed(Run(s, actions), id)
  {
    hide Step, Inv, Backed;
    if actions != [] {
      var init := actions[..|actions| - 1];
      BackedRun(s, init, id);
      InvRun(s, init);
      BackedStep(Run(s, init), actions[|actions| - 1], id);
    }
  }

  /** The stale requeue puts a job whose deadline has passed back in line. */
  lemma StaleReturns(s: Sys, id: Id, now: int)
    requires s.queue.Valid() && id in s.queue.inProgress && s.queue.inProgress[id] <= now
    ensures Step(s, ReturnStale(now)).queue.Waiting(id) && id !in Step(s, ReturnStale(now)).queue.inProgress
  {
  }

  // ---- Jobs that are not backed can be lost ----------------------------------------------

  /** Some run loses the job while its row says QUEUED all along. */
  ghost predicate CanBeLost(s: Sys, id: Id) {
    exists actions :: StaysQueued(s, actions, id) && Lost(Run(s, actions), id)
  }

  lemma {:induction false} StaysConcat(s: Sys, first: seq<Action>, second: seq<Action>, id: Id)
    requires StaysQueued(s, first, id) && StaysQueued(Run(s, first), second, id)
    ensures StaysQueued(s, first + second, id)
  {
    hide Step;
    RunConcat(s, first, second);
    if second == [] {
      assert first + second == first;
    } else {
      var init := second[..|second| - 1];
      StaysConcat(s, first, init, id);
      assert (first + second)[..|first + second| - 1] == first + init;
    }
  }

  lemma StaysOne(s: Sys, a: Action, id: Id)
    requires QueuedIn(s, id) && QueuedIn(Step(s, a), id)
    ensures StaysQueued(s, [a], id) && Run(s, [a]) == Step(s, a)
  {
    hide Step;
    RunOne(s, a);
    assert StaysQueued(s, [], id);
    assert [a][..0] == [];
  }

  /** Any number of processes may die. */
  lemma {:induction false} AllDie(s: Sys, doomed: set<Caller>, id: Id) returns (actions: seq<Action>)
    requires s.queue.Valid() && doomed <= s.procs.Keys && QueuedIn(s, id)
    ensures StaysQueued(s, actions, id) && Run(s, actions) == s.(procs := s.procs - doomed)
    decreases |doomed|
  {
    hide Run, Queue.Valid;
    if doomed == {} {
      actions := [];
      StartOfRun(s, id);
      assert s.procs - doomed == s.procs;
    } else {
      var p :| p in doomed;
      var rest := AllDie(s, doomed - {p}, id);
      var s' := Run(s, rest);
      assert s'.procs - {p} == s.procs - doomed;
      StaysOne(s', Die(p), id);
      StaysConcat(s, rest, [Die(p)], id);
      RunConcat(s, rest, [Die(p)]);
      actions := rest + [Die(p)];
    }
  }

  lemma StartOfRun(s: Sys, id: Id)
    requires QueuedIn(s, id)
    ensures Run(s, []) == s && StaysQueued(s, [], id)
  {
  }

  lemma {:induction false} NumbersBelow(callers: set<Caller>) returns (bound: nat)
    ensures forall c :: c in callers ==> c.number < bound
  {
    if callers == {} {
      bound := 0;
    } else {
      var c :| c in callers;
      var below := NumbersBelow(callers - {c});
      bound := if c.number < below then below else c.number + 1;
    }
  }

  function TierSizes(q: Queue): nat
    requires q.Valid()
  {
    |q.tiers[0]| + |q.tiers[1]| + |q.tiers[2]|
  }

  predicate AllTiersEmpty(q: Queue) {
    q.tiers == [map[], map[], map[]]
  }

  lemma ClaimShrinks(q: Queue, deadline: int)
    requires q.Valid() && !AllTiersEmpty(q)
    ensures ClaimedId(q, DEFAULT_WEIGHTS).Some?
    ensures TierSizes(PriorityQueue.Claimed(q, DEFAULT_WEIGHTS, deadline)) < TierSizes(q)
  {
    hide Before, SearchOrder, Slot, FirstBusy;
    var tier := ClaimTier(q, DEFAULT_WEIGHTS);
    assert tier == None ==> q.tiers == [map[], map[], map[]];
    if tier.Some? {
      var z, x := q.tiers[tier.value], First(q.tiers[tier.value]);
      assert z.Keys == (z - {x}).Keys + {x};
    }
  }

  /** Claimers that die at once drain the tiers. */
  lemma {:induction false} Drain(s: Sys, id: Id) returns (actions: seq<Action>)
    requires s.queue.Valid() && QueuedIn(s, id)
    ensures StaysQueued(s, actions, id)
    ensures var s' := Run(s, actions); s' == s.(queue := s'.queue) && s'.queue.Valid() && AllTiersEmpty(s'.queue)
    decreases TierSizes(s.queue)
  {
    hide Run, TierSizes, PriorityQueue.Claimed, ClaimedId;
    if AllTiersEmpty(s.queue) {
      actions := [];
      StartOfRun(s, id);
    } else {
      var bound := NumbersBelow(s.procs.Keys);
      var p := Caller(bound);
      assert p !in s.procs.Keys;
      var take := TakeFromQueue(p, WORKER, 0, DoneUnseen);
      ClaimShrinks(s.queue, 0);
      assert s.procs - {p} == s.procs;
      var s' := Step(s, take);
      assert s' == s.(queue := PriorityQueue.Claimed(s.queue, DEFAULT_WEIGHTS, 0));
      StaysOne(s, take, id);
      var rest := Drain(s', id);
      StaysConcat(s, [take], rest, id);
      RunConcat(s, [take], rest);
      actions := [take] + rest;
    }
  }

  ghost predicate OnlyMention(s: Sys, p: Caller, id: Id) {
    p in s.procs && Resolving(s.procs[p], id) && forall q :: q in s.procs && q != p ==> !Mentions(s.procs[q], id)
  }

  /** An earlier worker's acknowledgement takes out the entry of a job that only the in-progress set still holds. */
  lemma AckLoses(s: Sys, p: Caller, id: Id)
    requires s.queue.Valid() && QueuedIn(s, id) && !s.queue.Waiting(id)
    requires OnlyMention(s, p, id) && s.procs[p].Acking?
    ensures Lost(Step(s, AckJob(p, Done)), id)
  {
  }

  /** A result that the store does not take leaves the job QUEUED, and its acknowledgement still to come. */
  lemma ResultUnrecorded(s: Sys, p: Caller, id: Id)
    requires s.queue.Valid() && QueuedIn(s, id) && OnlyMention(s, p, id) && s.procs[p].Executing?
    ensures var s' := Step(s, FinishJob(p, Succeeds, 0, NotDone));
            s'.rows == s.rows && s'.queue == s.queue && OnlyMention(s', p, id) && s'.procs[p].Acking?
  {
  }

  lemma ResolverLoses(s: Sys, p: Caller, id: Id) returns (actions: seq<Action>)
    requires s.queue.Valid() && QueuedIn(s, id) && AllTiersEmpty(s.queue)
    requires p in s.procs && Resolving(s.procs[p], id) && OnlyMention(s, p, id)
    ensures StaysQueued(s, actions, id) && Lost(Run(s, actions), id)
  {
    hide Run, OnlyMention, Lost, Step, Mentions;
    if s.procs[p].Executing? {
      var finish := FinishJob(p, Succeeds, 0, NotDone);
      ResultUnrecorded(s, p, id);
      StaysOne(s, finish, id);
      var s' := Step(s, finish);
      AckLoses(s', p, id);
      LostQueued(Step(s', AckJob(p, Done)), id);
      StaysOne(s', AckJob(p, Done), id);
      StaysConcat(s, [finish], [AckJob(p, Done)], id);
      RunConcat(s, [finish], [AckJob(p, Done)]);
      actions := [finish] + [AckJob(p, Done)];
    } else {
      AckLoses(s, p, id);
      LostQueued(Step(s, AckJob(p, Done)), id);
      StaysOne(s, AckJob(p, Done), id);
      actions := [AckJob(p, Done)];
    }
  }

  lemma LostQueued(s: Sys, id: Id)
    requires Lost(s, id)
    ensures QueuedIn(s, id)
  {
  }

  /** Drain the tiers, let everyone else who mentions the job die, and the last acknowledgement loses it. */
  lemma ResolvedCanBeLost(s: Sys, p: Caller, id: Id)
    requires s.queue.Valid() && QueuedIn(s, id) && p in s.procs && Resolving(s.procs[p], id)
    ensures CanBeLost(s, id)
  {
    hide Run, AllTiersEmpty, Lost, Mentions, StaysQueued, QueuedIn;
    var drain := Drain(s, id);
    var drained := Run(s, drain);
    StaysNow(s, drain, id);
    var others := set q | q in s.procs && q != p && Mentions(s.procs[q], id);
    var deaths := AllDie(drained, others, id);
    var alone := Run(drained, deaths);
    StaysNow(drained, deaths, id);
    assert forall q :: q in alone.procs && q != p ==> q !in others;
    var last := ResolverLoses(alone, p, id);
    StaysConcat(drained, deaths, last, id);
    RunConcat(drained, deaths, last);
    StaysConcat(s, drain, deaths + last, id);
    RunConcat(s, drain, deaths + last);
  }

  lemma StaysNow(s: Sys, actions: seq<Action>, id: Id)
    requires StaysQueued(s, actions, id)
    ensures QueuedIn(Run(s, actions), id)
  {
  }

  lemma AbsentCanBeLost(s: Sys, id: Id)
    requires s.queue.Valid() && QueuedIn(s, id) && !s.queue.Present(id)
    ensures CanBeLost(s, id)
  {
    hide Run, StaysQueued;
    var mentions := set q | q in s.procs && Mentions(s.procs[q], id);
    var deaths := AllDie(s, mentions, id);
    var s' := Run(s, deaths);
    assert forall q :: q in s'.procs ==> q !in mentions;
    assert Lost(s', id);
  }

  lemma LostIsAbsent(s: Sys, id: Id)
    requires Lost(s, id)
    ensures !Backed(s, id)
  {
  }

  /**
   A QUEUED job can still be lost exactly when the queue no longer holds it or a worker that claimed it before
   has yet to acknowledge it.  Deaths of claimers and failing calls alone lose nothing.
   */
  lemma LostIffUnbacked(s: Sys, id: Id)
    requires Inv(s) && QueuedIn(s, id)
    ensures CanBeLost(s, id) <==> !Backed(s, id)
  {
    hide Inv, Run, StaysQueued, Lost, QueuedIn, Queue.Present, Resolving;
    ValidQueue(s);
    if Backed(s, id) {
      forall actions | StaysQueued(s, actions, id) ensures !Lost(Run(s, actions), id) {
        BackedRun(s, actions, id);
        if Lost(Run(s, actions), id) {
          LostIsAbsent(Run(s, actions), id);
        }
      }
    } else if !s.queue.Present(id) {
      AbsentCanBeLost(s, id);
    } else {
      var p :| p in s.procs && Resolving(s.procs[p], id);
      ResolvedCanBeLost(s, p, id);
    }
  }

  lemma ValidQueue(s: Sys)
    requires Inv(s)
    ensures s.queue.Valid()
  {
  }
}
