/**
 Runs of the priority queue under fixed weights: how often each tier is served, how long one id
 can wait, in which order a tier drains, and that no id is lost or duplicated.
 */
module QueueRuns {
  import opened Collections
  import opened Options
  import opened PriorityQueue

  datatype Op =
    | Enqueue(id: Id, priority: int, now: int)
    | Claim(deadline: int)
    | Ack(id: Id)
    | Requeue(now: int, priority: int)

  function Step(q: Queue, w: Weights, op: Op): (q': Queue)
    requires q.Valid() && w.Positive()
    ensures q'.Valid()
  {
    match op
    case Enqueue(id, priority, now) => if id == NIL then q else Enqueued(q, id, priority, now)
    case Claim(deadline) => Claimed(q, w, deadline)
    case Ack(id) => Acked(q, id)
    case Requeue(now, priority) => Requeued(q, now, priority)
  }

  function Init(ops: seq<Op>): seq<Op>
    requires ops != []
  {
    ops[..|ops| - 1]
  }

  function Last(ops: seq<Op>): Op
    requires ops != []
  {
    ops[|ops| - 1]
  }

  function Run(q: Queue, w: Weights, ops: seq<Op>): (q': Queue)
    requires q.Valid() && w.Positive()
    ensures q'.Valid()
  {
    if ops == [] then q else Step(Run(q, w, Init(ops)), w, Last(ops))
  }

  function Claims(ops: seq<Op>): nat {
    if ops == [] then 0 else Claims(Init(ops)) + if Last(ops).Claim? then 1 else 0
  }

  /** How many claims of the run take an id from `tier`. */
  function Taken(q: Queue, w: Weights, ops: seq<Op>, tier: nat): nat
    requires q.Valid() && w.Positive()
  {
    if ops == [] then 0
    else
      Taken(q, w, Init(ops), tier)
      + if Last(ops).Claim? && ClaimTier(Run(q, w, Init(ops)), w) == Some(tier) then 1 else 0
  }

  /** Whenever the run claims, `tier` holds something. */
  predicate BusyAtClaims(q: Queue, w: Weights, ops: seq<Op>, tier: nat)
    requires q.Valid() && w.Positive() && tier < 3
  {
    ops != [] ==>
      && BusyAtClaims(q, w, Init(ops), tier)
      && (Last(ops).Claim? ==> Run(q, w, Init(ops)).tiers[tier] != map[])
  }

  // ---- Slots -----------------------------------------------------------------------------

  function Favourite(w: Weights, count: int): nat
    requires w.Positive()
  {
    SearchOrder(Slot(count, w), w)[0]
  }

  function Hit(w: Weights, count: int, tier: nat): nat
    requires w.Positive()
  {
    if Favourite(w, count) == tier then 1 else 0
  }

  /** How many of the `n` counter values after `c` favour `tier`. */
  function Favoured(w: Weights, c: int, n: nat, tier: nat): nat
    requires w.Positive()
  {
    if n == 0 then 0 else Favoured(w, c, n - 1, tier) + Hit(w, c + n, tier)
  }

  lemma {:induction false} FavouredMonotone(w: Weights, c: int, n: nat, m: nat, tier: nat)
    requires w.Positive() && n <= m
    ensures Favoured(w, c, n, tier) <= Favoured(w, c, m, tier)
    decreases m
  {
    if n < m {
      FavouredMonotone(w, c, n, m - 1, tier);
    }
  }

  lemma {:induction false} FavouredSplit(w: Weights, c: int, n: nat, m: nat, tier: nat)
    requires w.Positive()
    ensures Favoured(w, c, n + m, tier) == Favoured(w, c, n, tier) + Favoured(w, c + n, m, tier)
    decreases m
  {
    hide Hit;
    if m > 0 {
      FavouredSplit(w, c, n, m - 1, tier);
      assert c + (n + m) == (c + n) + m;
    }
  }

  lemma AtLeastFactor(d: int, n: int)
    requires d >= 1 && n > 0
    ensures d * n >= n
  {
    assert d * n - n == (d - 1) * n;
  }

  lemma ModUnique(a: int, n: int, k: int, r: int)
    requires n > 0 && a == k * n + r && 0 <= r < n
    ensures a % n == r
  {
    var d := a / n - k;
    assert d * n == r - a % n by {
      assert a == (a / n) * n + a % n;
      assert d * n == (a / n) * n - k * n;
    }
    if d >= 1 {
      AtLeastFactor(d, n);
    } else if d <= -1 {
      assert (-d) * n == -(d * n);
      AtLeastFactor(-d, n);
    }
  }

  lemma ModShift(a: int, n: int)
    requires n > 0
    ensures (a + n) % n == a % n
  {
    var q := a / n;
    assert a + n == (q + 1) * n + a % n;
    ModUnique(a + n, n, q + 1, a % n);
  }

  /** Counting from a multiple of the total, the slots are 0, 1, 2, ... */
  lemma {:induction false} FirstSlots(w: Weights, n: nat, tier: nat)
    requires w.Positive() && n <= w.Total() && tier < 3
    ensures Favoured(w, -1, n, tier) ==
            if tier == 0 then (if n < w.w1 then n else w.w1)
            else if tier == 1 then (if n < w.w1 then 0 else if n < w.w1 + w.w2 then n - w.w1 else w.w2)
            else if n < w.w1 + w.w2 then 0 else n - w.w1 - w.w2
  {
    if n > 0 {
      FirstSlots(w, n - 1, tier);
      ModUnique(n - 1, w.Total(), 0, n - 1);
    }
  }

  lemma HitShift(w: Weights, c: int, tier: nat)
    requires w.Positive()
    ensures Hit(w, c + w.Total(), tier) == Hit(w, c, tier)
  {
    ModShift(c, w.Total());
  }

  lemma NextRotation(w: Weights, c: int, tier: nat)
    requires w.Positive()
    ensures Favoured(w, c + 1, w.Total(), tier) == Favoured(w, c, w.Total(), tier)
  {
    hide Hit;
    var total := w.Total();
    FavouredSplit(w, c, 1, total, tier);
    HitShift(w, c + 1, tier);
    assert Favoured(w, c, 1, tier) == Favoured(w, c, 0, tier) + Hit(w, c + 1, tier);
    assert c + (1 + total) == (c + 1) + total;
  }

  /** Any `Total()` consecutive claims favour each tier exactly as often as its weight. */
  lemma {:induction false} OneRotation(w: Weights, c: int, tier: nat)
    requires w.Positive() && tier < 3 && c >= -1
    ensures Favoured(w, c, w.Total(), tier) == w.Of(tier)
    decreases c + 1
  {
    hide Favoured;
    if c == -1 {
      FirstSlots(w, w.Total(), tier);
    } else {
      OneRotation(w, c - 1, tier);
      NextRotation(w, c - 1, tier);
    }
  }

  lemma {:induction false} Rotations(w: Weights, c: nat, m: nat, tier: nat)
    requires w.Positive() && tier < 3
    ensures m * w.Total() >= 0 && Favoured(w, c, m * w.Total(), tier) == m * w.Of(tier)
    decreases m
  {
    if m > 0 {
      Rotations(w, c, m - 1, tier);
      var n := (m - 1) * w.Total();
      assert m * w.Total() == n + w.Total();
      FavouredSplit(w, c, n, w.Total(), tier);
      OneRotation(w, c + n, tier);
      assert m * w.Of(tier) == (m - 1) * w.Of(tier) + w.Of(tier);
    }
  }

  // ---- Starvation ------------------------------------------------------------------------

  lemma {:induction false} CounterCounts(q: Queue, w: Weights, ops: seq<Op>)
    requires q.Valid() && w.Positive()
    ensures Run(q, w, ops).counter == q.counter + Claims(ops)
  {
    if ops != [] {
      CounterCounts(q, w, Init(ops));
    }
  }

  lemma FavouriteServed(q: Queue, w: Weights, tier: nat)
    requires q.Valid() && w.Positive() && tier < 3 && q.tiers[tier] != map[]
    ensures Hit(w, q.counter + 1, tier) == 1 ==> ClaimTier(q, w) == Some(tier)
    ensures Hit(w, q.counter + 1, tier) <= 1
  {
    hide Slot;
  }

  lemma TakenStep(q: Queue, w: Weights, ops: seq<Op>, tier: nat)
    requires q.Valid() && w.Positive() && tier < 3 && ops != [] && Last(ops).Claim?
    requires Run(q, w, Init(ops)).tiers[tier] != map[]
    ensures Taken(q, w, ops, tier) >= Taken(q, w, Init(ops), tier) + Hit(w, Run(q, w, Init(ops)).counter + 1, tier)
  {
    hide Hit, ClaimTier, Step, Favourite;
    FavouriteServed(Run(q, w, Init(ops)), w, tier);
  }

  lemma {:induction false} BusyTierServed(q: Queue, w: Weights, ops: seq<Op>, tier: nat)
    requires q.Valid() && w.Positive() && tier < 3 && BusyAtClaims(q, w, ops, tier)
    ensures Taken(q, w, ops, tier) >= Favoured(w, q.counter, Claims(ops), tier)
  {
    hide Hit, ClaimTier, Step, Favourite;
    if ops != [] {
      BusyTierServed(q, w, Init(ops), tier);
      CounterCounts(q, w, Init(ops));
      if Last(ops).Claim? {
        TakenStep(q, w, ops, tier);
      }
    }
  }

  /** A tier that is never empty gets its weighted share of any stretch of claims. */
  lemma NoStarvation(q: Queue, w: Weights, ops: seq<Op>, tier: nat, m: nat)
    requires q.Valid() && w.Positive() && tier < 3
    requires BusyAtClaims(q, w, ops, tier) && Claims(ops) >= m * w.Total()
    ensures Taken(q, w, ops, tier) >= m * w.Of(tier)
  {
    BusyTierServed(q, w, ops, tier);
    Rotations(w, q.counter, m, tier);
    FavouredMonotone(w, q.counter, m * w.Total(), Claims(ops), tier);
  }

  /** The members of a tier that a claim would prefer to `id`. */
  function Ahead(z: ZSet, id: Id): set<Id>
    requires id in z
  {
    set x | x in z && Before(z[x], x, z[id], id)
  }

  /** The operation neither re-scores `id` in its tier nor puts anything ahead of it. */
  predicate KeepsPlace(q: Queue, op: Op, tier: nat, id: Id)
    requires q.Valid() && tier < 3 && id in q.tiers[tier]
  {
    match op
    case Enqueue(x, priority, now) =>
      TierOf(priority) == tier && x != NIL ==> x != id && Before(q.tiers[tier][id], id, now, x)
    case Requeue(now, priority) =>
      TierOf(priority) == tier ==>
        forall x :: x in Stale(q, now) ==> x != id && Before(q.tiers[tier][id], id, now, x)
    case Claim(_) => true
    case Ack(_) => true
  }

  /** `id` waits in `tier` until a claim takes it, and never loses its place while it waits. */
  predicate NeverOvertaken(q: Queue, w: Weights, ops: seq<Op>, tier: nat, id: Id)
    requires q.Valid() && w.Positive() && tier < 3
  {
    ops != [] ==>
      && NeverOvertaken(q, w, Init(ops), tier, id)
      && (id in Run(q, w, Init(ops)).tiers[tier] ==> KeepsPlace(Run(q, w, Init(ops)), Last(ops), tier, id))
  }

  /** A claim of the run has returned `id` from `tier`. */
  predicate TakenFrom(q: Queue, w: Weights, ops: seq<Op>, tier: nat, id: Id)
    requires q.Valid() && w.Positive()
  {
    ops != [] &&
      (TakenFrom(q, w, Init(ops), tier, id)
       || (Last(ops).Claim? && ClaimTier(Run(q, w, Init(ops)), w) == Some(tier)
           && ClaimedId(Run(q, w, Init(ops)), w) == Some(id)))
  }

  /**
   What a priority is worth: an enqueue puts the id in the tier whose share of the claims, as long as it is never
   empty, is the weight given for that priority.
   */
  lemma PriorityShare(q: Queue, w: Weights, id: Id, priority: int, now: int, ops: seq<Op>, m: nat)
    requires q.Valid() && w.Positive() && id != NIL && 1 <= priority <= 3
    ensures Step(q, w, Enqueue(id, priority, now)).tiers == q.tiers[priority - 1 := q.tiers[priority - 1][id := now]]
    ensures BusyAtClaims(q, w, ops, priority - 1) && Claims(ops) >= m * (w.w1 + w.w2 + w.w3) ==>
              Taken(q, w, ops, priority - 1) >= m * (if priority == 1 then w.w1 else if priority == 2 then w.w2
                                                     else w.w3)
  {
    hide Taken, BusyAtClaims, Claims;
    if BusyAtClaims(q, w, ops, priority - 1) && Claims(ops) >= m * (w.w1 + w.w2 + w.w3) {
      NoStarvation(q, w, ops, priority - 1, m);
    }
  }

  /** One operation: while `id` keeps waiting, a claim from its tier shortens its line by one. */
  lemma LineShortens(q: Queue, w: Weights, op: Op, tier: nat, id: Id)
    requires q.Valid() && w.Positive() && tier < 3 && id in q.tiers[tier]
    requires KeepsPlace(q, op, tier, id)
    requires !(op.Claim? && ClaimTier(q, w) == Some(tier) && ClaimedId(q, w) == Some(id))
    ensures id in Step(q, w, op).tiers[tier]
    ensures |Ahead(Step(q, w, op).tiers[tier], id)| + (if op.Claim? && ClaimTier(q, w) == Some(tier) then 1 else 0)
         <= |Ahead(q.tiers[tier], id)|
  {
    var z, z' := q.tiers[tier], Step(q, w, op).tiers[tier];
    if op.Claim? && ClaimTier(q, w) == Some(tier) {
      var head := First(z);
      assert head in Ahead(z, id);
      assert Ahead(z', id) <= Ahead(z, id) - {head};
      SubsetSize(Ahead(z', id), Ahead(z, id) - {head});
    } else {
      assert Ahead(z', id) <= Ahead(z, id);
      SubsetSize(Ahead(z', id), Ahead(z, id));
    }
  }

  lemma {:induction false} LineBound(q: Queue, w: Weights, ops: seq<Op>, tier: nat, id: Id)
    requires q.Valid() && w.Positive() && tier < 3 && id in q.tiers[tier]
    requires NeverOvertaken(q, w, ops, tier, id) && !TakenFrom(q, w, ops, tier, id)
    ensures id in Run(q, w, ops).tiers[tier] && BusyAtClaims(q, w, ops, tier)
    ensures |Ahead(Run(q, w, ops).tiers[tier], id)| + Taken(q, w, ops, tier) <= |Ahead(q.tiers[tier], id)|
  {
    if ops != [] {
      LineBound(q, w, Init(ops), tier, id);
      LineShortens(Run(q, w, Init(ops)), w, Last(ops), tier, id);
    }
  }

  /** ceil(a / b) for positive `b`. */
  function CeilDiv(a: nat, b: int): (c: nat)
    requires b > 0
    ensures c * b >= a && (c > 0 ==> (c - 1) * b < a)
  {
    var c := (a + b - 1) / b;
    assert c * b >= a && (c > 0 ==> (c - 1) * b < a) by {
      assert a + b - 1 == c * b + (a + b - 1) % b;
      assert (c - 1) * b == c * b - b;
    }
    c
  }

  /** An id with r others ahead of it in its tier is claimed within W * ceil((r + 1) / w_tier) claims. */
  lemma BoundedWait(q: Queue, w: Weights, ops: seq<Op>, tier: nat, id: Id)
    requires q.Valid() && w.Positive() && tier < 3 && id in q.tiers[tier]
    requires NeverOvertaken(q, w, ops, tier, id)
    requires Claims(ops) >= CeilDiv(|Ahead(q.tiers[tier], id)| + 1, w.Of(tier)) * w.Total()
    ensures TakenFrom(q, w, ops, tier, id)
  {
    if !TakenFrom(q, w, ops, tier, id) {
      LineBound(q, w, ops, tier, id);
      NoStarvation(q, w, ops, tier, CeilDiv(|Ahead(q.tiers[tier], id)| + 1, w.Of(tier)));
    }
  }

  /** The operation does not add `id` to `tier`, so it does not re-score it there. */
  predicate LeavesScore(q: Queue, op: Op, tier: nat, id: Id) {
    match op
    case Enqueue(x, priority, _) => !(x == id && TierOf(priority) == tier)
    case Requeue(now, priority) => !(id in Stale(q, now) && TierOf(priority) == tier)
    case Claim(_) => true
    case Ack(_) => true
  }

  predicate LeavesScores(q: Queue, w: Weights, ops: seq<Op>, tier: nat, id: Id)
    requires q.Valid() && w.Positive()
  {
    ops != [] ==>
      && LeavesScores(q, w, Init(ops), tier, id)
      && LeavesScore(Run(q, w, Init(ops)), Last(ops), tier, id)
  }

  lemma OutStays(q: Queue, w: Weights, op: Op, tier: nat, a: Id)
    requires q.Valid() && w.Positive() && tier < 3 && a !in q.tiers[tier] && LeavesScore(q, op, tier, a)
    ensures a !in Step(q, w, op).tiers[tier]
  {
    hide Before, SearchOrder, Slot, FirstBusy, IsFirst;
  }

  /** One operation: a claim that takes `b` from the tier would have taken `a` first. */
  lemma KeyStep(q: Queue, w: Weights, op: Op, tier: nat, a: Id, b: Id)
    requires q.Valid() && w.Positive() && tier < 3 && a in q.tiers[tier] && b in q.tiers[tier]
    requires Before(q.tiers[tier][a], a, q.tiers[tier][b], b)
    requires LeavesScore(q, op, tier, a) && LeavesScore(q, op, tier, b)
    ensures var z := Step(q, w, op).tiers[tier];
            a in z ==> b in z && z[a] == q.tiers[tier][a] && z[b] == q.tiers[tier][b]
  {
    hide SearchOrder, Slot, FirstBusy;
  }

  /** A tier drains in key order: while `a` waits, nothing behind it has been claimed. */
  lemma {:induction false} KeyOrder(q: Queue, w: Weights, ops: seq<Op>, tier: nat, a: Id, b: Id)
    requires q.Valid() && w.Positive() && tier < 3
    requires a in q.tiers[tier] && b in q.tiers[tier]
    requires Before(q.tiers[tier][a], a, q.tiers[tier][b], b)
    requires LeavesScores(q, w, ops, tier, a) && LeavesScores(q, w, ops, tier, b)
    ensures a in Run(q, w, ops).tiers[tier] ==>
              && b in Run(q, w, ops).tiers[tier]
              && Run(q, w, ops).tiers[tier][a] == q.tiers[tier][a]
              && Run(q, w, ops).tiers[tier][b] == q.tiers[tier][b]
  {
    hide Step, Before, LeavesScore;
    if ops != [] {
      KeyOrder(q, w, Init(ops), tier, a, b);
      var before := Run(q, w, Init(ops));
      if a in before.tiers[tier] {
        KeyStep(before, w, Last(ops), tier, a, b);
      } else {
        OutStays(before, w, Last(ops), tier, a);
      }
    }
  }

  // ---- Conservation ----------------------------------------------------------------------

  function Memberships(q: Queue, id: Id): nat
    requires q.Valid()
  {
    (if id in q.tiers[0] then 1 else 0) + (if id in q.tiers[1] then 1 else 0) + (if id in q.tiers[2] then 1 else 0)
  }

  function TimesClaimed(q: Queue, w: Weights, ops: seq<Op>, id: Id): nat
    requires q.Valid() && w.Positive()
  {
    if ops == [] then 0
    else
      TimesClaimed(q, w, Init(ops), id)
      + if Last(ops).Claim? && ClaimedId(Run(q, w, Init(ops)), w) == Some(id) then 1 else 0
  }

  function TimesEnqueued(ops: seq<Op>, id: Id): nat {
    if ops == [] then 0
    else TimesEnqueued(Init(ops), id) + if Last(ops).Enqueue? && Last(ops).id == id then 1 else 0
  }

  function TimesRequeued(q: Queue, w: Weights, ops: seq<Op>, id: Id): nat
    requires q.Valid() && w.Positive()
  {
    if ops == [] then 0
    else
      TimesRequeued(q, w, Init(ops), id)
      + if Last(ops).Requeue? && id in Stale(Run(q, w, Init(ops)), Last(ops).now) then 1 else 0
  }

  lemma PaidStep(q: Queue, w: Weights, op: Op, id: Id)
    requires q.Valid() && w.Positive()
    ensures Memberships(Step(q, w, op), id) + (if op.Claim? && ClaimedId(q, w) == Some(id) then 1 else 0)
         <= Memberships(q, id) + (if op.Enqueue? && op.id == id then 1 else 0)
            + (if op.Requeue? && id in Stale(q, op.now) then 1 else 0)
  {
    hide Before, SearchOrder, Slot, FirstBusy;
  }

  /** Nothing is claimed that was not put in: each delivery is paid for by an enqueue or a requeue. */
  lemma {:induction false} DeliveriesPaid(w: Weights, ops: seq<Op>, id: Id)
    requires w.Positive()
    ensures TimesClaimed(EMPTY, w, ops, id) + Memberships(Run(EMPTY, w, ops), id)
         <= TimesEnqueued(ops, id) + TimesRequeued(EMPTY, w, ops, id)
  {
    hide Step, Stale, Memberships, ClaimedId;
    if ops == [] {
      assert Memberships(EMPTY, id) == 0 by { NothingIn(id); }
    } else {
      DeliveriesPaid(w, Init(ops), id);
      PaidStep(Run(EMPTY, w, Init(ops)), w, Last(ops), id);
    }
  }

  lemma NothingIn(id: Id)
    ensures Memberships(EMPTY, id) == 0
  {
  }

  /** The four sets share no id. */
  predicate Disjoint(q: Queue)
    requires q.Valid()
  {
    q.tiers[0].Keys !! q.tiers[1].Keys !! q.tiers[2].Keys !! q.inProgress.Keys
  }

  /** Ids are only ever enqueued when the queue does not hold them. */
  predicate EnqueuedWhenAbsent(q: Queue, w: Weights, ops: seq<Op>)
    requires q.Valid() && w.Positive()
  {
    ops != [] ==>
      && EnqueuedWhenAbsent(q, w, Init(ops))
      && (Last(ops).Enqueue? ==> Last(ops).id != NIL && !Run(q, w, Init(ops)).Present(Last(ops).id))
  }

  lemma DisjointStep(q: Queue, w: Weights, op: Op)
    requires q.Valid() && w.Positive() && Disjoint(q)
    requires op.Enqueue? ==> op.id != NIL && !q.Present(op.id)
    ensures Disjoint(Step(q, w, op))
    ensures op.Enqueue? ==> Memberships(q, op.id) == 0
  {
    hide Before, SearchOrder, Slot, FirstBusy, IsFirst;
  }

  /** Under that discipline the sets stay disjoint and the accounting is exact. */
  lemma ExactStep(q: Queue, w: Weights, op: Op, id: Id)
    requires q.Valid() && w.Positive() && Disjoint(q)
    requires op.Enqueue? ==> op.id != NIL && !q.Present(op.id)
    ensures Memberships(Step(q, w, op), id) + (if op.Claim? && ClaimedId(q, w) == Some(id) then 1 else 0)
         == Memberships(q, id) + (if op.Enqueue? && op.id == id then 1 else 0)
            + (if op.Requeue? && id in Stale(q, op.now) then 1 else 0)
  {
  }

  lemma {:induction false} DeliveriesExact(w: Weights, ops: seq<Op>, id: Id)
    requires w.Positive() && EnqueuedWhenAbsent(EMPTY, w, ops)
    ensures Disjoint(Run(EMPTY, w, ops))
    ensures TimesClaimed(EMPTY, w, ops, id) + Memberships(Run(EMPTY, w, ops), id)
         == TimesEnqueued(ops, id) + TimesRequeued(EMPTY, w, ops, id)
  {
    if ops != [] {
      DeliveriesExact(w, Init(ops), id);
      DisjointStep(Run(EMPTY, w, Init(ops)), w, Last(ops));
      ExactStep(Run(EMPTY, w, Init(ops)), w, Last(ops), id);
    }
  }

  /** An id leaves the queue only through an acknowledgement of that id. */
  lemma OnlyAckRemoves(q: Queue, w: Weights, op: Op, id: Id)
    requires q.Valid() && w.Positive() && q.Present(id) && op != Ack(id)
    ensures Step(q, w, op).Present(id)
  {
  }

  lemma {:induction false} KeptUntilAck(q: Queue, w: Weights, ops: seq<Op>, id: Id)
    requires q.Valid() && w.Positive() && q.Present(id) && Ack(id) !in ops
    ensures Run(q, w, ops).Present(id)
  {
    if ops != [] {
      KeptUntilAck(q, w, Init(ops), id);
      OnlyAckRemoves(Run(q, w, Init(ops)), w, Last(ops), id);
    }
  }
}
