/**
 The Redis job queue: three priority tiers, an in-progress set keyed by visibility deadline and a
 claim counter that rotates the tier preference.  Every command or script is one atomic step.
 */
module PriorityQueue {
  import opened Options

  /** A job id.  Canonical UUID text sorts as the 128-bit number it writes out. */
  datatype Id = Uuid(bits: nat)

  const NIL := Uuid(0)

  const DEFAULT_PRIORITY := 2
  const DEFAULT_VISIBILITY_MS := 30000

  /** A sorted set: members with their scores. */
  type ZSet = map<Id, int>

  predicate Before(scoreA: int, a: Id, scoreB: int, b: Id) {
    scoreA < scoreB || (scoreA == scoreB && a.bits < b.bits)
  }

  predicate IsFirst(z: ZSet, x: Id) {
    x in z && forall y :: y in z && y != x ==> Before(z[x], x, z[y], y)
  }

  lemma {:induction false} FirstExists(z: ZSet)
    requires z != map[]
    ensures exists x :: IsFirst(z, x)
  {
    var y :| y in z.Keys;
    var rest := z - {y};
    if rest == map[] {
      assert IsFirst(z, y) by {
        assert forall x :: x in z && x != y ==> x in rest;
      }
    } else {
      assert |z.Keys| == |rest.Keys| + 1 by {
        assert z.Keys == rest.Keys + {y};
      }
      FirstExists(rest);
      var x :| IsFirst(rest, x);
      assert forall k :: k in z && k != y ==> k in rest;
      assert IsFirst(z, if Before(z[x], x, z[y], y) then x else y);
    }
  }

  /** ZRANGE key 0 0: the member with the least (score, id). */
  function First(z: ZSet): (x: Id)
    requires z != map[]
    ensures IsFirst(z, x)
  {
    FirstExists(z);
    var x :| x in z && IsFirst(z, x);
    x
  }

  datatype Weights = Weights(w1: int, w2: int, w3: int) {
    predicate Positive() {
      w1 > 0 && w2 > 0 && w3 > 0
    }

    function Total(): int {
      w1 + w2 + w3
    }

    function Of(tier: nat): int {
      if tier == 0 then w1 else if tier == 1 then w2 else w3
    }

    /** Non-positive weights fall back to 6:3:1, one by one. */
    function Effective(): (w: Weights)
      ensures w.Positive() && (Positive() ==> w == this)
      ensures (w1 > 0 ==> w.w1 == w1) && (w2 > 0 ==> w.w2 == w2) && (w3 > 0 ==> w.w3 == w3)
      ensures (w1 <= 0 ==> w.w1 == 6) && (w2 <= 0 ==> w.w2 == 3) && (w3 <= 0 ==> w.w3 == 1)
    {
      Weights(if w1 <= 0 then 6 else w1, if w2 <= 0 then 3 else w2, if w3 <= 0 then 1 else w3)
    }
  }

  const DEFAULT_WEIGHTS := Weights(6, 3, 1)

  datatype Queue = Queue(tiers: seq<ZSet>, inProgress: ZSet, counter: nat) {
    predicate Valid() {
      |tiers| == 3
    }

    predicate Waiting(id: Id)
      requires Valid()
    {
      id in tiers[0] || id in tiers[1] || id in tiers[2]
    }

    predicate Present(id: Id)
      requires Valid()
    {
      Waiting(id) || id in inProgress
    }
  }

  const EMPTY := Queue([map[], map[], map[]], map[], 0)

  /** Tier indices are priorities minus one. */
  function TierOf(priority: int): (tier: nat)
    ensures tier < 3
    ensures (1 <= priority <= 3 ==> tier == priority - 1) && (!(1 <= priority <= 3) ==> tier == 1)
  {
    if priority < 1 || priority > 3 then DEFAULT_PRIORITY - 1 else priority - 1
  }

  function Enqueued(q: Queue, id: Id, priority: int, now: int): (q': Queue)
    requires q.Valid()
    ensures q'.Valid()
  {
    var i := TierOf(priority);
    q.(tiers := q.tiers[i := q.tiers[i][id := now]])
  }

  function Acked(q: Queue, id: Id): Queue {
    q.(inProgress := q.inProgress - {id})
  }

  /** Adds every id with one score, re-scoring those already there. */
  function AddAll(z: ZSet, ids: set<Id>, score: int): ZSet {
    z + map x | x in ids :: score
  }

  function Stale(q: Queue, now: int): set<Id> {
    set x | x in q.inProgress && q.inProgress[x] <= now
  }

  /** Moves `ids` out of the in-progress set into one tier, all with score `now`. */
  function MovedSome(q: Queue, tier: nat, ids: set<Id>, now: int): (q': Queue)
    requires tier < |q.tiers|
    ensures |q'.tiers| == |q.tiers|
  {
    Queue(q.tiers[tier := AddAll(q.tiers[tier], ids, now)], q.inProgress - ids, q.counter)
  }

  function Requeued(q: Queue, now: int, priority: int): (q': Queue)
    requires q.Valid()
    ensures q'.Valid()
  {
    MovedSome(q, TierOf(priority), Stale(q, now), now)
  }

  /** The order in which a claim looks at the tiers, given the rotating slot. */
  function SearchOrder(slot: int, w: Weights): (order: seq<nat>)
    ensures |order| == 3 && 0 in order && 1 in order && 2 in order
    ensures forall k :: 0 <= k < 3 ==> order[k] < 3
  {
    if slot < w.w1 then [0, 1, 2]
    else if slot < w.w1 + w.w2 then [1, 0, 2]
    else [2, 0, 1]
  }

  /** The first non-empty tier along `order`, from position `k` on. */
  function FirstBusy(tiers: seq<ZSet>, order: seq<nat>, k: nat): (tier: Option<nat>)
    requires k <= |order| && forall j :: 0 <= j < |order| ==> order[j] < |tiers|
    ensures tier == None ==> forall j :: k <= j < |order| ==> tiers[order[j]] == map[]
    ensures tier.Some? ==> tier.value in order[k..] && tier.value < |tiers| && tiers[tier.value] != map[]
    decreases |order| - k
  {
    if k == |order| then None
    else if tiers[order[k]] != map[] then Some(order[k])
    else FirstBusy(tiers, order, k + 1)
  }

  /** The rotating slot: the claim counter modulo the total weight. */
  function Slot(count: int, w: Weights): (slot: int)
    requires w.Positive()
    ensures 0 <= slot < w.Total()
  {
    count % w.Total()
  }

  function ClaimTier(q: Queue, w: Weights): (tier: Option<nat>)
    requires q.Valid() && w.Positive()
    ensures tier.Some? ==> tier.value < 3 && q.tiers[tier.value] != map[]
    ensures tier == None <==> forall i :: 0 <= i < 3 ==> q.tiers[i] == map[]
  {
    var order := SearchOrder(Slot(q.counter + 1, w), w);
    var tier := FirstBusy(q.tiers, order, 0);
    assert 0 in order && 1 in order && 2 in order;
    tier
  }

  function ClaimedId(q: Queue, w: Weights): (id: Option<Id>)
    requires q.Valid() && w.Positive()
  {
    var tier := ClaimTier(q, w);
    if tier.Some? then Some(First(q.tiers[tier.value])) else None
  }

  function Claimed(q: Queue, w: Weights, deadline: int): (q': Queue)
    requires q.Valid() && w.Positive()
    ensures q'.Valid() && q'.counter == q.counter + 1
  {
    var tier := ClaimTier(q, w);
    if tier.Some? then
      var i := tier.value;
      var id := First(q.tiers[i]);
      Queue(q.tiers[i := q.tiers[i] - {id}], q.inProgress[id := deadline], q.counter + 1)
    else q.(counter := q.counter + 1)
  }

  class RedisQueue {
    var tiers: seq<ZSet>
    var inProgress: ZSet
    var counter: nat

    ghost function Model(): Queue
      reads this
    {
      Queue(tiers, inProgress, counter)
    }

    constructor ()
      ensures Model() == EMPTY
    {
      tiers := [map[], map[], map[]];
      inProgress := map[];
      counter := 0;
    }

    /** Refuses the nil id; otherwise adds the job to its tier, or re-scores it there. */
    method Enqueue(id: Id, priority: int, now: int) returns (ok: bool)
      requires Model().Valid()
      modifies this
      ensures ok <==> id != NIL
      ensures Model() == if ok then Enqueued(old(Model()), id, priority, now) else old(Model())
      ensures ok && 1 <= priority <= 3 ==> tiers == old(tiers)[priority - 1 := old(tiers)[priority - 1][id := now]]
      ensures ok && !(1 <= priority <= 3) ==> tiers == old(tiers)[1 := old(tiers)[1][id := now]]
      ensures inProgress == old(inProgress) && counter == old(counter) && (!ok ==> tiers == old(tiers))
    {
      if id == NIL {
        return false;
      }
      var p := priority;
      if p < 1 || p > 3 {
        p := DEFAULT_PRIORITY;
      }
      tiers := tiers[p - 1 := tiers[p - 1][id := now]];
      ok := true;
    }

    /** The claim script. */
    method Claim(deadline: int, w: Weights) returns (id: Option<Id>)
      requires Model().Valid() && w.Positive()
      modifies this
      ensures id == ClaimedId(old(Model()), w)
      ensures Model() == Claimed(old(Model()), w, deadline)
      ensures counter == old(counter) + 1
      ensures id.Some? ==> inProgress == old(inProgress)[id.value := deadline]
    {
      hide Slot, IsFirst, Before, SearchOrder;
      counter := counter + 1;
      var order := SearchOrder(Slot(counter, w), w);
      for k := 0 to 3
        invariant tiers == old(tiers) && inProgress == old(inProgress) && counter == old(counter) + 1
        invariant FirstBusy(tiers, order, 0) == FirstBusy(tiers, order, k)
      {
        if tiers[order[k]] != map[] {
          id := Some(First(tiers[order[k]]));
          Take(order[k], id.value, deadline);
          return;
        }
      }
      id := None;
    }

    /** `None` is the empty-queue error. */
    method ClaimWithWeights(now: int, visibilityTimeout: int, weights: Weights) returns (id: Option<Id>)
      requires Model().Valid()
      modifies this
      ensures id == ClaimedId(old(Model()), weights.Effective())
      ensures Model() == Claimed(old(Model()), weights.Effective(),
                                 now + if visibilityTimeout <= 0 then DEFAULT_VISIBILITY_MS else visibilityTimeout)
      ensures id.Some? ==>
                id.value in inProgress && inProgress[id.value] == now + if visibilityTimeout <= 0 then 30000
                    else visibilityTimeout
    {
      var timeout := visibilityTimeout;
      if timeout <= 0 {
        timeout := DEFAULT_VISIBILITY_MS;
      }
      id := Claim(now + timeout, weights.Effective());
    }

    method Take(tier: nat, id: Id, deadline: int)
      requires tier < |tiers|
      modifies this
      ensures tiers == old(tiers)[tier := old(tiers)[tier] - {id}]
      ensures inProgress == old(inProgress)[id := deadline] && counter == old(counter)
    {
      tiers := tiers[tier := tiers[tier] - {id}];
      inProgress := inProgress[id := deadline];
    }

    method Ack(id: Id)
      modifies this
      ensures Model() == Acked(old(Model()), id)
      ensures inProgress == old(inProgress) - {id} && tiers == old(tiers) && counter == old(counter)
    {
      inProgress := inProgress - {id};
    }

    /** Moves every expired entry to one tier and returns how many there were. */
    method RequeueStale(now: int, priority: int) returns (count: nat)
      requires Model().Valid()
      modifies this
      ensures Model() == Requeued(old(Model()), now, priority)
      ensures count == |set x | x in old(inProgress) && old(inProgress)[x] <= now|
      ensures forall x :: x in inProgress <==> x in old(inProgress) && old(inProgress)[x] > now
      ensures forall x :: x in inProgress ==> inProgress[x] == old(inProgress)[x]
      ensures |tiers| == 3 && counter == old(counter)
      ensures var target := if 1 <= priority <= 3 then priority - 1 else 1;
              && (forall i :: 0 <= i < 3 && i != target ==> tiers[i] == old(tiers)[i])
              && (forall x :: x in tiers[target] <==>
                    x in old(tiers)[target] || (x in old(inProgress) && old(inProgress)[x] <= now))
              && (forall x :: x in tiers[target] ==>
                    tiers[target][x] == if x in old(inProgress) && old(inProgress)[x] <= now then now
                                        else old(tiers)[target][x])
    {
      hide MovedSome, Stale, Requeued, TierOf;
      var p := priority;
      if p < 1 || p > 3 {
        p := DEFAULT_PRIORITY;
      }
      RequeueMeans(Model(), now, priority);
      count := RequeueScript(now, p - 1);
    }

    /** The requeue script: moves every expired entry to the target tier. */
    method RequeueScript(now: int, tier: nat) returns (count: nat)
      requires tier < |tiers|
      modifies this
      ensures count == |Stale(old(Model()), now)|
      ensures Model() == MovedSome(old(Model()), tier, Stale(old(Model()), now), now)
    {
      hide MovedSome, MovedOne;
      var stale := set x | x in inProgress && inProgress[x] <= now;
      ghost var moved: set<Id> := {};
      NothingMoved(Model(), tier, now);
      count := 0;
      while stale != {}
        invariant moved !! stale && moved + stale == Stale(old(Model()), now) && count == |moved|
        invariant tier < |tiers| && Model() == MovedSome(old(Model()), tier, moved, now)
        decreases stale
      {
        var id :| id in stale;
        MoveOneMore(old(Model()), tier, moved, id, now);
        stale := stale - {id};
        moved := moved + {id};
        Move(tier, id, now);
        count := count + 1;
      }
      assert moved == Stale(old(Model()), now);
    }

    /** One pass of the requeue loop. */
    method Move(tier: nat, id: Id, now: int)
      requires tier < |tiers|
      modifies this
      ensures Model() == MovedOne(old(Model()), tier, id, now)
    {
      inProgress := inProgress - {id};
      tiers := tiers[tier := tiers[tier][id := now]];
    }
  }

  ghost function MovedOne(q: Queue, tier: nat, id: Id, now: int): Queue
    requires tier < |q.tiers|
  {
    Queue(q.tiers[tier := q.tiers[tier][id := now]], q.inProgress - {id}, q.counter)
  }

  lemma NothingMoved(q: Queue, tier: nat, now: int)
    requires tier < |q.tiers|
    ensures MovedSome(q, tier, {}, now) == q
  {
    assert AddAll(q.tiers[tier], {}, now) == q.tiers[tier];
    assert q.inProgress - {} == q.inProgress;
  }

  lemma MoveOneMore(q: Queue, tier: nat, ids: set<Id>, id: Id, now: int)
    requires tier < |q.tiers|
    ensures MovedSome(q, tier, ids + {id}, now) == MovedOne(MovedSome(q, tier, ids, now), tier, id, now)
  {
    assert AddAll(q.tiers[tier], ids + {id}, now) == AddAll(q.tiers[tier], ids, now)[id := now];
    assert q.inProgress - (ids + {id}) == (q.inProgress - ids) - {id};
  }

  /** What a stale requeue does, entry by entry. */
  lemma RequeueMeans(q: Queue, now: int, priority: int)
    requires q.Valid()
    ensures Stale(q, now) == set x | x in q.inProgress && q.inProgress[x] <= now
    ensures Requeued(q, now, priority) == MovedSome(q, if 1 <= priority <= 3 then priority - 1
                                                    else 1, Stale(q, now), now)
    ensures var q' := Requeued(q, now, priority);
            var target := if 1 <= priority <= 3 then priority - 1 else 1;
            && q'.counter == q.counter
            && (forall x :: x in q'.inProgress <==> x in q.inProgress && q.inProgress[x] > now)
            && (forall x :: x in q'.inProgress ==> q'.inProgress[x] == q.inProgress[x])
            && (forall i :: 0 <= i < 3 && i != target ==> q'.tiers[i] == q.tiers[i])
            && (forall x :: x in q'.tiers[target] <==>
                  x in q.tiers[target] || (x in q.inProgress && q.inProgress[x] <= now))
            && (forall x :: x in q'.tiers[target] ==>
                  q'.tiers[target][x] == if x in q.inProgress && q.inProgress[x] <= now then now
                      else q.tiers[target][x])
  {
  }

  /** Which tier a claim serves: the slot's own tier if it is busy, and the better of the others otherwise. */
  lemma ClaimPreference(q: Queue, w: Weights)
    requires q.Valid() && w.Positive()
    ensures var slot := (q.counter + 1) % (w.w1 + w.w2 + w.w3);
            var tier := ClaimTier(q, w);
            && (slot < w.w1 ==>
                  && (tier == Some(0) <==> q.tiers[0] != map[])
                  && (tier == Some(1) <==> q.tiers[0] == map[] && q.tiers[1] != map[])
                  && (tier == Some(2) <==> q.tiers[0] == map[] && q.tiers[1] == map[] && q.tiers[2] != map[]))
            && (w.w1 <= slot < w.w1 + w.w2 ==>
                  && (tier == Some(1) <==> q.tiers[1] != map[])
                  && (tier == Some(0) <==> q.tiers[1] == map[] && q.tiers[0] != map[])
                  && (tier == Some(2) <==> q.tiers[1] == map[] && q.tiers[0] == map[] && q.tiers[2] != map[]))
            && (w.w1 + w.w2 <= slot ==>
                  && (tier == Some(2) <==> q.tiers[2] != map[])
                  && (tier == Some(0) <==> q.tiers[2] == map[] && q.tiers[0] != map[])
                  && (tier == Some(1) <==> q.tiers[2] == map[] && q.tiers[0] == map[] && q.tiers[1] != map[]))
  {
    var order := SearchOrder(Slot(q.counter + 1, w), w);
    assert FirstBusy(q.tiers, order, 3) == None;
    assert FirstBusy(q.tiers, order, 2) == if q.tiers[order[2]] != map[] then Some(order[2]) else None;
    assert FirstBusy(q.tiers, order, 1) == if q.tiers[order[1]] != map[] then Some(order[1])
        else FirstBusy(q.tiers, order, 2);
  }

  /** A claim finds nothing exactly when every tier is empty, and otherwise takes a tier's least key. */
  lemma ClaimTakesLeast(q: Queue, w: Weights, deadline: int)
    requires q.Valid() && w.Positive()
    ensures ClaimedId(q, w) == None <==> forall id :: !q.Waiting(id)
    ensures ClaimedId(q, w).Some? ==>
              var id := ClaimedId(q, w).value;
              var i := ClaimTier(q, w).value;
              && id in q.tiers[i]
              && Claimed(q, w, deadline) == Queue(q.tiers[i := q.tiers[i] - {id}], q.inProgress[id := deadline],
                                                  q.counter + 1)
              && forall x :: x in q.tiers[i] && x != id ==>
                   q.tiers[i][id] < q.tiers[i][x] || (q.tiers[i][id] == q.tiers[i][x] && id.bits < x.bits)
  {
    var tier := ClaimTier(q, w);
    if tier.Some? {
      var id := First(q.tiers[tier.value]);
      assert q.Waiting(id);
    } else {
      forall id ensures !q.Waiting(id) {
        assert forall i :: 0 <= i < 3 ==> q.tiers[i] == map[];
      }
    }
  }
}
