/**
 Concurrent job creation under one idempotency key: lookup, insert-on-conflict and refetch are separate
 statements, so any number of callers may interleave between them, and any statement may fail.
 */
module CreateRaces {
  import opened Calls
  import opened JobStore
  import opened PriorityQueue

  datatype Pc =
    | Looking
    | Inserting
    | Refetching
    | Returned(id: Id, created: bool)
    | Errored

  /** The unique-key index, the callers with their keys, and who inserted each row. */
  datatype State = State(keys: map<Key, Id>, next: nat, wants: map<Caller, Key>, pcs: map<Caller, Pc>,
                         creator: map<Key, Caller>)

  datatype Action = Arrive(c: Caller, key: Key) | Move(c: Caller, fate: Fate)

  function Goto(s: State, c: Caller, pc: Pc): State {
    s.(pcs := s.pcs[c := pc])
  }

  function Moved(s: State, c: Caller, key: Key, pc: Pc, fate: Fate): State {
    match pc
    case Looking =>
      Goto(s, c, if fate != Done then Errored else if key in s.keys then Returned(s.keys[key], false) else Inserting)
    case Inserting =>
      if fate == NotDone then Goto(s, c, Errored)
      else if key in s.keys then Goto(s, c, if fate == Done then Refetching else Errored)
      else
        var id := Uuid(s.next);
        var s' := s.(keys := s.keys[key := id], next := s.next + 1, creator := s.creator[key := c]);
        Goto(s', c, if fate == Done then Returned(id, true) else Errored)
    case Refetching =>
      Goto(s, c, if fate == Done && key in s.keys then Returned(s.keys[key], false) else Errored)
    case Returned(_, _) => s
    case Errored => s
  }

  function Step(s: State, a: Action): State {
    match a
    case Arrive(c, key) =>
      if c in s.pcs then s else s.(pcs := s.pcs[c := Looking], wants := s.wants[c := key])
    case Move(c, fate) =>
      if c in s.pcs && c in s.wants then Moved(s, c, s.wants[c], s.pcs[c], fate) else s
  }

  function Run(s: State, actions: seq<Action>): State {
    if actions == [] then s else Step(Run(s, actions[..|actions| - 1]), actions[|actions| - 1])
  }

  /** An index that already holds some keys, and no callers yet. */
  function Initial(keys: map<Key, Id>, next: nat): State {
    State(keys, next, map[], map[], map[])
  }

  ghost predicate FreshNext(keys: map<Key, Id>, next: nat) {
    next > 0 && forall k :: k in keys ==> keys[k].bits < next
  }

  ghost predicate Inserted(s: State, c: Caller, key: Key) {
    key in s.creator && s.creator[key] == c
  }

  ghost predicate PcInv(s: State, c: Caller, key: Key, pc: Pc) {
    match pc
    case Looking => !Inserted(s, c, key)
    case Inserting => !Inserted(s, c, key)
    case Refetching => key in s.keys && !Inserted(s, c, key)
    case Returned(id, created) => key in s.keys && s.keys[key] == id && (created <==> Inserted(s, c, key))
    case Errored => true
  }

  ghost predicate Inv(s: State) {
    && FreshNext(s.keys, s.next)
    && s.wants.Keys == s.pcs.Keys
    && (forall c :: c in s.pcs ==> PcInv(s, c, s.wants[c], s.pcs[c]))
    && (forall k :: k in s.creator ==> k in s.keys && s.creator[k] in s.pcs && s.wants[s.creator[k]] == k)
  }

  lemma ArriveInv(s: State, c: Caller, key: Key)
    requires Inv(s)
    ensures Inv(Step(s, Arrive(c, key)))
  {
  }

  /** The insert that wins: nobody had inserted this key before. */
  lemma WonInv(s: State, c: Caller, fate: Fate)
    requires Inv(s) && c in s.pcs && s.pcs[c] == Inserting && fate != NotDone && s.wants[c] !in s.keys
    ensures Inv(Step(s, Move(c, fate)))
  {
    var s' := Step(s, Move(c, fate));
    forall d | d in s'.pcs ensures PcInv(s', d, s'.wants[d], s'.pcs[d]) {
      if d != c {
        assert PcInv(s, d, s.wants[d], s.pcs[d]);
      }
    }
  }

  lemma InsertInv(s: State, c: Caller, fate: Fate)
    requires Inv(s) && c in s.pcs && s.pcs[c] == Inserting
    ensures Inv(Step(s, Move(c, fate)))
  {
    hide FreshNext;
    if fate != NotDone && s.wants[c] !in s.keys {
      WonInv(s, c, fate);
    }
  }

  lemma OtherMoveInv(s: State, c: Caller, fate: Fate)
    requires Inv(s) && (c in s.pcs ==> s.pcs[c] != Inserting)
    ensures Inv(Step(s, Move(c, fate)))
  {
  }

  lemma StepInv(s: State, a: Action)
    requires Inv(s)
    ensures Inv(Step(s, a))
  {
    hide Inv, Step;
    match a
    case Arrive(c, key) => ArriveInv(s, c, key);
    case Move(c, fate) =>
      if c in s.pcs && s.pcs[c] == Inserting {
        InsertInv(s, c, fate);
      } else {
        OtherMoveInv(s, c, fate);
      }
  }

  lemma {:induction false} RunInv(keys: map<Key, Id>, next: nat, actions: seq<Action>)
    requires FreshNext(keys, next)
    ensures Inv(Run(Initial(keys, next), actions))
  {
    hide Step;
    if actions != [] {
      RunInv(keys, next, actions[..|actions| - 1]);
      StepInv(Run(Initial(keys, next), actions[..|actions| - 1]), actions[|actions| - 1]);
    }
  }

  /** Successful callers with one key return one job, and at most one of them is told it created it. */
  lemma SameJob(keys: map<Key, Id>, next: nat, actions: seq<Action>, c: Caller, d: Caller)
    requires FreshNext(keys, next)
    requires var s := Run(Initial(keys, next), actions);
             && c in s.pcs && d in s.pcs && c in s.wants && d in s.wants && s.wants[c] == s.wants[d]
             && s.pcs[c].Returned? && s.pcs[d].Returned?
    ensures var s := Run(Initial(keys, next), actions);
            && s.pcs[c].id == s.pcs[d].id
            && (s.pcs[c].created && s.pcs[d].created ==> c == d)
  {
    hide Run;
    RunInv(keys, next, actions);
  }

  predicate Faultless(actions: seq<Action>) {
    forall i :: 0 <= i < |actions| ==> (actions[i].Move? ==> actions[i].fate == Done)
  }

  /** Without faults every new row's inserter has been told so, and nobody errs. */
  ghost predicate Told(s: State, keys: map<Key, Id>) {
    && (forall c :: c in s.pcs ==> s.pcs[c] != Errored)
    && (forall k :: k in keys ==> k in s.keys)
    && (forall k :: k in s.keys && k !in keys ==> k in s.creator)
    && (forall k :: k in s.creator ==>
        k in s.keys && k !in keys && s.creator[k] in s.pcs && s.pcs[s.creator[k]] == Returned(s.keys[k], true))
  }

  lemma ArriveTold(s: State, keys: map<Key, Id>, c: Caller, key: Key)
    requires Told(s, keys)
    ensures Told(Step(s, Arrive(c, key)), keys)
  {
  }

  lemma InsertTold(s: State, keys: map<Key, Id>, c: Caller)
    requires Inv(s) && Told(s, keys) && c in s.pcs && s.pcs[c] == Inserting
    ensures Told(Step(s, Move(c, Done)), keys)
  {
    hide FreshNext;
  }

  lemma OtherTold(s: State, keys: map<Key, Id>, c: Caller)
    requires Inv(s) && Told(s, keys) && (c in s.pcs ==> s.pcs[c] != Inserting)
    ensures Told(Step(s, Move(c, Done)), keys)
  {
    hide FreshNext;
    if c in s.pcs {
      assert PcInv(s, c, s.wants[c], s.pcs[c]);
    }
  }

  lemma StepTold(s: State, keys: map<Key, Id>, a: Action)
    requires Inv(s) && Told(s, keys) && (a.Move? ==> a.fate == Done)
    ensures Told(Step(s, a), keys)
  {
    hide Inv, Told, Step;
    match a
    case Arrive(c, key) => ArriveTold(s, keys, c, key);
    case Move(c, _) =>
      if c in s.pcs && s.pcs[c] == Inserting {
        InsertTold(s, keys, c);
      } else {
        OtherTold(s, keys, c);
      }
  }

  lemma {:induction false} RunTold(keys: map<Key, Id>, next: nat, actions: seq<Action>)
    requires FreshNext(keys, next) && Faultless(actions)
    ensures Told(Run(Initial(keys, next), actions), keys)
  {
    hide Step, Told, Inv;
    if actions == [] {
      ToldInitially(keys, next);
    } else {
      RunTold(keys, next, actions[..|actions| - 1]);
      RunInv(keys, next, actions[..|actions| - 1]);
      StepTold(Run(Initial(keys, next), actions[..|actions| - 1]), keys, actions[|actions| - 1]);
    }
  }

  lemma ToldInitially(keys: map<Key, Id>, next: nat)
    ensures Told(Initial(keys, next), keys)
  {
  }

  /** Without faults, as soon as one caller returns with a new key, exactly one caller has created its job. */
  lemma ExactlyOneCreates(keys: map<Key, Id>, next: nat, actions: seq<Action>, c: Caller) returns (creator: Caller)
    requires FreshNext(keys, next) && Faultless(actions)
    requires var s := Run(Initial(keys, next), actions);
             c in s.pcs && c in s.wants && s.pcs[c].Returned? && s.wants[c] !in keys
    ensures var s := Run(Initial(keys, next), actions);
            && creator in s.pcs && creator in s.wants && s.wants[creator] == s.wants[c]
            && s.pcs[creator] == Returned(s.pcs[c].id, true)
            && forall d ::
                 d in s.pcs && d in s.wants && s.wants[d] == s.wants[c] && s.pcs[d].Returned? && s.pcs[d].created ==>
                   d == creator
  {
    hide Run, Step;
    RunInv(keys, next, actions);
    RunTold(keys, next, actions);
    var s := Run(Initial(keys, next), actions);
    creator := s.creator[s.wants[c]];
  }
}
