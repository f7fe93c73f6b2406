/**
 Admission of a workflow: the checks on names, types and dependency lists, and Kahn's
 algorithm with in-degree and adjacency maps.
 */
module Admission {
  import opened Collections
  import opened Dag
  import opened Options

  datatype TaskSpec = TaskSpec(name: Name, kind: string, deps: seq<Name>)

  datatype DagError =
    | NoTasks
    | NameRequired
    | TypeRequired(name: Name)
    | DuplicateName(name: Name)
    | SelfDependency(name: Name)
    | UnknownDependency(name: Name, dep: Name)
    | CycleDetected

  datatype Verdict = Accepted | Rejected(error: DagError)

  // ---- What admission means --------------------------------------------------------------

  /** The dependency graph of a task list; a repeated name keeps its last entry. */
  function GraphOf(tasks: seq<TaskSpec>): Graph {
    if tasks == [] then map[]
    else
      var t := tasks[|tasks| - 1];
      GraphOf(tasks[..|tasks| - 1])[t.name := t.deps]
  }

  function NamesOf(tasks: seq<TaskSpec>): set<Name> {
    if tasks == [] then {}
    else NamesOf(tasks[..|tasks| - 1]) + {tasks[|tasks| - 1].name}
  }

  predicate UniqueNames(tasks: seq<TaskSpec>) {
    forall i, j :: 0 <= i < j < |tasks| ==> tasks[i].name != tasks[j].name
  }

  /** The task lists a workflow may be created from. */
  ghost predicate Admissible(tasks: seq<TaskSpec>) {
    && tasks != []
    && (forall i :: 0 <= i < |tasks| ==> tasks[i].name.text != "" && tasks[i].kind != "")
    && UniqueNames(tasks)
    && (forall i, k :: 0 <= i < |tasks| && 0 <= k < |tasks[i].deps| ==>
          tasks[i].deps[k] != tasks[i].name && tasks[i].deps[k] in NamesOf(tasks))
    && Acyclic(GraphOf(tasks))
  }

  function NameError(tasks: seq<TaskSpec>, i: nat): (e: Option<DagError>)
    requires i < |tasks|
    ensures e != Some(CycleDetected)
  {
    if tasks[i].name.text == "" then Some(NameRequired)
    else if tasks[i].kind == "" then Some(TypeRequired(tasks[i].name))
    else if tasks[i].name in NamesOf(tasks[..i]) then Some(DuplicateName(tasks[i].name))
    else None
  }

  function FirstNameError(tasks: seq<TaskSpec>, n: nat): (e: Option<DagError>)
    requires n <= |tasks|
    ensures e != Some(CycleDetected)
  {
    if n == 0 then None
    else if FirstNameError(tasks, n - 1).Some? then FirstNameError(tasks, n - 1)
    else NameError(tasks, n - 1)
  }

  function DepError(tasks: seq<TaskSpec>, t: TaskSpec, k: nat): (e: Option<DagError>)
    requires k < |t.deps|
    ensures e != Some(CycleDetected)
  {
    if t.deps[k] == t.name then Some(SelfDependency(t.name))
    else if t.deps[k] !in NamesOf(tasks) then Some(UnknownDependency(t.name, t.deps[k]))
    else None
  }

  function FirstEntryError(tasks: seq<TaskSpec>, t: TaskSpec, k: nat): (e: Option<DagError>)
    requires k <= |t.deps|
    ensures e != Some(CycleDetected)
  {
    if k == 0 then None
    else if FirstEntryError(tasks, t, k - 1).Some? then FirstEntryError(tasks, t, k - 1)
    else DepError(tasks, t, k - 1)
  }

  function FirstDepError(tasks: seq<TaskSpec>, n: nat): (e: Option<DagError>)
    requires n <= |tasks|
    ensures e != Some(CycleDetected)
  {
    if n == 0 then None
    else if FirstDepError(tasks, n - 1).Some? then FirstDepError(tasks, n - 1)
    else FirstEntryError(tasks, tasks[n - 1], |tasks[n - 1].deps|)
  }

  /** The verdict, with the first error in scan order when the list is refused. */
  ghost function Judge(tasks: seq<TaskSpec>): Verdict {
    if tasks == [] then Rejected(NoTasks)
    else if FirstNameError(tasks, |tasks|).Some? then Rejected(FirstNameError(tasks, |tasks|).value)
    else if FirstDepError(tasks, |tasks|).Some? then Rejected(FirstDepError(tasks, |tasks|).value)
    else if Acyclic(GraphOf(tasks)) then Accepted
    else Rejected(CycleDetected)
  }

  lemma {:induction false} NoNameError(tasks: seq<TaskSpec>, n: nat)
    requires n <= |tasks|
    ensures FirstNameError(tasks, n) == None <==> forall i :: 0 <= i < n ==> NameError(tasks, i) == None
  {
    if n > 0 {
      NoNameError(tasks, n - 1);
    }
  }

  lemma {:induction false} NoEntryError(tasks: seq<TaskSpec>, t: TaskSpec, k: nat)
    requires k <= |t.deps|
    ensures FirstEntryError(tasks, t, k) == None <==> forall j :: 0 <= j < k ==> DepError(tasks, t, j) == None
  {
    if k > 0 {
      NoEntryError(tasks, t, k - 1);
    }
  }

  lemma {:induction false} NoDepError(tasks: seq<TaskSpec>, n: nat)
    requires n <= |tasks|
    ensures FirstDepError(tasks, n) == None
       <==> forall i, k :: 0 <= i < n && 0 <= k < |tasks[i].deps| ==> DepError(tasks, tasks[i], k) == None
  {
    if n > 0 {
      NoDepError(tasks, n - 1);
      NoEntryError(tasks, tasks[n - 1], |tasks[n - 1].deps|);
    }
  }

  lemma {:induction false} NamesOfMember(tasks: seq<TaskSpec>, n: Name)
    ensures n in NamesOf(tasks) <==> exists i :: 0 <= i < |tasks| && tasks[i].name == n
  {
    if tasks != [] {
      var init := tasks[..|tasks| - 1];
      NamesOfMember(init, n);
      assert forall i :: 0 <= i < |init| ==> init[i] == tasks[i];
    }
  }

  /** The verdict is acceptance for exactly the admissible lists. */
  lemma AcceptedIffAdmissible(tasks: seq<TaskSpec>)
    ensures Judge(tasks) == Accepted <==> Admissible(tasks)
  {
    NoNameError(tasks, |tasks|);
    NoDepError(tasks, |tasks|);
    forall i | 0 <= i < |tasks|
      ensures tasks[i].name in NamesOf(tasks[..i]) <==> exists j :: 0 <= j < i && tasks[j].name == tasks[i].name
    {
      NamesOfMember(tasks[..i], tasks[i].name);
      assert forall j :: 0 <= j < i ==> tasks[..i][j] == tasks[j];
    }
    if Judge(tasks) == Accepted {
      forall i | 0 <= i < |tasks|
        ensures tasks[i].name.text != "" && tasks[i].kind != "" && tasks[i].name !in NamesOf(tasks[..i])
      {
        assert NameError(tasks, i) == None;
      }
      forall i, k | 0 <= i < |tasks| && 0 <= k < |tasks[i].deps|
        ensures tasks[i].deps[k] != tasks[i].name && tasks[i].deps[k] in NamesOf(tasks)
      {
        assert DepError(tasks, tasks[i], k) == None;
      }
    }
  }

  lemma {:induction false} GraphOfTasks(tasks: seq<TaskSpec>)
    requires UniqueNames(tasks)
    ensures |GraphOf(tasks)| == |tasks|
    ensures GraphOf(tasks).Keys == NamesOf(tasks)
    ensures forall i :: 0 <= i < |tasks| ==>
        tasks[i].name in GraphOf(tasks) && GraphOf(tasks)[tasks[i].name] == tasks[i].deps
  {
    if tasks != [] {
      var init, t := tasks[..|tasks| - 1], tasks[|tasks| - 1];
      GraphOfTasks(init);
      NamesOfMember(init, t.name);
      assert forall i :: 0 <= i < |init| ==> init[i] == tasks[i];
    }
  }

  // ---- The two maps ----------------------------------------------------------------------

  type Adjacency = map<Name, seq<Name>>

  /** Reading a missing key of a Go map of slices yields the nil slice. */
  function Dependents(adjacency: Adjacency, name: Name): seq<Name> {
    if name in adjacency then adjacency[name] else []
  }

  /** Both maps count dependency entries, repeated ones included. */
  ghost predicate Represents(g: Graph, inDegree: map<Name, int>, adjacency: Adjacency) {
    && inDegree.Keys == g.Keys
    && (forall n :: n in g ==> inDegree[n] == |g[n]|)
    && (forall d, n :: n in Dependents(adjacency, d) ==> n in g)
    && (forall d, n :: n in g ==> multiset(Dependents(adjacency, d))[n] == multiset(g[n])[d])
  }

  method CheckNames(tasks: seq<TaskSpec>) returns (error: Option<DagError>, names: set<Name>)
    ensures error == FirstNameError(tasks, |tasks|)
    ensures error == None ==> UniqueNames(tasks) && names == NamesOf(tasks)
  {
    names := {};
    for i := 0 to |tasks|
      invariant FirstNameError(tasks, i) == None
      invariant names == NamesOf(tasks[..i])
      invariant UniqueNames(tasks[..i])
    {
      var t := tasks[i];
      NameErrorsStop(tasks, i);
      if t.name.text == "" {
        return Some(NameRequired), names;
      }
      if t.kind == "" {
        return Some(TypeRequired(t.name)), names;
      }
      if t.name in names {
        return Some(DuplicateName(t.name)), names;
      }
      names := names + {t.name};
      assert tasks[..i + 1][..i] == tasks[..i];
      NamesOfMember(tasks[..i], t.name);
    }
    assert tasks[..|tasks|] == tasks;
    error := None;
  }

  /** An error found at task `i` is the error of the whole scan. */
  lemma {:induction false} NameErrorsStop(tasks: seq<TaskSpec>, i: nat)
    requires i < |tasks| && FirstNameError(tasks, i) == None
    ensures NameError(tasks, i).Some? ==> FirstNameError(tasks, |tasks|) == NameError(tasks, i)
  {
    if NameError(tasks, i).Some? {
      for n := i + 1 to |tasks|
        invariant FirstNameError(tasks, n) == NameError(tasks, i)
      {
      }
    }
  }

  lemma {:induction false} EntryErrorSticks(tasks: seq<TaskSpec>, t: TaskSpec, k: nat, n: nat)
    requires k <= n <= |t.deps| && FirstEntryError(tasks, t, k).Some?
    ensures FirstEntryError(tasks, t, n) == FirstEntryError(tasks, t, k)
    decreases n
  {
    if k < n {
      EntryErrorSticks(tasks, t, k, n - 1);
    }
  }

  lemma {:induction false} DepErrorSticks(tasks: seq<TaskSpec>, i: nat, n: nat)
    requires i <= n <= |tasks| && FirstDepError(tasks, i).Some?
    ensures FirstDepError(tasks, n) == FirstDepError(tasks, i)
    decreases n
  {
    if i < n {
      DepErrorSticks(tasks, i, n - 1);
    }
  }

  lemma DepErrorsStop(tasks: seq<TaskSpec>, i: nat, k: nat)
    requires i < |tasks| && k < |tasks[i].deps|
    requires FirstDepError(tasks, i) == None && FirstEntryError(tasks, tasks[i], k) == None
    ensures DepError(tasks, tasks[i], k).Some? ==> FirstDepError(tasks, |tasks|) == DepError(tasks, tasks[i], k)
  {
    var t := tasks[i];
    if DepError(tasks, t, k).Some? {
      EntryErrorSticks(tasks, t, k + 1, |t.deps|);
      DepErrorSticks(tasks, i + 1, |tasks|);
    }
  }

  /** The dependency entries of task `a` already scanned at position (`i`, `k`). */
  ghost function Scanned(tasks: seq<TaskSpec>, i: nat, k: nat, a: nat): seq<Name>
    requires a < |tasks|
    requires i < |tasks| ==> k <= |tasks[i].deps|
  {
    if a < i then tasks[a].deps else if a == i then tasks[a].deps[..k] else []
  }

  ghost predicate DegreesCounted(tasks: seq<TaskSpec>, i: nat, k: nat, inDegree: map<Name, int>)
    requires i < |tasks| ==> k <= |tasks[i].deps|
  {
    && inDegree.Keys == NamesOf(tasks)
    && forall a :: 0 <= a < |tasks| ==>
         tasks[a].name in inDegree && inDegree[tasks[a].name] == |Scanned(tasks, i, k, a)|
  }

  ghost predicate EdgesCounted(tasks: seq<TaskSpec>, i: nat, k: nat, adjacency: Adjacency)
    requires i < |tasks| ==> k <= |tasks[i].deps|
  {
    && (forall d, n :: n in Dependents(adjacency, d) ==> n in NamesOf(tasks))
    && (forall a, d :: 0 <= a < |tasks| ==>
          multiset(Dependents(adjacency, d))[tasks[a].name] == multiset(Scanned(tasks, i, k, a))[d])
  }

  method ZeroDegrees(tasks: seq<TaskSpec>) returns (inDegree: map<Name, int>)
    ensures inDegree.Keys == NamesOf(tasks)
    ensures forall n :: n in inDegree ==> inDegree[n] == 0
  {
    inDegree := map[];
    for i := 0 to |tasks|
      invariant inDegree.Keys == NamesOf(tasks[..i])
      invariant forall n :: n in inDegree ==> inDegree[n] == 0
    {
      inDegree := inDegree[tasks[i].name := 0];
      assert tasks[..i + 1][..i] == tasks[..i];
    }
    assert tasks[..|tasks|] == tasks;
  }

  method BuildMaps(tasks: seq<TaskSpec>, names: set<Name>)
    returns (error: Option<DagError>, inDegree: map<Name, int>, adjacency: Adjacency)
    requires UniqueNames(tasks)
    requires names == NamesOf(tasks)
    ensures error == FirstDepError(tasks, |tasks|)
    ensures error == None ==> Represents(GraphOf(tasks), inDegree, adjacency)
  {
    hide DegreesCounted, EdgesCounted, NamesOf, Represents;
    inDegree := ZeroDegrees(tasks);
    adjacency := map[];
    StartCounting(tasks, inDegree);
    for i := 0 to |tasks|
      invariant FirstDepError(tasks, i) == None
      invariant DegreesCounted(tasks, i, 0, inDegree)
      invariant EdgesCounted(tasks, i, 0, adjacency)
    {
      var t := tasks[i];
      for k := 0 to |t.deps|
        invariant FirstEntryError(tasks, t, k) == None
        invariant DegreesCounted(tasks, i, k, inDegree)
        invariant EdgesCounted(tasks, i, k, adjacency)
      {
        var dep := t.deps[k];
        DepErrorsStop(tasks, i, k);
        if dep == t.name {
          return Some(SelfDependency(t.name)), inDegree, adjacency;
        }
        if dep !in names {
          return Some(UnknownDependency(t.name, dep)), inDegree, adjacency;
        }
        CountEdge(tasks, i, k, adjacency);
        CountDegree(tasks, i, k, inDegree);
        adjacency := adjacency[dep := Dependents(adjacency, dep) + [t.name]];
        inDegree := inDegree[t.name := inDegree[t.name] + 1];
      }
      NextTask(tasks, i, inDegree, adjacency);
    }
    error := None;
    AllCounted(tasks, inDegree, adjacency);
  }

  lemma StartCounting(tasks: seq<TaskSpec>, inDegree: map<Name, int>)
    requires inDegree.Keys == NamesOf(tasks) && forall n :: n in inDegree ==> inDegree[n] == 0
    ensures DegreesCounted(tasks, 0, 0, inDegree) && EdgesCounted(tasks, 0, 0, map[])
  {
    forall a | 0 <= a < |tasks|
      ensures tasks[a].name in NamesOf(tasks) && Scanned(tasks, 0, 0, a) == []
    {
      NamesOfMember(tasks, tasks[a].name);
    }
  }

  lemma NextTask(tasks: seq<TaskSpec>, i: nat, inDegree: map<Name, int>, adjacency: Adjacency)
    requires i < |tasks|
    requires DegreesCounted(tasks, i, |tasks[i].deps|, inDegree) && EdgesCounted(tasks, i, |tasks[i].deps|, adjacency)
    ensures DegreesCounted(tasks, i + 1, 0, inDegree) && EdgesCounted(tasks, i + 1, 0, adjacency)
  {
    forall a | 0 <= a < |tasks|
      ensures Scanned(tasks, i + 1, 0, a) == Scanned(tasks, i, |tasks[i].deps|, a)
    {
    }
  }

  lemma CountDegree(tasks: seq<TaskSpec>, i: nat, k: nat, inDegree: map<Name, int>)
    requires i < |tasks| && k < |tasks[i].deps| && UniqueNames(tasks)
    requires DegreesCounted(tasks, i, k, inDegree)
    ensures tasks[i].name in inDegree
    ensures DegreesCounted(tasks, i, k + 1, inDegree[tasks[i].name := inDegree[tasks[i].name] + 1])
  {
    var inDegree' := inDegree[tasks[i].name := inDegree[tasks[i].name] + 1];
    forall a | 0 <= a < |tasks|
      ensures tasks[a].name in inDegree' && inDegree'[tasks[a].name] == |Scanned(tasks, i, k + 1, a)|
    {
    }
  }

  lemma CountEdge(tasks: seq<TaskSpec>, i: nat, k: nat, adjacency: Adjacency)
    requires i < |tasks| && k < |tasks[i].deps| && UniqueNames(tasks)
    requires EdgesCounted(tasks, i, k, adjacency)
    ensures var dep := tasks[i].deps[k];
            EdgesCounted(tasks, i, k + 1, adjacency[dep := Dependents(adjacency, dep) + [tasks[i].name]])
  {
    var t := tasks[i];
    var dep := t.deps[k];
    var adjacency' := adjacency[dep := Dependents(adjacency, dep) + [t.name]];
    NamesOfMember(tasks, t.name);
    forall d, n | n in Dependents(adjacency', d) ensures n in NamesOf(tasks) {
      assert d != dep ==> Dependents(adjacency', d) == Dependents(adjacency, d);
      assert n in Dependents(adjacency, d) || n == t.name;
    }
    forall a, d | 0 <= a < |tasks|
      ensures multiset(Dependents(adjacency', d))[tasks[a].name] == multiset(Scanned(tasks, i, k + 1, a))[d]
    {
      CountEdgeAt(tasks, i, k, adjacency, a, d);
    }
  }

  lemma CountEdgeAt(tasks: seq<TaskSpec>, i: nat, k: nat, adjacency: Adjacency, a: nat, d: Name)
    requires i < |tasks| && k < |tasks[i].deps| && UniqueNames(tasks) && a < |tasks|
    requires multiset(Dependents(adjacency, d))[tasks[a].name] == multiset(Scanned(tasks, i, k, a))[d]
    ensures var dep := tasks[i].deps[k];
            multiset(Dependents(adjacency[dep := Dependents(adjacency, dep) + [tasks[i].name]], d))[tasks[a].name]
            == multiset(Scanned(tasks, i, k + 1, a))[d]
  {
    var t := tasks[i];
    assert t.deps[..k + 1] == t.deps[..k] + [t.deps[k]];
    assert a != i ==> tasks[a].name != t.name && Scanned(tasks, i, k + 1, a) == Scanned(tasks, i, k, a);
  }

  lemma AllCounted(tasks: seq<TaskSpec>, inDegree: map<Name, int>, adjacency: Adjacency)
    requires UniqueNames(tasks)
    requires DegreesCounted(tasks, |tasks|, 0, inDegree) && EdgesCounted(tasks, |tasks|, 0, adjacency)
    ensures Represents(GraphOf(tasks), inDegree, adjacency)
  {
    var g := GraphOf(tasks);
    GraphOfTasks(tasks);
    forall n | n in g
      ensures inDegree[n] == |g[n]|
      ensures forall d :: multiset(Dependents(adjacency, d))[n] == multiset(g[n])[d]
    {
      NamesOfMember(tasks, n);
      var a :| 0 <= a < |tasks| && tasks[a].name == n;
      assert Scanned(tasks, |tasks|, 0, a) == g[n];
    }
  }

  // ---- Kahn's algorithm ------------------------------------------------------------------

  /** How many entries of `s` lie outside `done`. */
  ghost function Outside(s: seq<Name>, done: set<Name>): nat {
    if s == [] then 0 else (if s[0] in done then 0 else 1) + Outside(s[1..], done)
  }

  lemma {:induction false} OutsideGrows(s: seq<Name>, done: set<Name>, x: Name)
    requires x !in done
    ensures Outside(s, done) == Outside(s, done + {x}) + multiset(s)[x]
  {
    if s != [] {
      OutsideGrows(s[1..], done, x);
      assert s == [s[0]] + s[1..];
    }
  }

  lemma {:induction false} OutsideZero(s: seq<Name>, done: set<Name>)
    ensures Outside(s, done) == 0 <==> forall d :: d in s ==> d in done
    ensures done == {} ==> Outside(s, done) == |s|
  {
    if s != [] {
      OutsideZero(s[1..], done);
      assert s == [s[0]] + s[1..];
    }
  }

  ghost function SumDegrees(names: seq<Name>, inDegree: map<Name, int>): int {
    if names == [] then 0
    else (if names[0] in inDegree then inDegree[names[0]] else 0) + SumDegrees(names[1..], inDegree)
  }

  lemma {:induction false} SumDegreesUpdate(names: seq<Name>, inDegree: map<Name, int>, n: Name, v: int)
    requires Distinct(names) && n in inDegree
    ensures SumDegrees(names, inDegree[n := v]) == SumDegrees(names, inDegree) + if n in names then v - inDegree[n]
        else 0
  {
    if names != [] {
      SumDegreesUpdate(names[1..], inDegree, n, v);
    }
  }

  lemma SumDegreesSpend(g: Graph, names: seq<Name>, inDegree: map<Name, int>, n: Name)
    requires Distinct(names) && Elements(names) == g.Keys == inDegree.Keys && n in g
    ensures SumDegrees(names, inDegree[n := inDegree[n] - 1]) == SumDegrees(names, inDegree) - 1
  {
    assert n in Elements(names);
    SumDegreesUpdate(names, inDegree, n, inDegree[n] - 1);
  }

  lemma {:induction false} SumDegreesNonNegative(g: Graph, names: seq<Name>, inDegree: map<Name, int>, queue: seq<Name>,
                                                 popped: set<Name>)
    requires QueueState(g, inDegree, queue, popped)
    ensures SumDegrees(names, inDegree) >= 0
  {
    if names != [] {
      SumDegreesNonNegative(g, names[1..], inDegree, queue, popped);
    }
  }

  lemma {:induction false} SumDegreesZero(g: Graph, names: seq<Name>, inDegree: map<Name, int>, popped: set<Name>)
    requires QueueState(g, inDegree, [], popped) && g.Keys <= popped
    ensures SumDegrees(names, inDegree) == 0
  {
    if names != [] {
      SumDegreesZero(g, names[1..], inDegree, popped);
    }
  }

  /** The queue holds the tasks whose in-degree has reached zero and that are not yet popped. */
  ghost predicate QueueState(g: Graph, inDegree: map<Name, int>, queue: seq<Name>, popped: set<Name>) {
    && inDegree.Keys == g.Keys
    && Distinct(queue)
    && (forall n :: n in queue ==> n in g && n !in popped)
    && (forall n :: n in g ==> inDegree[n] >= 0)
    && (forall n :: n in g ==> (inDegree[n] == 0 <==> n in popped || n in queue))
  }

  /** Every in-degree counts the dependency entries that are not yet popped. */
  ghost predicate DegreesLeft(g: Graph, inDegree: map<Name, int>, popped: set<Name>) {
    inDegree.Keys == g.Keys && forall n :: n in g ==> inDegree[n] == Outside(g[n], popped)
  }

  ghost predicate PopOrder(g: Graph, order: seq<Name>) {
    Distinct(order) && DepsFirst(g, order)
  }

  /** The first `k` entries of the popped task's dependents have been discounted. */
  ghost predicate Relaxing(g: Graph, inDegree: map<Name, int>, done: set<Name>, neighbors: seq<Name>, k: nat)
    requires k <= |neighbors|
  {
    inDegree.Keys == g.Keys
    && forall n :: n in g ==> inDegree[n] == Outside(g[n], done) - multiset(neighbors[..k])[n]
  }

  /** What one pass through the inner loop does to the in-degrees and the queue. */
  ghost predicate RelaxStep(n: Name, inDegree: map<Name, int>, queue: seq<Name>, inDegree': map<Name, int>,
                            queue': seq<Name>) {
    && n in inDegree
    && inDegree' == inDegree[n := inDegree[n] - 1]
    && queue' == if inDegree[n] == 1 then queue + [n] else queue
  }

  lemma RelaxStart(g: Graph, inDegree: map<Name, int>, done: set<Name>, neighbors: seq<Name>)
    requires DegreesLeft(g, inDegree, done)
    ensures Relaxing(g, inDegree, done, neighbors, 0)
  {
    assert neighbors[..0] == [];
  }

  lemma RelaxKeys(g: Graph, inDegree: map<Name, int>, done: set<Name>, neighbors: seq<Name>, k: nat)
    requires k <= |neighbors| && Relaxing(g, inDegree, done, neighbors, k)
    ensures inDegree.Keys == g.Keys
  {
  }

  lemma StillPositive(g: Graph, inDegree: map<Name, int>, done: set<Name>, curr: Name, neighbors: seq<Name>, k: nat)
    requires k < |neighbors| && neighbors[k] in g && curr !in done
    requires multiset(neighbors)[neighbors[k]] == multiset(g[neighbors[k]])[curr]
    requires Relaxing(g, inDegree, done, neighbors, k)
    ensures inDegree[neighbors[k]] > 0
  {
    var n := neighbors[k];
    assert neighbors == neighbors[..k] + [n] + neighbors[k + 1..];
    OutsideGrows(g[n], done, curr);
  }

  lemma RelaxDegrees(g: Graph, inDegree: map<Name, int>, done: set<Name>, neighbors: seq<Name>, k: nat)
    requires k < |neighbors| && neighbors[k] in g && Relaxing(g, inDegree, done, neighbors, k)
    ensures Relaxing(g, inDegree[neighbors[k] := inDegree[neighbors[k]] - 1], done, neighbors, k + 1)
  {
    assert neighbors[..k + 1] == neighbors[..k] + [neighbors[k]];
  }

  lemma RelaxQueue(g: Graph, n: Name, inDegree: map<Name, int>, queue: seq<Name>,
                   inDegree': map<Name, int>, queue': seq<Name>, popped: set<Name>)
    requires n in g && QueueState(g, inDegree, queue, popped) && inDegree[n] > 0
    requires RelaxStep(n, inDegree, queue, inDegree', queue')
    ensures QueueState(g, inDegree', queue', popped)
  {
  }

  lemma RelaxOne(g: Graph, inDegree: map<Name, int>, queue: seq<Name>, inDegree': map<Name, int>, queue': seq<Name>,
                 done: set<Name>, curr: Name, neighbors: seq<Name>, k: nat)
    requires k < |neighbors| && neighbors[k] in g && curr !in done
    requires multiset(neighbors)[neighbors[k]] == multiset(g[neighbors[k]])[curr]
    requires QueueState(g, inDegree, queue, done + {curr}) && Relaxing(g, inDegree, done, neighbors, k)
    requires RelaxStep(neighbors[k], inDegree, queue, inDegree', queue')
    ensures QueueState(g, inDegree', queue', done + {curr})
    ensures Relaxing(g, inDegree', done, neighbors, k + 1)
  {
    hide QueueState, Relaxing;
    StillPositive(g, inDegree, done, curr, neighbors, k);
    RelaxDegrees(g, inDegree, done, neighbors, k);
    RelaxQueue(g, neighbors[k], inDegree, queue, inDegree', queue', done + {curr});
  }

  lemma RelaxedAll(g: Graph, inDegree: map<Name, int>, done: set<Name>, curr: Name, neighbors: seq<Name>)
    requires curr !in done && Relaxing(g, inDegree, done, neighbors, |neighbors|)
    requires forall n :: n in g ==> multiset(neighbors)[n] == multiset(g[n])[curr]
    ensures DegreesLeft(g, inDegree, done + {curr})
  {
    assert neighbors[..|neighbors|] == neighbors;
    forall n | n in g ensures inDegree[n] == Outside(g[n], done + {curr}) {
      OutsideGrows(g[n], done, curr);
    }
  }

  lemma PopReady(g: Graph, inDegree: map<Name, int>, queue: seq<Name>, order: seq<Name>)
    requires QueueState(g, inDegree, queue, Elements(order)) && queue != []
    requires DegreesLeft(g, inDegree, Elements(order)) && PopOrder(g, order)
    ensures PopOrder(g, order + [queue[0]]) && |order| < |g|
    ensures Elements(order + [queue[0]]) == Elements(order) + {queue[0]}
    ensures queue[0] !in Elements(order)
  {
    var curr := queue[0];
    assert curr in queue;
    OutsideZero(g[curr], Elements(order));
    ExtendOrder(g, order, curr);
  }

  lemma ExtendOrder(g: Graph, order: seq<Name>, curr: Name)
    requires PopOrder(g, order) && curr in g && curr !in Elements(order)
    requires forall d :: d in g[curr] ==> d in Elements(order)
    ensures PopOrder(g, order + [curr]) && |order| < |g|
  {
    var order' := order + [curr];
    forall i, d | 0 <= i < |order'| && d in g[order'[i]] ensures d in order'[..i] {
      assert order'[..i] == order[..i];
      assert i == |order| ==> d in Elements(order);
    }
    assert Elements(order') <= g.Keys by {
      assert forall i :: 0 <= i < |order'| ==> order'[i] in g;
    }
    DistinctCardinality(order');
    SubsetSize(Elements(order'), g.Keys);
  }

  lemma PopQueue(g: Graph, inDegree: map<Name, int>, queue: seq<Name>, popped: set<Name>)
    requires QueueState(g, inDegree, queue, popped) && queue != []
    ensures QueueState(g, inDegree, queue[1..], popped + {queue[0]})
  {
    assert queue == [queue[0]] + queue[1..];
  }

  /** With nothing waiting, the popped tasks are all of them exactly when there is no cycle. */
  lemma KahnDone(g: Graph, inDegree: map<Name, int>, order: seq<Name>)
    requires Closed(g) && QueueState(g, inDegree, [], Elements(order))
    requires DegreesLeft(g, inDegree, Elements(order)) && PopOrder(g, order)
    ensures |order| == |g| <==> Acyclic(g)
    ensures |order| == |g| ==> IsTopological(g, order)
  {
    var done := Elements(order);
    DistinctCardinality(order);
    assert done <= g.Keys;
    SubsetSize(done, g.Keys);
    if |order| == |g| {
      assert IsTopological(g, order);
      TopologicalImpliesAcyclic(g, order);
    } else {
      var stuck := g.Keys - done;
      assert done != g.Keys;
      var left :| left in g.Keys && left !in done;
      assert left in stuck;
      forall x | x in stuck ensures WaitsOn(g, stuck, x) {
        assert x !in order && inDegree[x] > 0;
        OutsideZero(g[x], done);
        var d :| d in g[x] && d !in done;
        assert Edge(g, x, d);
      }
      StuckSetHasCycle(g, stuck);
    }
  }

  /** The start order comes from iterating a Go map, hence the arbitrary picks. */
  method StartQueue(inDegree: map<Name, int>) returns (queue: seq<Name>)
    ensures Distinct(queue)
    ensures forall n :: n in queue <==> n in inDegree && inDegree[n] == 0
  {
    queue := [];
    var rest := inDegree.Keys;
    while rest != {}
      invariant rest <= inDegree.Keys
      invariant Distinct(queue)
      invariant forall n :: n in queue <==> n in inDegree.Keys - rest && inDegree[n] == 0
      decreases rest
    {
      var name :| name in rest;
      rest := rest - {name};
      if inDegree[name] == 0 {
        queue := queue + [name];
      }
    }
  }

  /** Counts the popped task `curr` off every entry that names it. */
  method RelaxDependents(ghost g: Graph, ghost names: seq<Name>, ghost done: set<Name>, ghost curr: Name,
                         neighbors: seq<Name>, inDegree0: map<Name, int>, queue0: seq<Name>)
    returns (inDegree: map<Name, int>, queue: seq<Name>)
    requires QueueState(g, inDegree0, queue0, done + {curr}) && curr !in done
    requires DegreesLeft(g, inDegree0, done)
    requires forall n :: n in neighbors ==> n in g
    requires forall n :: n in g ==> multiset(neighbors)[n] == multiset(g[n])[curr]
    requires Distinct(names) && Elements(names) == g.Keys
    ensures QueueState(g, inDegree, queue, done + {curr})
    ensures DegreesLeft(g, inDegree, done + {curr})
    ensures |neighbors| + SumDegrees(names, inDegree) == SumDegrees(names, inDegree0)
  {
    hide Outside, SumDegrees, Distinct, QueueState, Relaxing, DegreesLeft;
    inDegree, queue := inDegree0, queue0;
    RelaxStart(g, inDegree, done, neighbors);
    for k := 0 to |neighbors|
      invariant QueueState(g, inDegree, queue, done + {curr})
      invariant Relaxing(g, inDegree, done, neighbors, k)
      invariant k + SumDegrees(names, inDegree) == SumDegrees(names, inDegree0)
    {
      var neighbor := neighbors[k];
      ghost var before, waiting := inDegree, queue;
      RelaxKeys(g, inDegree, done, neighbors, k);
      inDegree := inDegree[neighbor := inDegree[neighbor] - 1];
      if inDegree[neighbor] == 0 {
        queue := queue + [neighbor];
      }
      RelaxOne(g, before, waiting, inDegree, queue, done, curr, neighbors, k);
      SumDegreesSpend(g, names, before, neighbor);
    }
    RelaxedAll(g, inDegree, done, curr, neighbors);
  }

  /** The ghost results are the pop order and the number of passes through the inner loop. */
  method Kahn(ghost g: Graph, ghost names: seq<Name>, inDegree0: map<Name, int>, adjacency: Adjacency)
    returns (visitedCount: nat, ghost order: seq<Name>, ghost relaxed: nat)
    requires Closed(g) && Represents(g, inDegree0, adjacency)
    requires Distinct(names) && Elements(names) == g.Keys
    ensures visitedCount == |order| <= |g| && PopOrder(g, order)
    ensures visitedCount == |g| <==> Acyclic(g)
    ensures visitedCount == |g| ==> IsTopological(g, order)
    ensures relaxed <= SumDegrees(names, inDegree0)
    ensures visitedCount == |g| ==> relaxed == SumDegrees(names, inDegree0)
  {
    hide QueueState, DegreesLeft, PopOrder, Represents, SumDegrees, Elements, Closed, Distinct, Acyclic;
    var inDegree := inDegree0;
    var queue := StartQueue(inDegree);
    visitedCount, order, relaxed := 0, [], 0;
    StartState(g, inDegree, adjacency, queue);
    while |queue| > 0
      invariant QueueState(g, inDegree, queue, Elements(order))
      invariant DegreesLeft(g, inDegree, Elements(order))
      invariant PopOrder(g, order)
      invariant visitedCount == |order| <= |g|
      invariant relaxed + SumDegrees(names, inDegree) == SumDegrees(names, inDegree0)
      decreases |g| - visitedCount
    {
      var curr := queue[0];
      ghost var done := Elements(order);
      PopReady(g, inDegree, queue, order);
      PopQueue(g, inDegree, queue, done);
      queue := queue[1..];
      visitedCount := visitedCount + 1;
      order := order + [curr];
      var neighbors := Dependents(adjacency, curr);
      DependentsCount(g, inDegree0, adjacency, curr);
      inDegree, queue := RelaxDependents(g, names, done, curr, neighbors, inDegree, queue);
      relaxed := relaxed + |neighbors|;
    }
    assert queue == [];
    SumDegreesNonNegative(g, names, inDegree, queue, Elements(order));
    if visitedCount == |g| {
      AllPopped(g, order);
      SumDegreesZero(g, names, inDegree, Elements(order));
    }
    KahnDone(g, inDegree, order);
  }

  lemma AllPopped(g: Graph, order: seq<Name>)
    requires PopOrder(g, order) && |order| == |g|
    ensures g.Keys <= Elements(order)
  {
    DistinctCardinality(order);
    SubsetSize(Elements(order), g.Keys);
  }

  lemma DependentsCount(g: Graph, inDegree: map<Name, int>, adjacency: Adjacency, curr: Name)
    requires Represents(g, inDegree, adjacency)
    ensures forall n :: n in Dependents(adjacency, curr) ==> n in g
    ensures forall n :: n in g ==> multiset(Dependents(adjacency, curr))[n] == multiset(g[n])[curr]
  {
  }

  lemma StartState(g: Graph, inDegree: map<Name, int>, adjacency: Adjacency, queue: seq<Name>)
    requires Represents(g, inDegree, adjacency) && Distinct(queue)
    requires forall n :: n in queue <==> n in inDegree && inDegree[n] == 0
    ensures QueueState(g, inDegree, queue, Elements<Name>([])) && DegreesLeft(g, inDegree, Elements<Name>([])) &&
        PopOrder(g, [])
  {
    assert Elements<Name>([]) == {};
    forall n | n in g ensures Outside(g[n], {}) == |g[n]| {
      OutsideZero(g[n], {});
    }
  }

  // ---- The whole check -------------------------------------------------------------------

  ghost function Names(tasks: seq<TaskSpec>): (names: seq<Name>)
    ensures |names| == |tasks| && forall i :: 0 <= i < |tasks| ==> names[i] == tasks[i].name
  {
    seq(|tasks|, i requires 0 <= i < |tasks| => tasks[i].name)
  }

  /** All dependency entries of the first `n` tasks, repetitions included. */
  ghost function EntryCount(tasks: seq<TaskSpec>, n: nat): nat
    requires n <= |tasks|
  {
    if n == 0 then 0 else EntryCount(tasks, n - 1) + |tasks[n - 1].deps|
  }

  lemma {:induction false} SumDegreesSnoc(names: seq<Name>, n: Name, inDegree: map<Name, int>)
    ensures SumDegrees(names + [n], inDegree) == SumDegrees(names, inDegree) + if n in inDegree then inDegree[n] else 0
  {
    if names == [] {
      assert names + [n] == [n];
    } else {
      assert (names + [n])[1..] == names[1..] + [n];
      SumDegreesSnoc(names[1..], n, inDegree);
    }
  }

  /** The in-degrees add up to the number of dependency entries. */
  lemma {:induction false} DegreesAreEntries(tasks: seq<TaskSpec>, n: nat, inDegree: map<Name, int>,
                                             adjacency: Adjacency)
    requires UniqueNames(tasks) && Represents(GraphOf(tasks), inDegree, adjacency) && n <= |tasks|
    ensures SumDegrees(Names(tasks)[..n], inDegree) == EntryCount(tasks, n)
  {
    hide Represents, GraphOf;
    if n > 0 {
      DegreesAreEntries(tasks, n - 1, inDegree, adjacency);
      assert Names(tasks)[..n] == Names(tasks)[..n - 1] + [tasks[n - 1].name];
      SumDegreesSnoc(Names(tasks)[..n - 1], tasks[n - 1].name, inDegree);
      DegreeOf(tasks, n - 1, inDegree, adjacency);
    }
  }

  lemma DegreeOf(tasks: seq<TaskSpec>, i: nat, inDegree: map<Name, int>, adjacency: Adjacency)
    requires UniqueNames(tasks) && Represents(GraphOf(tasks), inDegree, adjacency) && i < |tasks|
    ensures tasks[i].name in inDegree && inDegree[tasks[i].name] == |tasks[i].deps|
  {
    GraphOfTasks(tasks);
  }

  /** The ghost results are the pop order and the number of passes through the inner loop. */
  method ValidateDag(tasks: seq<TaskSpec>) returns (verdict: Verdict, ghost order: seq<Name>, ghost relaxed: nat)
    ensures verdict == Judge(tasks)
    ensures verdict == Accepted <==> Admissible(tasks)
    ensures verdict == Accepted ==> IsTopological(GraphOf(tasks), order)
    ensures verdict == Rejected(CycleDetected) ==> exists p :: IsCycle(GraphOf(tasks), p)
    ensures relaxed <= EntryCount(tasks, |tasks|)
    ensures verdict == Accepted ==> relaxed == EntryCount(tasks, |tasks|)
  {
    hide Acyclic, Admissible, IsTopological, IsCycle, FirstNameError, FirstDepError, NamesOf, Represents, Closed;
    hide Distinct, Elements, GraphOf, UniqueNames, PopOrder, SumDegrees, EntryCount;
    AcceptedIffAdmissible(tasks);
    order, relaxed := [], 0;
    if |tasks| == 0 {
      return Rejected(NoTasks), order, relaxed;
    }
    var nameError, names := CheckNames(tasks);
    if nameError.Some? {
      return Rejected(nameError.value), order, relaxed;
    }
    var depError, inDegree, adjacency := BuildMaps(tasks, names);
    if depError.Some? {
      return Rejected(depError.value), order, relaxed;
    }
    ghost var g := GraphOf(tasks);
    ScannedGraph(tasks);
    var visitedCount;
    DegreesAreEntries(tasks, |tasks|, inDegree, adjacency);
    assert Names(tasks)[..|tasks|] == Names(tasks);
    visitedCount, order, relaxed := Kahn(g, Names(tasks), inDegree, adjacency);
    if visitedCount != |tasks| {
      assert exists p :: IsCycle(g, p) by {
        NotAcyclic(g);
      }
      return Rejected(CycleDetected), order, relaxed;
    }
    verdict := Accepted;
  }

  // ---- Which error is reported -----------------------------------------------------------

  /** The task is named and typed, and no earlier task has its name. */
  predicate GoodTask(tasks: seq<TaskSpec>, i: nat)
    requires i < |tasks|
  {
    tasks[i].name.text != "" && tasks[i].kind != "" && forall j :: 0 <= j < i ==> tasks[j].name != tasks[i].name
  }

  /** The entry names another task of the list. */
  predicate GoodEntry(tasks: seq<TaskSpec>, i: nat, k: nat)
    requires i < |tasks| && k < |tasks[i].deps|
  {
    tasks[i].deps[k] != tasks[i].name && exists j :: 0 <= j < |tasks| && tasks[j].name == tasks[i].deps[k]
  }

  lemma NameErrorMeans(tasks: seq<TaskSpec>, i: nat)
    requires i < |tasks|
    ensures NameError(tasks, i) == None <==> GoodTask(tasks, i)
    ensures NameError(tasks, i) == Some(NameRequired) <==> tasks[i].name.text == ""
    ensures NameError(tasks, i) == Some(TypeRequired(tasks[i].name)) <==>
        tasks[i].name.text != "" && tasks[i].kind == ""
    ensures NameError(tasks, i) == Some(DuplicateName(tasks[i].name)) <==>
              tasks[i].name.text != "" && tasks[i].kind != "" && !GoodTask(tasks, i)
    ensures NameError(tasks, i) in {None, Some(NameRequired), Some(TypeRequired(tasks[i].name)),
                                    Some(DuplicateName(tasks[i].name))}
  {
    NamesOfMember(tasks[..i], tasks[i].name);
  }

  lemma DepErrorMeans(tasks: seq<TaskSpec>, i: nat, k: nat)
    requires i < |tasks| && k < |tasks[i].deps|
    ensures DepError(tasks, tasks[i], k) == None <==> GoodEntry(tasks, i, k)
    ensures DepError(tasks, tasks[i], k) == Some(SelfDependency(tasks[i].name)) <==> tasks[i].deps[k] == tasks[i].name
    ensures DepError(tasks, tasks[i], k) in
              {None, Some(SelfDependency(tasks[i].name)), Some(UnknownDependency(tasks[i].name, tasks[i].deps[k]))}
  {
    NamesOfMember(tasks, tasks[i].deps[k]);
  }

  lemma {:induction false} WhichTask(tasks: seq<TaskSpec>, n: nat) returns (i: nat)
    requires n <= |tasks| && FirstNameError(tasks, n).Some?
    ensures i < n && FirstNameError(tasks, n) == NameError(tasks, i)
    ensures forall j :: 0 <= j < i ==> GoodTask(tasks, j)
  {
    if FirstNameError(tasks, n - 1).Some? {
      i := WhichTask(tasks, n - 1);
    } else {
      i := n - 1;
      NoNameError(tasks, n - 1);
      forall j | 0 <= j < i ensures GoodTask(tasks, j) {
        NameErrorMeans(tasks, j);
      }
    }
  }

  lemma {:induction false} WhichEntry(tasks: seq<TaskSpec>, i: nat, n: nat) returns (k: nat)
    requires i < |tasks| && n <= |tasks[i].deps| && FirstEntryError(tasks, tasks[i], n).Some?
    ensures k < n && FirstEntryError(tasks, tasks[i], n) == DepError(tasks, tasks[i], k)
    ensures forall j :: 0 <= j < k ==> GoodEntry(tasks, i, j)
  {
    if FirstEntryError(tasks, tasks[i], n - 1).Some? {
      k := WhichEntry(tasks, i, n - 1);
    } else {
      k := n - 1;
      NoEntryError(tasks, tasks[i], n - 1);
      forall j | 0 <= j < k ensures GoodEntry(tasks, i, j) {
        DepErrorMeans(tasks, i, j);
      }
    }
  }

  lemma {:induction false} WhichDependency(tasks: seq<TaskSpec>, n: nat) returns (i: nat, k: nat)
    requires n <= |tasks| && FirstDepError(tasks, n).Some?
    ensures i < n && k < |tasks[i].deps| && FirstDepError(tasks, n) == DepError(tasks, tasks[i], k)
    ensures forall a, b :: 0 <= a < i && 0 <= b < |tasks[a].deps| ==> GoodEntry(tasks, a, b)
    ensures forall b :: 0 <= b < k ==> GoodEntry(tasks, i, b)
  {
    hide DepError, GoodEntry;
    if FirstDepError(tasks, n - 1).Some? {
      i, k := WhichDependency(tasks, n - 1);
    } else {
      i := n - 1;
      k := WhichEntry(tasks, i, |tasks[i].deps|);
      NoDepError(tasks, n - 1);
      forall a, b | 0 <= a < i && 0 <= b < |tasks[a].deps| ensures GoodEntry(tasks, a, b) {
        DepErrorMeans(tasks, a, b);
      }
    }
  }

  /** The error of a refused list is that of the first bad task or, when all are good, of the first bad entry. */
  lemma WhichError(tasks: seq<TaskSpec>) returns (i: nat, k: nat)
    requires tasks != [] && Judge(tasks).Rejected? && Judge(tasks).error != CycleDetected
    ensures i < |tasks|
    ensures forall j :: 0 <= j < i ==> GoodTask(tasks, j)
    ensures match Judge(tasks).error
            case NameRequired => tasks[i].name.text == ""
            case TypeRequired(n) => tasks[i].name == n && n.text != "" && tasks[i].kind == ""
            case DuplicateName(n) =>
              tasks[i].name == n && n.text != "" && tasks[i].kind != "" && exists j :: 0 <= j < i && tasks[j].name == n
            case SelfDependency(n) =>
              tasks[i].name == n && k < |tasks[i].deps| && tasks[i].deps[k] == n && EarlierGood(tasks, i, k)
            case UnknownDependency(n, d) =>
              && tasks[i].name == n && k < |tasks[i].deps| && tasks[i].deps[k] == d != n && EarlierGood(tasks, i, k)
              && forall j :: 0 <= j < |tasks| ==> tasks[j].name != d
            case _ => false
  {
    hide FirstNameError, FirstDepError, NameError, DepError;
    if FirstNameError(tasks, |tasks|).Some? {
      i := WhichTask(tasks, |tasks|);
      k := 0;
      NameErrorMeans(tasks, i);
    } else {
      i, k := WhichDependency(tasks, |tasks|);
      DepErrorMeans(tasks, i, k);
      NoNameError(tasks, |tasks|);
      forall j | 0 <= j < |tasks| ensures GoodTask(tasks, j) {
        NameErrorMeans(tasks, j);
      }
    }
  }

  /** Every task is good, and so is every entry before this one. */
  ghost predicate EarlierGood(tasks: seq<TaskSpec>, i: nat, k: nat)
    requires i < |tasks| && k < |tasks[i].deps|
  {
    && (forall j :: 0 <= j < |tasks| ==> GoodTask(tasks, j))
    && (forall a, b :: 0 <= a < i && 0 <= b < |tasks[a].deps| ==> GoodEntry(tasks, a, b))
    && (forall b :: 0 <= b < k ==> GoodEntry(tasks, i, b))
  }

  lemma NotAcyclic(g: Graph)
    ensures !Acyclic(g) ==> exists p :: IsCycle(g, p)
  {
  }

  /** What the two scans establish about the graph. */
  lemma ScannedGraph(tasks: seq<TaskSpec>)
    requires UniqueNames(tasks) && FirstDepError(tasks, |tasks|) == None
    ensures Closed(GraphOf(tasks)) && |GraphOf(tasks)| == |tasks|
    ensures Distinct(Names(tasks)) && Elements(Names(tasks)) == GraphOf(tasks).Keys
  {
    hide FirstDepError, DepError, FirstEntryError, GraphOf, Elements;
    var g := GraphOf(tasks);
    GraphOfTasks(tasks);
    NamesListed(tasks);
    forall x, d | Edge(g, x, d) ensures d in g {
      KnownDependency(tasks, x, d);
    }
  }

  lemma NamesListed(tasks: seq<TaskSpec>)
    ensures Elements(Names(tasks)) == NamesOf(tasks)
  {
    forall n ensures n in Elements(Names(tasks)) <==> n in NamesOf(tasks) {
      NamesOfMember(tasks, n);
      if n in NamesOf(tasks) {
        var i :| 0 <= i < |tasks| && tasks[i].name == n;
        assert Names(tasks)[i] == n;
      }
    }
  }

  lemma KnownDependency(tasks: seq<TaskSpec>, x: Name, d: Name)
    requires UniqueNames(tasks) && FirstDepError(tasks, |tasks|) == None && Edge(GraphOf(tasks), x, d)
    ensures d in GraphOf(tasks)
  {
    hide FirstEntryError;
    GraphOfTasks(tasks);
    NoDepError(tasks, |tasks|);
    NamesOfMember(tasks, x);
    var i :| 0 <= i < |tasks| && tasks[i].name == x;
    var k :| 0 <= k < |tasks[i].deps| && tasks[i].deps[k] == d;
    assert DepError(tasks, tasks[i], k) == None;
  }
}
