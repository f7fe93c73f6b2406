/**
 The dashboard's layering of a workflow: a memoised recursion that gives each task its level,
 and the grouping of tasks by level.  Task lists come from the API, so they need not be acyclic.
 */
module Levels {
  import opened Dag
  import opened Admission

  /** A chain of at least one step leads from `a` to `b`. */
  ghost predicate Reaches(g: Graph, a: Name, b: Name) {
    exists p :: IsChain(g, p) && |p| > 1 && p[0] == a && p[|p| - 1] == b
  }

  lemma ReachesStep(g: Graph, a: Name, b: Name, c: Name)
    requires (a == b || Reaches(g, a, b)) && Edge(g, b, c)
    ensures Reaches(g, a, c)
  {
    if a == b {
      assert IsChain(g, [a, c]) && [a, c][0] == a && [a, c][|[a, c]| - 1] == c;
    } else {
      var p :| IsChain(g, p) && |p| > 1 && p[0] == a && p[|p| - 1] == b;
      var q := p + [c];
      forall i | 0 <= i < |q| - 1 ensures Edge(g, q[i], q[i + 1]) {
        if i < |p| - 1 {
          assert Edge(g, p[i], p[i + 1]);
        }
      }
      assert IsChain(g, q) && q[0] == a && q[|q| - 1] == c;
    }
  }

  lemma ReachesSelf(g: Graph, a: Name)
    requires Reaches(g, a, a)
    ensures !Acyclic(g)
  {
    var p :| IsChain(g, p) && |p| > 1 && p[0] == a && p[|p| - 1] == a;
    assert IsCycle(g, p);
  }

  class LevelMemo {
    const g: Graph
    var levels: map<Name, nat>
    ghost var guardFired: bool

    constructor (g: Graph)
      ensures this.g == g && levels == map[] && !guardFired
    {
      this.g := g;
      levels := map[];
      guardFired := false;
    }

    /** On an acyclic list the memo holds longest-chain depths and the guard has never fired. */
    ghost predicate Valid()
      reads this
    {
      Acyclic(g) ==> !guardFired && forall n :: n in levels ==> levels[n] == Depth(g, n)
    }

    /** `visited` holds the names on the current recursion path, all of which lead to `taskName`. */
    method GetLevel(taskName: Name, visited: set<Name>) returns (level: nat)
      requires Valid()
      requires forall v :: v in visited ==> Reaches(g, v, taskName)
      modifies this
      ensures Valid()
      ensures Acyclic(g) ==> level == Depth(g, taskName)
      ensures taskName !in visited ==> taskName in levels && levels[taskName] == level
      ensures forall n :: n in old(levels) ==> n in levels && levels[n] == old(levels)[n]
      ensures forall v :: v in visited && v !in old(levels) ==> v !in levels
      decreases g.Keys - visited
    {
      if taskName in levels {
        return levels[taskName];
      }
      if taskName in visited {
        guardFired := true;
        ReachesSelf(g, taskName);
        return 0;
      }
      var path := visited + {taskName};
      if taskName !in g || |g[taskName]| == 0 {
        if Acyclic(g) && Depth(g, taskName) > 0 {
          var b := DepthStep(g, taskName);
        }
        levels := levels[taskName := 0];
        return 0;
      }
      ghost var before := levels;
      var deps := g[taskName];
      var maxDepLevel: int := -1;
      for k := 0 to |deps|
        invariant Valid()
        invariant maxDepLevel >= -1 && (k > 0 ==> maxDepLevel >= 0)
        invariant Acyclic(g) ==> forall j :: 0 <= j < k ==> Depth(g, deps[j]) <= maxDepLevel
        invariant Acyclic(g) && maxDepLevel >= 0 ==> exists j :: 0 <= j < k && Depth(g, deps[j]) == maxDepLevel
        invariant forall n :: n in before ==> n in levels && levels[n] == before[n]
        invariant forall v :: v in path && v !in before ==> v !in levels
      {
        forall v | v in path ensures Reaches(g, v, deps[k]) {
          ReachesStep(g, v, taskName, deps[k]);
        }
        var depLevel := GetLevel(deps[k], path);
        if depLevel > maxDepLevel {
          maxDepLevel := depLevel;
        }
      }
      level := maxDepLevel + 1;
      if Acyclic(g) {
        DepthFromDeps(g, taskName, maxDepLevel);
      }
      levels := levels[taskName := level];
    }
  }

  lemma DepthFromDeps(g: Graph, n: Name, m: int)
    requires Acyclic(g) && n in g && m >= 0
    requires forall j :: 0 <= j < |g[n]| ==> Depth(g, g[n][j]) <= m
    requires exists j :: 0 <= j < |g[n]| && Depth(g, g[n][j]) == m
    ensures Depth(g, n) == m + 1
  {
    var j :| 0 <= j < |g[n]| && Depth(g, g[n][j]) == m;
    assert Edge(g, n, g[n][j]);
    EdgeLowersDepth(g, n, g[n][j]);
    var b := DepthStep(g, n);
  }

  /** The tasks of one layer, in list order. */
  function Layer(tasks: seq<TaskSpec>, levels: map<Name, nat>, level: nat): seq<TaskSpec>
    requires forall i :: 0 <= i < |tasks| ==> tasks[i].name in levels
  {
    if tasks == [] then []
    else
      var init, t := tasks[..|tasks| - 1], tasks[|tasks| - 1];
      Layer(init, levels, level) + if levels[t.name] == level then [t] else []
  }

  method ComputeDagLevels(tasks: seq<TaskSpec>) returns (result: seq<seq<TaskSpec>>, ghost levels: map<Name, nat>,
                                                         ghost guardFired: bool)
    ensures tasks == [] ==> result == []
    ensures forall i :: 0 <= i < |tasks| ==> tasks[i].name in levels && levels[tasks[i].name] < |result|
    ensures tasks != [] ==> exists n :: n in levels && levels[n] == |result| - 1
    ensures forall l :: 0 <= l < |result| ==> result[l] == Layer(tasks, levels, l)
    ensures Merged(result, |result|) == multiset(tasks)
    ensures Acyclic(GraphOf(tasks)) ==>
              !guardFired && forall n :: n in levels ==> levels[n] == Depth(GraphOf(tasks), n)
    ensures Admissible(tasks) ==>
              forall i, d :: 0 <= i < |tasks| && d in tasks[i].deps ==>
                  d in levels && levels[d] < levels[tasks[i].name] < |tasks|
    ensures Admissible(tasks) ==> forall l :: 0 <= l < |result| ==> result[l] != []
  {
    hide Admissible;
    if |tasks| == 0 {
      return [], map[], false;
    }
    var memo := new LevelMemo(GraphOf(tasks));
    for i := 0 to |tasks|
      invariant memo.g == GraphOf(tasks) && memo.Valid()
      invariant forall j :: 0 <= j < i ==> tasks[j].name in memo.levels
    {
      var _ := memo.GetLevel(tasks[i].name, {});
    }
    levels, guardFired := memo.levels, memo.guardFired;
    var depth := memo.levels;
    var maxLevel := MaxLevel(depth, tasks[0].name);
    result := seq(maxLevel + 1, _ => []);
    for i := 0 to |tasks|
      invariant |result| == maxLevel + 1
      invariant forall l :: 0 <= l < |result| ==> result[l] == Layer(tasks[..i], levels, l)
    {
      var level := depth[tasks[i].name];
      result := result[level := result[level] + [tasks[i]]];
      assert tasks[..i + 1][..i] == tasks[..i];
    }
    assert tasks[..|tasks|] == tasks;
    LayersPartition(tasks, levels, result);
    if Admissible(tasks) {
      AllLower(tasks, levels);
      AllOccupied(tasks, levels, result);
    }
  }

  method MaxLevel(levels: map<Name, nat>, some: Name) returns (maxLevel: nat)
    requires some in levels
    ensures forall n :: n in levels ==> levels[n] <= maxLevel
    ensures exists n :: n in levels && levels[n] == maxLevel
  {
    maxLevel := 0;
    var rest := levels.Keys;
    while rest != {}
      invariant rest <= levels.Keys
      invariant forall n :: n in levels && n !in rest ==> levels[n] <= maxLevel
      invariant maxLevel == 0 || exists n :: n in levels && levels[n] == maxLevel
      decreases rest
    {
      var n :| n in rest;
      rest := rest - {n};
      if levels[n] > maxLevel {
        maxLevel := levels[n];
      }
    }
    assert levels[some] <= maxLevel;
  }

  // ---- What the layers are ---------------------------------------------------------------

  /** All the tasks of some layers together. */
  function Merged(layers: seq<seq<TaskSpec>>, n: nat): multiset<TaskSpec>
    requires n <= |layers|
  {
    if n == 0 then multiset{} else Merged(layers, n - 1) + multiset(layers[n - 1])
  }

  lemma {:induction false} LayerMembers(tasks: seq<TaskSpec>, levels: map<Name, nat>, level: nat, t: TaskSpec)
    requires forall i :: 0 <= i < |tasks| ==> tasks[i].name in levels
    ensures multiset(Layer(tasks, levels, level))[t] ==
            if t in tasks && levels[t.name] == level then multiset(tasks)[t] else 0
  {
    if tasks != [] {
      var init, last := tasks[..|tasks| - 1], tasks[|tasks| - 1];
      assert tasks == init + [last];
      LayerMembers(init, levels, level, t);
      var tail := if levels[last.name] == level then [last] else [];
      assert multiset(Layer(tasks, levels, level)) == multiset(Layer(init, levels, level)) + multiset(tail);
    }
  }

  lemma {:induction false} MergedMembers(tasks: seq<TaskSpec>, levels: map<Name, nat>, layers: seq<seq<TaskSpec>>,
                                         n: nat, t: TaskSpec)
    requires n <= |layers|
    requires forall i :: 0 <= i < |tasks| ==> tasks[i].name in levels
    requires forall l :: 0 <= l < |layers| ==> layers[l] == Layer(tasks, levels, l)
    ensures Merged(layers, n)[t] == if t in tasks && levels[t.name] < n then multiset(tasks)[t] else 0
  {
    hide Layer;
    if n > 0 {
      MergedMembers(tasks, levels, layers, n - 1, t);
      LayerMembers(tasks, levels, n - 1, t);
    }
  }

  /** The layers partition the task list: each task is in one layer, as often as it is listed. */
  lemma LayersPartition(tasks: seq<TaskSpec>, levels: map<Name, nat>, layers: seq<seq<TaskSpec>>)
    requires forall i :: 0 <= i < |tasks| ==> tasks[i].name in levels && levels[tasks[i].name] < |layers|
    requires forall l :: 0 <= l < |layers| ==> layers[l] == Layer(tasks, levels, l)
    ensures Merged(layers, |layers|) == multiset(tasks)
  {
    hide Layer, Merged;
    forall t ensures Merged(layers, |layers|)[t] == multiset(tasks)[t] {
      MergedMembers(tasks, levels, layers, |layers|, t);
    }
  }

  /** A layer lists its tasks in the order of the task list: those at increasing positions `at`, and no others. */
  lemma {:induction false} LayerInOrder(tasks: seq<TaskSpec>, levels: map<Name, nat>, level: nat) returns (at: seq<nat>)
    requires forall i :: 0 <= i < |tasks| ==> tasks[i].name in levels
    ensures |at| == |Layer(tasks, levels, level)|
    ensures forall k :: 0 <= k < |at| ==> at[k] < |tasks| && Layer(tasks, levels, level)[k] == tasks[at[k]]
    ensures forall j, k :: 0 <= j < k < |at| ==> at[j] < at[k]
    ensures forall i :: 0 <= i < |tasks| ==> (i in at <==> levels[tasks[i].name] == level)
  {
    if tasks == [] {
      at := [];
    } else {
      var init, n := tasks[..|tasks| - 1], |tasks| - 1;
      var before := LayerInOrder(init, levels, level);
      at := before + if levels[tasks[n].name] == level then [n] else [];
      forall i | 0 <= i < |tasks| ensures i in at <==> levels[tasks[i].name] == level {
        if i < n {
          assert init[i] == tasks[i];
        }
      }
    }
  }

  /** A task of a valid workflow sits strictly above everything it depends on. */
  lemma DependenciesLower(tasks: seq<TaskSpec>, levels: map<Name, nat>, i: nat, d: Name)
    requires Admissible(tasks) && i < |tasks| && d in tasks[i].deps
    requires forall n :: n in NamesOf(tasks) ==> n in levels && levels[n] == Depth(GraphOf(tasks), n)
    ensures tasks[i].name in levels && d in levels && levels[d] < levels[tasks[i].name] < |tasks|
  {
    var g := GraphOf(tasks);
    GraphOfTasks(tasks);
    AdmissibleClosed(tasks);
    assert Edge(g, tasks[i].name, d);
    EdgeLowersDepth(g, tasks[i].name, d);
    DepthBelowSize(g, tasks[i].name);
  }

  lemma AllLower(tasks: seq<TaskSpec>, levels: map<Name, nat>)
    requires Admissible(tasks) && forall i :: 0 <= i < |tasks| ==> tasks[i].name in levels
    requires Acyclic(GraphOf(tasks)) ==> forall n :: n in levels ==> levels[n] == Depth(GraphOf(tasks), n)
    ensures forall i, d :: 0 <= i < |tasks| && d in tasks[i].deps ==>
        d in levels && levels[d] < levels[tasks[i].name] < |tasks|
  {
    hide Acyclic;
    forall n | n in NamesOf(tasks) ensures n in levels {
      NamesOfMember(tasks, n);
    }
    forall i, d | 0 <= i < |tasks| && d in tasks[i].deps
      ensures d in levels && levels[d] < levels[tasks[i].name] < |tasks|
    {
      DependenciesLower(tasks, levels, i, d);
    }
  }

  /** No layer of a valid workflow is empty, given that the last one is some task's level. */
  lemma AllOccupied(tasks: seq<TaskSpec>, levels: map<Name, nat>, layers: seq<seq<TaskSpec>>)
    requires Admissible(tasks) && forall i :: 0 <= i < |tasks| ==> tasks[i].name in levels
    requires Acyclic(GraphOf(tasks)) ==> forall n :: n in levels ==> levels[n] == Depth(GraphOf(tasks), n)
    requires forall l :: 0 <= l < |layers| ==> layers[l] == Layer(tasks, levels, l)
    requires exists n :: n in levels && levels[n] == |layers| - 1
    ensures forall l :: 0 <= l < |layers| ==> layers[l] != []
  {
    hide Acyclic;
    var g := GraphOf(tasks);
    GraphOfTasks(tasks);
    AdmissibleClosed(tasks);
    var last :| last in levels && levels[last] == |layers| - 1;
    var top := if last in g then last else tasks[0].name;
    if last !in g {
      NotATask(g, last);
    }
    forall l | 0 <= l < |layers| ensures layers[l] != [] {
      var m := LevelOccupied(g, top, l);
      NamesOfMember(tasks, m);
      var i :| 0 <= i < |tasks| && tasks[i].name == m;
      LayerMembers(tasks, levels, l, tasks[i]);
      assert multiset(Layer(tasks, levels, l))[tasks[i]] > 0;
    }
  }

  lemma NotATask(g: Graph, n: Name)
    requires Acyclic(g) && n !in g
    ensures Depth(g, n) == 0
  {
    hide Acyclic;
    if Depth(g, n) > 0 {
      var b := DepthStep(g, n);
      assert false;
    }
  }

  lemma AdmissibleClosed(tasks: seq<TaskSpec>)
    requires Admissible(tasks)
    ensures Closed(GraphOf(tasks)) && GraphOf(tasks).Keys == NamesOf(tasks)
  {
    var g := GraphOf(tasks);
    GraphOfTasks(tasks);
    forall x, d | Edge(g, x, d) ensures d in g {
      NamesOfMember(tasks, x);
      var i :| 0 <= i < |tasks| && tasks[i].name == x;
      var k :| 0 <= k < |tasks[i].deps| && tasks[i].deps[k] == d;
    }
  }

  /** A valid workflow has a task on every level below an occupied one. */
  lemma {:induction false} LevelOccupied(g: Graph, n: Name, level: nat) returns (m: Name)
    requires Acyclic(g) && Closed(g) && n in g && level <= Depth(g, n)
    ensures m in g && Depth(g, m) == level
    decreases Depth(g, n)
  {
    if level == Depth(g, n) {
      m := n;
    } else {
      var b := DepthStep(g, n);
      m := LevelOccupied(g, b, level);
    }
  }
}
