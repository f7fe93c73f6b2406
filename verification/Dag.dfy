/**
 Dependency graphs and what "no cycle" means for them.

 A graph maps each task name to its dependency list.  The list is kept as a list: it may
 repeat an entry, and it may name something that is not a task.
 */
module Dag {
  import opened Collections

  /** A task name. */
  datatype Name = Name(text: string)

  type Graph = map<Name, seq<Name>>

  /** Task `a` lists `b` among its dependencies. */
  predicate Edge(g: Graph, a: Name, b: Name) {
    a in g && b in g[a]
  }

  /** A walk that follows dependencies from `p[0]`. */
  ghost predicate IsChain(g: Graph, p: seq<Name>) {
    |p| > 0 && forall i :: 0 <= i < |p| - 1 ==> Edge(g, p[i], p[i + 1])
  }

  ghost predicate IsCycle(g: Graph, p: seq<Name>) {
    IsChain(g, p) && |p| > 1 && p[0] == p[|p| - 1]
  }

  ghost predicate Acyclic(g: Graph) {
    forall p :: !IsCycle(g, p)
  }

  /** Every dependency is itself a task. */
  ghost predicate Closed(g: Graph) {
    forall a, b :: Edge(g, a, b) ==> b in g
  }

  predicate Distinct(s: seq<Name>) {
    forall i, j :: 0 <= i < j < |s| ==> s[i] != s[j]
  }

  /** `order` lists every task once, each after everything it depends on. */
  ghost predicate IsTopological(g: Graph, order: seq<Name>) {
    && Distinct(order)
    && Elements(order) == g.Keys
    && DepsFirst(g, order)
  }

  ghost predicate DepsFirst(g: Graph, order: seq<Name>) {
    && (forall i :: 0 <= i < |order| ==> order[i] in g)
    && (forall i, d :: 0 <= i < |order| && d in g[order[i]] ==> d in order[..i])
  }

  lemma {:induction false} DistinctCardinality(s: seq<Name>)
    requires Distinct(s)
    ensures |Elements(s)| == |s|
  {
    if |s| > 0 {
      var init := s[..|s| - 1];
      DistinctCardinality(init);
      assert Elements(s) == Elements(init) + {s[|s| - 1]};
      assert s[|s| - 1] !in Elements(init);
    } else {
      assert Elements(s) == {};
    }
  }

  /** Pigeonhole: a list longer than the set it draws from repeats an element. */
  lemma {:induction false} Pigeonhole(s: seq<Name>, pool: set<Name>) returns (i: nat, j: nat)
    requires |s| > |pool|
    requires forall k :: 0 <= k < |s| ==> s[k] in pool
    ensures i < j < |s| && s[i] == s[j]
    decreases |s|
  {
    if k :| 1 <= k < |s| && s[k] == s[0] {
      i, j := 0, k;
    } else {
      assert |pool - {s[0]}| == |pool| - 1;
      i, j := Pigeonhole(s[1..], pool - {s[0]});
      i, j := i + 1, j + 1;
    }
  }

  /** Every element of a chain but its last is a task, so a long enough chain revisits one. */
  lemma LongChainHasCycle(g: Graph, p: seq<Name>)
    requires IsChain(g, p) && |p| > |g| + 1
    ensures !Acyclic(g)
  {
    var body := p[..|p| - 1];
    forall k | 0 <= k < |body| ensures body[k] in g.Keys {
      assert Edge(g, p[k], p[k + 1]);
    }
    var i, j := Pigeonhole(body, g.Keys);
    assert IsCycle(g, p[i..j + 1]);
  }

  lemma ChainTail(g: Graph, p: seq<Name>)
    requires IsChain(g, p) && |p| > 1
    ensures IsChain(g, p[1..])
  {
    var q := p[1..];
    forall i | 0 <= i < |q| - 1 ensures Edge(g, q[i], q[i + 1]) {
      assert Edge(g, p[i + 1], p[i + 1 + 1]);
    }
  }

  lemma ChainCons(g: Graph, a: Name, p: seq<Name>)
    requires IsChain(g, p) && Edge(g, a, p[0])
    ensures IsChain(g, [a] + p)
  {
    var q := [a] + p;
    forall i | 0 <= i < |q| - 1 ensures Edge(g, q[i], q[i + 1]) {
      if i > 0 {
        assert Edge(g, p[i - 1], p[i - 1 + 1]);
      }
    }
  }

  lemma TopologicalImpliesAcyclic(g: Graph, order: seq<Name>)
    requires IsTopological(g, order)
    ensures Acyclic(g)
  {
    forall p | IsChain(g, p) && |p| > 1 ensures p[0] != p[|p| - 1] {
      assert Edge(g, p[0], p[1]);
      assert p[0] in Elements(order);
      var i :| 0 <= i < |order| && order[i] == p[0];
      var j := ChainDescends(g, order, p, i);
    }
  }

  /** Along a chain positions in a topological order strictly fall. */
  lemma {:induction false} ChainDescends(g: Graph, order: seq<Name>, p: seq<Name>, i: nat) returns (j: nat)
    requires IsTopological(g, order)
    requires IsChain(g, p) && i < |order| && order[i] == p[0]
    ensures j <= i && order[j] == p[|p| - 1]
    ensures |p| > 1 ==> j < i
    decreases |p|
  {
    if |p| == 1 {
      j := i;
    } else {
      assert Edge(g, p[0], p[1]);
      var k :| 0 <= k < i && order[..i][k] == p[1];
      ChainTail(g, p);
      j := ChainDescends(g, order, p[1..], k);
    }
  }

  /** `x` waits for a member of `stuck`. */
  ghost predicate WaitsOn(g: Graph, stuck: set<Name>, x: Name) {
    exists y :: y in stuck && Edge(g, x, y)
  }

  /** A set in which every task waits for another member contains chains of every length. */
  lemma {:induction false} StuckChain(g: Graph, stuck: set<Name>, u: Name, k: nat) returns (p: seq<Name>)
    requires u in stuck
    requires forall x :: x in stuck ==> WaitsOn(g, stuck, x)
    ensures IsChain(g, p) && |p| == k + 1 && p[0] == u
    decreases k
  {
    if k == 0 {
      p := [u];
    } else {
      assert WaitsOn(g, stuck, u);
      var y :| y in stuck && Edge(g, u, y);
      var rest := StuckChain(g, stuck, y, k - 1);
      p := [u] + rest;
      ChainCons(g, u, rest);
    }
  }

  lemma StuckSetHasCycle(g: Graph, stuck: set<Name>)
    requires stuck != {}
    requires forall x :: x in stuck ==> WaitsOn(g, stuck, x)
    ensures !Acyclic(g)
  {
    var u :| u in stuck;
    var p := StuckChain(g, stuck, u, |g| + 1);
    LongChainHasCycle(g, p);
  }

  // ---- Longest chains --------------------------------------------------------------------

  /** `p` is a chain of `k` dependency steps leaving `n`. */
  ghost predicate IsWalk(g: Graph, n: Name, k: nat, p: seq<Name>) {
    |p| == k + 1 && p[0] == n && IsChain(g, p)
  }

  ghost predicate HasWalk(g: Graph, n: Name, k: nat) {
    exists p :: IsWalk(g, n, k, p)
  }

  /** The longest chain leaving `n` has exactly `d` steps. */
  ghost predicate IsDepth(g: Graph, n: Name, d: nat) {
    HasWalk(g, n, d) && forall k: nat :: k > d ==> !HasWalk(g, n, k)
  }

  ghost function LongestUpTo(g: Graph, n: Name, k: nat): (d: nat)
    requires HasWalk(g, n, 0)
    ensures d <= k && HasWalk(g, n, d)
    ensures forall j: nat :: d < j <= k ==> !HasWalk(g, n, j)
  {
    if k == 0 || HasWalk(g, n, k) then k else LongestUpTo(g, n, k - 1)
  }

  lemma WalkBound(g: Graph, n: Name)
    requires Acyclic(g)
    ensures HasWalk(g, n, 0)
    ensures forall k: nat :: HasWalk(g, n, k) ==> k <= |g|
  {
    assert IsWalk(g, n, 0, [n]);
    forall k: nat | HasWalk(g, n, k) ensures k <= |g| {
      var p :| IsWalk(g, n, k, p);
      if k > |g| {
        LongChainHasCycle(g, p);
      }
    }
  }

  /** The length of the longest dependency chain leaving `n`. */
  ghost function Depth(g: Graph, n: Name): (d: nat)
    requires Acyclic(g)
    ensures IsDepth(g, n, d) && d <= |g|
  {
    WalkBound(g, n);
    LongestUpTo(g, n, |g|)
  }

  lemma EdgeLowersDepth(g: Graph, a: Name, b: Name)
    requires Acyclic(g) && Edge(g, a, b)
    ensures Depth(g, b) < Depth(g, a)
  {
    var k := Depth(g, b);
    assert HasWalk(g, b, k);
    var p :| IsWalk(g, b, k, p);
    ChainCons(g, a, p);
    assert IsWalk(g, a, k + 1, [a] + p);
    assert HasWalk(g, a, k + 1);
  }

  lemma DepthStep(g: Graph, a: Name) returns (b: Name)
    requires Acyclic(g) && Depth(g, a) > 0
    ensures Edge(g, a, b) && Depth(g, b) == Depth(g, a) - 1
  {
    var k := Depth(g, a);
    assert HasWalk(g, a, k);
    var p :| IsWalk(g, a, k, p);
    b := p[1];
    assert Edge(g, p[0], p[1]);
    ChainTail(g, p);
    assert IsWalk(g, b, k - 1, p[1..]);
    assert HasWalk(g, b, k - 1);
    EdgeLowersDepth(g, a, b);
  }

  /** When every dependency is itself a task, depths stay below the number of tasks. */
  lemma DepthBelowSize(g: Graph, a: Name)
    requires Acyclic(g) && Closed(g) && a in g
    ensures Depth(g, a) < |g|
  {
    var d := Depth(g, a);
    if d == |g| {
      assert HasWalk(g, a, d);
      var p :| IsWalk(g, a, d, p);
      forall k | 0 <= k < |p| ensures p[k] in g.Keys {
        if k > 0 {
          assert Edge(g, p[k - 1], p[k - 1 + 1]);
        }
      }
      var i, j := Pigeonhole(p, g.Keys);
      assert IsCycle(g, p[i..j + 1]);
    }
  }
}
