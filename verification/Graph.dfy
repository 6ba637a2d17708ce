/** The depends_on graph and the depth-first cycle check run at submission
    (internal/scheduler/deps.go, wouldCreateCycle). */
module Graph {
  import opened Prelude

  /** Job ID to the IDs it depends on. An ID that was never submitted has no edges. */
  type Graph = map<Id, seq<Id>>

  function Next(g: Graph, n: Id): seq<Id> {
    if n in g then g[n] else []
  }

  ghost predicate Path(g: Graph, p: seq<Id>) {
    p != [] && forall i :: 0 <= i < |p| - 1 ==> p[i + 1] in Next(g, p[i])
  }

  ghost predicate Cycle(g: Graph, p: seq<Id>) {
    |p| >= 2 && Path(g, p) && p[0] == p[|p| - 1]
  }

  ghost predicate Acyclic(g: Graph) {
    forall p :: !Cycle(g, p)
  }

  /** A path from `n` whose last node it has been through before. */
  ghost predicate Lasso(g: Graph, n: Id, p: seq<Id>) {
    Path(g, p) && p[0] == n && exists i :: 0 <= i < |p| - 1 && p[i] == p[|p| - 1]
  }

  /** Some cycle can be reached from `n`. */
  ghost predicate RunsIntoCycle(g: Graph, n: Id) {
    exists p :: Lasso(g, n, p)
  }

  lemma LassoHoldsCycle(g: Graph, n: Id, p: seq<Id>)
    requires Lasso(g, n, p)
    ensures !Acyclic(g)
  {
    var i :| 0 <= i < |p| - 1 && p[i] == p[|p| - 1];
    var q := p[i..];
    forall k | 0 <= k < |q| - 1 ensures q[k + 1] in Next(g, q[k]) {
      assert q[k] == p[i + k] && q[k + 1] == p[i + k + 1];
    }
    assert Cycle(g, q);
  }

  /** A cycle through `n`, walked starting from `n`. */
  lemma CycleThrough(g: Graph, p: seq<Id>, i: nat)
    requires Cycle(g, p) && i < |p| - 1
    ensures RunsIntoCycle(g, p[i])
  {
    var q := p[i..] + p[1..i + 1];
    var m := |p| - i;
    forall k | 0 <= k < |q| - 1 ensures q[k + 1] in Next(g, q[k]) {
      if k < m - 1 {
        assert q[k] == p[i + k] && q[k + 1] == p[i + k + 1];
      } else {
        var j := k - m + 1;
        assert q[k + 1] == p[1 + j];
        assert q[k] == p[j];
      }
    }
    assert q[|q| - 1] == p[i] == q[0];
    assert Lasso(g, p[i], q);
  }

  /** Replacing the edges of one node of an acyclic graph makes a cycle exactly when that node
      then runs into one. */
  lemma NewCyclesPassThrough(g: Graph, n: Id, deps: seq<Id>)
    requires Acyclic(g)
    ensures Acyclic(g[n := deps]) <==> !RunsIntoCycle(g[n := deps], n)
  {
    var g' := g[n := deps];
    if RunsIntoCycle(g', n) {
      var p :| Lasso(g', n, p);
      LassoHoldsCycle(g', n, p);
    } else if !Acyclic(g') {
      var p :| Cycle(g', p);
      if i :| 0 <= i < |p| - 1 && p[i] == n {
        CycleThrough(g', p, i);
      } else {
        forall k | 0 <= k < |p| - 1 ensures p[k + 1] in Next(g, p[k]) {
          assert p[k] != n;
        }
        assert Cycle(g, p);
      }
    }
  }

  /** Every node of the graph, sources and targets. */
  ghost function Nodes(g: Graph): set<Id> {
    g.Keys + set n, d | n in g && d in g[n] :: d
  }

  /** A numbering in which every numbered node points only to smaller ones. */
  ghost predicate Numbered(g: Graph, rank: map<Id, nat>) {
    forall n, d :: n in rank && d in Next(g, n) ==> d in rank && rank[d] < rank[n]
  }

  /** Ranks fall strictly along every path that starts at a numbered node. */
  lemma {:induction false} RanksFall(g: Graph, rank: map<Id, nat>, p: seq<Id>, i: nat, j: nat)
    requires Numbered(g, rank) && Path(g, p) && p[0] in rank && i <= j < |p|
    ensures p[i] in rank && p[j] in rank && rank[p[j]] + (j - i) <= rank[p[i]]
    decreases j
  {
    if i < j {
      RanksFall(g, rank, p, i, j - 1);
      assert p[(j - 1) + 1] in Next(g, p[j - 1]);
    } else if j > 0 {
      RanksFall(g, rank, p, j - 1, j - 1);
      assert p[(j - 1) + 1] in Next(g, p[j - 1]);
    }
  }

  lemma NumberedIsAcyclic(g: Graph, rank: map<Id, nat>)
    requires Numbered(g, rank) && g.Keys <= rank.Keys
    ensures Acyclic(g)
  {
    forall p ensures !Cycle(g, p) {
      if Cycle(g, p) {
        assert p[0 + 1] in Next(g, p[0]);
        RanksFall(g, rank, p, 0, |p| - 1);
      }
    }
  }

  /** A graph with fewer nodes has no new cycles. */
  lemma FewerNodesNoCycle(g: Graph, n: Id)
    requires Acyclic(g)
    ensures Acyclic(g - {n})
  {
    forall p ensures !Cycle(g - {n}, p) {
      if Cycle(g - {n}, p) {
        forall i | 0 <= i < |p| - 1 ensures p[i + 1] in Next(g, p[i]) {
          assert p[i + 1] in Next(g - {n}, p[i]);
        }
        assert Cycle(g, p);
      }
    }
  }

  lemma NumberedRunsIntoNoCycle(g: Graph, rank: map<Id, nat>, n: Id)
    requires Numbered(g, rank) && n in rank
    ensures !RunsIntoCycle(g, n)
  {
    if p :| Lasso(g, n, p) {
      var i :| 0 <= i < |p| - 1 && p[i] == p[|p| - 1];
      RanksFall(g, rank, p, i, |p| - 1);
    }
  }

  lemma NoEdgesNoCycle(g: Graph, n: Id)
    requires Next(g, n) == []
    ensures !RunsIntoCycle(g, n)
  {
    NumberedRunsIntoNoCycle(g, map[n := 0], n);
  }

  /** The search came from `root` along `trail` to `n`. */
  ghost predicate Reached(g: Graph, root: Id, trail: seq<Id>, n: Id) {
    Path(g, trail + [n]) && (trail + [n])[0] == root
  }

  lemma StepOnto(g: Graph, root: Id, trail: seq<Id>, n: Id, d: Id)
    requires Reached(g, root, trail, n) && d in Next(g, n)
    ensures Reached(g, root, trail + [n], d)
    ensures d in Elems(trail + [n]) ==> RunsIntoCycle(g, root)
  {
    var p := trail + [n];
    var q := p + [d];
    forall i | 0 <= i < |q| - 1 ensures q[i + 1] in Next(g, q[i]) {
      if i < |p| - 1 { assert q[i + 1] == p[i + 1]; }
    }
    if d in p {
      var i :| 0 <= i < |p| && p[i] == d;
      assert q[i] == d;
      assert Lasso(g, root, q);
    }
  }

  /** The state the recursive search closes over: the nodes seen, and those still on the
      recursion stack. The ghost numbering is the order in which nodes were finished. */
  class Search {
    const graph: Graph
    var visited: set<Id>
    var stack: set<Id>
    ghost var rank: map<Id, nat>
    ghost var count: nat

    constructor (g: Graph)
      ensures graph == g && visited == {} && stack == {} && rank == map[] && count == 0
    {
      graph, visited, stack, rank, count := g, {}, {}, map[], 0;
    }

    /** Finished nodes are exactly the numbered ones. */
    ghost predicate Valid()
      reads this
    {
      && stack <= visited
      && rank.Keys == visited - stack
      && Numbered(graph, rank)
      && (forall n :: n in rank ==> rank[n] < count)
    }

    /** Puts a new node on the stack. */
    method Enter(n: Id, ghost trail: seq<Id>)
      requires Valid() && n !in visited && stack == Elems(trail)
      modifies this`visited, this`stack
      ensures Valid() && visited == old(visited) + {n} && stack == Elems(trail + [n])
    {
      visited := visited + {n};
      stack := stack + {n};
    }

    /** Explores `n`. */
    method Dfs(n: Id, ghost root: Id, ghost trail: seq<Id>) returns (found: bool)
      requires Valid() && n !in visited
      requires n in Nodes(graph) && visited <= Nodes(graph)
      requires stack == Elems(trail) && Reached(graph, root, trail, n)
      modifies this
      ensures found ==> RunsIntoCycle(graph, root)
      ensures !found ==> Valid() && stack == old(stack) && n in rank && old(rank.Keys) <= rank.Keys
      ensures old(visited) <= visited <= Nodes(graph)
      decreases Nodes(graph) - visited
    {
      Enter(n, trail);
      var deps := Next(graph, n);
      ghost var here := trail + [n];
      var i := 0;
      while i < |deps|
        invariant 0 <= i <= |deps|
        invariant Valid() && stack == Elems(here)
        invariant n in visited && old(visited) <= visited <= Nodes(graph)
        invariant old(rank.Keys) <= rank.Keys && forall k :: 0 <= k < i ==> deps[k] in rank
      {
        var d := deps[i];
        StepOnto(graph, root, trail, n, d);
        if d in stack { return true; }
        if d !in visited {
          assert d in Nodes(graph);
          found := Dfs(d, root, here);
          if found { return true; }
        }
        i := i + 1;
      }
      Finish(n, trail);
      return false;
    }

    /** Takes a node whose targets are all finished off the stack. */
    method Finish(n: Id, ghost trail: seq<Id>)
      requires Valid() && n in stack && stack == Elems(trail + [n])
      requires n !in trail
      requires forall d :: d in Next(graph, n) ==> d in rank
      modifies this
      ensures Valid() && visited == old(visited) && n in rank
      ensures stack == Elems(trail)
      ensures old(rank.Keys) <= rank.Keys
    {
      stack := stack - {n};
      rank, count := rank[n := count], count + 1;
    }
  }

  /** Whether giving `newID` the dependencies `deps` lets it run into a cycle. */
  method WouldCreateCycle(stored: Graph, newID: Id, deps: seq<Id>) returns (found: bool)
    ensures found <==> RunsIntoCycle(stored[newID := deps], newID)
    ensures Acyclic(stored) ==> (found <==> !Acyclic(stored[newID := deps]))
  {
    var g := stored[newID := deps];
    var search := new Search(g);
    assert [] + [newID] == [newID];
    found := search.Dfs(newID, newID, []);
    if !found {
      NumberedRunsIntoNoCycle(g, search.rank, newID);
    }
    if Acyclic(stored) { NewCyclesPassThrough(stored, newID, deps); }
  }
}
