/**
 Directed graphs given as edge lists, and the breadth-first cycle check that guards
 every new task dependency.
 */
module Graph {

  type Edge = (string, string)  // (parent, child)

  ghost predicate IsPath(edges: seq<Edge>, p: seq<string>) {
    && |p| > 0
    && forall i :: 0 <= i < |p| - 1 ==> (p[i], p[i + 1]) in edges
  }

  ghost predicate Connects(edges: seq<Edge>, p: seq<string>, a: string, b: string) {
    IsPath(edges, p) && p[0] == a && p[|p| - 1] == b
  }

  /** b is a, or can be reached from a by following edges. */
  ghost predicate Reach(edges: seq<Edge>, a: string, b: string) {
    exists p :: Connects(edges, p, a, b)
  }

  /** No path of one edge or more comes back to where it started. */
  ghost predicate Acyclic(edges: seq<Edge>) {
    forall p :: IsPath(edges, p) && |p| >= 2 ==> p[0] != p[|p| - 1]
  }

  ghost predicate Closed(edges: seq<Edge>, s: set<string>) {
    forall e <- edges :: e.0 in s ==> e.1 in s
  }

  function Children(edges: seq<Edge>): (cs: set<string>)
    ensures forall e <- edges :: e.1 in cs
  {
    set e <- edges :: e.1
  }

  lemma ReachSelf(edges: seq<Edge>, a: string)
    ensures Reach(edges, a, a)
  {
    assert Connects(edges, [a], a, a);
  }

  lemma ReachTrans(edges: seq<Edge>, a: string, b: string, c: string)
    requires Reach(edges, a, b) && Reach(edges, b, c)
    ensures Reach(edges, a, c)
  {
    var p :| Connects(edges, p, a, b);
    var q :| Connects(edges, q, b, c);
    var r := p + q[1..];
    forall i | 0 <= i < |r| - 1
      ensures (r[i], r[i + 1]) in edges
    {
      if i >= |p| - 1 {
        assert r[i] == q[i - (|p| - 1)] && r[i + 1] == q[i + 1 - (|p| - 1)];
      }
    }
    assert Connects(edges, r, a, c);
  }

  lemma ReachStep(edges: seq<Edge>, a: string, b: string, c: string)
    requires Reach(edges, a, b) && (b, c) in edges
    ensures Reach(edges, a, c)
  {
    assert Connects(edges, [b, c], b, c);
    ReachTrans(edges, a, b, c);
  }

  lemma ReachMonotone(small: seq<Edge>, big: seq<Edge>, a: string, b: string)
    requires forall e <- small :: e in big
    requires Reach(small, a, b)
    ensures Reach(big, a, b)
  {
    var p :| Connects(small, p, a, b);
    assert Connects(big, p, a, b);
  }

  lemma AcyclicMonotone(small: seq<Edge>, big: seq<Edge>)
    requires forall e <- small :: e in big
    requires Acyclic(big)
    ensures Acyclic(small)
  {
    forall p | IsPath(small, p) && |p| >= 2
      ensures p[0] != p[|p| - 1]
    {
      assert IsPath(big, p);
    }
  }

  /** Edges that always climb in rank close no cycle. */
  lemma {:induction false} RankedPathClimbs(edges: seq<Edge>, rank: string -> int, p: seq<string>)
    requires forall e <- edges :: rank(e.0) < rank(e.1)
    requires IsPath(edges, p) && |p| >= 2
    ensures rank(p[0]) < rank(p[|p| - 1])
  {
    var q := p[..|p| - 1];
    assert (p[|p| - 2], p[|p| - 1]) in edges;
    if |q| >= 2 {
      assert IsPath(edges, q);
      RankedPathClimbs(edges, rank, q);
    }
  }

  lemma RankedAcyclic(edges: seq<Edge>, rank: string -> int)
    requires forall e <- edges :: rank(e.0) < rank(e.1)
    ensures Acyclic(edges)
  {
    forall p | IsPath(edges, p) && |p| >= 2
      ensures p[0] != p[|p| - 1]
    {
      RankedPathClimbs(edges, rank, p);
    }
  }

  /** A set closed under the edges holds everything reachable from its members. */
  lemma {:induction false} ClosedHoldsPath(edges: seq<Edge>, s: set<string>, p: seq<string>)
    requires Closed(edges, s) && IsPath(edges, p) && p[0] in s
    ensures p[|p| - 1] in s
  {
    if |p| > 1 {
      assert (p[0], p[1]) in edges;
      forall i | 0 <= i < |p[1..]| - 1
        ensures (p[1..][i], p[1..][i + 1]) in edges
      {
        assert (p[i + 1], p[i + 2]) in edges;
      }
      ClosedHoldsPath(edges, s, p[1..]);
    }
  }

  /** Edges that leave `stop` are of no use for getting to `stop`. */
  lemma {:induction false} NewEdgeIrrelevant(edges: seq<Edge>, stop: string, child: string, p: seq<string>)
    requires IsPath(edges + [(stop, child)], p) && p[|p| - 1] == stop
    ensures Reach(edges, p[0], stop)
  {
    if p[0] == stop {
      ReachSelf(edges, stop);
    } else {
      var more := edges + [(stop, child)];
      assert (p[0], p[1]) in more;
      assert Connects(edges, [p[0], p[1]], p[0], p[1]);
      forall i | 0 <= i < |p[1..]| - 1
        ensures (p[1..][i], p[1..][i + 1]) in more
      {
        assert (p[i + 1], p[i + 2]) in more;
      }
      NewEdgeIrrelevant(edges, stop, child, p[1..]);
      ReachTrans(edges, p[0], p[1], stop);
    }
  }

  /** Adding parent -> child to an acyclic graph closes a cycle exactly when the child
      already reaches the parent. */
  lemma EdgeClosesCycle(edges: seq<Edge>, parent: string, child: string)
    requires Acyclic(edges)
    ensures Reach(edges, child, parent) <==> !Acyclic(edges + [(parent, child)])
  {
    var more := edges + [(parent, child)];
    if Reach(edges, child, parent) {
      var p :| Connects(edges, p, child, parent);
      var loop := [parent] + p;
      forall i | 0 <= i < |loop| - 1
        ensures (loop[i], loop[i + 1]) in more
      {
        if i > 0 {
          assert loop[i] == p[i - 1] && loop[i + 1] == p[i];
        }
      }
      assert IsPath(more, loop) && |loop| >= 2;
    }
    if !Acyclic(more) {
      var p :| IsPath(more, p) && |p| >= 2 && p[0] == p[|p| - 1];
      CycleUsesNewEdge(edges, parent, child, p);
    }
  }

  lemma CycleUsesNewEdge(edges: seq<Edge>, parent: string, child: string, p: seq<string>)
    requires Acyclic(edges)
    requires IsPath(edges + [(parent, child)], p) && |p| >= 2 && p[0] == p[|p| - 1]
    ensures Reach(edges, child, parent)
  {
    var more := edges + [(parent, child)];
    if IsPath(edges, p) {
      assert false;
    } else {
      var k :| 0 <= k < |p| - 1 && (p[k], p[k + 1]) !in edges;
      assert (p[k], p[k + 1]) in more;
      assert p[k] == parent && p[k + 1] == child;
      var around := Rotated(more, p, k);
      NewEdgeIrrelevant(edges, parent, child, around);
    }
  }

  /** A closed path walked from its place k + 1 round to its place k. */
  lemma Rotated(edges: seq<Edge>, p: seq<string>, k: nat) returns (around: seq<string>)
    requires IsPath(edges, p) && k + 1 < |p| && p[0] == p[|p| - 1]
    ensures IsPath(edges, around) && around[0] == p[k + 1] && around[|around| - 1] == p[k]
  {
    around := p[k + 1..] + p[1..k + 1];
    var n := |p| - (k + 1);
    forall i | 0 <= i < |around| - 1
      ensures (around[i], around[i + 1]) in edges
    {
      if i < n - 1 {
        assert around[i] == p[k + 1 + i] && around[i + 1] == p[k + 2 + i];
      } else if i == n - 1 {
        assert around[i] == p[|p| - 1] == p[0] && around[i + 1] == p[1];
      } else {
        assert around[i] == p[1 + i - n] && around[i + 1] == p[2 + i - n];
      }
    }
  }

  lemma PathEnd(edges: seq<Edge>, s: set<string>, a: string, b: string)
    requires Closed(edges, s) && a in s && Reach(edges, a, b)
    ensures b in s
  {
    var p :| Connects(edges, p, a, b);
    ClosedHoldsPath(edges, s, p);
  }

  /** What the search knows: everything visited is reachable from the start, and everything
      visited and no longer queued has been looked at and expanded. */
  ghost predicate Searched(all: seq<Edge>, start: string, stop: string, queue: seq<string>, visited: set<string>) {
    && start in visited
    && (forall v <- queue :: v in visited)
    && (forall v <- visited :: Reach(all, start, v))
    && (forall v <- visited :: v !in queue ==> v != stop)
    && (forall e <- all :: e.0 in visited && e.0 !in queue ==> e.1 in visited)
  }

  lemma SearchStep(all: seq<Edge>, start: string, stop: string, queue: seq<string>, visited: set<string>,
                   queue': seq<string>, visited': set<string>)
    requires queue != [] && queue[0] != stop && Searched(all, start, stop, queue, visited)
    requires visited <= visited' && queue[1..] <= queue'
    requires forall v <- queue' :: v in visited'
    requires forall v <- visited' :: v in visited || v in queue'
    requires forall v <- visited' :: Reach(all, start, v)
    requires forall e <- all :: e.0 == queue[0] ==> e.1 in visited'
    ensures Searched(all, start, stop, queue', visited')
  {
    forall v <- visited' | v !in queue'
      ensures v != stop && (v == queue[0] || v !in queue) && v in visited
    {
      assert forall w <- queue[1..] :: w in queue';
      assert queue == [queue[0]] + queue[1..];
    }
  }

  lemma SearchExhausted(existing: seq<Edge>, start: string, stop: string, visited: set<string>)
    requires Searched(existing + [(stop, start)], start, stop, [], visited)
    ensures !Reach(existing, start, stop)
  {
    var all := existing + [(stop, start)];
    if Reach(existing, start, stop) {
      ReachMonotone(existing, all, start, stop);
      PathEnd(all, visited, start, stop);
    }
  }

  lemma SearchFound(existing: seq<Edge>, start: string, stop: string)
    requires Reach(existing + [(stop, start)], start, stop)
    ensures Reach(existing, start, stop)
  {
    var p :| Connects(existing + [(stop, start)], p, start, stop);
    NewEdgeIrrelevant(existing, stop, start, p);
  }

  /** Whether adding newParent -> newChild would let the new child reach its own parent. */
  method DetectDagCycle(existing: seq<Edge>, newParent: string, newChild: string) returns (cycle: bool)
    ensures cycle <==> Reach(existing, newChild, newParent)
  {
    if newParent == newChild {
      ReachSelf(existing, newChild);
      return true;
    }
    var adj := BuildAdjacency(existing, newParent, newChild);
    cycle := Search(existing, adj, newChild, newParent);
  }

  /** Breadth-first search over the graph with the new edge stop -> start in it. */
  method Search(ghost existing: seq<Edge>, adj: map<string, seq<string>>, start: string, stop: string)
    returns (found: bool)
    requires IsAdjacency(adj, existing + [(stop, start)])
    ensures found <==> Reach(existing, start, stop)
  {
    ghost var all := existing + [(stop, start)];
    var queue := [start];
    var visited := {start};
    ghost var nodes := Children(all);
    assert all[|existing|] == (stop, start);
    ReachSelf(all, start);
    while queue != []
      invariant Searched(all, start, stop, queue, visited)
      invariant visited <= nodes
      decreases |nodes - visited|, |queue|
    {
      var curr := queue[0];
      if curr == stop {
        SearchFound(existing, start, stop);
        return true;
      }
      var queue', visited' := Expand(all, adj, start, curr, queue[1..], visited, nodes);
      SearchStep(all, start, stop, queue, visited, queue', visited');
      if visited' != visited {
        SmallerSet(nodes - visited', nodes - visited);
      }
      queue, visited := queue', visited';
    }
    SearchExhausted(existing, start, stop, visited);
    return false;
  }

  lemma SmallerSet(a: set<string>, b: set<string>)
    requires a < b
    ensures |a| < |b|
  {
    var x :| x in b && x !in a;
    assert b == (b - a) + a;
    assert x in b - a;
  }

  ghost predicate IsAdjacency(adj: map<string, seq<string>>, edges: seq<Edge>) {
    forall a, b :: (a in adj && b in adj[a]) <==> (a, b) in edges
  }

  function AddChild(adj: map<string, seq<string>>, p: string, c: string): map<string, seq<string>> {
    adj[p := (if p in adj then adj[p] else []) + [c]]
  }

  lemma AddChildIsAdjacency(adj: map<string, seq<string>>, edges: seq<Edge>, p: string, c: string)
    requires IsAdjacency(adj, edges)
    ensures IsAdjacency(AddChild(adj, p, c), edges + [(p, c)])
  {
  }

  method BuildAdjacency(existing: seq<Edge>, newParent: string, newChild: string)
    returns (adj: map<string, seq<string>>)
    ensures IsAdjacency(adj, existing + [(newParent, newChild)])
  {
    adj := map[];
    for i := 0 to |existing|
      invariant IsAdjacency(adj, existing[..i])
    {
      var (p, c) := existing[i];
      AddChildIsAdjacency(adj, existing[..i], p, c);
      adj := AddChild(adj, p, c);
      assert existing[..i + 1] == existing[..i] + [(p, c)];
    }
    assert existing[..|existing|] == existing;
    AddChildIsAdjacency(adj, existing, newParent, newChild);
    adj := AddChild(adj, newParent, newChild);
  }

  /** One round of the search: append the successors of curr not seen before. */
  method Expand(ghost all: seq<Edge>, adj: map<string, seq<string>>, ghost start: string, curr: string,
                queue: seq<string>, visited: set<string>, ghost nodes: set<string>)
    returns (queue': seq<string>, visited': set<string>)
    requires IsAdjacency(adj, all)
    requires visited <= nodes && nodes == Children(all)
    requires forall v <- queue :: v in visited
    requires curr in visited
    requires forall v <- visited :: Reach(all, start, v)
    ensures visited <= visited' <= nodes
    ensures queue <= queue'
    ensures forall v <- queue' :: v in visited'
    ensures forall v <- visited' :: v in visited || v in queue'
    ensures forall v <- visited' :: Reach(all, start, v)
    ensures forall e <- all :: e.0 == curr ==> e.1 in visited'
    ensures visited' == visited ==> queue' == queue
  {
    queue', visited' := queue, visited;
    if curr in adj {
      for i := 0 to |adj[curr]|
        invariant visited <= visited' <= nodes
        invariant queue <= queue'
        invariant forall v <- queue' :: v in visited'
        invariant forall v <- visited' :: v in visited || v in queue'
        invariant forall v <- visited' :: Reach(all, start, v)
        invariant forall j :: 0 <= j < i ==> adj[curr][j] in visited'
        invariant visited' == visited ==> queue' == queue
      {
        var nxt := adj[curr][i];
        assert (curr, nxt) in all;
        if nxt !in visited' {
          ReachStep(all, start, curr, nxt);
          visited' := visited' + {nxt};
          queue' := queue' + [nxt];
        }
      }
    }
  }
}
