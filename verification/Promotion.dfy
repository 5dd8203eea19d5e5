/**
 When a promotion pass leaves a flow with nothing to run.
 */
module Promotion {
  import opened Graph
  import opened TaskBoard

  predicate Stuck(status: TaskStatus) {
    status.Triage? || status.Blocked? || status.Failed? || status.Cancelled? || status.Archived?
  }

  predicate Active(status: TaskStatus) {
    status.Ready? || status.Running?
  }

  ghost predicate HasActive(b: Board, flow: string) {
    exists id <- b.tasks :: b.tasks[id].flow == flow && Active(b.tasks[id].status)
  }

  /** A chain of dependencies through waiting tasks. */
  ghost predicate WaitingChain(b: Board, p: seq<string>) {
    IsPath(b.edges, p) && forall id <- p :: id in b.tasks && b.tasks[id].status.Todo?
  }

  /** p hangs from a stuck task and ends, through waiting tasks only, at p's last task. */
  ghost predicate HangsFromStuck(b: Board, p: seq<string>, id: string) {
    && IsPath(b.edges, p) && |p| >= 2 && p[|p| - 1] == id
    && p[0] in b.tasks && Stuck(b.tasks[p[0]].status)
    && WaitingChain(b, p[1..])
  }

  lemma PrependPath(edges: seq<Edge>, id: string, p: seq<string>)
    requires IsPath(edges, p) && (id, p[0]) in edges
    ensures IsPath(edges, [id] + p)
  {
    var q := [id] + p;
    forall i | 0 <= i < |q| - 1
      ensures (q[i], q[i + 1]) in edges
    {
      if i > 0 {
        assert q[i] == p[i - 1] && q[i + 1] == p[i];
      }
    }
  }

  lemma ReturnClosesCycle(edges: seq<Edge>, id: string, p: seq<string>)
    requires IsPath(edges, p) && (id, p[0]) in edges && id in p
    ensures !Acyclic(edges)
  {
    var k :| 0 <= k < |p| && p[k] == id;
    var q := p[..k + 1];
    assert IsPath(edges, q);
    PrependPath(edges, id, q);
    var loop := [id] + q;
    assert IsPath(edges, loop) && |loop| >= 2 && loop[0] == loop[|loop| - 1];
  }

  /** Above a waiting task that the pass does not promote there is another task, not yet on
      the chain, that is itself waiting or is stuck. */
  lemma StepUp(b: Board, flow: string, p: seq<string>) returns (up: string)
    requires Sound(b) && WaitingChain(b, p) && InFlow(b, p[0], flow)
    requires !HasActive(PromoteFlow(b, flow), flow)
    ensures IsPath(b.edges, [up] + p) && up !in p
    ensures InFlow(b, up, flow) && (Stuck(b.tasks[up].status) || b.tasks[up].status.Todo?)
  {
    var after := PromoteFlow(b, flow);
    assert p[0] in after.tasks;
    assert !Active(after.tasks[p[0]].status);
    assert !ParentsDone(b, p[0]);
    var e :| e in b.edges && e.1 == p[0] && !b.tasks[e.0].status.Done?;
    up := e.0;
    PrependPath(b.edges, up, p);
    if up in p {
      ReturnClosesCycle(b.edges, up, p);
    }
    assert up in after.tasks;
    assert !Active(after.tasks[up].status);
  }

  /** Climb from a waiting task to something that is not waiting. */
  lemma {:induction false} Climb(b: Board, flow: string, p: seq<string>,
    seen: set<string>) returns (full: seq<string>)
    requires Sound(b) && WaitingChain(b, p) && InFlow(b, p[0], flow)
    requires forall id :: id in seen <==> id in p
    requires !HasActive(PromoteFlow(b, flow), flow)
    ensures HangsFromStuck(b, full, p[|p| - 1])
    decreases |b.tasks.Keys - seen|
  {
    var up := StepUp(b, flow, p);
    var q := [up] + p;
    assert q[1..] == p && q[|q| - 1] == p[|p| - 1];
    if Stuck(b.tasks[up].status) {
      full := q;
    } else {
      SmallerSet(b.tasks.Keys - (seen + {up}), b.tasks.Keys - seen);
      full := Climb(b, flow, q, seen + {up});
    }
  }

  lemma ChainBlocksPromotion(b: Board, flow: string, p: seq<string>, id: string)
    requires HangsFromStuck(b, p, id)
    ensures PromoteFlow(b, flow).tasks[id].status.Todo?
  {
    var n := |p|;
    assert (p[n - 2], p[n - 1]) in b.edges;
    if n > 2 {
      assert p[1..][n - 3] == p[n - 2];
    }
    assert p[1..][n - 2] == id;
  }

  /** Exactly when a promotion pass leaves nothing to run: nothing was active before, and
      every waiting task hangs, through waiting tasks, from a stuck one. */
  lemma StallsIff(b: Board, flow: string)
    requires Sound(b)
    ensures !HasActive(PromoteFlow(b, flow), flow) <==>
            && !HasActive(b, flow)
            && forall id <- b.tasks :: b.tasks[id].flow == flow && b.tasks[id].status.Todo? ==>
                 exists p :: HangsFromStuck(b, p, id)
  {
    var after := PromoteFlow(b, flow);
    if !HasActive(after, flow) {
      forall id <- b.tasks | b.tasks[id].flow == flow
        ensures !Active(b.tasks[id].status)
        ensures b.tasks[id].status.Todo? ==> exists p :: HangsFromStuck(b, p, id)
      {
        assert after.tasks[id].flow == flow && !Active(after.tasks[id].status);
        if b.tasks[id].status.Todo? {
          var p := Climb(b, flow, [id], {id});
        }
      }
    } else {
      var id :| id in after.tasks && after.tasks[id].flow == flow && Active(after.tasks[id].status);
      if !HasActive(b, flow) {
        assert b.tasks[id].flow == flow && b.tasks[id].status.Todo?;
        forall p | HangsFromStuck(b, p, id)
          ensures false
        {
          ChainBlocksPromotion(b, flow, p, id);
        }
      }
    }
  }

  predicate FlowIs(b: Board, flow: string, allowed: set<TaskStatus>) {
    forall id <- b.tasks :: b.tasks[id].flow == flow ==> b.tasks[id].status in allowed
  }

  /** No deadlock: with every task TODO, READY, RUNNING or DONE and one not DONE, the pass
      leaves a task READY or RUNNING. */
  lemma NoDeadlock(b: Board, flow: string, undone: string)
    requires Sound(b) && FlowIs(b, flow, {Todo, Ready, Running, Done})
    requires InFlow(b, undone, flow) && !b.tasks[undone].status.Done?
    ensures HasActive(PromoteFlow(b, flow), flow)
  {
    StallsIff(b, flow);
    if !HasActive(PromoteFlow(b, flow), flow) {
      assert b.tasks[undone].status.Todo?;
      var p :| HangsFromStuck(b, p, undone);
      FlowPathBack(b, flow, p);
    }
  }

  /** A chain that ends in a flow starts in it. */
  lemma {:induction false} FlowPathBack(b: Board, flow: string, p: seq<string>)
    requires Keyed(b) && SameFlow(b) && IsPath(b.edges, p) && InFlow(b, p[|p| - 1], flow)
    ensures InFlow(b, p[0], flow)
  {
    if |p| > 1 {
      var q := p[..|p| - 1];
      assert (p[|p| - 2], p[|p| - 1]) in b.edges;
      assert IsPath(b.edges, q);
      FlowPathBack(b, flow, q);
    }
  }
}
