/**
 The TaskFlow service and its dispatcher: methods that rewrite the stored rows step by step,
 each proved to do to the tables what its specification in TaskBoard or Dispatcher says.
 */
module TaskFlow {
  import opened Wrappers
  import opened Graph
  import opened TaskBoard
  import opened Dispatcher

  // ---------------------------------------------------------------- passes half done

  /** b' is b part of the way through a promotion pass. */
  ghost predicate PartPromoted(b: Board, b': Board, flow: string, done: seq<string>) {
    && b' == b.(tasks := b'.tasks) && b'.tasks.Keys == b.tasks.Keys
    && forall id <- b.tasks ::
         b'.tasks[id] == if id in done then PromoteTask(b, id, b.tasks[id], flow) else b.tasks[id]
  }

  /** One task of the pass. */
  function Considered(b: Board, id: string, flow: string): Board {
    if id in b.tasks && b.tasks[id].flow == flow && b.tasks[id].status.Todo? then Evaluate(b, id) else b
  }

  lemma PartPromotedStep(b: Board, b': Board, flow: string, done: seq<string>, id: string)
    requires Keyed(b) && PartPromoted(b, b', flow, done) && id in b.tasks && id !in done
    ensures PartPromoted(b, Considered(b', id, flow), flow, done + [id]) && Keyed(Considered(b', id, flow))
    ensures b'.tasks[id] == b.tasks[id] && (Rises(b', id, flow) <==> Rises(b, id, flow))
  {
    assert ParentsDone(b', id) == ParentsDone(b, id) by {
      assert forall x <- b.tasks :: b'.tasks[x].status.Done? == b.tasks[x].status.Done?;
    }
  }

  lemma PartPromotedAll(b: Board, b': Board, flow: string)
    requires Keyed(b) && PartPromoted(b, b', flow, b.order)
    ensures b' == PromoteFlow(b, flow)
  {
    assert forall id <- b.tasks :: id in b.order;
    assert b'.tasks == PromoteFlow(b, flow).tasks;
  }

  /** The next task in line is none of those before. */
  lemma NextInLine(b: Board, i: nat)
    requires Keyed(b) && i < |b.order|
    ensures b.order[i] in b.tasks && b.order[i] !in b.order[..i] && b.order[..i + 1] == b.order[..i] + [b.order[i]]
  {
  }

  /** A promotion pass over the flow makes this task READY. */
  predicate Rises(b: Board, id: string, flow: string) {
    id in b.tasks && b.tasks[id].flow == flow && b.tasks[id].status.Todo? && Promotable(b, id)
  }

  function CountRising(b: Board, ids: seq<string>, flow: string): nat {
    if ids == [] then 0
    else CountRising(b, ids[..|ids| - 1], flow) + if Rises(b, ids[|ids| - 1], flow) then 1 else 0
  }

  lemma CountOneMore(b: Board, ids: seq<string>, i: nat, flow: string)
    requires i < |ids|
    ensures CountRising(b, ids[..i + 1], flow) == CountRising(b, ids[..i], flow) + if Rises(b, ids[i], flow)
            then 1 else 0
  {
    assert ids[..i + 1][..i] == ids[..i];
  }

  /** b' is b with the waiting children among those done blocked. */
  ghost predicate PartBlocked(b: Board, b': Board, failed: string, done: seq<string>)
    requires failed in b.tasks
  {
    && b'.tasks.Keys == b.tasks.Keys
    && forall id <- b.tasks ::
         b'.tasks[id] == if id in done then BlockChild(b, failed, id, b.tasks[id]) else b.tasks[id]
  }

  ghost predicate FlowsPromoted(b: Board, b': Board, done: set<string>) {
    && b' == b.(tasks := b'.tasks) && b'.tasks.Keys == b.tasks.Keys
    && forall id <- b.tasks ::
         b'.tasks[id] == if b.tasks[id].flow in done
           then PromoteTask(b, id, b.tasks[id], b.tasks[id].flow) else b.tasks[id]
  }

  /** The same rows, with each task in the same flow. */
  ghost predicate SameShape(b: Board, b': Board) {
    && b'.order == b.order && b'.edges == b.edges
    && b'.tasks.Keys == b.tasks.Keys && b'.flows.Keys == b.flows.Keys
    && forall id <- b.tasks :: b'.tasks[id].flow == b.tasks[id].flow
  }

  lemma SameShapeKeyed(b: Board, b': Board)
    requires Keyed(b) && SameShape(b, b')
    ensures Keyed(b')
  {
  }

  lemma FlowsPromotedTask(b: Board, b': Board, done: set<string>, f: string, id: string)
    requires Keyed(b) && FlowsPromoted(b, b', done) && f !in done && id in b.tasks
    ensures PromoteTask(b', id, b'.tasks[id], f) ==
            if b.tasks[id].flow == f then PromoteTask(b, id, b.tasks[id], f) else b'.tasks[id]
  {
    assert ParentsDone(b', id) == ParentsDone(b, id) by {
      assert forall x <- b.tasks :: b'.tasks[x].status.Done? == b.tasks[x].status.Done?;
    }
  }

  lemma FlowsPromotedStep(b: Board, b': Board, done: set<string>, f: string)
    requires Keyed(b) && FlowsPromoted(b, b', done) && f !in done
    ensures FlowsPromoted(b, PromoteFlow(b', f), done + {f})
  {
    var next := PromoteFlow(b', f);
    forall id <- b.tasks
      ensures next.tasks[id]
              == if b.tasks[id].flow in done + {f} then PromoteTask(b, id, b.tasks[id], b.tasks[id].flow)
                                else b.tasks[id]
    {
      FlowsPromotedTask(b, b', done, f, id);
    }
  }

  lemma FlowsPromotedAll(b: Board, b': Board, done: set<string>)
    requires Keyed(b) && FlowsPromoted(b, b', done)
    requires done == set f <- b.flows | !Terminal(b.flows[f])
    ensures b' == PromoteAll(b)
  {
    assert b'.tasks == PromoteAll(b).tasks;
  }

  lemma FailTaskShape(b: Board, id: string)
    requires id in b.tasks
    ensures SameShape(b, FailTask(b, id))
  {
  }

  lemma CompletedShape(b: Board, id: string)
    requires id in b.tasks
    ensures SameShape(b, PromoteFlow(SetStatus(Release(b, id), id, Done), b.tasks[id].flow))
  {
    var done := SetStatus(Release(b, id), id, Done);
    assert SameShape(b, done) && SameShape(done, PromoteFlow(done, b.tasks[id].flow));
  }

  lemma ReconcileTaskShape(b: Board, id: string, env: Env)
    requires id in b.tasks
    ensures SameShape(b, ReconcileTask(b, id, env).board)
  {
    if b.tasks[id].attempts == 0 {
    } else if env.reports(id).Completed? {
      CompletedShape(b, id);
    } else if env.reports(id).Unfinished? || env.reports(id).EndedOrphaned? {
    } else if !env.reports(id).SaysBlocked? {
      FailTaskShape(b, id);
    }
  }

  lemma ReconcileAllStep(b: Board, ids: seq<string>, i: nat, env: Env)
    requires i < |ids| && forall id <- ids :: id in b.tasks
    requires !ReconcileAll(b, ids[..i], env).raised
    ensures ReconcileAll(b, ids[..i + 1], env) == ReconcileTask(ReconcileAll(b, ids[..i], env).board, ids[i], env)
  {
    assert ids[..i + 1][..i] == ids[..i];
  }

  lemma {:induction false} ReconcileStopped(b: Board, ids: seq<string>, k: nat, env: Env)
    requires k <= |ids| && forall id <- ids :: id in b.tasks
    requires ReconcileAll(b, ids[..k], env).raised
    ensures ReconcileAll(b, ids, env) == ReconcileAll(b, ids[..k], env)
  {
    if k == |ids| {
      assert ids[..k] == ids;
    } else {
      assert ids[..|ids| - 1][..k] == ids[..k];
      ReconcileStopped(b, ids[..|ids| - 1], k, env);
    }
  }

  // ---------------------------------------------------------------- dispatch half done

  function Spawned(b: Board, id: string, env: Env): Board
    requires id in b.tasks
  {
    if id in env.spawns then
      var f := b.tasks[id].flow;
      b.(tasks := b.tasks[id := b.tasks[id].(attempts := b.tasks[id].attempts + 1)],
         flows := if f in b.flows && (b.flows[f].FlowQueued? || b.flows[f].FlowWaiting? || b.flows[f].FlowBlocked?)
                  then b.flows[f := FlowRunning] else b.flows)
    else SetStatus(Release(b, id), id, Ready)
  }

  ghost predicate TasksPart(b: Board, b': Board, env: Env, claimed: set<string>, done: set<string>) {
    && b'.tasks.Keys == b.tasks.Keys
    && forall id <- b.tasks :: b'.tasks[id] ==
         if id in done then DispatchTask(b.tasks[id], id in env.spawns)
         else if id in claimed then b.tasks[id].(status := TaskStatus.Running) else b.tasks[id]
  }

  ghost predicate ClaimsPart(b: Board, b': Board, env: Env, claimed: set<string>, done: set<string>) {
    && (forall id :: id in b'.claims <==>
          if id in claimed then id !in done || id in env.spawns else id in b.claims)
    && (forall id <- b'.claims :: b'.claims[id] ==
          if id in claimed then Claim(env.owner, env.leaseUntil) else b.claims[id])
  }

  ghost predicate Started(b: Board, env: Env, done: set<string>, f: string) {
    exists id <- done :: id in env.spawns && InFlow(b, id, f)
  }

  ghost predicate FlowsPart(b: Board, b': Board, env: Env, done: set<string>) {
    && b'.flows.Keys == b.flows.Keys
    && forall f <- b.flows :: b'.flows[f] ==
         if b.flows[f].FlowQueued? && Started(b, env, done, f) then FlowRunning else b.flows[f]
  }

  /** b' is b with some tasks claimed and some of those already submitted or put back. */
  ghost predicate PartDispatched(b: Board, b': Board, env: Env, claimed: set<string>, done: set<string>) {
    && b'.order == b.order && b'.edges == b.edges
    && TasksPart(b, b', env, claimed, done) && ClaimsPart(b, b', env, claimed, done) && FlowsPart(b, b', env, done)
  }

  lemma StartedGrows(b: Board, env: Env, done: set<string>, id: string, f: string)
    ensures Started(b, env, done + {id}, f) <==> Started(b, env, done, f) || (id in env.spawns && InFlow(b, id, f))
  {
    assert id in done + {id};
    assert forall x <- done :: x in done + {id};
  }

  lemma SpawnedFlows(b: Board, b': Board, env: Env, claimed: set<string>, done: set<string>, id: string)
    requires TasksPart(b, b', env, claimed, done) && FlowsPart(b, b', env, done)
    requires Claimable(b, id, env.now)
    ensures FlowsPart(b, Spawned(b', id, env), env, done + {id})
  {
    var after := Spawned(b', id, env);
    forall f | f in b.flows
      ensures after.flows[f] == if b.flows[f].FlowQueued?
              && Started(b, env, done + {id}, f) then FlowRunning else b.flows[f]
    {
      StartedGrows(b, env, done, id, f);
    }
  }

  lemma SpawnedTasks(b: Board, b': Board, env: Env, claimed: set<string>, done: set<string>, id: string)
    requires TasksPart(b, b', env, claimed, done) && ClaimsPart(b, b', env, claimed, done)
    requires id in claimed && id !in done && id in b.tasks
    ensures TasksPart(b, Spawned(b', id, env), env, claimed, done + {id})
    ensures ClaimsPart(b, Spawned(b', id, env), env, claimed, done + {id})
  {
  }

  lemma SpawnedStep(b: Board, b': Board, env: Env, claimed: set<string>, done: set<string>, id: string)
    requires PartDispatched(b, b', env, claimed, done)
    requires id in claimed && id !in done && Claimable(b, id, env.now)
    ensures PartDispatched(b, Spawned(b', id, env), env, claimed, done + {id})
  {
    SpawnedTasks(b, b', env, claimed, done, id);
    SpawnedFlows(b, b', env, claimed, done, id);
  }

  lemma AllDispatched(b: Board, b': Board, env: Env, done: set<string>)
    requires PartDispatched(b, b', env, done, done) && done == Prefix(Picks(b, env), |Picks(b, env)|)
    ensures b' == Dispatch(b, env)
  {
    AllTasksDispatched(b, b', env, done);
    AllFlowsDispatched(b, b', env, done);
  }

  lemma AllTasksDispatched(b: Board, b': Board, env: Env, done: set<string>)
    requires TasksPart(b, b', env, done, done) && ClaimsPart(b, b', env, done, done)
    requires done == Prefix(Picks(b, env), |Picks(b, env)|)
    ensures b'.tasks == Dispatch(b, env).tasks && b'.claims == Dispatch(b, env).claims
  {
    assert Picks(b, env)[..|Picks(b, env)|] == Picks(b, env);
    assert b'.claims.Keys == Dispatch(b, env).claims.Keys;
  }

  lemma AllFlowsDispatched(b: Board, b': Board, env: Env, done: set<string>)
    requires FlowsPart(b, b', env, done) && done == Prefix(Picks(b, env), |Picks(b, env)|)
    ensures b'.flows == Dispatch(b, env).flows
  {
    var picks := Picks(b, env);
    assert picks[..|picks|] == picks;
    forall f <- b.flows
      ensures Started(b, env, done, f) <==> exists id <- picks :: id in env.spawns && InFlow(b, id, f)
    {
      if Started(b, env, done, f) {
        var id :| id in done && id in env.spawns && InFlow(b, id, f);
        assert id in picks;
      }
      if exists id <- picks :: id in env.spawns && InFlow(b, id, f) {
        var id :| id in picks && id in env.spawns && InFlow(b, id, f);
        assert id in done;
      }
    }
  }

  /** The members of a duplicate-free list up to i, and what the next one adds. */
  function Prefix(ids: seq<string>, i: nat): (s: set<string>)
    requires i <= |ids|
  {
    set id <- ids[..i]
  }

  lemma PrefixGrows(ids: seq<string>, i: nat)
    requires i < |ids| && NoDuplicates(ids)
    ensures Prefix(ids, i + 1) == Prefix(ids, i) + {ids[i]} && ids[i] !in Prefix(ids, i)
    ensures ids[i] in Prefix(ids, |ids|)
  {
    assert ids[..i + 1] == ids[..i] + [ids[i]];
    assert ids[..|ids|] == ids;
  }

  function ClaimedOne(b: Board, id: string, env: Env): Board
    requires id in b.tasks
  {
    b.(claims := b.claims[id := Claim(env.owner, env.leaseUntil)],
       tasks := b.tasks[id := b.tasks[id].(status := TaskStatus.Running)])
  }

  lemma ClaimedStep(b: Board, b': Board, env: Env, claimed: set<string>, id: string)
    requires PartDispatched(b, b', env, claimed, {}) && id in b.tasks
    ensures PartDispatched(b, ClaimedOne(b', id, env), env, claimed + {id}, {})
  {
  }

  /** Judging one flow does not depend on what the others were judged. */
  lemma FlowJudged(b: Board, b': Board, f: string)
    requires b' == b.(flows := b'.flows) && f in b.flows && f in b'.flows && b'.flows[f] == b.flows[f]
    ensures EvaluateFlows(b).flows[f] ==
            if Terminal(b'.flows[f]) || !HasTasks(b', f) then b'.flows[f] else Verdict(b', f)
  {
    assert HasTasks(b', f) == HasTasks(b, f);
    assert Verdict(b', f) == Verdict(b, f);
  }

  class TaskFlowService {
    var order: seq<string>
    var tasks: map<string, Task>
    var edges: seq<Edge>
    var flows: map<string, FlowStatus>
    var claims: map<string, Claim>

    function State(): Board
      reads this
    {
      Board(order, tasks, edges, flows, claims)
    }

    // -------------------------------------------------------------- tasks and dependencies

    method CreateTask(op: Op) returns (r: Result<string, Refusal>)
      requires op.Create? && op.newId !in tasks && op.newId !in op.parents
      modifies this
      ensures State() == Apply(old(State()), op)
      ensures old(Refused(State(), op)) == (if r.Err? then Some(r.error) else None)
      ensures r.Ok? ==>
                if old(Repeated(State(), op))
                then old(FindByKey(State(), order, op.flow, op.key.value)) == Some(r.value)
                else r.value == OpId(op)
    {
      if op.key.Some? && op.key.value != "" {
        var existing := FindByKey(State(), order, op.flow, op.key.value);
        if existing.Some? {
          return Ok(existing.value);
        }
      }
      var id := OpId(op);
      if Named(op) {
        var own := FlowEdges(State(), edges, op.flow);
        for i := 0 to |op.parents|
          invariant State() == old(State())
          invariant forall j :: 0 <= j < i ==> !Reach(own, id, op.parents[j])
        {
          var cycle := DetectDagCycle(own, op.parents[i], id);
          assert op.parents[i] in op.parents;
          if cycle {
            return Err(Cycle);
          }
        }
      }
      if id in tasks || KeyTaken(State(), op) {
        return Err(Duplicate);
      }
      if op.flow !in flows || exists p <- op.parents :: p != id && p !in tasks {
        return Err(Missing);
      }
      order := order + [id];
      tasks := tasks[id := Task(op.flow, Todo, op.priority, op.key, op.maxAttempts, 0, None, 0)];
      edges := AddParents(edges, op.parents, id);
      var _ := EvaluateTaskPromotion(id);
      r := Ok(id);
    }

    method AddDependency(parent: string, child: string) returns (r: Result<(), Refusal>)
      modifies this
      ensures State() == Apply(old(State()), Op.AddDependency(parent, child))
      ensures old(Refused(State(), Op.AddDependency(parent, child))) == (if r.Err? then Some(r.error) else None)
    {
      if parent == child {
        return Err(Cycle);
      }
      if parent !in tasks || child !in tasks {
        return Err(Missing);
      }
      if tasks[parent].flow != tasks[child].flow {
        return Err(CrossFlow);
      }
      var cycle := DetectDagCycle(FlowEdges(State(), edges, tasks[parent].flow), parent, child);
      if cycle {
        return Err(Cycle);
      }
      edges := AddEdge(edges, (parent, child));
      var _ := EvaluateTaskPromotion(child);
      r := Ok(());
    }

    method RemoveDependency(parent: string, child: string)
      modifies this
      ensures State() == Apply(old(State()), Op.RemoveDependency(parent, child))
    {
      edges := RemoveEdge(edges, (parent, child));
      var _ := EvaluateTaskPromotion(child);
    }

    // -------------------------------------------------------------- promotion

    method EvaluateTaskPromotion(id: string) returns (promoted: bool)
      modifies this`tasks
      ensures promoted == old(Promotable(State(), id))
      ensures State() == Evaluate(old(State()), id)
    {
      if id !in tasks || !(tasks[id].status.Todo? || tasks[id].status.Triage?) {
        return false;
      }
      var orphan := true;
      for i := 0 to |edges|
        invariant State() == old(State())
        invariant orphan <==> forall j :: 0 <= j < i ==> edges[j].1 != id
        invariant forall j :: 0 <= j < i && edges[j].1 == id ==>
                    edges[j].0 in tasks && tasks[edges[j].0].status.Done?
      {
        if edges[i].1 == id {
          orphan := false;
          if edges[i].0 !in tasks || !tasks[edges[i].0].status.Done? {
            return false;
          }
        }
      }
      if orphan && !tasks[id].status.Todo? {
        return false;
      }
      tasks := tasks[id := WithStatus(tasks[id], Ready, None, false)];
      promoted := true;
    }

    method Consider(id: string, flow: string) returns (ok: bool)
      requires id in tasks
      modifies this`tasks
      ensures State() == Considered(old(State()), id, flow) && ok == old(Rises(State(), id, flow))
    {
      ok := false;
      if tasks[id].flow == flow && tasks[id].status.Todo? {
        ok := EvaluateTaskPromotion(id);
      }
    }

    method AutoPromoteFlow(flow: string) returns (promoted: nat)
      requires Keyed(State())
      modifies this`tasks
      ensures State() == PromoteFlow(old(State()), flow)
      ensures promoted == CountRising(old(State()), order, flow)
    {
      ghost var b := State();
      promoted := 0;
      for i := 0 to |order|
        invariant State() == b.(tasks := tasks) && PartPromoted(b, State(), flow, order[..i])
        invariant promoted == CountRising(b, order[..i], flow)
      {
        NextInLine(b, i);
        CountOneMore(b, order, i, flow);
        PartPromotedStep(b, State(), flow, order[..i], order[i]);
        var ok := Consider(order[i], flow);
        promoted := promoted + if ok then 1 else 0;
      }
      assert order[..|order|] == order;
      PartPromotedAll(b, State(), flow);
    }

    method PromoteAllEligibleTasks()
      requires Keyed(State())
      modifies this`tasks
      ensures State() == PromoteAll(old(State()))
    {
      ghost var b := State();
      var todo := set f <- flows | !Terminal(flows[f]);
      ghost var done: set<string> := {};
      while todo != {}
        invariant State() == b.(tasks := tasks) && FlowsPromoted(b, State(), done)
        invariant todo !! done && todo + done == set f <- b.flows | !Terminal(b.flows[f])
      {
        var f :| f in todo;
        FlowsPromotedStep(b, State(), done, f);
        SameShapeKeyed(b, State());
        var _ := AutoPromoteFlow(f);
        todo, done := todo - {f}, done + {f};
      }
      FlowsPromotedAll(b, State(), done);
    }

    // -------------------------------------------------------------- reconciliation

    method ReleaseClaim(id: string)
      modifies this`claims
      ensures State() == Release(old(State()), id)
    {
      claims := claims - {id};
    }

    method UpdateStatus(id: string, status: TaskStatus)
      requires id in tasks
      modifies this`tasks
      ensures State() == SetStatus(old(State()), id, status)
    {
      tasks := tasks[id := WithStatus(tasks[id], status, None, false)];
    }

    method BlockTask(id: string, reason: string)
      requires id in tasks
      modifies this`tasks
      ensures State() == SetTask(old(State()), id, BlockedTask(old(tasks[id]), reason))
    {
      var t := tasks[id];
      var recurrence := if t.blockReason == Some(reason) then t.blocks + 1 else 1;
      var status := if recurrence >= 3 then Triage else TaskStatus.Blocked;
      tasks := tasks[id := WithStatus(t, status, Some(reason), true)];
    }

    method BlockIfWaiting(id: string, flow: string, failed: string)
      requires id in tasks
      modifies this`tasks
      ensures State() == old(State()).(tasks := old(tasks)[id :=
                if old(tasks[id].flow == flow && (failed, id) in edges
                       && (tasks[id].status.Todo? || tasks[id].status.Ready?))
                then BlockedTask(old(tasks[id]), "dependency") else old(tasks[id])])
    {
      var t := tasks[id];
      if t.flow == flow && (failed, id) in edges && (t.status.Todo? || t.status.Ready?) {
        BlockTask(id, "dependency");
      } else {
        assert tasks[id := t] == tasks;
      }
    }

    method HandleParentTaskFailed(failed: string)
      requires Keyed(State()) && failed in tasks
      modifies this`tasks
      ensures State() == BlockChildren(old(State()), failed)
    {
      ghost var b := State();
      var listed := tasks;
      for i := 0 to |order|
        invariant State() == b.(tasks := tasks) && PartBlocked(b, State(), failed, order[..i])
      {
        NextInLine(b, i);
        BlockIfWaiting(order[i], listed[failed].flow, failed);
      }
      assert order[..|order|] == order;
      assert forall id <- b.tasks :: id in b.order;
      assert tasks == BlockChildren(b, failed).tasks;
    }

    method HandleTaskFailure(id: string) returns (retried: bool)
      requires Keyed(State()) && id in tasks
      modifies this`tasks, this`claims
      ensures State() == FailTask(old(State()), id)
      ensures retried == (old(tasks[id]).attempts < old(tasks[id]).maxAttempts)
    {
      ReleaseClaim(id);
      retried := tasks[id].attempts < tasks[id].maxAttempts;
      if retried {
        UpdateStatus(id, Ready);
      } else {
        UpdateStatus(id, TaskStatus.Failed);
        HandleParentTaskFailed(id);
      }
    }

    /** One running task against what its latest run reports. */
    method ReconcileRunningTask(id: string, env: Env) returns (raised: bool)
      requires Keyed(State()) && id in tasks
      modifies this`tasks, this`claims
      ensures Outcome(State(), raised) == ReconcileTask(old(State()), id, env)
    {
      raised := false;
      var t := tasks[id];
      if t.attempts == 0 {
        if id in claims && claims[id].leaseUntil < env.now {
          ReleaseClaim(id);
          UpdateStatus(id, Ready);
        }
        return;
      }
      match env.reports(id)
      case Unfinished =>
        if id in claims && claims[id].owner == env.owner {
          claims := claims[id := Claim(env.owner, env.leaseUntil)];
        }
      case Completed =>
        ReleaseClaim(id);
        UpdateStatus(id, TaskStatus.Done);
        var _ := AutoPromoteFlow(t.flow);
      case SaysBlocked(reason) =>
        ReleaseClaim(id);
        BlockTask(id, if reason.Some? then reason.value else "needs_user_input");
      case EndedOrphaned =>
        raised := true;
      case SaysFailed => var _ := HandleTaskFailure(id);
      case EndedFailed => var _ := HandleTaskFailure(id);
      case EndedCancelled => var _ := HandleTaskFailure(id);
      case EndedInterrupted => var _ := HandleTaskFailure(id);
    }

    method ReconcileRunningTasks(env: Env) returns (raised: bool)
      requires Keyed(State())
      modifies this`tasks, this`claims
      ensures Outcome(State(), raised) == Reconciled(old(State()), env)
      ensures SameShape(old(State()), State())
    {
      ghost var b := State();
      var running := WithStatusIds(State(), order, TaskStatus.Running);
      raised := false;
      for i := 0 to |running|
        invariant !raised && Outcome(State(), false) == ReconcileAll(b, running[..i], env)
        invariant SameShape(b, State())
      {
        ReconcileAllStep(b, running, i, env);
        ReconcileTaskShape(State(), running[i], env);
        SameShapeKeyed(b, State());
        raised := ReconcileRunningTask(running[i], env);
        if raised {
          ReconcileStopped(b, running, i + 1, env);
          return;
        }
      }
      assert running[..|running|] == running;
    }

    // -------------------------------------------------------------- dispatch

    /** claim_ready_tasks: the picked rows become RUNNING under this owner's lease. */
    method ClaimReadyTasks(env: Env) returns (picks: seq<string>)
      requires NoDuplicates(order)
      modifies this`tasks, this`claims
      ensures picks == Picks(old(State()), env)
      ensures PartDispatched(old(State()), State(), env, Prefix(picks, |picks|), {})
    {
      ghost var b := State();
      picks := Picks(State(), env);
      PicksDistinct(b, env);
      for i := 0 to |picks|
        invariant PartDispatched(b, State(), env, Prefix(picks, i), {})
      {
        var id := picks[i];
        PrefixGrows(picks, i);
        assert Claimable(b, id, env.now);
        ClaimedStep(b, State(), env, Prefix(picks, i), id);
        claims := claims[id := Claim(env.owner, env.leaseUntil)];
        tasks := tasks[id := tasks[id].(status := TaskStatus.Running)];
      }
    }

    /** Submits the run of one claimed task, or puts the task back when that fails. */
    method SpawnTaskRun(id: string, env: Env)
      requires id in tasks
      modifies this`tasks, this`claims, this`flows
      ensures State() == Spawned(old(State()), id, env)
    {
      if id in env.spawns {
        tasks := tasks[id := tasks[id].(attempts := tasks[id].attempts + 1)];
        var f := tasks[id].flow;
        if f in flows && (flows[f].FlowQueued? || flows[f].FlowWaiting? || flows[f].FlowBlocked?) {
          flows := flows[f := FlowRunning];
        }
      } else {
        ReleaseClaim(id);
        UpdateStatus(id, Ready);
      }
    }

    method DispatchReadyTasks(env: Env)
      requires NoDuplicates(order)
      modifies this`tasks, this`claims, this`flows
      ensures State() == Dispatch(old(State()), env)
    {
      ghost var b := State();
      PicksDistinct(b, env);
      var picks := ClaimReadyTasks(env);
      ghost var claimed := Prefix(picks, |picks|);
      for i := 0 to |picks|
        invariant PartDispatched(b, State(), env, claimed, Prefix(picks, i))
      {
        var id := picks[i];
        PrefixGrows(picks, i);
        assert Claimable(b, id, env.now);
        SpawnedStep(b, State(), env, claimed, Prefix(picks, i), id);
        SpawnTaskRun(id, env);
      }
      AllDispatched(b, State(), env, claimed);
    }

    // -------------------------------------------------------------- flow status

    method EvaluateAllFlowStatuses()
      modifies this`flows
      ensures State() == EvaluateFlows(old(State()))
    {
      ghost var b := State();
      var todo := flows.Keys;
      while todo != {}
        invariant State() == b.(flows := flows) && flows.Keys == b.flows.Keys && todo <= flows.Keys
        invariant forall f <- flows :: flows[f] == if f in todo then b.flows[f] else EvaluateFlows(b).flows[f]
      {
        var f :| f in todo;
        todo := todo - {f};
        FlowJudged(b, State(), f);
        if !Terminal(flows[f]) && HasTasks(State(), f) {
          flows := flows[f := Verdict(State(), f)];
        }
      }
      assert flows == EvaluateFlows(b).flows;
    }

    // -------------------------------------------------------------- the cycle

    /** One dispatcher cycle. An exception while reconciling abandons the rest of it. */
    method Tick(env: Env) returns (raised: bool)
      requires Keyed(State())
      modifies this
      ensures Outcome(State(), raised) == Dispatcher.Tick(old(State()), env)
    {
      ghost var b := State();
      raised := ReconcileRunningTasks(env);
      if raised {
        return;
      }
      SameShapeKeyed(b, State());
      ghost var r := State();
      PromoteAllEligibleTasks();
      SameShapeKeyed(r, State());
      DispatchReadyTasks(env);
      EvaluateAllFlowStatuses();
    }
  }
}
