/**
 The rows behind TaskFlow: tasks, their dependencies, flows and worker claims, and the
 operations on them as functions from one state of the tables to the next.
 */
module TaskBoard {
  import opened Wrappers
  import opened Graph

  datatype TaskStatus = Triage | Todo | Ready | Running | Blocked | Done | Failed | Cancelled | Archived

  datatype Priority = Low | Medium | High | Urgent

  datatype FlowStatus =
    FlowQueued | FlowRunning | FlowWaiting | FlowBlocked | FlowSucceeded | FlowFailed | FlowCancelled

  datatype Task = Task(flow: string, status: TaskStatus, priority: Priority, key: Option<string>,
                       maxAttempts: int, attempts: nat, blockReason: Option<string>, blocks: nat)

  datatype Claim = Claim(owner: string, leaseUntil: int)

  // order lists the tasks by creation time, as every query of the store does.
  datatype Board = Board(order: seq<string>, tasks: map<string, Task>, edges: seq<Edge>,
                         flows: map<string, FlowStatus>, claims: map<string, Claim>)

  // ---------------------------------------------------------------- reading

  predicate ParentsDone(b: Board, id: string) {
    forall e <- b.edges :: e.1 == id ==> e.0 in b.tasks && b.tasks[e.0].status.Done?
  }

  predicate HasParents(b: Board, id: string) {
    exists e <- b.edges :: e.1 == id
  }

  predicate InFlow(b: Board, id: string, flow: string) {
    id in b.tasks && b.tasks[id].flow == flow
  }

  /** The dependencies a flow owns: those whose parent is one of its tasks. */
  function FlowEdges(b: Board, edges: seq<Edge>, flow: string): (r: seq<Edge>)
    ensures forall e :: e in r <==> e in edges && InFlow(b, e.0, flow)
  {
    if edges == [] then []
    else
      var rest := FlowEdges(b, edges[1..], flow);
      if InFlow(b, edges[0].0, flow) then [edges[0]] + rest else rest
  }

  function FindByKey(b: Board, order: seq<string>, flow: string, key: string): (r: Option<string>)
    ensures r.Some? ==> InFlow(b, r.value, flow) && b.tasks[r.value].key == Some(key)
  {
    if order == [] then None
    else if InFlow(b, order[0], flow) && b.tasks[order[0]].key == Some(key) then Some(order[0])
    else FindByKey(b, order[1..], flow, key)
  }

  // ---------------------------------------------------------------- writing

  function WithStatus(t: Task, status: TaskStatus, reason: Option<string>, bump: bool): Task {
    t.(status := status, blockReason := reason,
       blocks := if bump then t.blocks + 1 else if status.Done? then 0 else t.blocks)
  }

  function SetStatus(b: Board, id: string, status: TaskStatus): Board
    requires id in b.tasks
  {
    b.(tasks := b.tasks[id := WithStatus(b.tasks[id], status, None, false)])
  }

  function Release(b: Board, id: string): Board {
    b.(claims := b.claims - {id})
  }

  // What block_task accepts as a reason.
  const BlockReasons: set<string> := {"dependency", "needs_user_input", "missing_capability", "transient_failure",
                                      "external_service", "review_required"}

  /** A third block in a row for the same reason goes to a person instead. */
  function BlockedTask(t: Task, reason: string): Task {
    var count := if t.blockReason == Some(reason) then t.blocks + 1 else 1;
    WithStatus(t, if count >= 3 then Triage else Blocked, Some(reason), true)
  }

  function AddEdge(edges: seq<Edge>, e: Edge): (r: seq<Edge>)
    ensures forall x :: x in r <==> x in edges || x == e
  {
    if e in edges then edges else edges + [e]
  }

  function AddParents(edges: seq<Edge>, parents: seq<string>, child: string): (r: seq<Edge>)
    ensures forall x :: x in r <==> x in edges || (x.1 == child && x.0 in parents)
    decreases |parents|
  {
    if parents == [] then edges
    else AddParents(AddEdge(edges, (parents[0], child)), parents[1..], child)
  }

  function RemoveEdge(edges: seq<Edge>, gone: Edge): (r: seq<Edge>)
    ensures forall x :: x in r <==> x in edges && x != gone
  {
    if edges == [] then []
    else if edges[0] == gone then RemoveEdge(edges[1..], gone)
    else [edges[0]] + RemoveEdge(edges[1..], gone)
  }

  // ---------------------------------------------------------------- promotion

  predicate Promotable(b: Board, id: string) {
    && id in b.tasks
    && (b.tasks[id].status.Todo? || (b.tasks[id].status.Triage? && HasParents(b, id)))
    && ParentsDone(b, id)
  }

  /** evaluate_task_promotion. */
  function Evaluate(b: Board, id: string): Board {
    if Promotable(b, id) then SetStatus(b, id, Ready) else b
  }

  /** auto_promote_flow: every TODO task of the flow whose parents are all DONE, and no
      other, becomes READY. */
  function PromoteTask(b: Board, id: string, t: Task, flow: string): Task {
    if t.flow == flow && t.status.Todo? && ParentsDone(b, id) then WithStatus(t, Ready, None, false) else t
  }

  function PromoteFlow(b: Board, flow: string): Board {
    b.(tasks := map id <- b.tasks :: PromoteTask(b, id, b.tasks[id], flow))
  }

  // ---------------------------------------------------------------- dependencies

  datatype Refusal = Cycle | Duplicate | Missing | CrossFlow

  datatype Op =
    | Create(flow: string, taskId: Option<string>, newId: string, parents: seq<string>,
             key: Option<string>, priority: Priority, maxAttempts: int)
    | AddDependency(parent: string, child: string)
    | RemoveDependency(parent: string, child: string)

  // Empty ids and keys count as none given.
  predicate Named(op: Op)
    requires op.Create?
  {
    op.taskId.Some? && op.taskId.value != ""
  }

  function OpId(op: Op): string
    requires op.Create?
  {
    if Named(op) then op.taskId.value else op.newId
  }

  predicate KeyTaken(b: Board, op: Op)
    requires op.Create?
  {
    op.key.Some? && FindByKey(b, b.order, op.flow, op.key.value).Some?
  }

  /** The key is known already, so that a creation only returns what is there. */
  predicate Repeated(b: Board, op: Op)
    requires op.Create?
  {
    KeyTaken(b, op) && op.key.value != ""
  }

  /** Why an operation is turned away, if it is; checked in the order of the code. */
  ghost function Refused(b: Board, op: Op): Option<Refusal> {
    match op
    case Create(flow, _, _, parents, _, _, _) =>
      var id := OpId(op);
      if Repeated(b, op) then None
      else if Named(op) && exists p <- parents :: Reach(FlowEdges(b, b.edges, flow), id, p) then Some(Cycle)
      else if id in b.tasks || KeyTaken(b, op) then Some(Duplicate)
      else if flow !in b.flows || exists p <- parents :: p != id && p !in b.tasks then Some(Missing)
      else None
    case AddDependency(parent, child) =>
      if parent == child then Some(Cycle)
      else if parent !in b.tasks || child !in b.tasks then Some(Missing)
      else if b.tasks[parent].flow != b.tasks[child].flow then Some(CrossFlow)
      else if Reach(FlowEdges(b, b.edges, b.tasks[parent].flow), child, parent) then Some(Cycle)
      else None
    case RemoveDependency(_, _) => None
  }

  function Inserted(b: Board, id: string, op: Op): Board
    requires op.Create?
  {
    b.(order := b.order + [id],
       tasks := b.tasks[id := Task(op.flow, Todo, op.priority, op.key, op.maxAttempts, 0, None, 0)],
       edges := AddParents(b.edges, op.parents, id))
  }

  ghost function Apply(b: Board, op: Op): Board {
    if Refused(b, op).Some? then b
    else
      match op
      case Create(_, _, _, _, _, _, _) =>
        if Repeated(b, op) then b else Evaluate(Inserted(b, OpId(op), op), OpId(op))
      case AddDependency(parent, child) =>
        Evaluate(b.(edges := AddEdge(b.edges, (parent, child))), child)
      case RemoveDependency(parent, child) =>
        Evaluate(b.(edges := RemoveEdge(b.edges, (parent, child))), child)
  }

  ghost function ApplyAll(b: Board, ops: seq<Op>): Board
    decreases |ops|
  {
    if ops == [] then b else ApplyAll(Apply(b, ops[0]), ops[1..])
  }

  // ---------------------------------------------------------------- well-formedness

  predicate NoDuplicates(s: seq<string>) {
    forall i, j :: 0 <= i < j < |s| ==> s[i] != s[j]
  }

  /** What the schema's keys and foreign keys give. */
  ghost predicate Keyed(b: Board) {
    && NoDuplicates(b.order)
    && (forall id :: id in b.order <==> id in b.tasks)
    && (forall e <- b.edges :: e.0 in b.tasks && e.1 in b.tasks)
    && (forall id <- b.tasks :: b.tasks[id].flow in b.flows)
  }

  ghost predicate SameFlow(b: Board) {
    forall e <- b.edges :: e.0 in b.tasks && e.1 in b.tasks ==> b.tasks[e.0].flow == b.tasks[e.1].flow
  }

  ghost predicate Sound(b: Board) {
    Keyed(b) && SameFlow(b) && Acyclic(b.edges)
  }

  /** What any caller does: a generated id is new. Parents may be of any flow. */
  ghost predicate NewIds(b: Board, op: Op) {
    op.Create? ==> op.newId !in b.tasks && op.newId !in op.parents
  }

  /** A creation that goes through and hangs its task below one of another flow. */
  ghost predicate Foreign(b: Board, op: Op) {
    && op.Create? && Refused(b, op).None? && !Repeated(b, op)
    && exists p <- op.parents :: p in b.tasks && b.tasks[p].flow != op.flow
  }

  ghost predicate AllNewIds(b: Board, ops: seq<Op>)
    decreases |ops|
  {
    ops == [] || (NewIds(b, ops[0]) && AllNewIds(Apply(b, ops[0]), ops[1..]))
  }

  ghost predicate NoneForeign(b: Board, ops: seq<Op>)
    decreases |ops|
  {
    ops == [] || (!Foreign(b, ops[0]) && NoneForeign(Apply(b, ops[0]), ops[1..]))
  }

  ghost predicate SoundThroughout(b: Board, ops: seq<Op>)
    decreases |ops|
  {
    Sound(b) && (ops == [] || SoundThroughout(Apply(b, ops[0]), ops[1..]))
  }

  // ---------------------------------------------------------------- acyclicity

  /** Within one flow, its own dependency list decides reachability. */
  lemma {:induction false} FlowPath(b: Board, flow: string, p: seq<string>)
    requires Keyed(b) && SameFlow(b) && IsPath(b.edges, p) && InFlow(b, p[0], flow)
    ensures IsPath(FlowEdges(b, b.edges, flow), p)
  {
    if |p| > 1 {
      assert (p[0], p[1]) in b.edges;
      var q := p[1..];
      forall i | 0 <= i < |q| - 1
        ensures (q[i], q[i + 1]) in b.edges
      {
        assert (p[i + 1], p[i + 2]) in b.edges;
      }
      FlowPath(b, flow, q);
      forall i | 0 <= i < |p| - 1
        ensures (p[i], p[i + 1]) in FlowEdges(b, b.edges, flow)
      {
        if i > 0 {
          assert (q[i - 1], q[i]) in FlowEdges(b, b.edges, flow);
        }
      }
    }
  }

  lemma FlowReach(b: Board, flow: string, x: string, y: string)
    requires Keyed(b) && SameFlow(b) && InFlow(b, x, flow)
    ensures Reach(b.edges, x, y) <==> Reach(FlowEdges(b, b.edges, flow), x, y)
  {
    if Reach(b.edges, x, y) {
      var p :| Connects(b.edges, p, x, y);
      FlowPath(b, flow, p);
      assert Connects(FlowEdges(b, b.edges, flow), p, x, y);
    }
    if Reach(FlowEdges(b, b.edges, flow), x, y) {
      ReachMonotone(FlowEdges(b, b.edges, flow), b.edges, x, y);
    }
  }

  lemma SameMembersAcyclic(x: seq<Edge>, y: seq<Edge>)
    requires Acyclic(x)
    requires forall e :: e in y ==> e in x
    ensures Acyclic(y)
  {
    AcyclicMonotone(y, x);
  }

  /** A node with nothing leaving it cannot close a cycle, however many parents it gets. */
  lemma {:induction false} NewLeafKeepsAcyclic(edges: seq<Edge>, parents: seq<string>, leaf: string)
    requires Acyclic(edges)
    requires leaf !in parents
    requires forall e <- edges :: e.0 != leaf
    ensures Acyclic(AddParents(edges, parents, leaf))
    decreases |parents|
  {
    if parents != [] {
      var more := edges + [(parents[0], leaf)];
      if Reach(edges, leaf, parents[0]) {
        PathEnd(edges, {leaf}, leaf, parents[0]);
      }
      EdgeClosesCycle(edges, parents[0], leaf);
      SameMembersAcyclic(more, AddEdge(edges, (parents[0], leaf)));
      NewLeafKeepsAcyclic(AddEdge(edges, (parents[0], leaf)), parents[1..], leaf);
    }
  }

  lemma EvaluateKeepsSound(b: Board, id: string)
    requires Sound(b)
    ensures Sound(Evaluate(b, id))
  {
  }

  lemma CreateKeepsSound(b: Board, op: Op)
    requires Sound(b) && op.Create? && NewIds(b, op) && !Foreign(b, op)
    ensures Sound(Apply(b, op))
  {
    var id := OpId(op);
    if Refused(b, op).None? && !Repeated(b, op) {
      ReachSelf(FlowEdges(b, b.edges, op.flow), id);
      InsertedIsSound(b, id, op);
      EvaluateKeepsSound(Inserted(b, id, op), id);
    }
  }

  lemma ForeignIsUnsound(b: Board, op: Op)
    requires Sound(b) && NewIds(b, op) && Foreign(b, op)
    ensures !SameFlow(Apply(b, op))
  {
    var id := OpId(op);
    var p :| p in op.parents && p in b.tasks && b.tasks[p].flow != op.flow;
    var x := Inserted(b, id, op);
    assert (p, id) in x.edges && x.tasks[p].flow != x.tasks[id].flow;
    EvaluateKeepsEdges(x, id);
  }

  lemma InsertedIsSound(b: Board, id: string, op: Op)
    requires Sound(b) && op.Create? && op.flow in b.flows && id !in b.tasks && id !in op.parents
    requires forall p <- op.parents :: p in b.tasks && b.tasks[p].flow == op.flow
    ensures Sound(Inserted(b, id, op))
  {
    NewLeafKeepsAcyclic(b.edges, op.parents, id);
  }

  lemma AddKeepsSound(b: Board, parent: string, child: string)
    requires Sound(b) && Refused(b, AddDependency(parent, child)).None?
    ensures Sound(b.(edges := AddEdge(b.edges, (parent, child))))
  {
    FlowReach(b, b.tasks[parent].flow, child, parent);
    EdgeClosesCycle(b.edges, parent, child);
    SameMembersAcyclic(b.edges + [(parent, child)], AddEdge(b.edges, (parent, child)));
  }

  /** Whatever the operation: keys valid, edges inside flows and the graph acyclic stay so
      exactly when it is no creation below a task of another flow. */
  lemma OpKeepsSoundIff(b: Board, op: Op)
    requires Sound(b) && NewIds(b, op)
    ensures Sound(Apply(b, op)) <==> !Foreign(b, op)
  {
    match op
    case Create(_, _, _, _, _, _, _) =>
      if Foreign(b, op) {
        ForeignIsUnsound(b, op);
      } else {
        CreateKeepsSound(b, op);
      }
    case AddDependency(p, c) =>
      if Refused(b, op).None? {
        AddKeepsSound(b, p, c);
        EvaluateKeepsSound(b.(edges := AddEdge(b.edges, (p, c))), c);
      }
    case RemoveDependency(p, c) =>
      SameMembersAcyclic(b.edges, RemoveEdge(b.edges, (p, c)));
      EvaluateKeepsSound(b.(edges := RemoveEdge(b.edges, (p, c))), c);
  }

  /** So for every sequence of them: no edge crosses flows and no cycle is closed throughout,
      exactly when none is such a creation when its turn comes. */
  lemma {:induction false} OpsSoundIff(b: Board, ops: seq<Op>)
    requires Sound(b) && AllNewIds(b, ops)
    ensures SoundThroughout(b, ops) <==> NoneForeign(b, ops)
    decreases |ops|
  {
    if ops != [] {
      OpKeepsSoundIff(b, ops[0]);
      if !Foreign(b, ops[0]) {
        OpsSoundIff(Apply(b, ops[0]), ops[1..]);
      } else {
        assert !SoundThroughout(Apply(b, ops[0]), ops[1..]);
      }
    }
  }

  /** Without the flow condition: an accepted dependency is safe exactly when the child did
      not reach the parent through some other flow. */
  lemma AcceptedDependencySafeIff(b: Board, parent: string, child: string)
    requires Keyed(b) && Acyclic(b.edges) && Refused(b, AddDependency(parent, child)).None?
    ensures Acyclic(Apply(b, AddDependency(parent, child)).edges) <==> !Reach(b.edges, child, parent)
    ensures SameFlow(b) ==> !Reach(b.edges, child, parent)
  {
    EdgeClosesCycle(b.edges, parent, child);
    var more := b.edges + [(parent, child)];
    if Acyclic(more) {
      SameMembersAcyclic(more, AddEdge(b.edges, (parent, child)));
    }
    if Acyclic(AddEdge(b.edges, (parent, child))) {
      SameMembersAcyclic(AddEdge(b.edges, (parent, child)), more);
    }
    if SameFlow(b) {
      FlowReach(b, b.tasks[parent].flow, child, parent);
    }
  }

  function NewTask(flow: string, id: string, parents: seq<string>): Op {
    Create(flow, None, id, parents, None, Medium, 3)
  }

  /** Two flows, and one task of B that create_task hung below a task of A. */
  function CrossFlowStart(): Board {
    var t := Task("A", Todo, Medium, None, 3, 0, None, 0);
    Board(["a1", "b"], map["a1" := t, "b" := t.(flow := "B")], [("a1", "b")],
          map["A" := FlowQueued, "B" := FlowQueued], map[])
  }

  /** The dependency is refused, or its child does not reach its parent in the whole graph. */
  ghost predicate Harmless(b: Board, op: Op) {
    op.AddDependency? && Refused(b, op).None? ==> !Reach(b.edges, op.child, op.parent)
  }

  lemma EvaluateKeepsKeyed(b: Board, id: string)
    requires Keyed(b)
    ensures Keyed(Evaluate(b, id)) && Evaluate(b, id).edges == b.edges
  {
  }

  lemma CreateKeepsAcyclic(b: Board, op: Op)
    requires Keyed(b) && Acyclic(b.edges) && op.Create? && NewIds(b, op)
    ensures Keyed(Apply(b, op)) && Acyclic(Apply(b, op).edges)
  {
    var id := OpId(op);
    if Refused(b, op).None? && Apply(b, op) != b {
      ReachSelf(FlowEdges(b, b.edges, op.flow), id);
      InsertedIsAcyclic(b, id, op);
      EvaluateKeepsKeyed(Inserted(b, id, op), id);
    }
  }

  lemma InsertedIsAcyclic(b: Board, id: string, op: Op)
    requires Keyed(b) && Acyclic(b.edges) && op.Create? && op.flow in b.flows && id !in b.tasks && id !in op.parents
    requires forall p <- op.parents :: p in b.tasks
    ensures Keyed(Inserted(b, id, op)) && Acyclic(Inserted(b, id, op).edges)
  {
    NewLeafKeepsAcyclic(b.edges, op.parents, id);
  }

  lemma OpKeepsKeyed(b: Board, op: Op)
    requires Keyed(b) && NewIds(b, op)
    ensures Keyed(Apply(b, op))
  {
    match op
    case Create(_, _, _, _, _, _, _) =>
      if Refused(b, op).None? && !Repeated(b, op) {
        ReachSelf(FlowEdges(b, b.edges, op.flow), OpId(op));
        EvaluateKeepsKeyed(Inserted(b, OpId(op), op), OpId(op));
      }
    case AddDependency(p, c) =>
      if Refused(b, op).None? {
        EvaluateKeepsKeyed(b.(edges := AddEdge(b.edges, (p, c))), c);
      }
    case RemoveDependency(p, c) =>
      EvaluateKeepsKeyed(b.(edges := RemoveEdge(b.edges, (p, c))), c);
  }

  /** For any operation, whatever flows its tasks are in: it leaves the graph acyclic exactly
      when it is harmless. */
  lemma OpKeepsAcyclicIff(b: Board, op: Op)
    requires Keyed(b) && Acyclic(b.edges) && NewIds(b, op)
    ensures Keyed(Apply(b, op))
    ensures Acyclic(Apply(b, op).edges) <==> Harmless(b, op)
  {
    match op
    case Create(_, _, _, _, _, _, _) => CreateKeepsAcyclic(b, op);
    case AddDependency(p, c) =>
      if Refused(b, op).None? {
        AcceptedDependencySafeIff(b, p, c);
        EvaluateKeepsKeyed(b.(edges := AddEdge(b.edges, (p, c))), c);
      }
    case RemoveDependency(p, c) =>
      SameMembersAcyclic(b.edges, RemoveEdge(b.edges, (p, c)));
      EvaluateKeepsKeyed(b.(edges := RemoveEdge(b.edges, (p, c))), c);
  }

  ghost predicate AllHarmless(b: Board, ops: seq<Op>)
    decreases |ops|
  {
    ops == [] || (Harmless(b, ops[0]) && AllHarmless(Apply(b, ops[0]), ops[1..]))
  }

  ghost predicate AcyclicThroughout(b: Board, ops: seq<Op>)
    decreases |ops|
  {
    Acyclic(b.edges) && (ops == [] || AcyclicThroughout(Apply(b, ops[0]), ops[1..]))
  }

  /** A sequence of operations keeps the graph acyclic throughout exactly when each of them is
      harmless when its turn comes. */
  lemma {:induction false} OpsAcyclicIff(b: Board, ops: seq<Op>)
    requires Keyed(b) && Acyclic(b.edges) && AllNewIds(b, ops)
    ensures AcyclicThroughout(b, ops) <==> AllHarmless(b, ops)
    decreases |ops|
  {
    if ops != [] {
      OpKeepsAcyclicIff(b, ops[0]);
      if Harmless(b, ops[0]) {
        OpsAcyclicIff(Apply(b, ops[0]), ops[1..]);
      }
    }
  }

  lemma CrossFlowEdges()
    ensures var b := Apply(CrossFlowStart(), NewTask("A", "a2", ["b"]));
            && b.edges == [("a1", "b"), ("b", "a2")] && Acyclic(b.edges)
            && InFlow(b, "a1", "A") && InFlow(b, "b", "B") && InFlow(b, "a2", "A")
  {
    var b, op := CrossFlowStart(), NewTask("A", "a2", ["b"]);
    CrossFlowAccepted();
    EvaluateKeepsEdges(Inserted(b, "a2", op), "a2");
    ChainAcyclic();
  }

  lemma CrossFlowAccepted()
    ensures var b, op := CrossFlowStart(), NewTask("A", "a2", ["b"]);
            && Refused(b, op).None? && Inserted(b, "a2", op).edges == [("a1", "b"), ("b", "a2")]
            && Apply(b, op) == Evaluate(Inserted(b, "a2", op), "a2")
  {
    var b := CrossFlowStart();
    assert AddParents(b.edges, ["b"], "a2") == AddParents(b.edges + [("b", "a2")], [], "a2");
  }

  lemma EvaluateKeepsEdges(b: Board, id: string)
    ensures Evaluate(b, id).edges == b.edges && Evaluate(b, id).tasks.Keys == b.tasks.Keys
    ensures forall x <- b.tasks :: Evaluate(b, id).tasks[x].flow == b.tasks[x].flow
  {
  }

  lemma ChainAcyclic()
    ensures Acyclic([("a1", "b"), ("b", "a2")])
  {
    RankedAcyclic([("a1", "b"), ("b", "a2")], x => if x == "a1" then 0 else if x == "b" then 1 else 2);
  }

  lemma CrossFlowUnseen(b: Board)
    requires b.edges == [("a1", "b"), ("b", "a2")] && Acyclic(b.edges)
    requires InFlow(b, "a1", "A") && InFlow(b, "b", "B") && InFlow(b, "a2", "A")
    ensures Refused(b, AddDependency("a2", "a1")).None? && Reach(b.edges, "a1", "a2")
  {
    var own := FlowEdges(b, b.edges, "A");
    if Reach(own, "a1", "a2") {
      PathEnd(own, {"a1", "b"}, "a1", "a2");
    }
    ReachSelf(b.edges, "a1");
    ReachStep(b.edges, "a1", "a1", "b");
    ReachStep(b.edges, "a1", "b", "a2");
  }

  /** The flow condition is needed: below a task hung across flows by create_task,
      add_dependency closes a cycle its own check cannot see. */
  lemma CrossFlowParentsBreakAcyclicity()
    ensures var b := Apply(CrossFlowStart(), NewTask("A", "a2", ["b"]));
            && Acyclic(b.edges)
            && Refused(b, AddDependency("a2", "a1")).None?
            && !Acyclic(Apply(b, AddDependency("a2", "a1")).edges)
  {
    CrossFlowEdges();
    var b := Apply(CrossFlowStart(), NewTask("A", "a2", ["b"]));
    CrossFlowUnseen(b);
    EdgeClosesCycle(b.edges, "a2", "a1");
    assert AddEdge(b.edges, ("a2", "a1")) == b.edges + [("a2", "a1")];
  }
}
