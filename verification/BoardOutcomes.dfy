/**
 What creations, dependency edits and interventions make of the tables, told from the tables
 before and after; and what the guard against repeated blocks counts.
 */
module BoardOutcomes {
  import opened Wrappers
  import opened Graph
  import opened TaskBoard
  import opened DispatcherHistories
  import opened TaskFlow

  predicate AllDone(b: Board, ids: seq<string>) {
    forall p <- ids :: p in b.tasks && b.tasks[p].status.Done?
  }

  /** A creation under a key its flow knows changes nothing; any other one that goes through adds
      one task with the given fields and nothing done, READY exactly if the parents given are all
      DONE and TODO otherwise, and the edges from its parents; it touches no other task. */
  lemma CreateOutcome(b: Board, op: Op)
    requires Keyed(b) && op.Create? && NewIds(b, op) && Refused(b, op).None?
    ensures var b' := Apply(b, op);
            if exists id <- b.tasks ::
                 op.key.Some? && op.key.value != "" && b.tasks[id].flow == op.flow && b.tasks[id].key == op.key
            then b' == b
            else
              && b'.order == b.order + [OpId(op)] && b'.flows == b.flows && b'.claims == b.claims
              && OpId(op) !in b.tasks && b'.tasks.Keys == b.tasks.Keys + {OpId(op)}
              && (forall x <- b.tasks :: b'.tasks[x] == b.tasks[x])
              && b'.tasks[OpId(op)] ==
                 Task(op.flow, if AllDone(b, op.parents) then Ready else Todo, op.priority, op.key, op.maxAttempts, 0,
                      None, 0)
              && forall e :: e in b'.edges <==> e in b.edges || (e.1 == OpId(op) && e.0 in op.parents)
  {
    KeyFoundIff(b, b.order, op);
    if !Repeated(b, op) {
      var id := OpId(op);
      ReachSelf(FlowEdges(b, b.edges, op.flow), id);
      NewTaskParents(b, op);
    }
  }

  lemma {:induction false} KeyFoundIff(b: Board, order: seq<string>, op: Op)
    requires op.Create?
    ensures op.key.Some? ==>
              (FindByKey(b, order, op.flow, op.key.value).Some? <==>
               exists id <- order :: id in b.tasks && b.tasks[id].flow == op.flow && b.tasks[id].key == op.key)
  {
    if order != [] {
      KeyFoundIff(b, order[1..], op);
    }
  }

  lemma NewTaskParents(b: Board, op: Op)
    requires Keyed(b) && op.Create? && NewIds(b, op) && Refused(b, op).None? && !Repeated(b, op)
    requires OpId(op) !in op.parents
    ensures ParentsDone(Inserted(b, OpId(op), op), OpId(op)) <==> AllDone(b, op.parents)
  {
    var id := OpId(op);
    var x := Inserted(b, id, op);
    forall p <- op.parents
      ensures (p, id) in x.edges
    {
    }
  }

  /** When a creation goes through. */
  lemma CreateAcceptedIff(b: Board, op: Op)
    requires Keyed(b) && op.Create? && NewIds(b, op) && !Repeated(b, op)
    ensures Refused(b, op).None? <==>
            && op.flow in b.flows && OpId(op) !in b.tasks && !KeyTaken(b, op)
            && forall p <- op.parents :: p in b.tasks
  {
    var id, own := OpId(op), FlowEdges(b, b.edges, op.flow);
    ReachSelf(own, id);
    if id !in b.tasks {
      forall p <- op.parents | p in b.tasks
        ensures !Reach(own, id, p)
      {
        if Reach(own, id, p) {
          PathEnd(own, {id}, id, p);
        }
      }
    }
  }

  /** When a dependency is accepted on a sound board. */
  lemma DependencyAcceptedIff(b: Board, parent: string, child: string)
    requires Sound(b)
    ensures Refused(b, AddDependency(parent, child)).None? <==>
            && parent != child && parent in b.tasks && child in b.tasks
            && b.tasks[parent].flow == b.tasks[child].flow && !Reach(b.edges, child, parent)
  {
    if parent in b.tasks && child in b.tasks && b.tasks[parent].flow == b.tasks[child].flow {
      FlowReach(b, b.tasks[parent].flow, child, parent);
    }
  }

  /** Why a dependency is refused on a sound board, in the order of the checks. */
  lemma DependencyRefusals(b: Board, parent: string, child: string)
    requires Sound(b)
    ensures Refused(b, AddDependency(parent, child)) ==
            if parent == child then Some(TaskBoard.Cycle)
            else if parent !in b.tasks || child !in b.tasks then Some(Missing)
            else if b.tasks[parent].flow != b.tasks[child].flow then Some(CrossFlow)
            else if Reach(b.edges, child, parent) then Some(TaskBoard.Cycle) else None
  {
    if parent in b.tasks && child in b.tasks && b.tasks[parent].flow == b.tasks[child].flow {
      FlowReach(b, b.tasks[parent].flow, child, parent);
    }
  }

  /** Why a creation is: the id it gives is its own parent, or the id or an empty key is taken, or
      its flow or a parent is missing. */
  lemma CreateRefusals(b: Board, op: Op)
    requires Keyed(b) && op.Create? && NewIds(b, op) && !Repeated(b, op) && OpId(op) !in b.tasks
    ensures Refused(b, op) ==
            if OpId(op) in op.parents then Some(TaskBoard.Cycle)
            else if KeyTaken(b, op) then Some(Duplicate)
            else if op.flow !in b.flows || exists p <- op.parents :: p !in b.tasks then Some(Missing) else None
  {
    var id, own := OpId(op), FlowEdges(b, b.edges, op.flow);
    ReachSelf(own, id);
    forall p <- op.parents | p != id
      ensures !Reach(own, id, p)
    {
      if Reach(own, id, p) {
        PathEnd(own, {id}, id, p);
      }
    }
  }

  /** The child of an edited dependency is READY if it was TODO, or in TRIAGE with a parent, and
      all parents it now has are DONE; nothing else changes but the edge. */
  lemma DependencyOutcome(b: Board, op: Op, x: string)
    requires Keyed(b) && !op.Create? && Refused(b, op).None? && x in b.tasks
    ensures var b' := Apply(b, op);
            && b' == b.(tasks := b'.tasks, edges := b'.edges) && b'.tasks.Keys == b.tasks.Keys
            && (forall e :: e in b'.edges <==>
                 if e == (op.parent, op.child) then op.AddDependency? else e in b.edges)
            && b'.tasks[x] ==
               if x == op.child && (forall e <- b'.edges :: e.1 == x ==> b.tasks[e.0].status.Done?)
                 && (b.tasks[x].status.Todo? || (b.tasks[x].status.Triage? && exists e <- b'.edges :: e.1 == x))
               then b.tasks[x].(status := Ready, blockReason := None) else b.tasks[x]
  {
    OpKeepsKeyed(b, op);
    EvaluateKeepsEdges(Edited(b, op), op.child);
  }

  /** A promotion pass makes READY exactly the flow's TODO tasks whose parents are all DONE, and reports
      how many. */
  lemma PromotionOutcome(b: Board, flow: string)
    requires Keyed(b)
    ensures var b' := PromoteFlow(b, flow);
            && b' == b.(tasks := b'.tasks) && b'.tasks.Keys == b.tasks.Keys
            && (forall x <- b.tasks ::
                  b'.tasks[x] ==
                  if b.tasks[x].flow == flow && b.tasks[x].status.Todo?
                     && (forall e <- b.edges :: e.1 == x ==> b.tasks[e.0].status.Done?)
                  then b.tasks[x].(status := Ready, blockReason := None) else b.tasks[x])
            && CountRising(b, b.order, flow) == |set x | x in b.tasks && b'.tasks[x] != b.tasks[x]|
  {
    RisingCounts(b, b.order, flow);
    var b' := PromoteFlow(b, flow);
    assert Rising(b, b.order, flow) == set x | x in b.tasks && b'.tasks[x] != b.tasks[x];
  }

  lemma {:induction false} RisingCounts(b: Board, ids: seq<string>, flow: string)
    requires NoDuplicates(ids)
    ensures CountRising(b, ids, flow) == |Rising(b, ids, flow)|
  {
    if ids != [] {
      RisingCounts(b, ids[..|ids| - 1], flow);
      RisingGrows(b, ids, flow, ids[|ids| - 1]);
    }
  }

  function Rising(b: Board, ids: seq<string>, flow: string): set<string> {
    set x | x in ids && Rises(b, x, flow)
  }

  lemma RisingGrows(b: Board, ids: seq<string>, flow: string, last: string)
    requires NoDuplicates(ids) && ids != [] && last == ids[|ids| - 1]
    ensures var init := ids[..|ids| - 1];
            && Rising(b, ids, flow) == (if Rises(b, last, flow) then Rising(b, init, flow) + {last}
                                        else Rising(b, init, flow))
            && last !in Rising(b, init, flow)
  {
    assert ids == ids[..|ids| - 1] + [last];
  }

  // ---------------------------------------------------------------- repeated blocks

  /** The task after blocks for these reasons, with unblocks between them, which keep the last
      reason and the count. */
  function BlockedFor(t: Task, reasons: seq<string>): Task {
    if reasons == [] then t
    else
      var n := |reasons| - 1;
      BlockedTask(BlockedFor(t, reasons[..n]).(status := Ready), reasons[n])
  }

  /** How often the last reason has come in a row. */
  function InARow(reasons: seq<string>): nat {
    var n := |reasons|;
    if n < 2 then n else if reasons[n - 1] == reasons[n - 2] then 1 + InARow(reasons[..n - 1]) else 1
  }

  /** An unblock leaves reason and count alone and puts the task to READY or TODO by its parents. */
  lemma UnblockOutcome(b: Board, id: string)
    requires id in b.tasks
    ensures var u := Play(b, Unblock(id)).tasks[id]; var t := b.tasks[id];
            && u == t.(status := u.status)
            && u.status == if forall e <- b.edges :: e.1 == id ==> e.0 in b.tasks && b.tasks[e.0].status.Done?
                           then Ready else Todo
  {
  }

  /** A retry puts the task to READY whatever it was, and gives its claim up. */
  lemma RetryOutcome(b: Board, id: string)
    requires id in b.tasks && !b.tasks[id].status.Done?
    ensures var b' := Play(b, Retry(id));
            && b' == b.(tasks := b'.tasks, claims := b'.claims) && b'.tasks.Keys == b.tasks.Keys && id !in b'.claims
            && forall x <- b.tasks ::
                 b'.tasks[x] == if x == id then b.tasks[x].(status := Ready, blockReason := None) else b.tasks[x]
  {
  }

  lemma {:induction false} GuardCounts(t: Task, reasons: seq<string>)
    requires t.blocks == 0 && reasons != []
    ensures var n := |reasons|; var u := BlockedFor(t, reasons);
            && u.blocks == n && u.blockReason == Some(reasons[n - 1])
            && u.status == if n >= 3 && reasons[n - 1] == reasons[n - 2] then Triage else Blocked
  {
    if |reasons| > 1 {
      GuardCounts(t, reasons[..|reasons| - 1]);
    }
  }

  /** The guard sends a task to TRIAGE at the third block in a row for one reason, as meant,
      exactly unless the last two are for one reason and the one before them for another. */
  lemma GuardRightIff(t: Task, reasons: seq<string>)
    requires t.blocks == 0 && reasons != []
    ensures var n := |reasons|;
            (BlockedFor(t, reasons).status.Triage? <==> InARow(reasons) >= 3) <==>
            !(n >= 3 && reasons[n - 1] == reasons[n - 2] && reasons[n - 2] != reasons[n - 3])
  {
    GuardCounts(t, reasons);
    var n := |reasons|;
    if n >= 3 {
      assert reasons[..n - 1][..n - 2] == reasons[..n - 2];
      assert InARow(reasons[..n - 1]) >= 1 && InARow(reasons[..n - 2]) >= 1;
    }
  }

  /** Two blocks in a row for one reason, after one for another, already do. */
  lemma GuardInstance(t: Task)
    requires t.blocks == 0
    ensures var reasons := ["dependency", "transient_failure", "transient_failure"];
            BlockedFor(t, reasons).status.Triage? && InARow(reasons) == 2
  {
    var reasons := ["dependency", "transient_failure", "transient_failure"];
    GuardCounts(t, reasons);
    assert reasons[..2] == ["dependency", "transient_failure"];
  }
}
