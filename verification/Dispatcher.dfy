/**
 One cycle of the TaskFlow dispatcher as a function of the tables and of what the outside
 world reports, and what every cycle keeps.
 */
module Dispatcher {
  import opened Wrappers
  import opened TaskBoard
  import opened Promotion

  /** How a task's latest run stands: still going, or how it ended and, for a completed run,
      what its result contract says. */
  datatype RunReport =
    | Unfinished
    | Completed
    | SaysBlocked(reason: Option<string>)
    | SaysFailed
    | EndedFailed
    | EndedCancelled
    | EndedInterrupted
    | EndedOrphaned

  datatype Env = Env(now: int, leaseUntil: int, owner: string, maxWorkers: int,
                     reports: string -> RunReport, spawns: set<string>)

  // raised: the cycle was abandoned by an exception; board is what had been committed.
  datatype Outcome = Outcome(board: Board, raised: bool)

  function SetTask(b: Board, id: string, t: Task): Board {
    b.(tasks := b.tasks[id := t])
  }

  // ---------------------------------------------------------------- reconciliation

  function BlockChild(b: Board, parent: string, id: string, t: Task): Task
    requires parent in b.tasks
  {
    if t.flow == b.tasks[parent].flow && (parent, id) in b.edges && (t.status.Todo? || t.status.Ready?)
    then BlockedTask(t, "dependency") else t
  }

  /** _handle_parent_task_failed. */
  function BlockChildren(b: Board, parent: string): Board
    requires parent in b.tasks
  {
    b.(tasks := map id <- b.tasks :: BlockChild(b, parent, id, b.tasks[id]))
  }

  /** _handle_task_failure. */
  function FailTask(b: Board, id: string): Board
    requires id in b.tasks
  {
    var released := Release(b, id);
    if b.tasks[id].attempts < b.tasks[id].maxAttempts then SetStatus(released, id, Ready)
    else BlockChildren(SetStatus(released, id, Failed), id)
  }

  function Heartbeat(b: Board, id: string, env: Env): Board {
    if id in b.claims && b.claims[id].owner == env.owner
    then b.(claims := b.claims[id := Claim(env.owner, env.leaseUntil)]) else b
  }

  function ReconcileTask(b: Board, id: string, env: Env): Outcome
    requires id in b.tasks
  {
    var t := b.tasks[id];
    if t.attempts == 0 then
      if id in b.claims && b.claims[id].leaseUntil < env.now
      then Outcome(SetStatus(Release(b, id), id, Ready), false) else Outcome(b, false)
    else
      match env.reports(id)
      case Unfinished => Outcome(Heartbeat(b, id, env), false)
      case Completed => Outcome(PromoteFlow(SetStatus(Release(b, id), id, Done), t.flow), false)
      case SaysBlocked(reason) =>
        var r := if reason.Some? then reason.value else "needs_user_input";
        Outcome(SetTask(Release(b, id), id, BlockedTask(t, r)), false)
      case SaysFailed => Outcome(FailTask(b, id), false)
      case EndedFailed => Outcome(FailTask(b, id), false)
      case EndedCancelled => Outcome(FailTask(b, id), false)
      case EndedInterrupted => Outcome(FailTask(b, id), false)
      // The attempt's outcome column does not admit ORPHANED: the write is rejected.
      case EndedOrphaned => Outcome(b, true)
  }

  function ReconcileAll(b: Board, ids: seq<string>, env: Env): Outcome
    requires forall id <- ids :: id in b.tasks
    ensures ReconcileAll(b, ids, env).board.tasks.Keys == b.tasks.Keys
  {
    if ids == [] then Outcome(b, false)
    else
      var before := ReconcileAll(b, ids[..|ids| - 1], env);
      if before.raised then before else ReconcileTask(before.board, ids[|ids| - 1], env)
  }

  function WithStatusIds(b: Board, order: seq<string>, status: TaskStatus): (ids: seq<string>)
    ensures forall id :: id in ids <==> id in order && id in b.tasks && b.tasks[id].status == status
    ensures NoDuplicates(order) ==> NoDuplicates(ids)
  {
    if order == [] then []
    else
      var rest := WithStatusIds(b, order[1..], status);
      if order[0] in b.tasks && b.tasks[order[0]].status == status then [order[0]] + rest else rest
  }

  // ---------------------------------------------------------------- promotion of every flow

  predicate Terminal(status: FlowStatus) {
    status.FlowSucceeded? || status.FlowFailed? || status.FlowCancelled?
  }

  predicate Open(b: Board, flow: string) {
    flow in b.flows && !Terminal(b.flows[flow])
  }

  function PromoteAll(b: Board): Board {
    b.(tasks := map id <- b.tasks ::
         if Open(b, b.tasks[id].flow) then PromoteTask(b, id, b.tasks[id], b.tasks[id].flow) else b.tasks[id])
  }

  // ---------------------------------------------------------------- dispatch

  predicate Claimable(b: Board, id: string, now: int) {
    && id in b.tasks && b.tasks[id].status.Ready?
    && b.tasks[id].flow in b.flows
    && (b.flows[b.tasks[id].flow].FlowRunning? || b.flows[b.tasks[id].flow].FlowQueued?)
    && (id in b.claims ==> b.claims[id].leaseUntil < now)
  }

  function ClaimableAt(b: Board, order: seq<string>, priority: Priority, now: int): (ids: seq<string>)
    ensures forall id :: id in ids <==> id in order && Claimable(b, id, now) && b.tasks[id].priority == priority
    ensures NoDuplicates(order) ==> NoDuplicates(ids)
  {
    if order == [] then []
    else
      var rest := ClaimableAt(b, order[1..], priority, now);
      if Claimable(b, order[0], now) && b.tasks[order[0]].priority == priority then [order[0]] + rest else rest
  }

  /** The claim query: most urgent first, oldest first within a priority. */
  function ClaimOrder(b: Board, now: int): seq<string> {
    ClaimableAt(b, b.order, Urgent, now) + ClaimableAt(b, b.order, High, now)
    + ClaimableAt(b, b.order, Medium, now) + ClaimableAt(b, b.order, Low, now)
  }

  function Picks(b: Board, env: Env): (ids: seq<string>)
    ensures forall id <- ids :: Claimable(b, id, env.now)
    ensures |ids| <= if env.maxWorkers <= 0 then 0 else env.maxWorkers
  {
    var slots := env.maxWorkers - |WithStatusIds(b, b.order, Running)|;
    var queue := ClaimOrder(b, env.now);
    if slots <= 0 then [] else if |queue| <= slots then queue else queue[..slots]
  }

  lemma JoinDistinct(x: seq<string>, y: seq<string>)
    requires NoDuplicates(x) && NoDuplicates(y) && forall id <- x :: id !in y
    ensures NoDuplicates(x + y)
  {
    forall i, j | 0 <= i < j < |x + y|
      ensures (x + y)[i] != (x + y)[j]
    {
      if i < |x| <= j {
        assert (x + y)[i] in x && (x + y)[j] in y;
      }
    }
  }

  lemma PicksDistinct(b: Board, env: Env)
    requires NoDuplicates(b.order)
    ensures NoDuplicates(Picks(b, env))
  {
    var q1, q2 := ClaimableAt(b, b.order, Urgent, env.now), ClaimableAt(b, b.order, High, env.now);
    var q3, q4 := ClaimableAt(b, b.order, Medium, env.now), ClaimableAt(b, b.order, Low, env.now);
    JoinDistinct(q1, q2);
    JoinDistinct(q1 + q2, q3);
    JoinDistinct(q1 + q2 + q3, q4);
  }

  function DispatchTask(t: Task, spawned: bool): Task {
    if spawned then t.(status := Running, attempts := t.attempts + 1) else WithStatus(t, Ready, None, false)
  }

  /** Every picked task is RUNNING with one more attempt if its run could be submitted, and
      READY without a claim if not. */
  function Dispatch(b: Board, env: Env): Board {
    var picks := Picks(b, env);
    b.(tasks := map id <- b.tasks :: if id in picks then DispatchTask(b.tasks[id], id in env.spawns) else b.tasks[id],
       claims := (map id <- b.claims.Keys + (set id <- picks) | id !in picks || id in env.spawns ::
                    if id in picks then Claim(env.owner, env.leaseUntil) else b.claims[id]),
       flows := map f <- b.flows ::
                  if b.flows[f].FlowQueued? && exists id <- picks :: id in env.spawns && InFlow(b, id, f)
                  then FlowRunning else b.flows[f])
  }

  // ---------------------------------------------------------------- flow status

  predicate HasStatus(b: Board, flow: string, status: TaskStatus) {
    exists id <- b.tasks :: b.tasks[id].flow == flow && b.tasks[id].status == status
  }

  predicate AllIn(b: Board, flow: string, allowed: set<TaskStatus>) {
    forall id <- b.tasks :: b.tasks[id].flow == flow ==> b.tasks[id].status in allowed
  }

  function Verdict(b: Board, flow: string): FlowStatus {
    if AllIn(b, flow, {Done, Archived}) then FlowSucceeded
    else if HasStatus(b, flow, Running) then FlowRunning
    else if HasStatus(b, flow, Ready) then FlowRunning
    else if AllIn(b, flow, {Blocked, Done, Archived}) && HasStatus(b, flow, Blocked) then FlowBlocked
    else if HasStatus(b, flow, Failed) then FlowFailed
    else if HasStatus(b, flow, Blocked) then FlowBlocked
    else FlowWaiting
  }

  predicate HasTasks(b: Board, flow: string) {
    exists id <- b.tasks :: b.tasks[id].flow == flow
  }

  function EvaluateFlows(b: Board): Board {
    b.(flows := map f <- b.flows :: if Terminal(b.flows[f]) || !HasTasks(b, f) then b.flows[f] else Verdict(b, f))
  }

  // ---------------------------------------------------------------- the cycle

  function Reconciled(b: Board, env: Env): Outcome {
    ReconcileAll(b, WithStatusIds(b, b.order, Running), env)
  }

  function Tick(b: Board, env: Env): Outcome {
    var r := Reconciled(b, env);
    if r.raised then r else Outcome(EvaluateFlows(Dispatch(PromoteAll(r.board), env)), false)
  }

  ghost predicate IsRun(bs: seq<Board>, envs: seq<Env>) {
    |bs| == |envs| + 1 && forall i :: 0 <= i < |envs| ==> bs[i + 1] == Tick(bs[i], envs[i]).board
  }

  // ---------------------------------------------------------------- what cycles keep

  function Limit(t: Task): nat {
    if t.maxAttempts < 1 then 1 else t.maxAttempts
  }

  function Rank(status: TaskStatus): nat {
    match status
    case Todo => 3
    case Running => 2
    case Ready => 1
    case _ => 0
  }

  /** What a task can still do: attempts left, then how far it is from rest. */
  function Weight(t: Task): nat {
    2 * (if t.attempts < Limit(t) then Limit(t) - t.attempts else 0) + Rank(t.status)
  }

  ghost predicate Bounded(t: Task) {
    t.attempts <= Limit(t) && (t.status.Todo? || t.status.Ready? ==> t.attempts < Limit(t))
  }

  /** Attempts within the limit. */
  ghost predicate Orderly(b: Board) {
    Keyed(b) && forall id <- b.tasks :: Bounded(b.tasks[id])
  }

  /** Nothing READY or RUNNING ahead of its parents. Ticks keep it; a dependency added later
      may break it. */
  ghost predicate ParentsFirst(b: Board) {
    forall id <- b.tasks :: Active(b.tasks[id].status) ==> ParentsDone(b, id)
  }

  ghost predicate KeepsParentsFirst(b: Board, b': Board) {
    ParentsFirst(b) ==> ParentsFirst(b')
  }

  ghost predicate Progress(t: Task, t': Task) {
    && t'.flow == t.flow && t'.priority == t.priority && t'.maxAttempts == t.maxAttempts
    && t.attempts <= t'.attempts
    && ((t'.status == t.status && t'.attempts == t.attempts) || Weight(t') < Weight(t))
    && (t.status.Done? ==> t'.status.Done?)
  }

  ghost predicate BoardProgress(b: Board, b': Board) {
    && b'.order == b.order && b'.edges == b.edges
    && b'.tasks.Keys == b.tasks.Keys && b'.flows.Keys == b.flows.Keys
    && forall id <- b.tasks :: Progress(b.tasks[id], b'.tasks[id])
  }

  lemma ProgressTrans(a: Board, b: Board, c: Board)
    requires BoardProgress(a, b) && BoardProgress(b, c)
    ensures BoardProgress(a, c)
  {
    forall id <- a.tasks
      ensures Progress(a.tasks[id], c.tasks[id])
    {
      assert Progress(a.tasks[id], b.tasks[id]) && Progress(b.tasks[id], c.tasks[id]);
    }
  }

  lemma ParentsStayDone(b: Board, b': Board, id: string)
    requires BoardProgress(b, b') && ParentsDone(b, id)
    ensures ParentsDone(b', id)
  {
    forall e <- b'.edges | e.1 == id
      ensures e.0 in b'.tasks && b'.tasks[e.0].status.Done?
    {
      assert Progress(b.tasks[e.0], b'.tasks[e.0]);
    }
  }

  /** A change that only goes forward keeps the tables orderly, and parents first as long as
      every task it makes active has its parents done. */
  lemma StaysOrderly(b: Board, b': Board)
    requires Orderly(b) && BoardProgress(b, b')
    requires forall id <- b.tasks :: Bounded(b'.tasks[id])
    requires forall id <- b.tasks :: Active(b'.tasks[id].status) ==> Active(b.tasks[id].status) || ParentsDone(b, id)
    ensures Orderly(b') && KeepsParentsFirst(b, b')
  {
    if ParentsFirst(b) {
      forall id <- b'.tasks | Active(b'.tasks[id].status)
        ensures ParentsDone(b', id)
      {
        ParentsStayDone(b, b', id);
      }
    }
    forall id <- b'.tasks
      ensures b'.tasks[id].flow in b'.flows
    {
      assert Progress(b.tasks[id], b'.tasks[id]);
    }
  }

  lemma SetTaskProgress(b: Board, id: string, t: Task)
    requires Orderly(b) && id in b.tasks && Progress(b.tasks[id], t) && Bounded(t)
    requires Active(t.status) ==> Active(b.tasks[id].status)
    ensures Orderly(SetTask(b, id, t)) && BoardProgress(b, SetTask(b, id, t))
            && KeepsParentsFirst(b, SetTask(b, id, t))
  {
    StaysOrderly(b, SetTask(b, id, t));
  }

  lemma PromoteFlowProgress(b: Board, flow: string)
    requires Orderly(b)
    ensures Orderly(PromoteFlow(b, flow)) && BoardProgress(b, PromoteFlow(b, flow))
    ensures KeepsParentsFirst(b, PromoteFlow(b, flow))
    ensures forall id <- b.tasks :: b.tasks[id].status.Running? ==> PromoteFlow(b, flow).tasks[id] == b.tasks[id]
  {
    StaysOrderly(b, PromoteFlow(b, flow));
  }

  lemma BlockChildrenProgress(b: Board, parent: string)
    requires Orderly(b) && parent in b.tasks
    ensures Orderly(BlockChildren(b, parent)) && BoardProgress(b, BlockChildren(b, parent))
    ensures KeepsParentsFirst(b, BlockChildren(b, parent))
    ensures forall id <- b.tasks :: b.tasks[id].status.Running? ==> BlockChildren(b, parent).tasks[id] == b.tasks[id]
  {
    StaysOrderly(b, BlockChildren(b, parent));
  }

  /** One running task is dealt with; the other running ones are as before. */
  ghost predicate Advances(b: Board, after: Board, id: string) {
    && Orderly(after) && BoardProgress(b, after) && KeepsParentsFirst(b, after)
    && forall x <- b.tasks :: x != id && b.tasks[x].status.Running? ==> after.tasks[x] == b.tasks[x]
  }

  lemma SetTaskAdvances(b: Board, id: string, t: Task)
    requires Orderly(b) && id in b.tasks && b.tasks[id].status.Running? && Progress(b.tasks[id], t) && Bounded(t)
    ensures Advances(b, SetTask(Release(b, id), id, t), id)
  {
    SetTaskProgress(Release(b, id), id, t);
  }

  lemma FailTaskProgress(b: Board, id: string)
    requires Orderly(b) && id in b.tasks && b.tasks[id].status.Running?
    ensures Advances(b, FailTask(b, id), id)
  {
    var t := b.tasks[id];
    if t.attempts < t.maxAttempts {
      SetTaskAdvances(b, id, WithStatus(t, Ready, None, false));
    } else {
      SetTaskAdvances(b, id, WithStatus(t, Failed, None, false));
      var failed := SetStatus(Release(b, id), id, Failed);
      BlockChildrenProgress(failed, id);
      ProgressTrans(b, failed, BlockChildren(failed, id));
    }
  }

  lemma CompletedProgress(b: Board, id: string)
    requires Orderly(b) && id in b.tasks && b.tasks[id].status.Running?
    ensures Advances(b, PromoteFlow(SetStatus(Release(b, id), id, Done), b.tasks[id].flow), id)
  {
    var done := SetStatus(Release(b, id), id, Done);
    SetTaskAdvances(b, id, WithStatus(b.tasks[id], Done, None, false));
    PromoteFlowProgress(done, b.tasks[id].flow);
    ProgressTrans(b, done, PromoteFlow(done, b.tasks[id].flow));
  }

  lemma UnchangedAdvances(b: Board, after: Board, id: string)
    requires Orderly(b) && after == b.(claims := after.claims)
    ensures Advances(b, after, id)
  {
  }

  lemma BlockedProgress(b: Board, id: string, reason: string)
    requires Orderly(b) && id in b.tasks && b.tasks[id].status.Running?
    ensures Advances(b, SetTask(Release(b, id), id, BlockedTask(b.tasks[id], reason)), id)
  {
    SetTaskAdvances(b, id, BlockedTask(b.tasks[id], reason));
  }

  lemma ReportedProgress(b: Board, id: string, env: Env)
    requires Orderly(b) && id in b.tasks && b.tasks[id].status.Running? && b.tasks[id].attempts > 0
    ensures Advances(b, ReconcileTask(b, id, env).board, id)
  {
    var after := ReconcileTask(b, id, env).board;
    ReportedBy(b, id, env, after);
  }

  lemma ReportedBy(b: Board, id: string, env: Env, after: Board)
    requires Orderly(b) && id in b.tasks && b.tasks[id].status.Running? && b.tasks[id].attempts > 0
    requires match env.reports(id)
             case Completed => after == PromoteFlow(SetStatus(Release(b, id), id, Done), b.tasks[id].flow)
             case SaysBlocked(reason) =>
               var r := if reason.Some? then reason.value else "needs_user_input";
               after == SetTask(Release(b, id), id, BlockedTask(b.tasks[id], r))
             case Unfinished => after == Heartbeat(b, id, env)
             case EndedOrphaned => after == b
             case _ => after == FailTask(b, id)
    ensures Advances(b, after, id)
  {
    match env.reports(id)
    case Completed => CompletedProgress(b, id);
    case SaysBlocked(reason) => BlockedProgress(b, id, if reason.Some? then reason.value else "needs_user_input");
    case Unfinished => UnchangedAdvances(b, Heartbeat(b, id, env), id);
    case EndedOrphaned => UnchangedAdvances(b, b, id);
    case _ => FailTaskProgress(b, id);
  }

  lemma ReconcileTaskProgress(b: Board, id: string, env: Env)
    requires Orderly(b) && id in b.tasks && b.tasks[id].status.Running?
    ensures Advances(b, ReconcileTask(b, id, env).board, id)
  {
    if b.tasks[id].attempts > 0 {
      ReportedProgress(b, id, env);
    } else {
      SetTaskAdvances(b, id, WithStatus(b.tasks[id], Ready, None, false));
      UnchangedAdvances(b, b, id);
    }
  }

  /** Reconciling the scanned tasks one by one; those not reached are still as scanned. */
  lemma {:induction false} ReconcileAllProgress(b: Board, ids: seq<string>, env: Env)
    requires Orderly(b) && NoDuplicates(ids)
    requires forall id <- ids :: id in b.tasks && b.tasks[id].status.Running?
    ensures var r := ReconcileAll(b, ids, env);
            && Orderly(r.board) && BoardProgress(b, r.board) && KeepsParentsFirst(b, r.board)
            && forall x <- b.tasks :: x !in ids && b.tasks[x].status.Running? ==> r.board.tasks[x] == b.tasks[x]
  {
    if ids != [] {
      var init, last := ids[..|ids| - 1], ids[|ids| - 1];
      ReconcileAllProgress(b, init, env);
      var before := ReconcileAll(b, init, env);
      if !before.raised {
        assert last !in init && last in ids;
        ReconcileTaskProgress(before.board, last, env);
        var after := ReconcileTask(before.board, last, env).board;
        ProgressTrans(b, before.board, after);
        forall x | x in b.tasks && x !in ids && b.tasks[x].status.Running?
          ensures after.tasks[x] == b.tasks[x]
        {
          assert x !in init && x != last;
        }
      }
    }
  }

  lemma PromoteAllProgress(b: Board)
    requires Orderly(b)
    ensures Orderly(PromoteAll(b)) && BoardProgress(b, PromoteAll(b)) && KeepsParentsFirst(b, PromoteAll(b))
  {
    StaysOrderly(b, PromoteAll(b));
  }

  lemma DispatchTaskProgress(t: Task, spawned: bool)
    requires t.status.Ready? && Bounded(t)
    ensures Progress(t, DispatchTask(t, spawned)) && Bounded(DispatchTask(t, spawned))
  {
  }

  lemma DispatchProgress(b: Board, env: Env)
    requires Orderly(b)
    ensures Orderly(Dispatch(b, env)) && BoardProgress(b, Dispatch(b, env)) && KeepsParentsFirst(b, Dispatch(b, env))
  {
    var after, picks := Dispatch(b, env), Picks(b, env);
    forall id <- b.tasks
      ensures Progress(b.tasks[id], after.tasks[id]) && Bounded(after.tasks[id])
      ensures Active(after.tasks[id].status) ==> Active(b.tasks[id].status)
    {
      if id in picks {
        assert Claimable(b, id, env.now);
        DispatchTaskProgress(b.tasks[id], id in env.spawns);
      }
    }
    StaysOrderly(b, after);
  }

  lemma EvaluateFlowsProgress(b: Board)
    requires Orderly(b)
    ensures Orderly(EvaluateFlows(b)) && BoardProgress(b, EvaluateFlows(b)) && KeepsParentsFirst(b, EvaluateFlows(b))
  {
    StaysOrderly(b, EvaluateFlows(b));
  }

  /** Every cycle, abandoned or not: DONE is kept, no task exceeds its attempts, whatever
      changes has less left to do; and if READY or RUNNING implied parents DONE, it still does. */
  lemma TickKeepsOrder(b: Board, env: Env)
    requires Orderly(b)
    ensures Orderly(Tick(b, env).board) && BoardProgress(b, Tick(b, env).board)
    ensures ParentsFirst(b) ==> ParentsFirst(Tick(b, env).board)
  {
    var ids := WithStatusIds(b, b.order, Running);
    ReconcileAllProgress(b, ids, env);
    var r := ReconcileAll(b, ids, env);
    if !r.raised {
      var p := PromoteAll(r.board);
      PromoteAllProgress(r.board);
      ProgressTrans(b, r.board, p);
      var d := Dispatch(p, env);
      DispatchProgress(p, env);
      ProgressTrans(b, p, d);
      EvaluateFlowsProgress(d);
      ProgressTrans(b, d, EvaluateFlows(d));
    }
  }
}
