/**
 Histories of the TaskFlow tables in which creations, dependency edits, interventions by hand
 and dispatcher cycles mix: what stays, and exactly when.
 */
module DispatcherHistories {
  import opened Wrappers
  import opened Graph
  import opened TaskBoard
  import opened Dispatcher
  import opened DispatcherRuns

  datatype Event = Edit(op: Op) | Block(id: string, reason: string) | Unblock(id: string) | Retry(id: string)
                 | Cycle(env: Env)

  function UnblockedTask(b: Board, id: string): Task
    requires id in b.tasks
  {
    WithStatus(b.tasks[id], if ParentsDone(b, id) then Ready else Todo, b.tasks[id].blockReason, false)
  }

  ghost function Play(b: Board, e: Event): Board {
    match e
    case Edit(op) => Apply(b, op)
    case Block(id, reason) =>
      if id in b.tasks && reason in BlockReasons then SetTask(b, id, BlockedTask(b.tasks[id], reason)) else b
    case Unblock(id) => if id in b.tasks then SetTask(b, id, UnblockedTask(b, id)) else b
    case Retry(id) => if id in b.tasks then SetStatus(Release(b, id), id, Ready) else b
    case Cycle(env) => Tick(b, env).board
  }

  /** Someone intervenes in one existing task. */
  predicate ByHand(b: Board, e: Event) {
    (e.Block? || e.Unblock? || e.Retry?) && e.id in b.tasks && (e.Block? ==> e.reason in BlockReasons)
  }

  ghost predicate Fresh(b: Board, e: Event) {
    e.Edit? ==> NewIds(b, e.op)
  }

  ghost predicate IsHistory(bs: seq<Board>, es: seq<Event>) {
    && |bs| == |es| + 1
    && forall i :: PlaysAt(bs, es, i)
  }

  ghost predicate PlaysAt(bs: seq<Board>, es: seq<Event>, i: int)
    requires |bs| == |es| + 1
  {
    0 <= i < |es| ==> Fresh(bs[i], es[i]) && bs[i + 1] == Play(bs[i], es[i])
  }

  ghost predicate DoneKept(b: Board, b': Board) {
    forall id <- b.tasks :: id in b'.tasks && (b.tasks[id].status.Done? ==> b'.tasks[id].status.Done?)
  }

  /** A cycle's phases add and remove nothing, and DONE stays. */
  ghost predicate SameFrame(b: Board, b': Board) {
    && b'.order == b.order && b'.edges == b.edges && b'.tasks.Keys == b.tasks.Keys && b'.flows.Keys == b.flows.Keys
    && forall x <- b.tasks ::
         b'.tasks[x].flow == b.tasks[x].flow && (b.tasks[x].status.Done? ==> b'.tasks[x].status.Done?)
  }

  lemma FailTaskFrame(b: Board, id: string)
    requires id in b.tasks && b.tasks[id].status.Running?
    ensures SameFrame(b, FailTask(b, id))
  {
  }

  lemma CompletedFrame(b: Board, id: string)
    requires id in b.tasks
    ensures SameFrame(b, PromoteFlow(SetStatus(Release(b, id), id, Done), b.tasks[id].flow))
  {
  }

  lemma ReconcileTaskFrame(b: Board, id: string, env: Env)
    requires id in b.tasks && b.tasks[id].status.Running?
    ensures SameFrame(b, ReconcileTask(b, id, env).board)
  {
    if b.tasks[id].attempts != 0 {
      match env.reports(id)
      case Completed => CompletedFrame(b, id);
      case SaysFailed => FailTaskFrame(b, id);
      case EndedFailed => FailTaskFrame(b, id);
      case EndedCancelled => FailTaskFrame(b, id);
      case EndedInterrupted => FailTaskFrame(b, id);
      case _ =>
    }
  }

  lemma FrameTrans(a: Board, b: Board, c: Board)
    requires SameFrame(a, b) && SameFrame(b, c)
    ensures SameFrame(a, c)
  {
  }

  lemma {:induction false} ReconcileFrame(b: Board, ids: seq<string>, env: Env)
    requires NoDuplicates(ids) && forall id <- ids :: id in b.tasks && b.tasks[id].status.Running?
    ensures SameFrame(b, ReconcileAll(b, ids, env).board)
  {
    if ids != [] {
      var init, last := ids[..|ids| - 1], ids[|ids| - 1];
      ReconcileFrame(b, init, env);
      ReconcileLeaves(b, init, env);
      var before := ReconcileAll(b, init, env);
      assert last !in init;
      if !before.raised {
        ReconcileTaskFrame(before.board, last, env);
        FrameTrans(b, before.board, ReconcileTask(before.board, last, env).board);
      }
    }
  }

  lemma DispatchFrame(b: Board, env: Env)
    ensures SameFrame(b, Dispatch(b, env))
  {
    forall id <- b.tasks
      ensures b.tasks[id].status.Done? ==> Dispatch(b, env).tasks[id].status.Done?
    {
      assert id in Picks(b, env) ==> Claimable(b, id, env.now);
    }
  }

  lemma TickFrame(b: Board, env: Env)
    requires Keyed(b)
    ensures SameFrame(b, Tick(b, env).board)
  {
    var ids := WithStatusIds(b, b.order, Running);
    ReconcileFrame(b, ids, env);
    if !Reconciled(b, env).raised {
      RestFrame(Reconciled(b, env).board, env);
      FrameTrans(b, Reconciled(b, env).board, Tick(b, env).board);
    }
  }

  lemma RestFrame(r: Board, env: Env)
    ensures SameFrame(r, EvaluateFlows(Dispatch(PromoteAll(r), env)))
  {
    var p := PromoteAll(r);
    var d := Dispatch(p, env);
    PromoteAllFrame(r);
    DispatchFrame(p, env);
    EvaluateFlowsFrame(d);
    FrameTrans(r, p, d);
    FrameTrans(r, d, EvaluateFlows(d));
  }

  lemma PromoteAllFrame(b: Board)
    ensures SameFrame(b, PromoteAll(b))
  {
  }

  lemma EvaluateFlowsFrame(b: Board)
    ensures SameFrame(b, EvaluateFlows(b))
  {
  }

  lemma OpKeepsDone(b: Board, op: Op)
    requires NewIds(b, op)
    ensures DoneKept(b, Apply(b, op))
  {
  }

  lemma ByHandKeepsEdges(b: Board, e: Event)
    requires Keyed(b) && (e.Block? || e.Unblock? || e.Retry?)
    ensures Keyed(Play(b, e)) && Play(b, e).edges == b.edges && Play(b, e).tasks.Keys == b.tasks.Keys
    ensures forall id <- b.tasks :: Play(b, e).tasks[id].flow == b.tasks[id].flow
  {
  }

  lemma EventKeepsKeyed(b: Board, e: Event)
    requires Keyed(b) && Fresh(b, e)
    ensures Keyed(Play(b, e))
  {
    match e {
      case Edit(op) => OpKeepsKeyed(b, op);
      case Cycle(env) => TickFrame(b, env);
      case _ => ByHandKeepsEdges(b, e);
    }
  }

  lemma KeyedStep(bs: seq<Board>, es: seq<Event>, i: nat)
    requires IsHistory(bs, es) && i < |es| && Keyed(bs[i])
    ensures Keyed(bs[i + 1])
  {
    assert PlaysAt(bs, es, i);
    EventKeepsKeyed(bs[i], es[i]);
  }

  lemma {:induction false} HistoryKeyed(bs: seq<Board>, es: seq<Event>, k: nat)
    requires IsHistory(bs, es) && Keyed(bs[0]) && k < |bs|
    ensures Keyed(bs[k])
  {
    if k > 0 {
      HistoryKeyed(bs, es, k - 1);
      KeyedStep(bs, es, k - 1);
    }
  }

  ghost predicate Crosses(b: Board, e: Event) {
    e.Edit? && Foreign(b, e.op)
  }

  lemma EventKeepsSoundIff(b: Board, e: Event)
    requires Sound(b) && Fresh(b, e)
    ensures Sound(Play(b, e)) <==> !Crosses(b, e)
  {
    match e {
      case Edit(op) => OpKeepsSoundIff(b, op);
      case Cycle(env) =>
        TickFrame(b, env);
        SoundAfter(b, Play(b, e));
      case _ => ByHandKeepsEdges(b, e);
    }
  }

  lemma SoundStep(bs: seq<Board>, es: seq<Event>, i: nat)
    requires IsHistory(bs, es) && i < |es| && Sound(bs[i])
    ensures Sound(bs[i + 1]) <==> !Crosses(bs[i], es[i])
  {
    assert PlaysAt(bs, es, i);
    EventKeepsSoundIff(bs[i], es[i]);
  }

  /** What holds at first, and is kept by a step exactly if the step is not bad, holds throughout
      exactly if no step is bad. */
  lemma {:induction false} Throughout(holds: seq<bool>, bad: seq<bool>)
    requires |holds| == |bad| + 1 && holds[0]
    requires forall i {:trigger bad[i]} :: 0 <= i < |bad| && holds[i] ==> (holds[i + 1] <==> !bad[i])
    ensures (forall k :: 0 <= k < |holds| ==> holds[k]) <==> (forall i :: 0 <= i < |bad| ==> !bad[i])
  {
    if bad != [] && !bad[0] {
      Throughout(holds[1..], bad[1..]);
      assert forall k :: 0 < k < |holds| ==> holds[k] == holds[1..][k - 1];
      assert forall i :: 0 < i < |bad| ==> bad[i] == bad[1..][i - 1];
    }
  }

  /** Over every history in which creations, dependency edits, blocks, unblocks, retries and
      dispatcher cycles mix, the dependencies stay acyclic and inside flows throughout exactly
      when no task is created below one of another flow. */
  lemma MixedHistory(bs: seq<Board>, es: seq<Event>)
    requires IsHistory(bs, es) && Sound(bs[0])
    ensures (forall k :: 0 <= k < |bs| ==> Sound(bs[k])) <==>
            (forall i :: 0 <= i < |es| ==> !Crosses(bs[i], es[i]))
  {
    var holds, bad := SoundSteps(bs, es);
    Throughout(holds, bad);
  }

  lemma SoundSteps(bs: seq<Board>, es: seq<Event>) returns (holds: seq<bool>, bad: seq<bool>)
    requires IsHistory(bs, es)
    ensures |holds| == |bs| && forall k :: 0 <= k < |bs| ==> holds[k] == Sound(bs[k])
    ensures |bad| == |es| && forall i :: 0 <= i < |es| ==> bad[i] == Crosses(bs[i], es[i])
    ensures forall i {:trigger bad[i]} :: 0 <= i < |bad| && holds[i] ==> (holds[i + 1] <==> !bad[i])
  {
    holds := seq(|bs|, k requires 0 <= k < |bs| => Sound(bs[k]));
    bad := seq(|es|, i requires 0 <= i < |es| => Crosses(bs[i], es[i]));
    forall i | 0 <= i < |bad| && holds[i]
      ensures holds[i + 1] <==> !bad[i]
    {
      SoundStepIn(bs, es, i, holds[i], holds[i + 1], bad[i]);
    }
  }

  lemma SoundStepIn(bs: seq<Board>, es: seq<Event>, i: nat, before: bool, after: bool, bad: bool)
    requires IsHistory(bs, es) && i < |es| && before
    requires before == Sound(bs[i]) && after == Sound(bs[i + 1]) && bad == Crosses(bs[i], es[i])
    ensures after <==> !bad
  {
    SoundStep(bs, es, i);
  }

  /** Someone blocks, unblocks or retries a task that is DONE. */
  predicate Reopens(b: Board, e: Event) {
    ByHand(b, e) && b.tasks[e.id].status.Done?
  }

  lemma EventKeepsDoneIff(b: Board, e: Event)
    requires Keyed(b) && Fresh(b, e)
    ensures DoneKept(b, Play(b, e)) <==> !Reopens(b, e)
  {
    match e {
      case Edit(op) => OpKeepsDone(b, op);
      case Cycle(env) => TickFrame(b, env);
      case _ =>
        ByHandKeepsEdges(b, e);
        if ByHand(b, e) {
          assert !Play(b, e).tasks[e.id].status.Done?;
        }
    }
  }

  /** And DONE is undone exactly where a person intervenes in a task that is DONE. */
  lemma DoneHistory(bs: seq<Board>, es: seq<Event>, i: nat)
    requires IsHistory(bs, es) && Keyed(bs[0]) && i < |es|
    ensures DoneKept(bs[i], bs[i + 1]) <==> !Reopens(bs[i], es[i])
  {
    HistoryKeyed(bs, es, i);
    assert PlaysAt(bs, es, i);
    EventKeepsDoneIff(bs[i], es[i]);
  }

  // ---------------------------------------------------------------- attempts under operations

  /** A dependency edit that promotes a TRIAGE task whose attempts are used up. */
  ghost predicate Revives(b: Board, op: Op) {
    && !op.Create? && Refused(b, op).None?
    && op.child in b.tasks && b.tasks[op.child].status.Triage?
    && b.tasks[op.child].attempts >= Limit(b.tasks[op.child])
    && Promotable(Edited(b, op), op.child)
  }

  function Edited(b: Board, op: Op): Board
    requires !op.Create?
  {
    b.(edges := if op.AddDependency?
      then AddEdge(b.edges, (op.parent, op.child)) else RemoveEdge(b.edges, (op.parent, op.child)))
  }

  lemma EvaluateBoundedIff(b: Board, id: string)
    requires forall x <- b.tasks :: Bounded(b.tasks[x])
    ensures (forall x <- Evaluate(b, id).tasks :: Bounded(Evaluate(b, id).tasks[x])) <==>
            !(Promotable(b, id) && b.tasks[id].status.Triage? && b.tasks[id].attempts >= Limit(b.tasks[id]))
  {
    if Promotable(b, id) {
      assert Evaluate(b, id).tasks[id] == WithStatus(b.tasks[id], Ready, None, false);
    }
  }

  /** An operation keeps every task within its attempts exactly when it revives none. */
  lemma OpKeepsOrderlyIff(b: Board, op: Op)
    requires Orderly(b) && NewIds(b, op)
    ensures Orderly(Apply(b, op)) <==> !Revives(b, op)
  {
    OpKeepsKeyed(b, op);
    if op.Create? {
      var id := OpId(op);
      if Refused(b, op).None? && Apply(b, op) != b {
        EvaluateBoundedIff(Inserted(b, id, op), id);
      }
    } else if Refused(b, op).None? {
      EvaluateBoundedIff(Edited(b, op), op.child);
    }
  }

  /** A task whose attempts are used up is put back to work: by hand, or by an edit that
      promotes it. */
  ghost predicate Overruns(b: Board, e: Event) {
    match e
    case Edit(op) => Revives(b, op)
    case Unblock(id) => id in b.tasks && b.tasks[id].attempts >= Limit(b.tasks[id])
    case Retry(id) => id in b.tasks && b.tasks[id].attempts >= Limit(b.tasks[id])
    case _ => false
  }

  lemma ByHandKeepsOrderlyIff(b: Board, e: Event)
    requires Orderly(b) && (e.Block? || e.Unblock? || e.Retry?)
    ensures Orderly(Play(b, e)) <==> !Overruns(b, e)
  {
    ByHandKeepsEdges(b, e);
    if ByHand(b, e) {
      assert Play(b, e).tasks[e.id].attempts == b.tasks[e.id].attempts;
      assert Limit(Play(b, e).tasks[e.id]) == Limit(b.tasks[e.id]);
      assert forall x <- b.tasks :: x != e.id ==> Play(b, e).tasks[x] == b.tasks[x];
      assert Bounded(b.tasks[e.id]);
    }
  }

  lemma EventKeepsOrderlyIff(b: Board, e: Event)
    requires Orderly(b) && Fresh(b, e)
    ensures Orderly(Play(b, e)) <==> !Overruns(b, e)
  {
    match e {
      case Edit(op) => OpKeepsOrderlyIff(b, op);
      case Cycle(env) => TickLowersTotal(b, env);
      case _ => ByHandKeepsOrderlyIff(b, e);
    }
  }

  lemma OrderlyStep(bs: seq<Board>, es: seq<Event>, i: nat)
    requires IsHistory(bs, es) && i < |es| && Orderly(bs[i])
    ensures Orderly(bs[i + 1]) <==> !Overruns(bs[i], es[i])
  {
    assert PlaysAt(bs, es, i);
    EventKeepsOrderlyIff(bs[i], es[i]);
  }

  /** Over every mixed history every task stays within its attempts throughout exactly when no
      event puts a used-up task back to work. */
  lemma AttemptsHistory(bs: seq<Board>, es: seq<Event>)
    requires IsHistory(bs, es) && Orderly(bs[0])
    ensures (forall k :: 0 <= k < |bs| ==> Orderly(bs[k])) <==>
            (forall i :: 0 <= i < |es| ==> !Overruns(bs[i], es[i]))
  {
    var holds, bad := OrderlySteps(bs, es);
    Throughout(holds, bad);
  }

  lemma OrderlySteps(bs: seq<Board>, es: seq<Event>) returns (holds: seq<bool>, bad: seq<bool>)
    requires IsHistory(bs, es)
    ensures |holds| == |bs| && forall k :: 0 <= k < |bs| ==> holds[k] == Orderly(bs[k])
    ensures |bad| == |es| && forall i :: 0 <= i < |es| ==> bad[i] == Overruns(bs[i], es[i])
    ensures forall i {:trigger bad[i]} :: 0 <= i < |bad| && holds[i] ==> (holds[i + 1] <==> !bad[i])
  {
    holds := seq(|bs|, k requires 0 <= k < |bs| => Orderly(bs[k]));
    bad := seq(|es|, i requires 0 <= i < |es| => Overruns(bs[i], es[i]));
    forall i | 0 <= i < |bad| && holds[i]
      ensures holds[i + 1] <==> !bad[i]
    {
      OrderlyStep(bs, es, i);
    }
  }

  // ---------------------------------------------------------------- an instance

  function Worked(status: TaskStatus, attempts: nat, reason: Option<string>, blocks: nat): Task {
    Task("f", status, Medium, None, 1, attempts, reason, blocks)
  }

  /** The tasks p and t, with one attempt each. */
  function Pair(p: Task, t: Task, flow: FlowStatus, claims: map<string, Claim>): Board {
    Board(["p", "t"], map["p" := p, "t" := t], [], map["f" := flow], claims)
  }

  function Lease(until: int): Claim {
    Claim("d", until)
  }

  function FirstEnv(): Env {
    Env(0, 10, "d", 2, _ => Unfinished, {"p", "t"})
  }

  function SecondEnv(): Env {
    Env(1, 11, "d", 2, id => if id == "p" then Completed else Unfinished, {})
  }

  /** Two tasks are started and p is done; t is blocked three times for one reason, which sends
      it to TRIAGE, and then made to depend on p. */
  function Revival(): seq<Event> {
    [First(), Second(), Event.Cycle(FirstEnv()), Event.Cycle(SecondEnv()),
     Review(), Review(), Review(), Edit(AddDependency("p", "t"))]
  }

  lemma CreateAlone(b: Board, id: string)
    requires "f" in b.flows && id !in b.tasks
    ensures var op := Create("f", None, id, [], None, Medium, 1);
            (forall e <- b.edges :: e.1 != id) ==>
              Apply(b, op) == b.(order := b.order + [id], tasks := b.tasks[id := Worked(Ready, 0, None, 0)])
  {
  }

  lemma PairIds(p: Task, t: Task, flow: FlowStatus, claims: map<string, Claim>, status: TaskStatus)
    ensures var b := Pair(p, t, flow, claims);
            WithStatusIds(b, b.order, status) ==
            (if p.status == status then ["p"] else []) + (if t.status == status then ["t"] else [])
  {
    var b := Pair(p, t, flow, claims);
    IdsOfTwo(b, "p", "t", status);
    assert b.order == ["p", "t"] && b.tasks["p"] == p && b.tasks["t"] == t;
  }

  lemma IdsOfTwo(b: Board, x: string, y: string, status: TaskStatus)
    requires x in b.tasks && y in b.tasks
    ensures WithStatusIds(b, [x, y], status) ==
            (if b.tasks[x].status == status then [x] else []) + (if b.tasks[y].status == status then [y] else [])
  {
    assert [x, y][1..] == [y] && [y][1..] == [];
    assert WithStatusIds(b, [y], status) == if b.tasks[y].status == status then [y] else [];
  }

  lemma PairPromotes(p: Task, t: Task, flow: FlowStatus, claims: map<string, Claim>)
    requires !p.status.Todo? && !t.status.Todo?
    ensures PromoteAll(Pair(p, t, flow, claims)) == Pair(p, t, flow, claims)
    ensures forall f :: PromoteFlow(Pair(p, t, flow, claims), f) == Pair(p, t, flow, claims)
  {
    var b := Pair(p, t, flow, claims);
    assert PromoteAll(b).tasks == b.tasks;
    forall f
      ensures PromoteFlow(b, f) == b
    {
      assert PromoteFlow(b, f).tasks == b.tasks;
    }
  }

  lemma PairEvaluates(p: Task, t: Task, claims: map<string, Claim>)
    requires t.status.Running? && t.flow == "f"
    ensures EvaluateFlows(Pair(p, t, FlowRunning, claims)) == Pair(p, t, FlowRunning, claims)
  {
    var b := Pair(p, t, FlowRunning, claims);
    assert b.tasks["t"] == t;
    assert HasStatus(b, "f", Running) && !AllIn(b, "f", {Done, Archived});
    assert EvaluateFlows(b).flows == b.flows;
  }

  lemma NothingPicked(b: Board, env: Env)
    requires forall id <- b.tasks :: !b.tasks[id].status.Ready?
    ensures Dispatch(b, env) == b
  {
    var picks := Picks(b, env);
    assert picks == [] || Claimable(b, picks[0], env.now);
    var d := Dispatch(b, env);
    assert d.tasks == b.tasks && d.claims == b.claims && d.flows == b.flows;
  }

  lemma FirstPicks(b: Board, env: Env)
    requires b == Pair(Worked(Ready, 0, None, 0), Worked(Ready, 0, None, 0), FlowQueued, map[]) && env == FirstEnv()
    ensures Picks(b, env) == ["p", "t"]
  {
    PairIds(b.tasks["p"], b.tasks["t"], FlowQueued, map[], Running);
    assert b.order[1..] == ["t"] && ["t"][1..] == [];
    assert ClaimableAt(b, ["t"], Medium, 0) == ["t"];
    assert forall q :: q != Medium ==> ClaimableAt(b, ["t"], q, 0) == [] && ClaimableAt(b, b.order, q, 0) == [];
  }

  ghost predicate PicksBoth(b: Board, env: Env, t: Task) {
    && b.tasks == map["p" := t, "t" := t] && b.flows == map["f" := FlowQueued] && b.claims == map[] && t.flow == "f"
    && Picks(b, env) == ["p", "t"] && env.spawns == {"p", "t"} && env.owner == "d" && env.leaseUntil == 10
  }

  lemma DispatchedTasks(b: Board, env: Env, t: Task)
    requires PicksBoth(b, env, t)
    ensures Dispatch(b, env).tasks == map["p" := DispatchTask(t, true), "t" := DispatchTask(t, true)]
  {
    PickedBoth(b, env, t);
  }

  lemma PickedBoth(b: Board, env: Env, t: Task)
    requires PicksBoth(b, env, t)
    ensures forall id :: id in Picks(b, env) <==> id == "p" || id == "t"
  {
    var picks := Picks(b, env);
    assert picks[0] == "p" && picks[1] == "t";
  }

  lemma DispatchedClaims(b: Board, env: Env, t: Task)
    requires PicksBoth(b, env, t)
    ensures Dispatch(b, env).claims == map["p" := Lease(10), "t" := Lease(10)]
  {
    PickedBoth(b, env, t);
  }

  lemma DispatchedFlows(b: Board, env: Env, t: Task)
    requires PicksBoth(b, env, t)
    ensures Dispatch(b, env).flows == map["f" := FlowRunning]
  {
    var picks := Picks(b, env);
    assert picks[0] == "p" && InFlow(b, "p", "f");
  }

  lemma FirstCycle(b: Board, env: Env, r: Task)
    requires b == Pair(Worked(Ready, 0, None, 0), Worked(Ready, 0, None, 0), FlowQueued, map[])
    requires r == Worked(Running, 1, None, 0) && env == FirstEnv()
    ensures Tick(b, env).board == Pair(r, r, FlowRunning, map["p" := Lease(10), "t" := Lease(10)])
  {
    PairIds(b.tasks["p"], b.tasks["t"], FlowQueued, map[], Running);
    PairPromotes(b.tasks["p"], b.tasks["t"], FlowQueued, map[]);
    FirstPicks(b, env);
    DispatchedTasks(b, env, b.tasks["p"]);
    DispatchedClaims(b, env, b.tasks["p"]);
    DispatchedFlows(b, env, b.tasks["p"]);
    PairEvaluates(r, r, map["p" := Lease(10), "t" := Lease(10)]);
  }

  lemma ParentCompletes(b: Board, env: Env, r: Task, x: Board)
    requires r == Worked(Running, 1, None, 0) && env.reports("p").Completed?
    requires b == Pair(r, r, FlowRunning, map["p" := Lease(10), "t" := Lease(10)])
    requires x == Pair(Worked(Done, 1, None, 0), r, FlowRunning, map["t" := Lease(10)])
    ensures ReconcileAll(b, ["p"], env) == Outcome(x, false)
  {
    PairPromotes(Worked(Done, 1, None, 0), r, FlowRunning, map["t" := Lease(10)]);
    assert ["p"][..0] == [];
    assert SetStatus(Release(b, "p"), "p", Done) == x;
  }

  lemma ChildGoesOn(x: Board, env: Env, r: Task)
    requires r == Worked(Running, 1, None, 0) && env == SecondEnv()
    requires x == Pair(Worked(Done, 1, None, 0), r, FlowRunning, map["t" := Lease(10)])
    ensures ReconcileTask(x, "t", env) == Outcome(x.(claims := map["t" := Lease(11)]), false)
  {
    assert Heartbeat(x, "t", env).claims == map["t" := Lease(11)];
  }

  lemma SecondReconcile(b: Board, env: Env, r: Task, x: Board)
    requires r == Worked(Running, 1, None, 0) && env == SecondEnv()
    requires b == Pair(r, r, FlowRunning, map["p" := Lease(10), "t" := Lease(10)])
    requires x == Pair(Worked(Done, 1, None, 0), r, FlowRunning, map["t" := Lease(10)])
    ensures Reconciled(b, env) == Outcome(x.(claims := map["t" := Lease(11)]), false)
  {
    PairIds(r, r, FlowRunning, b.claims, Running);
    assert ["p", "t"][..1] == ["p"];
    ParentCompletes(b, env, r, x);
    ChildGoesOn(x, env, r);
  }

  lemma SecondCycle(b: Board, env: Env, r: Task)
    requires r == Worked(Running, 1, None, 0) && env == SecondEnv()
    requires b == Pair(r, r, FlowRunning, map["p" := Lease(10), "t" := Lease(10)])
    ensures Tick(b, env).board == Pair(Worked(Done, 1, None, 0), r, FlowRunning, map["t" := Lease(11)])
  {
    var d := Worked(Done, 1, None, 0);
    SecondReconcile(b, env, r, Pair(d, r, FlowRunning, map["t" := Lease(10)]));
    PairPromotes(d, r, FlowRunning, map["t" := Lease(11)]);
    NothingPicked(Pair(d, r, FlowRunning, map["t" := Lease(11)]), env);
    PairEvaluates(d, r, map["t" := Lease(11)]);
  }

  lemma BlockPair(p: Task, t: Task, claims: map<string, Claim>)
    ensures Play(Pair(p, t, FlowRunning, claims), Review()) ==
            Pair(p, BlockedTask(t, "review_required"), FlowRunning, claims)
  {
  }

  lemma LateDependency(b: Board)
    requires b == Pair(Worked(Done, 1, None, 0), Worked(Triage, 1, Some("review_required"), 3), FlowRunning,
                       map["t" := Lease(11)])
    ensures var op := AddDependency("p", "t"); Refused(b, op).None? && Revives(b, op)
    ensures Apply(b, AddDependency("p", "t")).tasks["t"] == Worked(Ready, 1, None, 3)
  {
    var own := FlowEdges(b, b.edges, "f");
    if Reach(own, "t", "p") {
      PathEnd(own, {"t"}, "t", "p");
    }
    assert AddEdge(b.edges, ("p", "t")) == [("p", "t")];
    assert ("p", "t") in [("p", "t")];
  }

  ghost predicate Plays(b: Board, e: Event, b': Board) {
    Fresh(b, e) && b' == Play(b, e)
  }

  function Empty(): Board {
    Board([], map[], [], map["f" := FlowQueued], map[])
  }

  function Started(t: Task): Board {
    Pair(Worked(Done, 1, None, 0), t, FlowRunning, map["t" := Lease(11)])
  }

  lemma HistoryExtends(bs: seq<Board>, es: seq<Event>, e: Event, b: Board)
    requires IsHistory(bs, es) && Plays(bs[|es|], e, b)
    ensures IsHistory(bs + [b], es + [e])
  {
    forall i
      ensures PlaysAt(bs + [b], es + [e], i)
    {
      if i < |es| {
        assert PlaysAt(bs, es, i);
      }
    }
  }

  function Review(): Event {
    Block("t", "review_required")
  }

  function First(): Event {
    Edit(Create("f", None, "p", [], None, Medium, 1))
  }

  function Second(): Event {
    Edit(Create("f", None, "t", [], None, Medium, 1))
  }

  lemma PairCreated() returns (b1: Board, b2: Board)
    ensures Plays(Empty(), First(), b1) && Plays(b1, Second(), b2)
    ensures var t := Worked(Ready, 0, None, 0); b2 == Pair(t, t, FlowQueued, map[])
  {
    var t := Worked(Ready, 0, None, 0);
    b1 := Board(["p"], map["p" := t], [], map["f" := FlowQueued], map[]);
    b2 := Pair(t, t, FlowQueued, map[]);
    CreateAlone(Empty(), "p");
    CreateAlone(b1, "t");
  }

  lemma BlockStarted(t: Task, u: Task)
    requires u == BlockedTask(t, "review_required")
    ensures Plays(Started(t), Review(), Started(u))
  {
    BlockPair(Worked(Done, 1, None, 0), t, map["t" := Lease(11)]);
  }

  lemma TwoMore(bs: seq<Board>, es: seq<Event>, e: Event, f: Event, b: Board, c: Board)
    requires IsHistory(bs, es) && Plays(bs[|es|], e, b) && Plays(b, f, c)
    ensures IsHistory(bs + [b, c], es + [e, f])
  {
    HistoryExtends(bs, es, e, b);
    HistoryExtends(bs + [b], es + [e], f, c);
    assert bs + [b] + [c] == bs + [b, c] && es + [e] + [f] == es + [e, f];
  }

  lemma RevivalBegins(first: Event, second: Event) returns (bs: seq<Board>)
    requires first == Event.Cycle(FirstEnv()) && second == Event.Cycle(SecondEnv())
    ensures IsHistory(bs, [First(), Second(), first, second])
    ensures bs[0] == Empty() && bs[4] == Started(Worked(Running, 1, None, 0))
  {
    var r := Worked(Running, 1, None, 0);
    var b1, b2 := PairCreated();
    var b3 := Pair(r, r, FlowRunning, map["p" := Lease(10), "t" := Lease(10)]);
    FirstCyclePlays(b2, first, r, b3);
    SecondCyclePlays(b3, second, r, Started(r));
    FourLinked(Empty(), b1, b2, b3, Started(r), First(), Second(), first, second);
    bs := [Empty(), b1, b2, b3, Started(r)];
  }

  lemma FirstCyclePlays(b: Board, e: Event, r: Task, b': Board)
    requires e == Event.Cycle(FirstEnv()) && r == Worked(Running, 1, None, 0)
    requires b == Pair(Worked(Ready, 0, None, 0), Worked(Ready, 0, None, 0), FlowQueued, map[])
    requires b' == Pair(r, r, FlowRunning, map["p" := Lease(10), "t" := Lease(10)])
    ensures Plays(b, e, b')
  {
    FirstCycle(b, e.env, r);
    CyclePlays(b, e, b');
  }

  lemma SecondCyclePlays(b: Board, e: Event, r: Task, b': Board)
    requires e == Event.Cycle(SecondEnv()) && r == Worked(Running, 1, None, 0)
    requires b == Pair(r, r, FlowRunning, map["p" := Lease(10), "t" := Lease(10)]) && b' == Started(r)
    ensures Plays(b, e, b')
  {
    SecondCycle(b, e.env, r);
    CyclePlays(b, e, b');
  }

  lemma CyclePlays(b: Board, e: Event, b': Board)
    requires e.Cycle? && Tick(b, e.env).board == b'
    ensures Plays(b, e, b')
  {
  }

  lemma FourLinked(b0: Board, b1: Board, b2: Board, b3: Board, b4: Board, e0: Event, e1: Event, e2: Event, e3: Event)
    requires Plays(b0, e0, b1) && Plays(b1, e1, b2) && Plays(b2, e2, b3) && Plays(b3, e3, b4)
    ensures IsHistory([b0, b1, b2, b3, b4], [e0, e1, e2, e3])
  {
    TwoMore([b0], [], e0, e1, b1, b2);
    assert [b0] + [b1, b2] == [b0, b1, b2] && [] + [e0, e1] == [e0, e1];
    TwoMore([b0, b1, b2], [e0, e1], e2, e3, b3, b4);
    assert [b0, b1, b2] + [b3, b4] == [b0, b1, b2, b3, b4] && [e0, e1] + [e2, e3] == [e0, e1, e2, e3];
  }

  lemma HistoriesJoin(bs: seq<Board>, es: seq<Event>, cs: seq<Board>, fs: seq<Event>)
    requires IsHistory(bs, es) && IsHistory(cs, fs) && bs[|es|] == cs[0]
    ensures IsHistory(bs + cs[1..], es + fs)
  {
    forall i
      ensures PlaysAt(bs + cs[1..], es + fs, i)
    {
      if i < |es| {
        assert PlaysAt(bs, es, i);
      } else {
        assert PlaysAt(cs, fs, i - |es|);
      }
    }
  }

  lemma RevivalEnds() returns (cs: seq<Board>)
    ensures IsHistory(cs, [Review(), Review(), Review(), Edit(AddDependency("p", "t"))])
    ensures cs[0] == Started(Worked(Running, 1, None, 0)) && Overruns(cs[3], Edit(AddDependency("p", "t")))
    ensures "t" in cs[4].tasks && cs[4].tasks["t"] == Worked(Ready, 1, None, 3)
  {
    var t4 := Worked(Running, 1, None, 0);
    var t5 := BlockedTask(t4, "review_required");
    var t6 := BlockedTask(t5, "review_required");
    var t7 := BlockedTask(t6, "review_required");
    BlockStarted(t4, t5);
    BlockStarted(t5, t6);
    BlockStarted(t6, t7);
    LateDependency(Started(t7));
    var last := Apply(Started(t7), AddDependency("p", "t"));
    FourLinked(Started(t4), Started(t5), Started(t6), Started(t7), last, Review(), Review(), Review(),
               Edit(AddDependency("p", "t")));
    cs := [Started(t4), Started(t5), Started(t6), Started(t7), last];
  }

  /** This history gives t, whose one attempt is used up, a second one. */
  lemma UsedUpTaskRevived() returns (bs: seq<Board>)
    ensures IsHistory(bs, Revival()) && bs[0] == Empty()
    ensures Overruns(bs[7], Revival()[7]) && "t" in bs[8].tasks
    ensures var t := bs[8].tasks["t"];
            t.status.Ready? && t.attempts == Limit(t) && DispatchTask(t, true).attempts == Limit(t) + 1
  {
    var start := RevivalBegins(Event.Cycle(FirstEnv()), Event.Cycle(SecondEnv()));
    var end := RevivalEnds();
    bs := start + end[1..];
    var es := [First(), Second(), Event.Cycle(FirstEnv()), Event.Cycle(SecondEnv())];
    var fs := [Review(), Review(), Review(), Edit(AddDependency("p", "t"))];
    HistoriesJoin(start, es, end, fs);
    assert Revival() == es + fs;
  }
}
