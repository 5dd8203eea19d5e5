/**
 Whole runs of the TaskFlow dispatcher: task activity dies out, a full cycle never leaves a
 healthy flow waiting, and the one report that stops every cycle.
 */
module DispatcherRuns {
  import opened Wrappers
  import opened TaskBoard
  import opened Promotion
  import opened Dispatcher

  // ---------------------------------------------------------------- activity dies out

  function Total(order: seq<string>, tasks: map<string, Task>): nat
    requires forall id <- order :: id in tasks
  {
    if order == [] then 0 else Weight(tasks[order[0]]) + Total(order[1..], tasks)
  }

  ghost predicate Changed(b: Board, b': Board) {
    exists id <- b.tasks :: id in b'.tasks &&
      (b'.tasks[id].status != b.tasks[id].status || b'.tasks[id].attempts != b.tasks[id].attempts)
  }

  /** How many cycles of a run changed some task's status or attempts. */
  ghost function Busy(bs: seq<Board>): nat {
    if |bs| < 2 then 0 else (if Changed(bs[0], bs[1]) then 1 else 0) + Busy(bs[1..])
  }

  lemma {:induction false} TotalFalls(order: seq<string>, b: Board, b': Board)
    requires BoardProgress(b, b') && forall id <- order :: id in b.tasks
    ensures Total(order, b'.tasks) <= Total(order, b.tasks)
    ensures (exists id <- order :: Weight(b'.tasks[id]) < Weight(b.tasks[id])) ==>
              Total(order, b'.tasks) < Total(order, b.tasks)
  {
    if order != [] {
      assert Progress(b.tasks[order[0]], b'.tasks[order[0]]);
      TotalFalls(order[1..], b, b');
      if exists id <- order :: Weight(b'.tasks[id]) < Weight(b.tasks[id]) {
        var id :| id in order && Weight(b'.tasks[id]) < Weight(b.tasks[id]);
        assert id == order[0] || id in order[1..];
      }
    }
  }

  lemma TickLowersTotal(b: Board, env: Env)
    requires Orderly(b)
    ensures var b' := Tick(b, env).board;
            && BoardProgress(b, b') && Orderly(b')
            && Total(b.order, b'.tasks) + (if Changed(b, b') then 1 else 0) <= Total(b.order, b.tasks)
  {
    TickKeepsOrder(b, env);
    var b' := Tick(b, env).board;
    TotalFalls(b.order, b, b');
    if Changed(b, b') {
      var id :| id in b.tasks
        && (b'.tasks[id].status != b.tasks[id].status || b'.tasks[id].attempts != b.tasks[id].attempts);
      assert Progress(b.tasks[id], b'.tasks[id]);
      assert id in b.order && Weight(b'.tasks[id]) < Weight(b.tasks[id]);
    }
  }

  /** Over any run, at most as many cycles change a task as the work there was to begin with;
      DONE is never undone, no task records more attempts than it is allowed, and READY and
      RUNNING do not overtake a parent if they did not to begin with. */
  lemma {:induction false} ActivityDiesOut(bs: seq<Board>, envs: seq<Env>)
    requires IsRun(bs, envs) && Orderly(bs[0])
    ensures BoardProgress(bs[0], bs[|bs| - 1]) && Orderly(bs[|bs| - 1])
    ensures ParentsFirst(bs[0]) ==> ParentsFirst(bs[|bs| - 1])
    ensures Busy(bs) + Total(bs[0].order, bs[|bs| - 1].tasks) <= Total(bs[0].order, bs[0].tasks)
    decreases |bs|
  {
    if |bs| > 1 {
      assert bs[1] == Tick(bs[0], envs[0]).board;
      TickLowersTotal(bs[0], envs[0]);
      TickKeepsOrder(bs[0], envs[0]);
      assert IsRun(bs[1..], envs[1..]) by {
        forall i | 0 <= i < |envs[1..]|
          ensures bs[1..][i + 1] == Tick(bs[1..][i], envs[1..][i]).board
        {
          assert bs[i + 2] == Tick(bs[i + 1], envs[i + 1]).board;
        }
      }
      ActivityDiesOut(bs[1..], envs[1..]);
      ProgressTrans(bs[0], bs[1], bs[|bs| - 1]);
    }
  }

  // ---------------------------------------------------------------- a full cycle never waits

  /** Reconciling submits nothing, rates no flow, moves no task between flows and leaves the
      tasks that are running but not yet reached alone. */
  ghost predicate Leaves(b: Board, b': Board, reached: seq<string>) {
    && b'.flows == b.flows && b'.order == b.order && b'.edges == b.edges && b'.tasks.Keys == b.tasks.Keys
    && forall x <- b.tasks ::
         && b'.tasks[x].attempts == b.tasks[x].attempts && b'.tasks[x].flow == b.tasks[x].flow
         && (x !in reached && b.tasks[x].status.Running? ==> b'.tasks[x] == b.tasks[x])
  }

  lemma FailTaskLeaves(b: Board, id: string)
    requires id in b.tasks
    ensures Leaves(b, FailTask(b, id), [id])
  {
  }

  lemma CompletedLeaves(b: Board, id: string)
    requires id in b.tasks
    ensures Leaves(b, PromoteFlow(SetStatus(Release(b, id), id, Done), b.tasks[id].flow), [id])
  {
  }

  lemma ReconcileTaskLeaves(b: Board, id: string, env: Env)
    requires id in b.tasks
    ensures Leaves(b, ReconcileTask(b, id, env).board, [id])
  {
    if b.tasks[id].attempts != 0 {
      match env.reports(id)
      case Completed => CompletedLeaves(b, id);
      case SaysFailed => FailTaskLeaves(b, id);
      case EndedFailed => FailTaskLeaves(b, id);
      case EndedCancelled => FailTaskLeaves(b, id);
      case EndedInterrupted => FailTaskLeaves(b, id);
      case _ =>
    }
  }

  lemma {:induction false} ReconcileLeaves(b: Board, ids: seq<string>, env: Env)
    requires forall id <- ids :: id in b.tasks
    ensures Leaves(b, ReconcileAll(b, ids, env).board, ids)
  {
    if ids != [] {
      var init, last := ids[..|ids| - 1], ids[|ids| - 1];
      ReconcileLeaves(b, init, env);
      var before := ReconcileAll(b, init, env);
      assert forall x :: x !in ids ==> x !in init && x != last;
      if !before.raised {
        ReconcileTaskLeaves(before.board, last, env);
      }
    }
  }

  lemma SoundAfter(b: Board, b': Board)
    requires Sound(b) && b'.flows.Keys == b.flows.Keys && b'.order == b.order && b'.edges == b.edges
    requires b'.tasks.Keys == b.tasks.Keys && forall x <- b.tasks :: b'.tasks[x].flow == b.tasks[x].flow
    ensures Sound(b')
  {
  }

  lemma PromoteAllActive(b: Board, flow: string)
    requires Open(b, flow) && HasActive(PromoteFlow(b, flow), flow)
    ensures HasActive(PromoteAll(b), flow)
  {
    var id :| id in b.tasks && PromoteFlow(b, flow).tasks[id].flow == flow
      && Active(PromoteFlow(b, flow).tasks[id].status);
    assert PromoteAll(b).tasks[id] == PromoteFlow(b, flow).tasks[id];
  }

  lemma DispatchKeepsActive(b: Board, env: Env, flow: string)
    ensures HasActive(b, flow) ==> HasActive(Dispatch(b, env), flow)
    ensures FlowIs(b, flow, {Done}) ==> FlowIs(Dispatch(b, env), flow, {Done})
    ensures Open(b, flow) ==> Open(Dispatch(b, env), flow)
  {
    if HasActive(b, flow) {
      var id :| id in b.tasks && b.tasks[id].flow == flow && Active(b.tasks[id].status);
      var t := Dispatch(b, env).tasks[id];
      assert t.flow == flow && Active(t.status);
    }
    if FlowIs(b, flow, {Done}) {
      forall id <- b.tasks | b.tasks[id].flow == flow
        ensures Dispatch(b, env).tasks[id].status.Done?
      {
        assert id in Picks(b, env) ==> Claimable(b, id, env.now);
      }
    }
  }

  lemma VerdictOfActive(b: Board, flow: string)
    requires Open(b, flow)
    ensures HasActive(b, flow) ==> EvaluateFlows(b).flows[flow] == FlowRunning
    ensures FlowIs(b, flow, {Done}) && HasTasks(b, flow) ==> EvaluateFlows(b).flows[flow] == FlowSucceeded
  {
    if HasActive(b, flow) {
      var id :| id in b.tasks && b.tasks[id].flow == flow && Active(b.tasks[id].status);
      assert HasStatus(b, flow, b.tasks[id].status);
      assert !AllIn(b, flow, {Done, Archived});
    }
  }

  lemma DoneStaysDone(b: Board, env: Env, flow: string)
    requires Open(b, flow) && FlowIs(b, flow, {Done}) && HasTasks(b, flow)
    ensures EvaluateFlows(Dispatch(PromoteAll(b), env)).flows[flow] == FlowSucceeded
  {
    var p := PromoteAll(b);
    var d := Dispatch(p, env);
    assert FlowIs(p, flow, {Done});
    DispatchKeepsActive(p, env, flow);
    var id :| id in b.tasks && b.tasks[id].flow == flow;
    assert d.tasks[id].flow == flow;
    VerdictOfActive(d, flow);
  }

  lemma UndoneRuns(b: Board, env: Env, flow: string)
    requires Sound(b) && Open(b, flow) && FlowIs(b, flow, {Todo, Ready, Running, Done}) && !FlowIs(b, flow, {Done})
    ensures EvaluateFlows(Dispatch(PromoteAll(b), env)).flows[flow] == FlowRunning
  {
    var undone :| undone in b.tasks && b.tasks[undone].flow == flow && b.tasks[undone].status !in {Done};
    NoDeadlock(b, flow, undone);
    PromoteAllActive(b, flow);
    DispatchKeepsActive(PromoteAll(b), env, flow);
    VerdictOfActive(Dispatch(PromoteAll(b), env), flow);
  }

  lemma ReconciledIsSound(b: Board, env: Env, flow: string)
    requires Sound(b)
    ensures Sound(Reconciled(b, env).board) && Reconciled(b, env).board.flows == b.flows
    ensures HasTasks(b, flow) ==> HasTasks(Reconciled(b, env).board, flow)
  {
    var r := Reconciled(b, env).board;
    ReconcileLeaves(b, WithStatusIds(b, b.order, Running), env);
    SoundAfter(b, r);
    if HasTasks(b, flow) {
      var id :| id in b.tasks && b.tasks[id].flow == flow;
      assert r.tasks[id].flow == flow;
    }
  }

  /** A full cycle over a flow whose tasks are all TODO, READY, RUNNING or DONE once the runs
      are reconciled leaves it SUCCEEDED if all are DONE and RUNNING otherwise. */
  lemma FullTickNeverWaits(b: Board, env: Env, flow: string)
    requires Sound(b) && Open(b, flow) && HasTasks(b, flow)
    requires !Reconciled(b, env).raised
    requires FlowIs(Reconciled(b, env).board, flow, {Todo, Ready, Running, Done})
    ensures flow in Tick(b, env).board.flows
    ensures Tick(b, env).board.flows[flow] ==
            if FlowIs(Reconciled(b, env).board, flow, {Done}) then FlowSucceeded else FlowRunning
  {
    var r := Reconciled(b, env).board;
    ReconciledIsSound(b, env, flow);
    if FlowIs(r, flow, {Done}) {
      DoneStaysDone(r, env, flow);
    } else {
      UndoneRuns(r, env, flow);
    }
  }

  // ---------------------------------------------------------------- the report that stops it

  /** A running task whose latest attempt's run ended ORPHANED. */
  predicate Wedges(b: Board, id: string, env: Env) {
    id in b.tasks && b.tasks[id].status.Running? && b.tasks[id].attempts > 0 && env.reports(id).EndedOrphaned?
  }

  lemma WedgesOneStep(b: Board, before: Board, id: string, env: Env)
    requires id in b.tasks && b.tasks[id].status.Running? && id in before.tasks && before.tasks[id] == b.tasks[id]
    ensures ReconcileTask(before, id, env).raised <==> Wedges(b, id, env)
    ensures Wedges(b, id, env) ==> ReconcileTask(before, id, env).board == before
  {
  }

  lemma {:induction false} ReconcileRaisesIff(b: Board, ids: seq<string>, env: Env)
    requires NoDuplicates(ids)
    requires forall id <- ids :: id in b.tasks && b.tasks[id].status.Running?
    ensures ReconcileAll(b, ids, env).raised <==> exists id <- ids :: Wedges(b, id, env)
    ensures forall id <- ids :: Wedges(b, id, env) ==> ReconcileAll(b, ids, env).board.tasks[id] == b.tasks[id]
  {
    if ids != [] {
      var init, last := ids[..|ids| - 1], ids[|ids| - 1];
      ReconcileRaisesIff(b, init, env);
      ReconcileLeaves(b, init, env);
      var before := ReconcileAll(b, init, env);
      assert last !in init;
      WedgesOneStep(b, before.board, last, env);
      assert forall id <- ids :: id == last || id in init;
      assert forall id <- init :: id in ids;
    }
  }

  /** A cycle is abandoned exactly when some running task's run ended ORPHANED. */
  lemma TickRaisesIff(b: Board, env: Env)
    requires Keyed(b)
    ensures Tick(b, env).raised <==> exists id <- b.tasks :: Wedges(b, id, env)
    ensures forall id <- b.tasks :: Wedges(b, id, env) ==> Tick(b, env).board.tasks[id] == b.tasks[id]
  {
    var ids := WithStatusIds(b, b.order, Running);
    ReconcileRaisesIff(b, ids, env);
    forall id <- b.tasks | Wedges(b, id, env)
      ensures id in ids
    {
    }
  }

  /** Once that has happened it happens forever: an ended run stays ended, so no later cycle
      submits an attempt of any task or rates any flow again. */
  lemma {:induction false} OrphanWedgesDispatcher(bs: seq<Board>, envs: seq<Env>, id: string)
    requires IsRun(bs, envs) && Keyed(bs[0])
    requires id in bs[0].tasks && bs[0].tasks[id].status.Running? && bs[0].tasks[id].attempts > 0
    requires forall env <- envs :: env.reports(id).EndedOrphaned?
    ensures forall i :: 0 <= i < |envs| ==> Tick(bs[i], envs[i]).raised
    ensures var last := bs[|bs| - 1];
            && last.flows == bs[0].flows && last.tasks.Keys == bs[0].tasks.Keys
            && last.tasks[id] == bs[0].tasks[id]
            && forall x <- bs[0].tasks :: last.tasks[x].attempts == bs[0].tasks[x].attempts
    decreases |bs|
  {
    if |bs| > 1 {
      var b, env := bs[0], envs[0];
      assert bs[1] == Tick(b, env).board;
      assert Wedges(b, id, env);
      TickRaisesIff(b, env);
      ReconcileLeaves(b, WithStatusIds(b, b.order, Running), env);
      var bs', envs' := bs[1..], envs[1..];
      forall i | 0 <= i < |envs'|
        ensures bs'[i + 1] == Tick(bs'[i], envs'[i]).board
      {
        assert bs[i + 2] == Tick(bs[i + 1], envs[i + 1]).board;
      }
      OrphanWedgesDispatcher(bs', envs', id);
      forall i | 0 <= i < |envs|
        ensures Tick(bs[i], envs[i]).raised
      {
        if i > 0 {
          assert Tick(bs'[i - 1], envs'[i - 1]).raised;
        }
      }
    }
  }

  /** A flow whose one task is running its first attempt. */
  function OneRunningTask(): Board {
    Board(["t"], map["t" := Task("f", Running, Medium, None, 3, 1, None, 0)], [], map["f" := FlowRunning], map[])
  }

  /** If that attempt's run is ORPHANED the cycle raises, and so does every later one. */
  lemma OrphanInstance(env: Env)
    requires env.reports("t").EndedOrphaned?
    ensures Keyed(OneRunningTask()) && Tick(OneRunningTask(), env).raised
  {
    var b := OneRunningTask();
    assert Wedges(b, "t", env);
    TickRaisesIff(b, env);
  }
}
