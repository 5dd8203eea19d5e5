/**
 What a dispatcher cycle makes of each task and flow, told from the tables before and after it
 and from what the runs report.
 */
module DispatcherOutcomes {
  import opened Wrappers
  import opened TaskBoard
  import opened Dispatcher
  import opened DispatcherRuns
  import opened DispatcherHistories

  // ---------------------------------------------------------------- reports

  predicate Reporting(t: Task) {
    t.status.Running? && t.attempts > 0
  }

  predicate Waiting(t: Task) {
    t.status.Todo? || t.status.Ready?
  }

  predicate Failing(r: RunReport) {
    r.SaysFailed? || r.EndedFailed? || r.EndedCancelled? || r.EndedInterrupted?
  }

  /** A failure with no attempt left. */
  predicate GivesUp(b: Board, id: string, env: Env) {
    && id in b.tasks && Reporting(b.tasks[id]) && Failing(env.reports(id))
    && b.tasks[id].attempts >= b.tasks[id].maxAttempts
  }

  predicate SameFlowOf(b: Board, x: string, c: string)
    requires x in b.tasks && c in b.tasks
  {
    b.tasks[x].flow == b.tasks[c].flow
  }

  predicate ChildOf(b: Board, p: string, x: string) {
    p in b.tasks && x in b.tasks && (p, x) in b.edges && b.tasks[p].flow == b.tasks[x].flow
  }

  /** Among the tasks reconciled, a parent gives up, and not before x has had its own turn. */
  ghost predicate LosesParent(b: Board, ids: seq<string>, x: string, env: Env)
    requires x in b.tasks
  {
    exists j :: 0 <= j < |ids| && GivesUp(b, ids[j], env) && ChildOf(b, ids[j], x)
      && (b.tasks[x].status.Running? ==> x in ids[..j])
  }

  predicate DependencyBlocked(t: Task, u: Task) {
    u.blockReason == Some("dependency") && (u.status.Blocked? || (u.status.Triage? && t.blocks >= 2))
  }

  /** Back to READY, unless a parent gives up later. */
  ghost predicate PutBack(b: Board, b': Board, ids: seq<string>, x: string, env: Env)
    requires x in b.tasks && x in b'.tasks
  {
    var t, u := b.tasks[x], b'.tasks[x];
    if LosesParent(b, ids, x, env) then DependencyBlocked(t, u) else u.status.Ready? && u.blocks == t.blocks
  }

  /** What has become of x when the tasks ids have been reconciled. */
  ghost predicate Outcome(b: Board, b': Board, ids: seq<string>, x: string, env: Env)
    requires x in b.tasks && x in b'.tasks
  {
    var t, u := b.tasks[x], b'.tasks[x];
    if t.status.Running? && x !in ids then u == t
    else if t.status.Running? && t.attempts == 0 then
      if x in b.claims && b.claims[x].leaseUntil < env.now then PutBack(b, b', ids, x, env) else u == t
    else if t.status.Running? then
      match env.reports(x)
      case Unfinished => u == t
      case EndedOrphaned => u == t
      case Completed => u.status.Done? && u.blocks == 0
      case SaysBlocked(reason) =>
        && u.blockReason == Some(if reason.Some? then reason.value else "needs_user_input")
        && (u.status.Blocked? || (u.status.Triage? && t.blocks >= 2)) && u.blocks == t.blocks + 1
      case _ => if GivesUp(b, x, env) then u.status.Failed? else PutBack(b, b', ids, x, env)
    else if t.status.Todo? || t.status.Ready? then
      if LosesParent(b, ids, x, env) then DependencyBlocked(t, u)
      else u == t || (t.status.Todo? && u.status.Ready? && u.blocks == t.blocks && ParentsDone(b', x))
    else u == t
  }

  /** Everything else about the tables. */
  ghost predicate Framed(b: Board, b': Board) {
    b'.order == b.order && b'.edges == b.edges && b'.tasks.Keys == b.tasks.Keys && b'.flows == b.flows
  }

  predicate SameClaim(b: Board, b': Board, x: string) {
    (x in b'.claims <==> x in b.claims) && (x in b.claims ==> b'.claims[x] == b.claims[x])
  }

  // What happens to another task at one task's turn.
  ghost predicate Aside(b: Board, b': Board, id: string, env: Env, x: string)
    requires id in b.tasks && x in b.tasks && x in b'.tasks
  {
    var t, u := b.tasks[x], b'.tasks[x];
    && SameClaim(b, b', x) && u.flow == t.flow
    && if GivesUp(b, id, env) && ChildOf(b, id, x) && (t.status.Todo? || t.status.Ready?)
       then DependencyBlocked(t, u)
       else u == t || (t.status.Todo? && u.status.Ready? && u.blocks == t.blocks && ParentsDone(b', x))
  }

  // What a task's own turn makes of it.
  ghost predicate Turn(b: Board, b': Board, x: string, env: Env)
    requires x in b.tasks && x in b'.tasks
  {
    var t, u := b.tasks[x], b'.tasks[x];
    if t.attempts == 0 then
      if x in b.claims && b.claims[x].leaseUntil < env.now then u.status.Ready? && u.blocks == t.blocks else u == t
    else
      match env.reports(x)
      case Unfinished => u == t
      case EndedOrphaned => u == t
      case Completed => u.status.Done? && u.blocks == 0
      case SaysBlocked(reason) =>
        && u.blockReason == Some(if reason.Some? then reason.value else "needs_user_input")
        && (u.status.Blocked? || (u.status.Triage? && t.blocks >= 2)) && u.blocks == t.blocks + 1
      case _ => if GivesUp(b, x, env) then u.status.Failed? else u.status.Ready? && u.blocks == t.blocks
  }

  /** What a task's own turn makes of its claim: a run under way renews this dispatcher's, anything that
      ends the attempt or puts the task back gives it up. */
  ghost predicate ClaimTurn(b: Board, b': Board, x: string, env: Env)
    requires x in b.tasks
  {
    if b.tasks[x].attempts == 0 then
      if x in b.claims && b.claims[x].leaseUntil < env.now then x !in b'.claims else SameClaim(b, b', x)
    else if env.reports(x).Unfinished? then
      if x in b.claims && b.claims[x].owner == env.owner
      then x in b'.claims && b'.claims[x] == Claim(env.owner, env.leaseUntil) else SameClaim(b, b', x)
    else if env.reports(x).EndedOrphaned? then SameClaim(b, b', x)
    else x !in b'.claims
  }

  lemma FailureTurn(b: Board, id: string, env: Env)
    requires id in b.tasks && Reporting(b.tasks[id]) && Failing(env.reports(id))
    ensures Turn(b, FailTask(b, id), id, env) && ClaimTurn(b, FailTask(b, id), id, env)
  {
  }

  lemma FailureAside(b: Board, id: string, env: Env, x: string)
    requires id in b.tasks && Reporting(b.tasks[id]) && Failing(env.reports(id)) && x in b.tasks && x != id
    ensures Aside(b, FailTask(b, id), id, env, x)
  {
  }

  lemma CompletedAside(b: Board, id: string, env: Env, x: string)
    requires id in b.tasks && Reporting(b.tasks[id]) && env.reports(id).Completed? && x in b.tasks && x != id
    ensures Aside(b, PromoteFlow(SetStatus(Release(b, id), id, Done), b.tasks[id].flow), id, env, x)
  {
    var done := SetStatus(Release(b, id), id, Done);
    var after := PromoteFlow(done, b.tasks[id].flow);
    assert ParentsDone(done, x) ==> ParentsDone(after, x);
  }

  lemma TaskReconciled(b: Board, id: string, env: Env)
    requires id in b.tasks && b.tasks[id].status.Running?
    ensures var b' := ReconcileTask(b, id, env).board;
            && Framed(b, b') && Turn(b, b', id, env) && ClaimTurn(b, b', id, env)
            && forall x :: x in b.tasks && x != id ==> Aside(b, b', id, env, x)
  {
    var b' := ReconcileTask(b, id, env).board;
    if Reporting(b.tasks[id]) && Failing(env.reports(id)) {
      FailureTurn(b, id, env);
    }
    forall x | x in b.tasks && x != id
      ensures Aside(b, b', id, env, x)
    {
      if Reporting(b.tasks[id]) && Failing(env.reports(id)) {
        FailureAside(b, id, env, x);
      } else if Reporting(b.tasks[id]) && env.reports(id).Completed? {
        CompletedAside(b, id, env, x);
      }
    }
  }

  /** DONE parents stay DONE. */
  lemma StillDone(b: Board, b': Board, x: string)
    requires SameFrame(b, b') && ParentsDone(b, x)
    ensures ParentsDone(b', x)
  {
  }

  lemma LosesParentGrows(b: Board, ids: seq<string>, x: string, env: Env)
    requires ids != [] && NoDuplicates(ids) && x in b.tasks
    ensures var init, last := ids[..|ids| - 1], ids[|ids| - 1];
            LosesParent(b, ids, x, env) <==>
            || LosesParent(b, init, x, env)
            || (GivesUp(b, last, env) && ChildOf(b, last, x) && (b.tasks[x].status.Running? ==> x in init))
  {
    var init, last := ids[..|ids| - 1], ids[|ids| - 1];
    assert forall j :: 0 <= j < |init| ==> ids[..j] == init[..j] && ids[j] == init[j];
  }

  lemma OutcomeAside(b: Board, m: Board, b': Board, ids: seq<string>, env: Env, x: string)
    requires ids != [] && NoDuplicates(ids) && x in b.tasks && x in m.tasks && x in b'.tasks && x != ids[|ids| - 1]
    requires var init, last := ids[..|ids| - 1], ids[|ids| - 1];
             && Outcome(b, m, init, x, env) && last in b.tasks && last in m.tasks && m.tasks[last] == b.tasks[last]
             && m.edges == b.edges && m.tasks[x].flow == b.tasks[x].flow
             && Aside(m, b', last, env, x) && SameFrame(m, b')
    ensures Outcome(b, b', ids, x, env)
  {
    LosesParentGrows(b, ids, x, env);
    if m.tasks[x].status.Ready? && ParentsDone(m, x) {
      StillDone(m, b', x);
    }
  }

  lemma OutcomeOwn(b: Board, m: Board, b': Board, ids: seq<string>, env: Env)
    requires ids != [] && NoDuplicates(ids)
    requires var x := ids[|ids| - 1];
             && x in b.tasks && x in m.tasks && x in b'.tasks && b.tasks[x].status.Running?
             && m.tasks[x] == b.tasks[x] && SameClaim(b, m, x) && Turn(m, b', x, env)
    ensures Outcome(b, b', ids, ids[|ids| - 1], env)
  {
    var init, x := ids[..|ids| - 1], ids[|ids| - 1];
    assert forall j :: 0 <= j < |ids| ==> ids[..j] == init[..j] && x !in init[..j];
  }

  // Tasks reconciled so far, seen from one task.
  ghost predicate SoFar(b: Board, m: Board, ids: seq<string>, env: Env, x: string)
    requires x in b.tasks
  {
    && x in m.tasks && m.tasks[x].flow == b.tasks[x].flow && Outcome(b, m, ids, x, env)
    && (if x in ids then ClaimTurn(b, m, x, env) else SameClaim(b, m, x))
  }

  lemma {:induction false} AllReconciled(b: Board, ids: seq<string>, env: Env, x: string)
    requires NoDuplicates(ids) && forall id <- ids :: id in b.tasks && b.tasks[id].status.Running?
    requires !ReconcileAll(b, ids, env).raised && x in b.tasks
    ensures Framed(b, ReconcileAll(b, ids, env).board) && SoFar(b, ReconcileAll(b, ids, env).board, ids, env, x)
  {
    if ids == [] {
      assert !LosesParent(b, ids, x, env);
    } else {
      var init, last := ids[..|ids| - 1], ids[|ids| - 1];
      var m := ReconcileAll(b, init, env).board;
      assert forall id <- init :: id in ids;
      AllReconciled(b, init, env, x);
      AllReconciled(b, init, env, last);
      assert last !in init;
      TaskReconciled(m, last, env);
      ReconcileTaskFrame(m, last, env);
      OneMore(b, m, ReconcileTask(m, last, env).board, ids, env, x);
    }
  }

  lemma OneMore(b: Board, m: Board, b': Board, ids: seq<string>, env: Env, x: string)
    requires ids != [] && NoDuplicates(ids) && x in b.tasks && Framed(b, m) && Framed(m, b') && SameFrame(m, b')
    requires var init, last := ids[..|ids| - 1], ids[|ids| - 1];
             && last in b.tasks && b.tasks[last].status.Running? && m.tasks[last] == b.tasks[last]
             && SoFar(b, m, init, env, x) && SameClaim(b, m, last)
             && Turn(m, b', last, env) && ClaimTurn(m, b', last, env)
             && (x != last ==> Aside(m, b', last, env, x))
    ensures SoFar(b, b', ids, env, x)
  {
    if x == ids[|ids| - 1] {
      OutcomeOwn(b, m, b', ids, env);
    } else {
      OutcomeAside(b, m, b', ids, env, x);
    }
  }

  function RunningIds(b: Board): seq<string> {
    WithStatusIds(b, b.order, Running)
  }

  /** What reconciling makes of every task, from what its run reports: DONE, blocked, READY again,
      FAILED, or as it was; and what a parent that gives up does to its waiting children. */
  lemma ReconcileOutcome(b: Board, env: Env, x: string)
    requires Keyed(b) && !Reconciled(b, env).raised && x in b.tasks
    ensures Framed(b, Reconciled(b, env).board)
    ensures Outcome(b, Reconciled(b, env).board, RunningIds(b), x, env)
    ensures if b.tasks[x].status.Running? then ClaimTurn(b, Reconciled(b, env).board, x, env)
            else SameClaim(b, Reconciled(b, env).board, x)
  {
    AllReconciled(b, RunningIds(b), env, x);
  }

  /** A reported failure: READY again while attempts are left, unless a parent reconciled later
      gives up; FAILED otherwise, and then every child in its flow that was TODO or READY is
      blocked for the dependency. */
  lemma FailureOutcome(b: Board, env: Env, x: string)
    requires Keyed(b) && !Reconciled(b, env).raised
    requires x in b.tasks && b.tasks[x].status.Running? && b.tasks[x].attempts > 0
    requires env.reports(x) in {SaysFailed, EndedFailed, EndedCancelled, EndedInterrupted}
    ensures var r := Reconciled(b, env).board;
            && r.tasks.Keys == b.tasks.Keys
            && if b.tasks[x].attempts >= b.tasks[x].maxAttempts then
                 && r.tasks[x].status.Failed?
                 && forall c :: c in b.tasks && (x, c) in b.edges && SameFlowOf(b, x, c) && Waiting(b.tasks[c]) ==>
                        && r.tasks[c].blockReason == Some("dependency")
                        && (r.tasks[c].status.Blocked? || (r.tasks[c].status.Triage? && b.tasks[c].blocks >= 2))
               else if LosesParent(b, RunningIds(b), x, env) then r.tasks[x].blockReason == Some("dependency")
               else r.tasks[x].status.Ready?
  {
    var ids := RunningIds(b);
    ReconcileOutcome(b, env, x);
    var j :| 0 <= j < |ids| && ids[j] == x;
    if GivesUp(b, x, env) {
      forall c | c in b.tasks && ChildOf(b, x, c) && (b.tasks[c].status.Todo? || b.tasks[c].status.Ready?)
        ensures DependencyBlocked(b.tasks[c], Reconciled(b, env).board.tasks[c])
      {
        ReconcileOutcome(b, env, c);
        assert GivesUp(b, ids[j], env) && ChildOf(b, ids[j], c);
      }
    }
  }

  // ---------------------------------------------------------------- the whole cycle

  /** What a cycle that does not stop makes of a task, after its reconciliation: TODO is READY once
      the parents are DONE, in an open flow; what is READY and picked is RUNNING with one more
      attempt and a claim, or READY without a claim if its run could not be submitted. */
  lemma TickOutcome(b: Board, env: Env, x: string)
    requires Keyed(b) && !Tick(b, env).raised && x in b.tasks
    ensures var r := Reconciled(b, env).board; var b' := Tick(b, env).board;
            && x in r.tasks && x in b'.tasks
            && var u, v := r.tasks[x], b'.tasks[x];
               if u.status.Ready? || (u.status.Todo? && ParentsDone(r, x) && Open(r, u.flow)) then
                 if x !in Picks(PromoteAll(r), env) then v.status.Ready? && v.attempts == u.attempts
                 else if x in env.spawns then
                   && v.status.Running? && v.attempts == u.attempts + 1
                   && x in b'.claims && b'.claims[x] == Claim(env.owner, env.leaseUntil)
                 else v.status.Ready? && v.attempts == u.attempts && x !in b'.claims
               else v == u
  {
    ReconcileOutcome(b, env, x);
    var r := Reconciled(b, env).board;
    assert PromoteAll(r).tasks[x] ==
      if r.tasks[x].status.Todo? && ParentsDone(r, x) && Open(r, r.tasks[x].flow)
      then WithStatus(r.tasks[x], Ready, None, false) else r.tasks[x];
    DispatchOutcome(PromoteAll(r), env, x);
    SameAfterNaming(Dispatch(PromoteAll(r), env));
  }

  lemma SameAfterNaming(d: Board)
    ensures EvaluateFlows(d).tasks == d.tasks && EvaluateFlows(d).claims == d.claims
  {
  }

  lemma DispatchOutcome(p: Board, env: Env, x: string)
    requires x in p.tasks
    ensures var d := Dispatch(p, env);
            && x in d.tasks
            && if x !in Picks(p, env) then d.tasks[x] == p.tasks[x]
               else
                 && p.tasks[x].status.Ready?
                 && if x in env.spawns then
                      && d.tasks[x].status.Running? && d.tasks[x].attempts == p.tasks[x].attempts + 1
                      && x in d.claims && d.claims[x] == Claim(env.owner, env.leaseUntil)
                    else d.tasks[x].status.Ready? && d.tasks[x].attempts == p.tasks[x].attempts && x !in d.claims
  {
    if x in Picks(p, env) {
      assert Claimable(p, x, env.now);
    }
  }

  /** After a cycle that does not stop, exactly those tasks are DONE that were, or whose run
      reports completion. */
  lemma DoneIff(b: Board, env: Env, x: string)
    requires Keyed(b) && !Tick(b, env).raised && x in b.tasks
    ensures x in Tick(b, env).board.tasks
    ensures Tick(b, env).board.tasks[x].status.Done? <==>
            b.tasks[x].status.Done?
            || (b.tasks[x].status.Running? && b.tasks[x].attempts > 0 && env.reports(x).Completed?)
  {
    DoneAfterReconciling(b, env, x);
    TickOutcome(b, env, x);
  }

  lemma DoneAfterReconciling(b: Board, env: Env, x: string)
    requires Keyed(b) && !Reconciled(b, env).raised && x in b.tasks
    ensures x in Reconciled(b, env).board.tasks
    ensures Reconciled(b, env).board.tasks[x].status.Done? <==>
            b.tasks[x].status.Done?
            || (b.tasks[x].status.Running? && b.tasks[x].attempts > 0 && env.reports(x).Completed?)
  {
    ReconcileOutcome(b, env, x);
  }

  // ---------------------------------------------------------------- who is claimed

  function Urgency(p: Priority): nat {
    match p
    case Urgent => 3
    case High => 2
    case Medium => 1
    case Low => 0
  }

  ghost predicate Earlier(order: seq<string>, x: string, y: string) {
    exists i, j :: 0 <= i < j < |order| && order[i] == x && order[j] == y
  }

  /** More urgent, or as urgent and created before. */
  ghost predicate Precedes(b: Board, x: string, y: string)
    requires x in b.tasks && y in b.tasks
  {
    || Urgency(b.tasks[x].priority) > Urgency(b.tasks[y].priority)
    || (b.tasks[x].priority == b.tasks[y].priority && Earlier(b.order, x, y))
  }

  ghost predicate Ordered(b: Board, ids: seq<string>) {
    && (forall id <- ids :: id in b.tasks)
    && forall i, j :: 0 <= i < j < |ids| ==> Precedes(b, ids[i], ids[j])
  }

  lemma EarlierInRest(order: seq<string>, x: string, y: string)
    requires order != [] && Earlier(order[1..], x, y)
    ensures Earlier(order, x, y)
  {
    var i, j :| 0 <= i < j < |order[1..]| && order[1..][i] == x && order[1..][j] == y;
    assert order[i + 1] == x && order[j + 1] == y;
  }

  lemma FirstIsEarlier(order: seq<string>, y: string)
    requires order != [] && y in order[1..]
    ensures Earlier(order, order[0], y)
  {
    var k :| 0 <= k < |order[1..]| && order[1..][k] == y;
    assert order[k + 1] == y;
  }

  lemma {:induction false} ClaimableInOrder(b: Board, order: seq<string>, p: Priority, now: int, i: int, j: int)
    requires 0 <= i < j < |ClaimableAt(b, order, p, now)|
    ensures Earlier(order, ClaimableAt(b, order, p, now)[i], ClaimableAt(b, order, p, now)[j])
  {
    var all, rest := ClaimableAt(b, order, p, now), ClaimableAt(b, order[1..], p, now);
    if Claimable(b, order[0], now) && b.tasks[order[0]].priority == p {
      assert all[j] == rest[j - 1] && all[j] in rest;
      if i > 0 {
        ClaimableInOrder(b, order[1..], p, now, i - 1, j - 1);
        EarlierInRest(order, all[i], all[j]);
      } else {
        FirstIsEarlier(order, all[j]);
      }
    } else {
      ClaimableInOrder(b, order[1..], p, now, i, j);
      EarlierInRest(order, all[i], all[j]);
    }
  }

  lemma ClaimableOrdered(b: Board, p: Priority, now: int)
    ensures Ordered(b, ClaimableAt(b, b.order, p, now))
    ensures forall id <- ClaimableAt(b, b.order, p, now) :: id in b.tasks && b.tasks[id].priority == p
  {
    var ids := ClaimableAt(b, b.order, p, now);
    forall i, j | 0 <= i < j < |ids|
      ensures ids[i] in ids && ids[j] in ids && Precedes(b, ids[i], ids[j])
    {
      ClaimableInOrder(b, b.order, p, now, i, j);
      assert ids[i] in ids && ids[j] in ids;
    }
  }

  lemma JoinOrdered(b: Board, xs: seq<string>, ys: seq<string>)
    requires Ordered(b, xs) && Ordered(b, ys) && forall x <- xs, y <- ys :: Precedes(b, x, y)
    ensures Ordered(b, xs + ys)
  {
    forall i, j | 0 <= i < j < |xs + ys|
      ensures Precedes(b, (xs + ys)[i], (xs + ys)[j])
    {
      if i < |xs| <= j {
        assert xs[i] in xs && ys[j - |xs|] in ys;
      }
    }
  }

  /** Each task of the claim queue precedes those behind it. */
  lemma QueueOrdered(b: Board, now: int)
    ensures Ordered(b, ClaimOrder(b, now))
  {
    var u, h := ClaimableAt(b, b.order, Urgent, now), ClaimableAt(b, b.order, High, now);
    var m, l := ClaimableAt(b, b.order, Medium, now), ClaimableAt(b, b.order, Low, now);
    ClaimableOrdered(b, Urgent, now);
    ClaimableOrdered(b, High, now);
    ClaimableOrdered(b, Medium, now);
    ClaimableOrdered(b, Low, now);
    JoinOrdered(b, u, h);
    JoinOrdered(b, u + h, m);
    JoinOrdered(b, u + h + m, l);
  }

  lemma QueueMembers(b: Board, now: int, id: string)
    ensures id in ClaimOrder(b, now) <==> id in b.order && Claimable(b, id, now)
  {
    if id in b.tasks {
      match b.tasks[id].priority
      case Urgent =>
      case High =>
      case Medium =>
      case Low =>
    }
  }

  /** READY, in a flow that runs or is about to, and not under a claim that still holds. */
  predicate Available(b: Board, id: string, now: int) {
    && id in b.tasks && b.tasks[id].status == Ready && b.tasks[id].flow in b.flows
    && b.flows[b.tasks[id].flow] in {FlowRunning, FlowQueued}
    && (id !in b.claims || b.claims[id].leaseUntil < now)
  }

  lemma PickedAreAvailable(b: Board, env: Env, x: string)
    requires x in Picks(b, env)
    ensures Available(b, x, env.now)
  {
    assert Claimable(b, x, env.now);
  }

  /** A cycle starts as many tasks as there are free places and claimable tasks; and no
      claimable task is passed over for one it precedes. */
  lemma UrgentFirst(b: Board, env: Env, x: string, y: string)
    requires Keyed(b) && x in b.tasks && y in b.tasks && Available(b, x, env.now) && Precedes(b, x, y)
    requires y in Picks(b, env)
    ensures x in Picks(b, env) && |Picks(b, env)| <= env.maxWorkers - |RunningIds(b)|
  {
    var q, picks := ClaimOrder(b, env.now), Picks(b, env);
    QueueMembers(b, env.now, x);
    var i :| 0 <= i < |q| && q[i] == x;
    var j :| 0 <= j < |picks| && picks[j] == y;
    assert picks == q[..|picks|];
    if i >= |picks| {
      QueueOrdered(b, env.now);
      NeverBoth(b, x, y);
    }
  }

  lemma NeverBoth(b: Board, x: string, y: string)
    requires Keyed(b) && x in b.tasks && y in b.tasks && Precedes(b, x, y)
    ensures !Precedes(b, y, x)
  {
  }

  lemma FreePlacesUsed(b: Board, env: Env, x: string)
    requires Keyed(b) && Available(b, x, env.now) && x !in Picks(b, env)
    ensures |Picks(b, env)| >= env.maxWorkers - |RunningIds(b)|
  {
    QueueMembers(b, env.now, x);
  }

  // ---------------------------------------------------------------- what a flow is called

  predicate Any(b: Board, flow: string, statuses: set<TaskStatus>) {
    exists id <- b.tasks :: b.tasks[id].flow == flow && b.tasks[id].status in statuses
  }

  predicate Every(b: Board, flow: string, statuses: set<TaskStatus>) {
    forall id <- b.tasks :: b.tasks[id].flow == flow ==> b.tasks[id].status in statuses
  }

  /** The status a flow's tasks call for. */
  ghost predicate CalledFor(b: Board, f: string, verdict: FlowStatus) {
    && (verdict == FlowSucceeded <==> Every(b, f, {Done, Archived}))
    && (verdict == FlowRunning <==> Any(b, f, {Running, Ready}))
    && (verdict == FlowFailed <==> Any(b, f, {Failed}) && !Any(b, f, {Running, Ready}))
    && (verdict == FlowBlocked <==> Any(b, f, {Blocked}) && !Any(b, f, {Running, Ready, Failed}))
    && (verdict == FlowWaiting <==>
        Any(b, f, {Todo, Triage, Cancelled}) && !Any(b, f, {Running, Ready, Failed, Blocked}))
  }

  lemma VerdictCalledFor(b: Board, f: string)
    requires HasTasks(b, f)
    ensures CalledFor(b, f, Verdict(b, f))
  {
    var id :| id in b.tasks && b.tasks[id].flow == f;
    assert AllIn(b, f, {Done, Archived}) <==> Every(b, f, {Done, Archived});
    assert HasStatus(b, f, Running) || HasStatus(b, f, Ready) <==> Any(b, f, {Running, Ready});
    assert HasStatus(b, f, Failed) <==> Any(b, f, {Failed});
    assert HasStatus(b, f, Blocked) <==> Any(b, f, {Blocked});
  }

  /** As far as naming flow f goes, b' has the same tasks and the same right to be named. */
  ghost predicate SameCase(b: Board, b': Board, f: string) {
    && f in b.flows && f in b'.flows && (HasTasks(b', f) <==> HasTasks(b, f))
    && (Terminal(b'.flows[f]) <==> Terminal(b.flows[f]))
    && (Terminal(b.flows[f]) || !HasTasks(b, f) ==> b'.flows[f] == b.flows[f])
  }

  lemma SameTasksSameCase(b: Board, b': Board, f: string)
    requires f in b.flows && b'.flows == b.flows && b'.tasks.Keys == b.tasks.Keys
    requires forall x <- b.tasks :: b'.tasks[x].flow == b.tasks[x].flow
    ensures SameCase(b, b', f)
  {
  }

  lemma DispatchSameCase(p: Board, env: Env, f: string)
    requires f in p.flows
    ensures SameCase(p, Dispatch(p, env), f)
  {
    var d := Dispatch(p, env);
    if id :| id in p.tasks && p.tasks[id].flow == f {
      assert d.tasks[id].flow == f;
    }
  }

  lemma JudgedOutcome(b: Board, d: Board, f: string)
    requires SameCase(b, d, f)
    ensures var b' := EvaluateFlows(d);
            && f in b'.flows
            && if Terminal(b.flows[f]) || !HasTasks(b, f) then b'.flows[f] == b.flows[f]
               else CalledFor(b', f, b'.flows[f])
  {
    if HasTasks(d, f) {
      VerdictCalledFor(d, f);
      SameTasksCalledFor(d, EvaluateFlows(d), f, Verdict(d, f));
    }
  }

  lemma SameTasksCalledFor(d: Board, b': Board, f: string, verdict: FlowStatus)
    requires b'.tasks == d.tasks && CalledFor(d, f, verdict)
    ensures CalledFor(b', f, verdict)
  {
  }

  /** What a cycle that does not stop calls a flow: a closed one, or one without tasks, what it was
      called; any other what its tasks call for as the cycle leaves them. */
  lemma FlowOutcome(b: Board, env: Env, f: string)
    requires Keyed(b) && !Tick(b, env).raised && f in b.flows
    ensures var b' := Tick(b, env).board;
            && f in b'.flows
            && if b.flows[f] in {FlowSucceeded, FlowFailed, FlowCancelled} || !HasTasks(b, f)
               then b'.flows[f] == b.flows[f] else CalledFor(b', f, b'.flows[f])
  {
    var r := Reconciled(b, env).board;
    ReconcileLeaves(b, RunningIds(b), env);
    SameTasksSameCase(b, r, f);
    SameTasksSameCase(r, PromoteAll(r), f);
    DispatchSameCase(PromoteAll(r), env, f);
    var d := Dispatch(PromoteAll(r), env);
    SameCaseJoin(b, r, PromoteAll(r), d, f);
    JudgedOutcome(b, d, f);
  }

  lemma SameCaseJoin(b: Board, r: Board, p: Board, d: Board, f: string)
    requires SameCase(b, r, f) && SameCase(r, p, f) && SameCase(p, d, f)
    ensures SameCase(b, d, f)
  {
  }
}
