/**
 Dispatcher cycles taken apart at their awaits: several cycles at once, with edits, interventions
 and crashes between the submission of one run and the next.
 */
module DispatcherAwaits {
  import opened Wrappers
  import opened TaskBoard
  import opened Dispatcher
  import opened DispatcherRuns
  import opened DispatcherHistories
  import TaskFlow

  // The tasks a cycle has claimed and not yet started; the run of the first is being submitted,
  // and opening says that its flow was seen QUEUED, WAITING or BLOCKED before that.
  datatype Flight = Flight(ids: seq<string>, opening: bool)

  datatype State = State(board: Board, flights: seq<Flight>)

  datatype Step =
    | Change(e: Event)
    | Begin(cycle: nat, env: Env)
    | Submitted(cycle: nat, ok: bool)
    | Crash

  const Landed := Flight([], false)

  predicate Opening(b: Board, ids: seq<string>) {
    && ids != [] && ids[0] in b.tasks && b.tasks[ids[0]].flow in b.flows
    && var status := b.flows[b.tasks[ids[0]].flow];
       status.FlowQueued? || status.FlowWaiting? || status.FlowBlocked?
  }

  function ClaimAll(b: Board, ids: seq<string>, env: Env): Board {
    b.(tasks := map id <- b.tasks ::
         if id in ids then b.tasks[id].(status := TaskStatus.Running) else b.tasks[id],
       claims := map id <- b.claims.Keys + (set id <- ids) ::
         if id in ids then Claim(env.owner, env.leaseUntil) else b.claims[id])
  }

  /** The attempt is recorded, and the flow is RUNNING if it was seen to be opening. */
  function Recorded(b: Board, id: string, opening: bool): Board
    requires id in b.tasks
  {
    var t := b.tasks[id];
    b.(tasks := b.tasks[id := t.(attempts := t.attempts + 1)],
       flows := if opening && t.flow in b.flows then b.flows[t.flow := FlowRunning] else b.flows)
  }

  function Ended(b: Board, f: Flight, ok: bool): Board
    requires f.ids != [] && f.ids[0] in b.tasks
  {
    if ok then Recorded(b, f.ids[0], f.opening) else SetStatus(Release(b, f.ids[0]), f.ids[0], Ready)
  }

  predicate Enabled(s: State, a: Step) {
    match a
    case Change(e) => !e.Cycle?
    case Begin(k, _) => k < |s.flights| && s.flights[k].ids == []
    case Submitted(k, _) => k < |s.flights| && s.flights[k].ids != [] && s.flights[k].ids[0] in s.board.tasks
    case Crash => true
  }

  /** A cycle up to its first await. */
  function Take(s: State, k: nat, env: Env): State
    requires k < |s.flights|
  {
    var r := Reconciled(s.board, env);
    if r.raised then State(r.board, s.flights) else TakeUp(PromoteAll(r.board), s.flights, k, env)
  }

  function TakeUp(p: Board, flights: seq<Flight>, k: nat, env: Env): State
    requires k < |flights|
  {
    var ids, c := Picks(p, env), ClaimAll(p, Picks(p, env), env);
    if ids == [] then State(EvaluateFlows(p), flights) else State(c, flights[k := Flight(ids, Opening(c, ids))])
  }

  /** From the end of one submission to the next one's await, or to the end of the cycle. */
  function Land(s: State, k: nat, ok: bool): State
    requires k < |s.flights| && s.flights[k].ids != [] && s.flights[k].ids[0] in s.board.tasks
  {
    var b, rest := Ended(s.board, s.flights[k], ok), s.flights[k].ids[1..];
    if rest == [] then State(EvaluateFlows(b), s.flights[k := Landed])
    else State(b, s.flights[k := Flight(rest, Opening(b, rest))])
  }

  ghost function Next(s: State, a: Step): State
    requires Enabled(s, a)
  {
    match a
    case Change(e) => s.(board := Play(s.board, e))
    case Begin(k, env) => Take(s, k, env)
    case Submitted(k, ok) => Land(s, k, ok)
    case Crash => s.(flights := seq(|s.flights|, _ => Landed))
  }

  ghost predicate IsRun(ss: seq<State>, steps: seq<Step>) {
    |ss| == |steps| + 1 && forall i :: StepAt(ss, steps, i)
  }

  ghost predicate StepAt(ss: seq<State>, steps: seq<Step>, i: int)
    requires |ss| == |steps| + 1
  {
    0 <= i < |steps| ==> Leads(ss[i], steps[i], ss[i + 1])
  }

  ghost predicate Leads(s: State, a: Step, s': State) {
    Enabled(s, a) && (a.Change? ==> Fresh(s.board, a.e)) && s' == Next(s, a)
  }

  // ---------------------------------------------------------------- undisturbed, it is the cycle

  /** The submissions of one cycle, with nothing in between. */
  function Finish(s: State, k: nat, env: Env): State
    requires k < |s.flights| && forall id <- s.flights[k].ids :: id in s.board.tasks
    decreases if k < |s.flights| then |s.flights[k].ids| else 0
  {
    if s.flights[k].ids == [] then s
    else
      var next := Land(s, k, s.flights[k].ids[0] in env.spawns);
      Finish(next, k, env)
  }

  lemma ClaimsAreHalfDone(b: Board, ids: seq<string>, env: Env)
    requires forall id <- ids :: id in b.tasks
    ensures TaskFlow.PartDispatched(b, ClaimAll(b, ids, env), env, TaskFlow.Prefix(ids, |ids|), {})
  {
    assert ids[..|ids|] == ids;
  }

  ghost predicate PartWay(p: Board, s: State, k: nat, env: Env, i: nat) {
    var picks := Picks(p, env);
    && k < |s.flights| && i < |picks|
    && TaskFlow.PartDispatched(p, s.board, env, TaskFlow.Prefix(picks, |picks|), TaskFlow.Prefix(picks, i))
    && s.flights[k] == Flight(picks[i..], Opening(s.board, picks[i..]))
  }

  lemma EndedIsSpawned(b: Board, f: Flight, env: Env)
    requires f.ids != [] && f.ids[0] in b.tasks && f.opening == Opening(b, f.ids)
    ensures Ended(b, f, f.ids[0] in env.spawns) == TaskFlow.Spawned(b, f.ids[0], env)
  {
  }

  /** One submission on the way. */
  lemma LandStep(p: Board, s: State, k: nat, env: Env, i: nat) returns (b: Board)
    requires NoDuplicates(p.order) && PartWay(p, s, k, env, i)
    ensures var picks := Picks(p, env); var ids := s.flights[k].ids;
            && ids == picks[i..] && ids[0] in s.board.tasks && b == Ended(s.board, s.flights[k], ids[0] in env.spawns)
            && TaskFlow.PartDispatched(p, b, env, TaskFlow.Prefix(picks, |picks|), TaskFlow.Prefix(picks, i + 1))
  {
    var picks := Picks(p, env);
    PicksDistinct(p, env);
    TaskFlow.PrefixGrows(picks, i);
    assert picks[i..][0] == picks[i] && Claimable(p, picks[i], env.now);
    EndedIsSpawned(s.board, s.flights[k], env);
    TaskFlow.SpawnedStep(p, s.board, env, TaskFlow.Prefix(picks, |picks|), TaskFlow.Prefix(picks, i), picks[i]);
    b := TaskFlow.Spawned(s.board, picks[i], env);
  }

  lemma PartWayKnown(p: Board, s: State, k: nat, env: Env, i: nat)
    requires PartWay(p, s, k, env, i)
    ensures forall id <- s.flights[k].ids :: id in s.board.tasks
  {
    var picks := Picks(p, env);
    forall id <- picks[i..]
      ensures id in s.board.tasks
    {
      assert Claimable(p, id, env.now);
    }
  }

  lemma {:induction false} FinishDispatches(p: Board, s: State, k: nat, env: Env, i: nat)
    requires NoDuplicates(p.order) && PartWay(p, s, k, env, i)
    ensures forall id <- s.flights[k].ids :: id in s.board.tasks
    ensures Finish(s, k, env) == State(EvaluateFlows(Dispatch(p, env)), s.flights[k := Landed])
    decreases |Picks(p, env)| - i
  {
    var picks := Picks(p, env);
    PartWayKnown(p, s, k, env, i);
    var b := LandStep(p, s, k, env, i);
    assert picks[i..][1..] == picks[i + 1..];
    var next := Land(s, k, picks[i] in env.spawns);
    assert next.flights[k := Landed] == s.flights[k := Landed];
    if i + 1 == |picks| {
      TaskFlow.AllDispatched(p, b, env, TaskFlow.Prefix(picks, |picks|));
    } else {
      FinishDispatches(p, next, k, env, i + 1);
    }
  }

  /** A cycle with nothing between its awaits does what the cycle analysed as one step does. */
  lemma UndisturbedIsTick(s: State, k: nat, env: Env)
    requires Keyed(s.board) && k < |s.flights| && s.flights[k] == Landed
    ensures forall id <- Take(s, k, env).flights[k].ids :: id in Take(s, k, env).board.tasks
    ensures Finish(Take(s, k, env), k, env) == State(Tick(s.board, env).board, s.flights)
  {
    var r := Reconciled(s.board, env);
    assert s.flights[k := Landed] == s.flights;
    if !r.raised {
      ReconcileLeaves(s.board, WithStatusIds(s.board, s.board.order, Running), env);
      TakeUpFinishes(PromoteAll(r.board), s.flights, k, env);
    }
  }

  lemma TakeUpFinishes(p: Board, flights: seq<Flight>, k: nat, env: Env)
    requires NoDuplicates(p.order) && k < |flights| && flights[k] == Landed
    ensures forall id <- TakeUp(p, flights, k, env).flights[k].ids :: id in TakeUp(p, flights, k, env).board.tasks
    ensures Finish(TakeUp(p, flights, k, env), k, env) == State(EvaluateFlows(Dispatch(p, env)), flights)
  {
    var t := TakeUp(p, flights, k, env);
    if Picks(p, env) == [] {
      DispatchOfNone(p, env);
    } else {
      TakeUpIsPartWay(p, flights, k, env, t);
      FinishDispatches(p, t, k, env, 0);
      assert t.flights[k := Landed] == flights;
    }
  }

  lemma TakeUpIsPartWay(p: Board, flights: seq<Flight>, k: nat, env: Env, t: State)
    requires k < |flights| && Picks(p, env) != [] && t == TakeUp(p, flights, k, env)
    ensures PartWay(p, t, k, env, 0)
  {
    var picks := Picks(p, env);
    forall id <- picks
      ensures id in p.tasks
    {
      assert Claimable(p, id, env.now);
    }
    ClaimsAreHalfDone(p, picks, env);
    assert picks[0..] == picks && TaskFlow.Prefix(picks, 0) == {};
  }

  lemma DispatchOfNone(b: Board, env: Env)
    requires Picks(b, env) == []
    ensures Dispatch(b, env) == b
  {
    var d := Dispatch(b, env);
    assert d.tasks == b.tasks && d.claims == b.claims && d.flows == b.flows;
  }

  // ---------------------------------------------------------------- one hand for each task

  ghost predicate InHand(flights: seq<Flight>, id: string) {
    exists k :: 0 <= k < |flights| && id in flights[k].ids
  }

  ghost predicate Apart(flights: seq<Flight>) {
    && (forall k :: 0 <= k < |flights| ==> NoDuplicates(flights[k].ids))
    && forall k, l, id :: 0 <= k < l < |flights| && id in flights[k].ids ==> id !in flights[l].ids
  }

  /** A claimed task is RUNNING and has an attempt left. */
  ghost predicate Startable(b: Board, id: string) {
    id in b.tasks && b.tasks[id].status.Running? && b.tasks[id].attempts < Limit(b.tasks[id])
  }

  /** Attempts are within their limits, and each task that is being started is RUNNING, has an
      attempt left, and is in one cycle's hands only. */
  ghost predicate InOrder(s: State) {
    && Orderly(s.board) && Apart(s.flights)
    && forall id :: InHand(s.flights, id) ==> Startable(s.board, id)
  }

  /** What reconciling leaves alone: a claim without an attempt whose lease runs, or an attempt
      whose run is under way or cannot be recorded. */
  predicate Quiet(b: Board, id: string, env: Env)
    requires id in b.tasks
  {
    if b.tasks[id].attempts == 0 then id in b.claims ==> b.claims[id].leaseUntil >= env.now
    else env.reports(id).Unfinished? || env.reports(id).EndedOrphaned?
  }

  /** Reconciling comes to this one: no run listed before it stops the cycle. */
  ghost predicate Reached(b: Board, ids: seq<string>, id: string, env: Env) {
    exists j :: 0 <= j < |ids| && ids[j] == id && forall i :: 0 <= i < j ==> !Wedges(b, ids[i], env)
  }

  /** A second cycle reconciles a task that another one is just starting, or someone intervenes
      in it, or puts a used-up task back to work. */
  ghost predicate Disturbs(s: State, a: Step) {
    match a
    case Change(e) => Overruns(s.board, e) || (ByHand(s.board, e) && InHand(s.flights, e.id))
    case Begin(_, env) =>
      exists id :: InHand(s.flights, id) && id in s.board.tasks && !Quiet(s.board, id, env)
        && Reached(s.board, WithStatusIds(s.board, s.board.order, Running), id, env)
    case _ => false
  }

  /** What reconciling one task does to another. */
  ghost predicate Spares(b: Board, b': Board, x: string)
    requires x in b.tasks
  {
    && x in b'.tasks && (x in b'.claims <==> x in b.claims) && (x in b.claims ==> b'.claims[x] == b.claims[x])
    && (b.tasks[x].status.Running? ==> b'.tasks[x] == b.tasks[x])
    && (b'.tasks[x].status.Running? ==> b.tasks[x].status.Running?)
  }

  lemma FailTaskSpares(b: Board, id: string, x: string)
    requires id in b.tasks && x in b.tasks && x != id
    ensures Spares(b, FailTask(b, id), x)
  {
  }

  lemma CompletedSpares(b: Board, id: string, x: string)
    requires id in b.tasks && x in b.tasks && x != id
    ensures Spares(b, PromoteFlow(SetStatus(Release(b, id), id, Done), b.tasks[id].flow), x)
  {
  }

  lemma ReconcileSpares(b: Board, id: string, env: Env, x: string)
    requires id in b.tasks && x in b.tasks && x != id
    ensures Spares(b, ReconcileTask(b, id, env).board, x)
  {
    if b.tasks[id].attempts != 0 {
      match env.reports(id)
      case Completed => CompletedSpares(b, id, x);
      case SaysFailed => FailTaskSpares(b, id, x);
      case EndedFailed => FailTaskSpares(b, id, x);
      case EndedCancelled => FailTaskSpares(b, id, x);
      case EndedInterrupted => FailTaskSpares(b, id, x);
      case _ =>
    }
  }

  lemma QuietIff(b: Board, id: string, env: Env)
    requires id in b.tasks && b.tasks[id].status.Running?
    ensures var b' := ReconcileTask(b, id, env).board;
            && id in b'.tasks
            && if Quiet(b, id, env) then b'.tasks[id] == b.tasks[id] else !b'.tasks[id].status.Running?
  {
  }

  /** What becomes of one running task in a reconciliation. */
  lemma {:induction false} ReconcileFate(b: Board, ids: seq<string>, env: Env, id: string)
    requires NoDuplicates(ids) && forall x <- ids :: x in b.tasks && b.tasks[x].status.Running?
    requires id in b.tasks && b.tasks[id].status.Running?
    ensures var b' := ReconcileAll(b, ids, env).board;
            if Reached(b, ids, id, env) && !Quiet(b, id, env) then !b'.tasks[id].status.Running?
               else b'.tasks[id] == b.tasks[id]
    ensures id !in ids ==> Spares(b, ReconcileAll(b, ids, env).board, id)
  {
    if ids != [] {
      var init, last := ids[..|ids| - 1], ids[|ids| - 1];
      var before := ReconcileAll(b, init, env);
      ReconcileFate(b, init, env, id);
      ReconcileRaisesIff(b, init, env);
      ReachedGrows(b, ids, id, env);
      if !before.raised {
        if id == last {
          QuietIff(before.board, id, env);
        } else {
          ReconcileSpares(before.board, last, env, id);
        }
      }
    }
  }

  lemma ReachedGrows(b: Board, ids: seq<string>, id: string, env: Env)
    requires ids != [] && NoDuplicates(ids)
    ensures var init, last := ids[..|ids| - 1], ids[|ids| - 1];
            && (id != last ==> (Reached(b, ids, id, env) <==> Reached(b, init, id, env)))
            && (id == last ==> id !in init && (Reached(b, ids, id, env) <==> forall x <- init :: !Wedges(b, x, env)))
  {
    var init, last := ids[..|ids| - 1], ids[|ids| - 1];
    if Reached(b, init, id, env) {
      var j :| 0 <= j < |init| && init[j] == id && forall i :: 0 <= i < j ==> !Wedges(b, init[i], env);
      assert ids[j] == id && forall i :: 0 <= i < j ==> ids[i] == init[i];
    }
    if Reached(b, ids, id, env) {
      var j :| 0 <= j < |ids| && ids[j] == id && forall i :: 0 <= i < j ==> !Wedges(b, ids[i], env);
      assert forall i :: 0 <= i < j ==> init[i] == ids[i];
      assert j < |init| ==> init[j] == id;
    }
    if id == last && forall x <- init :: !Wedges(b, x, env) {
      assert forall i :: 0 <= i < |ids| - 1 ==> ids[i] == init[i] && init[i] in init;
      assert ids[|ids| - 1] == id;
    }
  }

  // ---------------------------------------------------------------- step by step

  lemma EditSparesRunning(b: Board, op: Op, id: string)
    requires NewIds(b, op) && id in b.tasks && b.tasks[id].status.Running?
    ensures id in Apply(b, op).tasks && Apply(b, op).tasks[id] == b.tasks[id]
  {
  }

  lemma ByHandStops(b: Board, e: Event)
    requires ByHand(b, e) && b.tasks[e.id].status.Running?
    ensures !Startable(Play(b, e), e.id)
  {
  }

  lemma ByHandSparesOthers(b: Board, e: Event, id: string)
    requires (e.Block? || e.Unblock? || e.Retry?) && id in b.tasks && (ByHand(b, e) ==> id != e.id)
    ensures id in Play(b, e).tasks && Play(b, e).tasks[id] == b.tasks[id]
  {
  }

  lemma ChangeIff(s: State, e: Event)
    requires InOrder(s) && !e.Cycle? && Fresh(s.board, e)
    ensures InOrder(s.(board := Play(s.board, e))) <==> !Disturbs(s, Change(e))
  {
    var b := Play(s.board, e);
    EventKeepsOrderlyIff(s.board, e);
    if ByHand(s.board, e) && InHand(s.flights, e.id) {
      ByHandStops(s.board, e);
    } else {
      forall id | InHand(s.flights, id)
        ensures Startable(b, id)
      {
        if e.Edit? {
          EditSparesRunning(s.board, e.op, id);
        } else {
          ByHandSparesOthers(s.board, e, id);
        }
      }
    }
  }

  lemma ClaimAllKeeps(p: Board, ids: seq<string>, env: Env)
    requires Orderly(p) && forall id <- ids :: Claimable(p, id, env.now)
    ensures Orderly(ClaimAll(p, ids, env)) && forall id <- ids :: Startable(ClaimAll(p, ids, env), id)
    ensures forall id <- p.tasks :: id !in ids ==> ClaimAll(p, ids, env).tasks[id] == p.tasks[id]
  {
  }

  /** The new cycle's tasks beside those in other hands. */
  lemma TakenApart(flights: seq<Flight>, k: nat, f: Flight)
    requires Apart(flights) && k < |flights| && flights[k].ids == []
    requires NoDuplicates(f.ids) && forall id <- f.ids :: !InHand(flights, id)
    ensures Apart(flights[k := f])
    ensures forall id :: InHand(flights[k := f], id) <==> InHand(flights, id) || id in f.ids
  {
    var after := flights[k := f];
    forall id
      ensures InHand(after, id) <==> InHand(flights, id) || id in f.ids
    {
      if InHand(flights, id) {
        var l :| 0 <= l < |flights| && id in flights[l].ids;
        assert id in after[l].ids;
      }
      if id in f.ids {
        assert id in after[k].ids;
      }
    }
  }

  lemma TakeUpKeeps(p: Board, flights: seq<Flight>, k: nat, env: Env)
    requires InOrder(State(p, flights)) && k < |flights| && flights[k].ids == []
    ensures InOrder(TakeUp(p, flights, k, env))
  {
    var ids := Picks(p, env);
    if ids == [] {
      EvaluateFlowsProgress(p);
    } else {
      PicksDistinct(p, env);
      ClaimAllKeeps(p, ids, env);
      forall id <- ids
        ensures !InHand(flights, id)
      {
        assert Claimable(p, id, env.now);
      }
      TakenApart(flights, k, Flight(ids, Opening(ClaimAll(p, ids, env), ids)));
      forall id | InHand(flights, id)
        ensures Startable(ClaimAll(p, ids, env), id)
      {
        assert id in ids ==> Claimable(p, id, env.now);
      }
    }
  }

  /** A task in some hands that is no longer RUNNING: out of order, picked anew or not. */
  lemma TakeUpSpoils(p: Board, flights: seq<Flight>, k: nat, env: Env, id: string)
    requires k < |flights| && flights[k].ids == [] && InHand(flights, id)
    requires id in p.tasks && !p.tasks[id].status.Running?
    ensures !InOrder(TakeUp(p, flights, k, env))
  {
    var t := TakeUp(p, flights, k, env);
    var l :| 0 <= l < |flights| && id in flights[l].ids;
    assert l != k && t.flights[l] == flights[l];
    if id in Picks(p, env) {
      assert id in t.flights[k].ids && id in t.flights[l].ids;
    } else {
      assert InHand(t.flights, id) && !Startable(t.board, id);
    }
  }

  lemma ReconciledInHand(s: State, env: Env, id: string)
    requires InOrder(s) && InHand(s.flights, id)
    ensures id in Reconciled(s.board, env).board.tasks
    ensures var t := Reconciled(s.board, env).board.tasks[id];
            if !Quiet(s.board, id, env) && Reached(s.board, WithStatusIds(s.board, s.board.order, Running), id, env)
            then !t.status.Running? else t == s.board.tasks[id]
  {
    ReconcileFate(s.board, WithStatusIds(s.board, s.board.order, Running), env, id);
  }

  lemma PromoteSparesRunning(b: Board, id: string)
    requires id in b.tasks
    ensures var t := PromoteAll(b).tasks[id];
            (b.tasks[id].status.Running? ==> t == b.tasks[id])
            && (t.status.Running? ==> b.tasks[id].status.Running?)
  {
  }

  lemma BeginKeeps(s: State, k: nat, env: Env)
    requires InOrder(s) && Enabled(s, Begin(k, env)) && !Disturbs(s, Begin(k, env))
    ensures InOrder(Take(s, k, env))
  {
    var r := Reconciled(s.board, env);
    ReconcileAllProgress(s.board, WithStatusIds(s.board, s.board.order, Running), env);
    forall id | InHand(s.flights, id)
      ensures Startable(r.board, id) && (!r.raised ==> Startable(PromoteAll(r.board), id))
    {
      ReconciledInHand(s, env, id);
      PromoteSparesRunning(r.board, id);
    }
    if !r.raised {
      PromoteAllProgress(r.board);
      TakeUpKeeps(PromoteAll(r.board), s.flights, k, env);
    }
  }

  lemma BeginSpoils(s: State, k: nat, env: Env, id: string)
    requires InOrder(s) && Enabled(s, Begin(k, env)) && InHand(s.flights, id) && !Quiet(s.board, id, env)
    requires Reached(s.board, WithStatusIds(s.board, s.board.order, Running), id, env)
    ensures !InOrder(Take(s, k, env))
  {
    var r := Reconciled(s.board, env);
    ReconciledInHand(s, env, id);
    if r.raised {
      assert !Startable(r.board, id);
    } else {
      PromoteSparesRunning(r.board, id);
      TakeUpSpoils(PromoteAll(r.board), s.flights, k, env, id);
    }
  }

  lemma EndedKeeps(b: Board, f: Flight, ok: bool)
    requires Orderly(b) && f.ids != [] && Startable(b, f.ids[0])
    ensures Orderly(Ended(b, f, ok))
    ensures forall id <- b.tasks :: id != f.ids[0] ==> Ended(b, f, ok).tasks[id] == b.tasks[id]
  {
  }

  lemma LandKeeps(s: State, k: nat, ok: bool)
    requires InOrder(s) && Enabled(s, Submitted(k, ok))
    ensures InOrder(Land(s, k, ok))
  {
    var f := s.flights[k];
    var b, rest := Ended(s.board, f, ok), f.ids[1..];
    assert f.ids[0] in f.ids && InHand(s.flights, f.ids[0]);
    EndedKeeps(s.board, f, ok);
    EvaluateFlowsProgress(b);
    var g := if rest == [] then Landed else Flight(rest, Opening(b, rest));
    HandsShrink(s.flights, k, g);
    forall id | InHand(s.flights[k := g], id)
      ensures Startable(b, id) && Startable(EvaluateFlows(b), id)
    {
      assert Startable(s.board, id);
    }
  }

  lemma HandsShrink(flights: seq<Flight>, k: nat, g: Flight)
    requires Apart(flights) && k < |flights| && flights[k].ids != [] && g.ids == flights[k].ids[1..]
    ensures Apart(flights[k := g])
    ensures forall id :: InHand(flights[k := g], id) ==> InHand(flights, id) && id != flights[k].ids[0]
  {
    var after := flights[k := g];
    assert forall i :: 0 <= i < |g.ids| ==> g.ids[i] == flights[k].ids[i + 1];
    assert forall id <- g.ids :: id in flights[k].ids;
    forall id | InHand(after, id)
      ensures InHand(flights, id) && id != flights[k].ids[0]
    {
      var l :| 0 <= l < |after| && id in after[l].ids;
      assert id in flights[l].ids && flights[k].ids[0] in flights[k].ids;
    }
  }

  /** Exactly when a step leaves everything in order. */
  lemma StepKeepsOrderIff(s: State, a: Step)
    requires InOrder(s) && Enabled(s, a) && (a.Change? ==> Fresh(s.board, a.e))
    ensures InOrder(Next(s, a)) <==> !Disturbs(s, a)
  {
    match a {
      case Change(e) => ChangeIff(s, e);
      case Begin(k, env) =>
        if Disturbs(s, a) {
          var id :| InHand(s.flights, id) && id in s.board.tasks && !Quiet(s.board, id, env)
            && Reached(s.board, WithStatusIds(s.board, s.board.order, Running), id, env);
          BeginSpoils(s, k, env, id);
        } else {
          BeginKeeps(s, k, env);
        }
      case Submitted(k, ok) => LandKeeps(s, k, ok);
      case Crash =>
    }
  }

  lemma OrderStep(ss: seq<State>, steps: seq<Step>, i: nat)
    requires IsRun(ss, steps) && i < |steps| && InOrder(ss[i])
    ensures InOrder(ss[i + 1]) <==> !Disturbs(ss[i], steps[i])
  {
    assert StepAt(ss, steps, i);
    StepKeepsOrderIff(ss[i], steps[i]);
  }

  lemma OrderSteps(ss: seq<State>, steps: seq<Step>) returns (holds: seq<bool>, bad: seq<bool>)
    requires IsRun(ss, steps)
    ensures |holds| == |ss| && forall k :: 0 <= k < |ss| ==> holds[k] == InOrder(ss[k])
    ensures |bad| == |steps| && forall i :: 0 <= i < |steps| ==> bad[i] == Disturbs(ss[i], steps[i])
    ensures forall i {:trigger bad[i]} :: 0 <= i < |bad| && holds[i] ==> (holds[i + 1] <==> !bad[i])
  {
    holds := seq(|ss|, k requires 0 <= k < |ss| => InOrder(ss[k]));
    bad := seq(|steps|, i requires 0 <= i < |steps| => Disturbs(ss[i], steps[i]));
    forall i | 0 <= i < |bad| && holds[i]
      ensures holds[i + 1] <==> !bad[i]
    {
      OrderStep(ss, steps, i);
    }
  }

  /** Over every interleaving of cycles, edits, interventions and crashes: attempts stay within
      their limits and each task being started stays RUNNING, with an attempt left and in one
      cycle's hands, throughout, exactly when no step disturbs such a task or puts a used-up one
      back to work. */
  lemma InterleavedCycles(ss: seq<State>, steps: seq<Step>)
    requires IsRun(ss, steps) && InOrder(ss[0])
    ensures (forall k :: 0 <= k < |ss| ==> InOrder(ss[k])) <==>
            (forall i :: 0 <= i < |steps| ==> !Disturbs(ss[i], steps[i]))
  {
    var holds, bad := OrderSteps(ss, steps);
    Throughout(holds, bad);
  }

  // ---------------------------------------------------------------- an instance

  function One(t: Task, claims: map<string, Claim>): Board {
    Board(["t"], map["t" := t], [], map["f" := FlowRunning], claims)
  }

  /** The second of two attempts; the first one's run has failed. */
  function Second(status: TaskStatus, attempts: nat): Task {
    Task("f", status, Medium, None, 2, attempts, None, 0)
  }

  function FailedEnv(): Env {
    Env(0, 10, "d", 1, _ => EndedFailed, {})
  }

  lemma OneIds(b: Board, status: TaskStatus)
    requires "t" in b.tasks
    ensures WithStatusIds(b, ["t"], status) == if b.tasks["t"].status == status then ["t"] else []
  {
    assert ["t"][1..] == [];
  }

  lemma OneReadyIsPicked(b: Board, env: Env)
    requires b == One(Second(Ready, 1), map[]) && env.maxWorkers == 1
    ensures Picks(b, env) == ["t"] && PromoteAll(b) == b
  {
    OneIds(b, Running);
    assert ["t"][1..] == [];
    assert ClaimableAt(b, ["t"], Medium, env.now) == ["t"];
    assert forall q :: q != Medium ==> ClaimableAt(b, ["t"], q, env.now) == [];
    assert PromoteAll(b).tasks == b.tasks;
  }

  lemma OneTaken(b: Board, flights: seq<Flight>, k: nat, env: Env)
    requires b == One(Second(Ready, 1), map[]) && k < |flights|
    requires env.maxWorkers == 1 && env.owner == "d" && env.leaseUntil == 10
    ensures TakeUp(PromoteAll(b), flights, k, env) ==
            State(One(Second(Running, 1), map["t" := Claim("d", 10)]), flights[k := Flight(["t"], false)])
  {
    OneReadyIsPicked(b, env);
    var c := ClaimAll(b, ["t"], env);
    assert c.tasks == map["t" := Second(Running, 1)];
    assert c.claims == map["t" := Claim("d", 10)];
  }

  lemma FirstBegins(s: State, env: Env)
    requires s == State(One(Second(Ready, 1), map[]), [Landed, Landed]) && env == FailedEnv()
    ensures Take(s, 0, env) ==
            State(One(Second(Running, 1), map["t" := Claim("d", 10)]), [Flight(["t"], false), Landed])
  {
    OneIds(s.board, Running);
    OneTaken(s.board, s.flights, 0, env);
  }

  lemma SecondBegins(s: State, env: Env)
    requires s == State(One(Second(Running, 1), map["t" := Claim("d", 10)]), [Flight(["t"], false), Landed])
    requires env == FailedEnv()
    ensures Take(s, 1, env) == State(s.board, [Flight(["t"], false), Flight(["t"], false)])
  {
    var ready := One(Second(Ready, 1), map[]);
    OneFails(s.board, env, ready);
    OneTaken(ready, s.flights, 1, env);
  }

  lemma OneFails(b: Board, env: Env, ready: Board)
    requires b == One(Second(Running, 1), map["t" := Claim("d", 10)]) && ready == One(Second(Ready, 1), map[])
    requires env.reports("t").EndedFailed?
    ensures Reconciled(b, env) == Outcome(ready, false)
  {
    OneIds(b, Running);
    assert FailTask(b, "t").tasks == ready.tasks && FailTask(b, "t").claims == map[];
    assert ["t"][..0] == [];
    assert ReconcileAll(b, ["t"], env) == ReconcileTask(b, "t", env);
    assert FailTask(b, "t") == ready;
  }

  lemma SecondDisturbs(s: State, env: Env)
    requires s.board == One(Second(Running, 1), map["t" := Claim("d", 10)]) && env.reports("t").EndedFailed?
    requires s.flights == [Flight(["t"], false), Landed]
    ensures Disturbs(s, Begin(1, env))
  {
    OneIds(s.board, Running);
    assert "t" in s.flights[0].ids && InHand(s.flights, "t");
    assert WithStatusIds(s.board, s.board.order, Running)[0] == "t";
  }

  lemma OneLands(s: State, k: nat, n: nat)
    requires s.board == One(Second(Running, n), map["t" := Claim("d", 10)])
    requires k < |s.flights| && s.flights[k] == Flight(["t"], false)
    ensures Land(s, k, true) == State(One(Second(Running, n + 1), map["t" := Claim("d", 10)]), s.flights[k := Landed])
  {
    var b := One(Second(Running, n + 1), map["t" := Claim("d", 10)]);
    assert b.tasks["t"].status.Running? && b.tasks["t"].flow == "f";
    assert HasStatus(b, "f", Running) && !AllIn(b, "f", {Done, Archived});
    assert EvaluateFlows(b).flows == b.flows;
    assert Ended(s.board, s.flights[k], true) == b;
    assert ["t"][1..] == [];
  }

  lemma OneStep(s: State, a: Step, s': State)
    requires Leads(s, a, s')
    ensures IsRun([s, s'], [a])
  {
    forall i
      ensures StepAt([s, s'], [a], i)
    {
      assert 0 <= i < 1 ==> i == 0;
    }
  }

  lemma RunsJoin(ss: seq<State>, steps: seq<Step>, ts: seq<State>, more: seq<Step>)
    requires IsRun(ss, steps) && IsRun(ts, more) && ss[|steps|] == ts[0]
    ensures IsRun(ss + ts[1..], steps + more)
  {
    forall i
      ensures StepAt(ss + ts[1..], steps + more, i)
    {
      if i < |steps| {
        assert StepAt(ss, steps, i);
      } else {
        assert StepAt(ts, more, i - |steps|);
      }
    }
  }

  lemma FourSteps(s0: State, s1: State, s2: State, s3: State, s4: State, a: Step, b: Step, c: Step, d: Step)
    requires IsRun([s0, s1], [a]) && IsRun([s1, s2], [b]) && IsRun([s2, s3], [c]) && IsRun([s3, s4], [d])
    ensures IsRun([s0, s1, s2, s3, s4], [a, b, c, d])
  {
    RunsJoin([s0, s1], [a], [s1, s2], [b]);
    assert [s0, s1] + [s1, s2][1..] == [s0, s1, s2] && [a] + [b] == [a, b];
    RunsJoin([s0, s1, s2], [a, b], [s2, s3], [c]);
    assert [s0, s1, s2] + [s2, s3][1..] == [s0, s1, s2, s3] && [a, b] + [c] == [a, b, c];
    RunsJoin([s0, s1, s2, s3], [a, b, c], [s3, s4], [d]);
    assert [s0, s1, s2, s3] + [s3, s4][1..] == [s0, s1, s2, s3, s4] && [a, b, c] + [d] == [a, b, c, d];
  }

  lemma TakeLeads(s: State, k: nat, env: Env, s': State)
    requires k < |s.flights| && s.flights[k].ids == [] && Take(s, k, env) == s'
    ensures IsRun([s, s'], [Begin(k, env)])
  {
    OneStep(s, Begin(k, env), s');
  }

  lemma FirstLeads(s0: State, s1: State) returns (env: Env)
    requires s0 == State(One(Second(Ready, 1), map[]), [Landed, Landed])
    requires s1 == State(One(Second(Running, 1), map["t" := Claim("d", 10)]), [Flight(["t"], false), Landed])
    ensures IsRun([s0, s1], [Begin(0, env)])
  {
    env := FailedEnv();
    FirstBegins(s0, env);
    TakeLeads(s0, 0, env, s1);
  }

  lemma SecondLeads(s1: State, s2: State) returns (env: Env)
    requires s1 == State(One(Second(Running, 1), map["t" := Claim("d", 10)]), [Flight(["t"], false), Landed])
    requires s2 == State(s1.board, [Flight(["t"], false), Flight(["t"], false)])
    ensures IsRun([s1, s2], [Begin(1, env)]) && Disturbs(s1, Begin(1, env))
  {
    env := FailedEnv();
    SecondBegins(s1, env);
    SecondDisturbs(s1, env);
    TakeLeads(s1, 1, env, s2);
  }

  lemma CyclesLand(s2: State, s3: State, s4: State)
    requires s2.board == One(Second(Running, 1), map["t" := Claim("d", 10)])
    requires s2.flights == [Flight(["t"], false), Flight(["t"], false)]
    requires s3 == State(One(Second(Running, 2), s2.board.claims), [Landed, Flight(["t"], false)])
    requires s4 == State(One(Second(Running, 3), s2.board.claims), [Landed, Landed])
    ensures IsRun([s2, s3], [Submitted(0, true)]) && IsRun([s3, s4], [Submitted(1, true)])
  {
    OneLands(s2, 0, 1);
    OneLands(s3, 1, 2);
    assert s2.flights[0 := Landed] == s3.flights && s3.flights[1 := Landed] == s4.flights;
    OneStep(s2, Submitted(0, true), s3);
    OneStep(s3, Submitted(1, true), s4);
  }

  lemma StartsInOrder(s: State)
    requires s == State(One(Second(Ready, 1), map[]), [Landed, Landed])
    ensures InOrder(s)
  {
  }

  /** Two cycles at once start the second attempt of a task twice: three attempts of two. */
  lemma TwoCyclesOverrun() returns (ss: seq<State>, first: Env, second: Env)
    ensures IsRun(ss, [Begin(0, first), Begin(1, second), Submitted(0, true), Submitted(1, true)])
    ensures ss[0].flights == [Landed, Landed] && InOrder(ss[0]) && Disturbs(ss[1], Begin(1, second))
    ensures "t" in ss[4].board.tasks && ss[4].board.tasks["t"].attempts == 3 && Limit(ss[4].board.tasks["t"]) == 2
  {
    var claims := map["t" := Claim("d", 10)];
    var held := Flight(["t"], false);
    var s0 := State(One(Second(Ready, 1), map[]), [Landed, Landed]);
    var s1 := State(One(Second(Running, 1), claims), [held, Landed]);
    var s2 := State(One(Second(Running, 1), claims), [held, held]);
    var s3 := State(One(Second(Running, 2), claims), [Landed, held]);
    var s4 := State(One(Second(Running, 3), claims), [Landed, Landed]);
    StartsInOrder(s0);
    first := FirstLeads(s0, s1);
    second := SecondLeads(s1, s2);
    CyclesLand(s2, s3, s4);
    ss := [s0, s1, s2, s3, s4];
    FourSteps(s0, s1, s2, s3, s4, Begin(0, first), Begin(1, second), Submitted(0, true), Submitted(1, true));
  }
}
