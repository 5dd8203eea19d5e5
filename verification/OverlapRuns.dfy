/**
 Ticks and run-now requests over all schedules, interleaved wherever the code awaits, with
 schedule edits, lease expiries, run changes and crashes.
 */
module OverlapRuns {
  import opened Text
  import opened Overlap

  // A pass in progress: the listing it read when it began, and where it waits.
  datatype Routine = Idle | Suspended(listing: seq<Schedule>, at: nat, point: Point)

  datatype State = State(schedules: seq<Schedule>, triggers: seq<Trigger>, runs: seq<RunStatus>,
                         routines: seq<Routine>)

  datatype Action =
    | Create(policy: Policy, prompt: string)
    | Update(schedule: nat, policy: Policy, prompt: string)
    | Toggle(schedule: nat, enabled: bool)
    | Arrive(trigger: Trigger)
    | Start(routine: nat, turn: Turn)
    | Resume(routine: nat, turn: Turn)
    | AwaitFails(routine: nat)
    | RunChanges(run: nat, status: RunStatus)
    | RecoverLeases(now: int)
    | SyncStates
    | Crash

  predicate Enabled(s: State, a: Action) {
    match a
    case Create(_, _) => true
    case Update(k, _, _) => k < |s.schedules|
    case Toggle(k, _) => k < |s.schedules|
    case Arrive(t) => t.schedule < |s.schedules| && t.run.None?
      && (t.phase == Pending || t.phase == Phase.Skipped || t.phase == Missed)
    case Start(k, _) => k < |s.routines| && s.routines[k].Idle?
    case Resume(k, _) => k < |s.routines| && s.routines[k].Suspended?
      && Held(s.routines[k].listing, |s.triggers|, s.routines[k].at, s.routines[k].point)
    case AwaitFails(k) => k < |s.routines| && s.routines[k].Suspended?
    case RunChanges(r, _) => r < |s.runs|
    case RecoverLeases(_) => true
    case SyncStates => true
    case Crash => true
  }

  /** The rows of a stretch take effect; its pass waits, is over, or dies with the process. */
  function Put(s: State, k: nat, listing: seq<Schedule>, x: Stretch, dies: bool): State
    requires k < |s.routines|
  {
    var routine := if x.point == Done || x.point == Raised then Idle else Suspended(listing, x.at, x.point);
    s.(triggers := x.triggers, runs := x.runs,
       routines := if dies then seq(|s.routines|, _ => Idle) else s.routines[k := routine])
  }

  /** The stretch that a step of some pass runs. */
  function StretchOf(s: State, a: Action): Stretch
    requires Enabled(s, a) && (a.Start? || a.Resume?)
  {
    if a.Start? then Walk(s.schedules, 0, s.triggers, s.runs, a.turn)
    else
      var r := s.routines[a.routine];
      Continue(r.listing, r.at, r.point, s.triggers, s.runs, a.turn)
  }

  function ListingOf(s: State, a: Action): seq<Schedule>
    requires Enabled(s, a) && (a.Start? || a.Resume?)
  {
    if a.Start? then s.schedules else s.routines[a.routine].listing
  }

  function Next(s: State, a: Action): State
    requires Enabled(s, a)
  {
    match a
    case Create(policy, prompt) =>
      if Blank(prompt) then s else s.(schedules := s.schedules + [Schedule(true, policy, Strip(prompt))])
    case Update(k, policy, prompt) =>
      s.(schedules := s.schedules[k := s.schedules[k].(policy := policy, prompt := Strip(prompt))],
         triggers := Each(t => SupersedeOne(t, k), s.triggers))
    case Toggle(k, enabled) => s.(schedules := s.schedules[k := s.schedules[k].(enabled := enabled)])
    case Arrive(t) => s.(triggers := s.triggers + [t])
    case Start(k, turn) => Put(s, k, ListingOf(s, a), StretchOf(s, a), turn.dies)
    case Resume(k, turn) => Put(s, k, ListingOf(s, a), StretchOf(s, a), turn.dies)
    case AwaitFails(k) => s.(routines := s.routines[k := Idle])
    case RunChanges(r, status) => s.(runs := s.runs[r := status])
    case RecoverLeases(now) => s.(triggers := Each(t => RecoverOne(t, now), s.triggers))
    case SyncStates => s.(triggers := Sync(s.triggers, s.runs))
    case Crash => s.(routines := seq(|s.routines|, _ => Idle))
  }

  ghost predicate IsRun(states: seq<State>, actions: seq<Action>) {
    && |states| == |actions| + 1
    && states[0].schedules == [] && states[0].triggers == [] && states[0].runs == []
    && (forall r <- states[0].routines :: r.Idle?)
    && forall i {:trigger actions[i]} :: 0 <= i < |actions| ==>
         Enabled(states[i], actions[i]) && states[i + 1] == Next(states[i], actions[i])
  }

  // ---------------------------------------------------------------- one at a time

  ghost predicate OneActive(ts: seq<Trigger>) {
    forall i, j :: 0 <= i < j < |ts| && ts[i].schedule == ts[j].schedule ==> !(Active(ts[i]) && Active(ts[j]))
  }

  /** No run serves two occurrences. */
  ghost predicate OwnRuns(ts: seq<Trigger>, n: nat) {
    && (forall i :: 0 <= i < |ts| && ts[i].run.Some? ==> ts[i].run.value < n)
    && (forall i, j :: 0 <= i < j < |ts| && ts[i].run.Some? && ts[j].run.Some? ==> ts[i].run != ts[j].run)
    && (forall i :: 0 <= i < |ts| ==> (ts[i].run.None? <==> Unsubmitted(ts[i].phase)))
  }

  predicate Unsubmitted(p: Phase) {
    p == Pending || p == Claimed || p == Phase.Skipped || p == Missed
  }

  /** What a suspended pass still holds. */
  predicate PointOk(schedule: Schedule, ts: seq<Trigger>, at: nat, point: Point) {
    match point
    case Cancelling(pending) => RowsOf(ts, at, pending) && schedule.policy == Replace
    case Activating(pending) => RowsOf(ts, at, pending) && (schedule.policy == Queue ==> pending == [])
    case _ => true
  }

  predicate RoutineOk(ts: seq<Trigger>, r: Routine) {
    r.Idle? || (r.at < |r.listing| && (r.point.Cancelling? || r.point.Activating?)
                && PointOk(r.listing[r.at], ts, r.at, r.point))
  }

  ghost predicate Safe(s: State) {
    && OneActive(s.triggers) && OwnRuns(s.triggers, |s.runs|)
    && forall k :: 0 <= k < |s.routines| ==> RoutineOk(s.triggers, s.routines[k])
  }

  /** A later view of an occurrence: its schedule and its run never change, and what is final stays. */
  predicate Later(t: Trigger, u: Trigger) {
    u.schedule == t.schedule && (t.run.Some? ==> u.run == t.run) && (Final(t) ==> u == t)
  }

  ghost predicate AllLater(ts: seq<Trigger>, us: seq<Trigger>) {
    |ts| <= |us| && forall i :: 0 <= i < |ts| ==> Later(ts[i], us[i])
  }

  ghost predicate GoodRows(ts: seq<Trigger>, us: seq<Trigger>, n: nat) {
    OneActive(us) && OwnRuns(us, n) && AllLater(ts, us) && |us| == |ts|
  }

  ghost predicate GoodStretch(schedule: Schedule, ts: seq<Trigger>, x: Stretch) {
    GoodRows(ts, x.triggers, |x.runs|) && PointOk(schedule, x.triggers, x.at, x.point)
  }

  lemma TakeIsGood(schedule: Schedule, at: nat, ts: seq<Trigger>, runs: seq<RunStatus>, i: nat, rest: seq<nat>,
                   turn: Turn)
    requires i < |ts| && ts[i].phase == Pending && RowsOf(ts, at, [i] + rest)
    requires OneActive(ts) && OwnRuns(ts, |runs|) && !ActiveIn(ts, at)
    ensures GoodStretch(schedule, ts, Take(schedule, at, ts, runs, i, rest, turn))
  {
    assert ([i] + rest)[0] == i;
    assert forall k :: 0 <= k < |rest| ==> rest[k] == ([i] + rest)[k + 1];
  }

  lemma {:induction false} LoopIsGood(schedule: Schedule, at: nat, ts: seq<Trigger>, runs: seq<RunStatus>,
                                      pending: seq<nat>, turn: Turn)
    requires RowsOf(ts, at, pending) && OneActive(ts) && OwnRuns(ts, |runs|)
    requires schedule.policy == Queue && pending != [] ==> !ActiveIn(ts, at)
    ensures GoodStretch(schedule, ts, Loop(schedule, at, ts, runs, pending, turn))
  {
    if pending != [] && !(ActiveIn(ts, at) && schedule.policy != Queue) {
      var i := pending[0];
      if !Claimable(ts[i], turn.now) {
        LoopIsGood(schedule, at, ts, runs, pending[1..], turn);
      } else {
        assert [i] + pending[1..] == pending;
        TakeIsGood(schedule, at, ts, runs, i, pending[1..], turn);
      }
    }
  }

  lemma EachKeeps(f: Trigger -> Trigger, ts: seq<Trigger>, n: nat)
    requires OneActive(ts) && OwnRuns(ts, n)
    requires forall t <- ts :: f(t).run == t.run && Later(t, f(t)) && (Active(f(t)) ==> Active(t))
    requires forall t <- ts :: Unsubmitted(f(t).phase) <==> Unsubmitted(t.phase)
    ensures GoodRows(ts, Each(f, ts), n)
  {
    var us := Each(f, ts);
    assert forall i :: 0 <= i < |ts| ==> ts[i] in ts;
    forall i, j | 0 <= i < j < |us| && us[i].schedule == us[j].schedule
      ensures !(Active(us[i]) && Active(us[j]))
    {
      assert ts[i] in ts && ts[j] in ts;
    }
  }

  lemma SyncKeeps(ts: seq<Trigger>, runs: seq<RunStatus>)
    requires OneActive(ts) && OwnRuns(ts, |runs|)
    ensures GoodRows(ts, Sync(ts, runs), |runs|)
  {
    EachKeeps(t => SyncOne(t, runs), ts, |runs|);
  }

  lemma BeginIsGood(schedule: Schedule, at: nat, ts: seq<Trigger>, runs: seq<RunStatus>, turn: Turn)
    requires OneActive(ts) && OwnRuns(ts, |runs|)
    ensures GoodStretch(schedule, ts, Begin(schedule, at, ts, runs, turn))
    ensures Begin(schedule, at, ts, runs, turn).at == at
  {
    if ActiveIn(ts, at) {
      EachKeeps(t => SkipOne(t, at), ts, |runs|);
    } else {
      LoopIsGood(schedule, at, ts, runs, PendingFrom(ts, at, 0), turn);
      LoopStaysAt(schedule, at, ts, runs, PendingFrom(ts, at, 0), turn);
    }
  }

  lemma LoopStaysAt(schedule: Schedule, at: nat, ts: seq<Trigger>, runs: seq<RunStatus>, pending: seq<nat>,
                    turn: Turn)
    requires InBounds(pending, |ts|)
    ensures Loop(schedule, at, ts, runs, pending, turn).at == at
  {
  }

  ghost predicate GoodLeg(listing: seq<Schedule>, ts: seq<Trigger>, x: Stretch) {
    && GoodRows(ts, x.triggers, |x.runs|)
    && (x.point != Done && x.point != Raised ==>
          x.at < |listing| && PointOk(listing[x.at], x.triggers, x.at, x.point))
  }

  lemma {:induction false} WalkIsGood(listing: seq<Schedule>, at: nat, ts: seq<Trigger>, runs: seq<RunStatus>,
                                      turn: Turn)
    requires at <= |listing| && OneActive(ts) && OwnRuns(ts, |runs|)
    ensures GoodLeg(listing, ts, Walk(listing, at, ts, runs, turn))
    decreases |listing| - at
  {
    if at < |listing| {
      BeginIsGood(listing[at], at, ts, runs, turn);
      var x := Begin(listing[at], at, ts, runs, turn);
      if x.point == Done {
        WalkIsGood(listing, at + 1, x.triggers, x.runs, turn);
        GoodLegJoin(listing, ts, x.triggers, |x.runs|, Walk(listing, at + 1, x.triggers, x.runs, turn));
      }
    }
  }

  lemma GoodLegJoin(listing: seq<Schedule>, ts: seq<Trigger>, us: seq<Trigger>, n: nat, x: Stretch)
    requires GoodRows(ts, us, n) && GoodLeg(listing, us, x)
    ensures GoodLeg(listing, ts, x)
  {
  }

  lemma FinishIsGood(listing: seq<Schedule>, at: nat, point: Point, ts: seq<Trigger>, runs: seq<RunStatus>,
                     turn: Turn)
    requires Held(listing, |ts|, at, point) && PointOk(listing[at], ts, at, point)
    requires OneActive(ts) && OwnRuns(ts, |runs|)
    ensures GoodStretch(listing[at], ts, FinishOne(listing, at, point, ts, runs, turn))
    ensures FinishOne(listing, at, point, ts, runs, turn).at == at
  {
    var synced := Sync(ts, runs);
    match point {
      case Cancelling(pending) =>
        SyncKeeps(ts, runs);
        if !ActiveIn(synced, at) {
          LoopIsGood(listing[at], at, synced, runs, pending, turn);
          LoopStaysAt(listing[at], at, synced, runs, pending, turn);
        }
      case Activating(pending) =>
        LoopIsGood(listing[at], at, ts, runs, pending, turn);
        LoopStaysAt(listing[at], at, ts, runs, pending, turn);
    }
  }

  lemma ContinueIsGood(listing: seq<Schedule>, at: nat, point: Point, ts: seq<Trigger>, runs: seq<RunStatus>,
                       turn: Turn)
    requires Held(listing, |ts|, at, point) && PointOk(listing[at], ts, at, point)
    requires OneActive(ts) && OwnRuns(ts, |runs|)
    ensures GoodLeg(listing, ts, Continue(listing, at, point, ts, runs, turn))
  {
    FinishIsGood(listing, at, point, ts, runs, turn);
    var x := FinishOne(listing, at, point, ts, runs, turn);
    if x.point == Done {
      WalkIsGood(listing, at + 1, x.triggers, x.runs, turn);
    }
  }

  lemma PutIsSafe(s: State, k: nat, listing: seq<Schedule>, x: Stretch, dies: bool)
    requires Safe(s) && k < |s.routines| && GoodLeg(listing, s.triggers, x)
    ensures Safe(Put(s, k, listing, x, dies)) && AllLater(s.triggers, Put(s, k, listing, x, dies).triggers)
  {
    RoutinesStayOk(s, x.triggers);
  }

  lemma RoutinesStayOk(s: State, us: seq<Trigger>)
    requires Safe(s) && AllLater(s.triggers, us)
    ensures forall k :: 0 <= k < |s.routines| ==> RoutineOk(us, s.routines[k])
  {
  }

  lemma ArriveIsSafe(s: State, t: Trigger)
    requires Safe(s) && t.run.None? && !Active(t) && Unsubmitted(t.phase)
    ensures Safe(s.(triggers := s.triggers + [t])) && AllLater(s.triggers, s.triggers + [t])
  {
    RoutinesStayOk(s, s.triggers + [t]);
  }

  /** Each step keeps at most one occurrence of a schedule active, gives no run twice, and moves
      every occurrence forward only. */
  lemma StepIsSafe(s: State, a: Action)
    requires Safe(s) && Enabled(s, a)
    ensures Safe(Next(s, a)) && AllLater(s.triggers, Next(s, a).triggers)
  {
    match a {
      case Arrive(t) => ArriveIsSafe(s, t);
      case Start(k, turn) =>
        WalkIsGood(s.schedules, 0, s.triggers, s.runs, turn);
        PutIsSafe(s, k, s.schedules, StretchOf(s, a), turn.dies);
      case Resume(k, turn) =>
        var r := s.routines[k];
        assert RoutineOk(s.triggers, r);
        ContinueIsGood(r.listing, r.at, r.point, s.triggers, s.runs, turn);
        PutIsSafe(s, k, r.listing, StretchOf(s, a), turn.dies);
      case Update(k, _, _) =>
        EachKeeps(t => SupersedeOne(t, k), s.triggers, |s.runs|);
        RoutinesStayOk(s, Next(s, a).triggers);
      case RecoverLeases(now) =>
        EachKeeps(t => RecoverOne(t, now), s.triggers, |s.runs|);
        RoutinesStayOk(s, Next(s, a).triggers);
      case SyncStates =>
        SyncKeeps(s.triggers, s.runs);
        RoutinesStayOk(s, Next(s, a).triggers);
      case _ =>
    }
  }

  lemma {:induction false} RunsAreSafe(states: seq<State>, actions: seq<Action>, i: nat)
    requires IsRun(states, actions) && i < |states|
    ensures Safe(states[i])
  {
    if i > 0 {
      RunsAreSafe(states, actions, i - 1);
      StepIsSafe(states[i - 1], actions[i - 1]);
    } else {
      assert forall k :: 0 <= k < |states[0].routines| ==> states[0].routines[k] in states[0].routines;
    }
  }

  /** Under every overlap policy, with any number of passes suspended anywhere and holding
      listings from before an edit, leases running out, failures and crashes: at no time are two
      occurrences of one schedule claimed, dispatched or running. */
  lemma NeverTwoActive(states: seq<State>, actions: seq<Action>, i: nat, x: nat, y: nat)
    requires IsRun(states, actions) && i < |states| && x < y < |states[i].triggers|
    requires states[i].triggers[x].schedule == states[i].triggers[y].schedule
    ensures var busy := {Claimed, Dispatched, Phase.Running};
            !(states[i].triggers[x].phase in busy && states[i].triggers[y].phase in busy)
  {
    RunsAreSafe(states, actions, i);
  }

  /** An occurrence is given one run at most, ever, and no run serves two occurrences; once it
      is completed, failed, cancelled, skipped or missed it stays so. */
  lemma OneRunEach(states: seq<State>, actions: seq<Action>, i: nat, j: nat, x: nat)
    requires IsRun(states, actions) && i <= j < |states| && x < |states[i].triggers|
    ensures x < |states[j].triggers| && states[j].triggers[x].schedule == states[i].triggers[x].schedule
    ensures states[i].triggers[x].run.Some? ==> states[j].triggers[x].run == states[i].triggers[x].run
    ensures states[i].triggers[x].phase in {Completed, Failed, Cancelled, Phase.Skipped, Missed} ==>
              states[j].triggers[x] == states[i].triggers[x]
    ensures forall y :: 0 <= y < |states[j].triggers| && y != x && states[j].triggers[y].run.Some? ==>
              states[j].triggers[y].run != states[j].triggers[x].run
  {
    RunsAreSafe(states, actions, j);
    OnlyForward(states, actions, i, j, x);
  }

  lemma {:induction false} OnlyForward(states: seq<State>, actions: seq<Action>, i: nat, j: nat, x: nat)
    requires IsRun(states, actions) && i <= j < |states| && x < |states[i].triggers|
    ensures x < |states[j].triggers| && Later(states[i].triggers[x], states[j].triggers[x])
  {
    if i < j {
      OnlyForward(states, actions, i, j - 1, x);
      RunsAreSafe(states, actions, j - 1);
      StepIsSafe(states[j - 1], actions[j - 1]);
    }
  }
}
