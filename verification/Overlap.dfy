/**
 Dispatching the occurrences of all schedules under their overlap policies: the rows, and one
 pass over the schedules up to its next await.
 */
module Overlap {
  import opened Wrappers
  import opened Text

  datatype Policy = Skip | Queue | Replace

  datatype Schedule = Schedule(enabled: bool, policy: Policy, prompt: string)

  datatype Phase = Pending | Claimed | Dispatched | Running | Completed | Failed | Cancelled | Skipped | Missed

  datatype RunStatus = RunQueued | RunRunning | RunCompleted | RunFailed | RunCancelled

  datatype Trigger = Trigger(schedule: nat, phase: Phase, lease: Option<int>, run: Option<nat>)

  predicate Active(t: Trigger) {
    t.phase == Claimed || t.phase == Dispatched || t.phase == Running
  }

  predicate ActiveIn(ts: seq<Trigger>, at: nat) {
    exists i :: 0 <= i < |ts| && ts[i].schedule == at && Active(ts[i])
  }

  predicate Final(t: Trigger) {
    !Active(t) && t.phase != Pending
  }

  predicate Blank(prompt: string) {
    Strip(prompt) == ""
  }

  lemma {:induction false} StripTwice(s: string)
    ensures Strip(Strip(s)) == Strip(s)
    decreases |s|
  {
    if s != "" {
      if Space(s[0]) {
        StripTwice(s[1..]);
      } else if Space(s[|s| - 1]) {
        StripTwice(s[..|s| - 1]);
      }
    }
  }

  // ---------------------------------------------------------------- store operations

  predicate Lapsed(lease: Option<int>, now: int) {
    lease.Some? && lease.value <= now
  }

  predicate Claimable(t: Trigger, now: int) {
    t.phase == Pending || (t.phase == Claimed && Lapsed(t.lease, now))
  }

  function Claim(t: Trigger, lease: int): Trigger {
    t.(phase := Claimed, lease := Some(lease))
  }

  /** The occurrence with the run it was given. */
  function Submit(t: Trigger, run: nat): Trigger {
    t.(phase := Dispatched, lease := None, run := Some(run))
  }

  /** A claim whose lease ran out before a run was submitted. */
  function RecoverOne(t: Trigger, now: int): Trigger {
    if t.phase == Claimed && t.run.None? && Lapsed(t.lease, now) then t.(phase := Pending, lease := None) else t
  }

  function SyncOne(t: Trigger, runs: seq<RunStatus>): Trigger {
    if (t.phase == Dispatched || t.phase == Running) && t.run.Some? && t.run.value < |runs|
    then
      match runs[t.run.value]
      case RunQueued => t
      case RunRunning => t.(phase := Running)
      case RunCompleted => t.(phase := Completed)
      case RunFailed => t.(phase := Failed)
      case RunCancelled => t.(phase := Cancelled)
    else t
  }

  function SkipOne(t: Trigger, at: nat): Trigger {
    if t.schedule == at && t.phase == Pending then t.(phase := Skipped) else t
  }

  /** A new generation of a schedule supersedes what was not yet submitted. */
  function SupersedeOne(t: Trigger, at: nat): Trigger {
    if t.schedule == at && (t.phase == Pending || t.phase == Claimed) then t.(phase := Skipped) else t
  }

  function Each(f: Trigger -> Trigger, ts: seq<Trigger>): (r: seq<Trigger>)
    ensures |r| == |ts| && forall i :: 0 <= i < |ts| ==> r[i] == f(ts[i])
  {
    seq(|ts|, i requires 0 <= i < |ts| => f(ts[i]))
  }

  function Sync(ts: seq<Trigger>, runs: seq<RunStatus>): seq<Trigger> {
    Each(t => SyncOne(t, runs), ts)
  }

  function SkipAll(ts: seq<Trigger>, at: nat): seq<Trigger> {
    Each(t => SkipOne(t, at), ts)
  }

  predicate PendingAt(ts: seq<Trigger>, at: nat, i: nat) {
    i < |ts| && ts[i].schedule == at && ts[i].phase == Pending
  }

  predicate HasPending(ts: seq<Trigger>, at: nat) {
    exists i :: 0 <= i < |ts| && PendingAt(ts, at, i)
  }

  function PendingFrom(ts: seq<Trigger>, at: nat, i: nat): (r: seq<nat>)
    requires i <= |ts|
    ensures forall k :: 0 <= k < |r| ==> i <= r[k] && PendingAt(ts, at, r[k])
    ensures forall j :: i <= j && PendingAt(ts, at, j) ==> j in r
    ensures forall k, l :: 0 <= k < l < |r| ==> r[k] < r[l]
    decreases |ts| - i
  {
    if i == |ts| then []
    else if PendingAt(ts, at, i) then [i] + PendingFrom(ts, at, i + 1)
    else PendingFrom(ts, at, i + 1)
  }

  // ---------------------------------------------------------------- the pass

  /** Where a stretch of the pass stops: at the end of what it was to look at, at an error, or
      at an await, cancelling what it replaces or waking the run it submitted. */
  datatype Point = Done | Raised | Cancelling(pending: seq<nat>) | Activating(pending: seq<nat>)

  // The rows a stretch leaves, and the schedule and point at which it stops.
  datatype Stretch = Stretch(triggers: seq<Trigger>, runs: seq<RunStatus>, at: nat, point: Point)

  // What the surroundings give a stretch; dies says that the process ends before a run is submitted.
  datatype Turn = Turn(now: int, lease: int, dies: bool)

  /** Rows of one schedule. */
  predicate RowsOf(ts: seq<Trigger>, at: nat, rows: seq<nat>) {
    forall k :: 0 <= k < |rows| ==> rows[k] < |ts| && ts[rows[k]].schedule == at
  }

  predicate InBounds(rows: seq<nat>, n: nat) {
    forall k :: 0 <= k < |rows| ==> rows[k] < n
  }

  /** What follows the claim of row i. */
  function Take(schedule: Schedule, at: nat, ts: seq<Trigger>, runs: seq<RunStatus>, i: nat, rest: seq<nat>,
                turn: Turn): Stretch
    requires i < |ts|
  {
    var claimed := Claim(ts[i], turn.lease);
    if Blank(schedule.prompt) || turn.dies then Stretch(ts[i := claimed], runs, at, Raised)
    else
      Stretch(ts[i := Submit(claimed, |runs|)], runs + [RunQueued], at,
              Activating(if schedule.policy == Queue then [] else rest))
  }

  /** The loop over one schedule's pending occurrences up to its next await. An error between
      claiming and submitting leaves the whole pass. */
  function Loop(schedule: Schedule, at: nat, ts: seq<Trigger>, runs: seq<RunStatus>, pending: seq<nat>, turn: Turn)
    : Stretch
    requires InBounds(pending, |ts|)
  {
    if pending == [] || (ActiveIn(ts, at) && schedule.policy != Queue) then Stretch(ts, runs, at, Done)
    else if !Claimable(ts[pending[0]], turn.now) then Loop(schedule, at, ts, runs, pending[1..], turn)
    else Take(schedule, at, ts, runs, pending[0], pending[1..], turn)
  }

  /** One schedule, from reading its rows to the next await. */
  function Begin(schedule: Schedule, at: nat, ts: seq<Trigger>, runs: seq<RunStatus>, turn: Turn): Stretch {
    var pending := PendingFrom(ts, at, 0);
    if !schedule.enabled || pending == [] then Stretch(ts, runs, at, Done)
    else if ActiveIn(ts, at) then
      match schedule.policy
      case Skip => Stretch(SkipAll(ts, at), runs, at, Done)
      case Queue => Stretch(ts, runs, at, Done)
      case Replace => Stretch(ts, runs, at, Cancelling(pending))
    else Loop(schedule, at, ts, runs, pending, turn)
  }

  /** After the active runs were asked to stop. */
  function AfterCancelling(schedule: Schedule, at: nat, ts: seq<Trigger>, runs: seq<RunStatus>, pending: seq<nat>,
                           turn: Turn): Stretch
    requires InBounds(pending, |ts|)
  {
    var synced := Sync(ts, runs);
    if ActiveIn(synced, at) then Stretch(synced, runs, at, Done)
    else Loop(schedule, at, synced, runs, pending, turn)
  }

  /** The schedules of the listing from a place on, up to the next await or error. */
  function Walk(listing: seq<Schedule>, at: nat, ts: seq<Trigger>, runs: seq<RunStatus>, turn: Turn): Stretch
    requires at <= |listing|
    decreases |listing| - at
  {
    if at == |listing| then Stretch(ts, runs, at, Done)
    else
      var x := Begin(listing[at], at, ts, runs, turn);
      if x.point == Done then Walk(listing, at + 1, x.triggers, x.runs, turn) else x
  }

  predicate Held(listing: seq<Schedule>, n: nat, at: nat, point: Point) {
    match point
    case Cancelling(pending) => at < |listing| && InBounds(pending, n)
    case Activating(pending) => at < |listing| && InBounds(pending, n)
    case _ => false
  }

  /** A suspended pass finishes its schedule first. */
  function FinishOne(listing: seq<Schedule>, at: nat, point: Point, ts: seq<Trigger>, runs: seq<RunStatus>,
                     turn: Turn): Stretch
    requires Held(listing, |ts|, at, point)
  {
    match point
    case Cancelling(pending) => AfterCancelling(listing[at], at, ts, runs, pending, turn)
    case Activating(pending) => Loop(listing[at], at, ts, runs, pending, turn)
  }

  function Continue(listing: seq<Schedule>, at: nat, point: Point, ts: seq<Trigger>, runs: seq<RunStatus>,
                    turn: Turn): Stretch
    requires Held(listing, |ts|, at, point)
  {
    var x := FinishOne(listing, at, point, ts, runs, turn);
    if x.point == Done then Walk(listing, at + 1, x.triggers, x.runs, turn) else x
  }

  class TriggerTable {
    var triggers: seq<Trigger>
    var runs: seq<RunStatus>

    constructor ()
      ensures triggers == [] && runs == []
    {
      triggers, runs := [], [];
    }

    method DispatchPending(schedule: Schedule, at: nat, pending: seq<nat>, turn: Turn) returns (point: Point)
      requires InBounds(pending, |triggers|)
      modifies this
      ensures Stretch(triggers, runs, at, point) == Loop(schedule, at, old(triggers), old(runs), pending, turn)
    {
      var k := 0;
      while k < |pending|
        invariant 0 <= k <= |pending| && triggers == old(triggers) && runs == old(runs)
        invariant InBounds(pending[k..], |triggers|)
        invariant Loop(schedule, at, triggers, runs, pending[k..], turn) ==
                  Loop(schedule, at, old(triggers), old(runs), pending, turn)
      {
        assert pending[k..][0] == pending[k] && pending[k..][1..] == pending[k + 1..];
        if ActiveIn(triggers, at) && schedule.policy != Queue {
          return Done;
        }
        var i := pending[k];
        if Claimable(triggers[i], turn.now) {
          var claimed := Claim(triggers[i], turn.lease);
          if Blank(schedule.prompt) || turn.dies {
            triggers := triggers[i := claimed];
            return Raised;
          }
          triggers := triggers[i := Submit(claimed, |runs|)];
          runs := runs + [RunQueued];
          return Activating(if schedule.policy == Queue then [] else pending[k + 1..]);
        }
        k := k + 1;
      }
      point := Done;
    }

    method SkipPending(at: nat, pending: seq<nat>)
      requires pending == PendingFrom(triggers, at, 0)
      modifies this`triggers
      ensures triggers == SkipAll(old(triggers), at)
    {
      ghost var was := triggers;
      var k := 0;
      while k < |pending|
        invariant 0 <= k <= |pending| && |triggers| == |was|
        invariant forall l :: 0 <= l < k ==> triggers[pending[l]] == SkipOne(was[pending[l]], at)
        invariant forall l :: k <= l < |pending| ==> triggers[pending[l]] == was[pending[l]]
        invariant forall j: nat :: j < |was| && !PendingAt(was, at, j) ==> triggers[j] == was[j]
      {
        var i := pending[k];
        if triggers[i].phase == Pending {
          triggers := triggers[i := triggers[i].(phase := Skipped)];
        }
        k := k + 1;
      }
      AllSkipped(was, triggers, at, pending);
    }

    /** The pass over the listed schedules from a place on, up to its next await or error. */
    method DispatchDue(listing: seq<Schedule>, start: nat, turn: Turn) returns (at: nat, point: Point)
      requires start <= |listing|
      modifies this
      ensures Stretch(triggers, runs, at, point) == Walk(listing, start, old(triggers), old(runs), turn)
    {
      at := start;
      while at < |listing|
        invariant start <= at <= |listing|
        invariant Walk(listing, at, triggers, runs, turn) == Walk(listing, start, old(triggers), old(runs), turn)
      {
        var schedule := listing[at];
        var pending := PendingFrom(triggers, at, 0);
        if schedule.enabled && pending != [] {
          if ActiveIn(triggers, at) {
            match schedule.policy {
              case Skip => SkipPending(at, pending);
              case Queue =>
              case Replace => return at, Cancelling(pending);
            }
          } else {
            point := DispatchPending(schedule, at, pending, turn);
            if point != Done {
              return;
            }
          }
        }
        at := at + 1;
      }
      point := Done;
    }
  }

  lemma AllSkipped(ts: seq<Trigger>, us: seq<Trigger>, at: nat, pending: seq<nat>)
    requires pending == PendingFrom(ts, at, 0) && |us| == |ts|
    requires forall l :: 0 <= l < |pending| ==> us[pending[l]] == SkipOne(ts[pending[l]], at)
    requires forall j: nat :: j < |ts| && !PendingAt(ts, at, j) ==> us[j] == ts[j]
    ensures us == SkipAll(ts, at)
  {
    forall j: nat | j < |ts|
      ensures us[j] == SkipOne(ts[j], at)
    {
      if PendingAt(ts, at, j) {
        assert j in pending;
      }
    }
  }

  // ---------------------------------------------------------------- what one pass does

  /** Nothing of this schedule makes the pass stop. */
  predicate PassedOver(schedule: Schedule, at: nat, ts: seq<Trigger>) {
    !schedule.enabled || !HasPending(ts, at) || (ActiveIn(ts, at) && schedule.policy != Replace)
  }

  predicate LosesPending(schedule: Schedule, at: nat, ts: seq<Trigger>) {
    schedule.enabled && schedule.policy == Skip && ActiveIn(ts, at)
  }

  ghost predicate FirstPending(ts: seq<Trigger>, at: nat, i: nat) {
    PendingAt(ts, at, i) && forall k :: 0 <= k < i ==> !PendingAt(ts, at, k)
  }

  lemma PendingStartsAtFirst(ts: seq<Trigger>, at: nat, i: nat)
    requires FirstPending(ts, at, i)
    ensures PendingFrom(ts, at, 0) != [] && PendingFrom(ts, at, 0)[0] == i
  {
    var r := PendingFrom(ts, at, 0);
    assert i in r;
  }

  lemma NoPendingIsEmpty(ts: seq<Trigger>, at: nat)
    requires !HasPending(ts, at)
    ensures PendingFrom(ts, at, 0) == []
  {
    var r := PendingFrom(ts, at, 0);
    assert r == [] || PendingAt(ts, at, r[0]);
  }

  lemma {:induction false} FirstPendingExists(ts: seq<Trigger>, at: nat, n: nat) returns (i: nat)
    requires PendingAt(ts, at, n)
    ensures FirstPending(ts, at, i)
  {
    i := n;
    if k :| 0 <= k < n && PendingAt(ts, at, k) {
      i := FirstPendingExists(ts, at, k);
    }
  }

  /** A schedule passed over loses its pending occurrences under SKIP while one is active, and
      keeps everything otherwise. */
  lemma PassedOverOutcome(schedule: Schedule, at: nat, ts: seq<Trigger>, runs: seq<RunStatus>, turn: Turn)
    requires PassedOver(schedule, at, ts)
    ensures var x := Begin(schedule, at, ts, runs, turn);
            && x.at == at && x.point == Done && x.runs == runs && |x.triggers| == |ts|
            && forall j :: 0 <= j < |ts| ==>
                 x.triggers[j] == if LosesPending(schedule, at, ts) then SkipOne(ts[j], at) else ts[j]
  {
    if !HasPending(ts, at) {
      NoPendingIsEmpty(ts, at);
      forall j | 0 <= j < |ts|
        ensures SkipOne(ts[j], at) == ts[j]
      {
        assert !PendingAt(ts, at, j);
      }
    }
  }

  /** The pending rows of a schedule but one, in order. */
  ghost predicate Listed(ts: seq<Trigger>, at: nat, but: int, rows: seq<nat>) {
    && (forall k, l :: 0 <= k < l < |rows| ==> rows[k] < rows[l])
    && forall j: nat :: j in rows <==> PendingAt(ts, at, j) && j != but
  }

  lemma PendingListed(ts: seq<Trigger>, at: nat, i: nat)
    requires FirstPending(ts, at, i)
    ensures var rows := PendingFrom(ts, at, 0); Listed(ts, at, -1, rows) && Listed(ts, at, i, rows[1..])
  {
    var rows := PendingFrom(ts, at, 0);
    PendingStartsAtFirst(ts, at, i);
    forall j: nat
      ensures j in rows[1..] <==> PendingAt(ts, at, j) && j != i
    {
      assert j in rows <==> j == rows[0] || j in rows[1..];
    }
  }

  /** At a schedule that is not passed over, REPLACE first cancels what is active; with nothing
      active the first pending occurrence is claimed, and submitted with a new run of its own
      unless the prompt is blank or the process ends. Nothing else changes. */
  lemma PassOutcome(schedule: Schedule, at: nat, ts: seq<Trigger>, runs: seq<RunStatus>, i: nat, turn: Turn)
    requires !PassedOver(schedule, at, ts) && FirstPending(ts, at, i)
    ensures var x := Begin(schedule, at, ts, runs, turn);
            && x.at == at
            && if ActiveIn(ts, at) then
                 x.point.Cancelling? && Listed(ts, at, -1, x.point.pending) && x.triggers == ts && x.runs == runs
               else if Blank(schedule.prompt) || turn.dies then
                 x == Stretch(ts[i := ts[i].(phase := Claimed, lease := Some(turn.lease))], runs, at, Raised)
               else
                 && x.triggers == ts[i := Trigger(at, Dispatched, None, Some(|runs|))]
                 && x.runs == runs + [RunQueued] && x.point.Activating?
                 && if schedule.policy == Queue then x.point.pending == [] else Listed(ts, at, i, x.point.pending)
  {
    PendingStartsAtFirst(ts, at, i);
    PendingListed(ts, at, i);
  }

  ghost predicate FirstStop(listing: seq<Schedule>, ts: seq<Trigger>, at: nat, stop: nat) {
    && at <= stop <= |listing|
    && (forall k :: at <= k < stop ==> PassedOver(listing[k], k, ts))
    && (stop < |listing| ==> !PassedOver(listing[stop], stop, ts))
  }

  /** The first listed schedule from a place on that is not passed over, or the end. */
  function StopFrom(listing: seq<Schedule>, ts: seq<Trigger>, at: nat): (stop: nat)
    requires at <= |listing|
    ensures FirstStop(listing, ts, at, stop)
    decreases |listing| - at
  {
    if at < |listing| && PassedOver(listing[at], at, ts) then StopFrom(listing, ts, at + 1) else at
  }

  predicate SameRows(ts: seq<Trigger>, us: seq<Trigger>, at: nat) {
    && |us| == |ts|
    && forall j :: 0 <= j < |ts| && (ts[j].schedule == at || us[j].schedule == at) ==> us[j] == ts[j]
  }

  lemma SameRowsSameTurn(schedule: Schedule, ts: seq<Trigger>, us: seq<Trigger>, at: nat)
    requires SameRows(ts, us, at)
    ensures PassedOver(schedule, at, us) == PassedOver(schedule, at, ts)
    ensures ActiveIn(us, at) == ActiveIn(ts, at)
  {
    assert forall j :: 0 <= j < |ts| ==> PendingAt(us, at, j) == PendingAt(ts, at, j);
  }

  ghost predicate AfterPassedOver(listing: seq<Schedule>, ts: seq<Trigger>, us: seq<Trigger>, at: nat, stop: nat)
    requires at <= stop <= |listing|
  {
    && |us| == |ts|
    && forall j :: 0 <= j < |ts| ==>
         us[j] == if at <= ts[j].schedule < stop && LosesPending(listing[ts[j].schedule], ts[j].schedule, ts)
                  then SkipOne(ts[j], ts[j].schedule) else ts[j]
  }

  /** A pass looks at schedules until the first that is not passed over, and there does what it
      would do if it came to it at once. Up to it, only pending occurrences under SKIP are lost;
      whatever belongs to later schedules is as it was. */
  lemma {:induction false} WalkOutcome(listing: seq<Schedule>, at: nat, stop: nat, ts: seq<Trigger>,
                                       runs: seq<RunStatus>, turn: Turn) returns (us: seq<Trigger>)
    requires FirstStop(listing, ts, at, stop)
    ensures AfterPassedOver(listing, ts, us, at, stop)
    ensures Walk(listing, at, ts, runs, turn) ==
            if stop == |listing| then Stretch(us, runs, stop, Done) else Begin(listing[stop], stop, us, runs, turn)
    ensures forall k :: stop <= k ==> SameRows(ts, us, k)
    decreases stop - at
  {
    if at == stop {
      us := ts;
      if stop < |listing| {
        BeginStops(listing[stop], stop, ts, runs, turn);
      }
    } else {
      var x := Begin(listing[at], at, ts, runs, turn);
      PassedOverOutcome(listing[at], at, ts, runs, turn);
      OthersStayAsTheyAre(listing, at, stop, ts, x.triggers);
      us := WalkOutcome(listing, at + 1, stop, x.triggers, runs, turn);
      PassedOverInTurn(listing, at, stop, ts, x.triggers, us);
    }
  }

  lemma OthersStayAsTheyAre(listing: seq<Schedule>, at: nat, stop: nat, ts: seq<Trigger>, us: seq<Trigger>)
    requires at < stop && FirstStop(listing, ts, at, stop) && AfterPassedOver(listing, ts, us, at, at + 1)
    ensures FirstStop(listing, us, at + 1, stop)
    ensures forall k :: at < k < |listing| ==> ActiveIn(us, k) == ActiveIn(ts, k)
  {
    forall k | at < k < |listing|
      ensures PassedOver(listing[k], k, us) == PassedOver(listing[k], k, ts)
      ensures ActiveIn(us, k) == ActiveIn(ts, k)
    {
      SameRowsSameTurn(listing[k], ts, us, k);
    }
  }

  lemma PassedOverInTurn(listing: seq<Schedule>, at: nat, stop: nat, ts: seq<Trigger>, us: seq<Trigger>,
                         vs: seq<Trigger>)
    requires at < stop <= |listing|
    requires AfterPassedOver(listing, ts, us, at, at + 1) && AfterPassedOver(listing, us, vs, at + 1, stop)
    requires forall k :: at < k < |listing| ==> ActiveIn(us, k) == ActiveIn(ts, k)
    ensures AfterPassedOver(listing, ts, vs, at, stop)
    ensures forall k :: stop <= k ==> SameRows(ts, vs, k)
  {
  }

  lemma BeginStops(schedule: Schedule, at: nat, ts: seq<Trigger>, runs: seq<RunStatus>, turn: Turn)
    requires !PassedOver(schedule, at, ts)
    ensures Begin(schedule, at, ts, runs, turn).point != Done
  {
    var n :| 0 <= n < |ts| && PendingAt(ts, at, n);
    var i := FirstPendingExists(ts, at, n);
    PassOutcome(schedule, at, ts, runs, i, turn);
  }

  /** A pass that claims an occurrence is one that stops at a schedule with nothing active. It
      submits the run exactly when the prompt is not blank. If it is, the occurrence stays claimed
      without a run, the pass is over, and every later schedule is as it was. */
  lemma FailedDispatch(listing: seq<Schedule>, ts: seq<Trigger>, runs: seq<RunStatus>, turn: Turn, i: nat)
    requires !turn.dies
    requires var stop := StopFrom(listing, ts, 0);
             stop < |listing| && !ActiveIn(ts, stop) && FirstPending(ts, stop, i)
    ensures var stop := StopFrom(listing, ts, 0); var x := Walk(listing, 0, ts, runs, turn);
            && x.at == stop && i < |x.triggers| == |ts|
            && (!Blank(listing[stop].prompt) <==>
                  && x.runs == runs + [RunQueued] && x.point.Activating?
                  && x.triggers[i] == ts[i].(phase := Dispatched, lease := None, run := Some(|runs|)))
            && (Blank(listing[stop].prompt) <==>
                  && x.runs == runs && x.point == Raised
                  && x.triggers[i] == ts[i].(phase := Claimed, lease := Some(turn.lease)))
            && forall j :: 0 <= j < |ts| && j != i && ts[j].schedule >= stop ==> x.triggers[j] == ts[j]
  {
    var stop := StopFrom(listing, ts, 0);
    var us := WalkOutcome(listing, 0, stop, ts, runs, turn);
    assert SameRows(ts, us, stop);
    SameRowsSameTurn(listing[stop], ts, us, stop);
    assert forall k :: 0 <= k <= i ==> PendingAt(us, stop, k) == PendingAt(ts, stop, k);
    PassOutcome(listing[stop], stop, us, runs, i, turn);
  }

  /** A pass ends in an error exactly when the first schedule it does not pass over has nothing
      active and a blank prompt. */
  lemma PassRaisesIff(listing: seq<Schedule>, ts: seq<Trigger>, runs: seq<RunStatus>, turn: Turn)
    requires !turn.dies
    ensures var stop := StopFrom(listing, ts, 0);
            Walk(listing, 0, ts, runs, turn).point == Raised <==>
            stop < |listing| && !ActiveIn(ts, stop) && Blank(listing[stop].prompt)
  {
    var stop := StopFrom(listing, ts, 0);
    var us := WalkOutcome(listing, 0, stop, ts, runs, turn);
    if stop < |listing| {
      SameRowsSameTurn(listing[stop], ts, us, stop);
      var n :| 0 <= n < |us| && PendingAt(us, stop, n);
      var i := FirstPendingExists(us, stop, n);
      PassOutcome(listing[stop], stop, us, runs, i, turn);
    }
  }
}
