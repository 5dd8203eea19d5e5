/**
 Dispatches that fail: which claims are followed by a run, what a claim without one holds back
 and for how long, over every history of the schedules and their passes.
 */
module DispatchFailures {
  import opened Wrappers
  import opened Overlap
  import opened OverlapRuns

  // ---------------------------------------------------------------- which claims fail

  /** A stretch claims this occurrence. */
  predicate Taken(t: Trigger, u: Trigger) {
    t.phase == Pending && (u.phase == Claimed || u.phase == Dispatched)
  }

  /** What a stretch makes of an occurrence it claims: a run, unless the prompt is blank. */
  predicate TakenRightly(listing: seq<Schedule>, ts: seq<Trigger>, runs: seq<RunStatus>, x: Stretch, i: nat,
                         lease: int)
    requires i < |ts| == |x.triggers|
  {
    && ts[i].schedule == x.at < |listing|
    && if Blank(listing[x.at].prompt) then
         x.triggers[i] == Claim(ts[i], lease) && x.runs == runs && x.point == Raised
       else
         x.triggers[i] == Submit(ts[i], |runs|) && x.runs == runs + [RunQueued] && x.point.Activating?
  }

  /** Rows of later schedules are left alone, but for what their runs report. */
  predicate LaterLeft(ts: seq<Trigger>, runs: seq<RunStatus>, x: Stretch) {
    && |x.triggers| == |ts|
    && forall j :: 0 <= j < |ts| && ts[j].schedule > x.at ==>
         x.triggers[j] == ts[j] || x.triggers[j] == SyncOne(ts[j], runs)
  }

  ghost predicate ClaimsRight(listing: seq<Schedule>, ts: seq<Trigger>, runs: seq<RunStatus>, x: Stretch,
                              lease: int)
  {
    && LaterLeft(ts, runs, x)
    && (forall i :: 0 <= i < |ts| && Taken(ts[i], x.triggers[i]) ==> TakenRightly(listing, ts, runs, x, i, lease))
    && (x.point == Raised ==> exists i :: 0 <= i < |ts| && Taken(ts[i], x.triggers[i]))
  }

  lemma {:induction false} LoopClaimsRight(listing: seq<Schedule>, at: nat, ts: seq<Trigger>, runs: seq<RunStatus>,
                                           pending: seq<nat>, turn: Turn)
    requires at < |listing| && RowsOf(ts, at, pending) && !turn.dies
    requires listing[at].policy == Queue && pending != [] ==> !ActiveIn(ts, at)
    ensures var x := Loop(listing[at], at, ts, runs, pending, turn);
            && x.at == at && ClaimsRight(listing, ts, runs, x, turn.lease)
            && (x.point == Done ==> x.triggers == ts && x.runs == runs)
  {
    if pending != [] && !(ActiveIn(ts, at) && listing[at].policy != Queue) {
      var i := pending[0];
      if !Claimable(ts[i], turn.now) {
        LoopClaimsRight(listing, at, ts, runs, pending[1..], turn);
      } else {
        var x := Loop(listing[at], at, ts, runs, pending, turn);
        assert ts[i].phase == Pending && Taken(ts[i], x.triggers[i]);
      }
    }
  }

  lemma BeginClaimsRight(listing: seq<Schedule>, at: nat, ts: seq<Trigger>, runs: seq<RunStatus>, turn: Turn)
    requires at < |listing| && !PassedOver(listing[at], at, ts) && !turn.dies
    ensures var x := Begin(listing[at], at, ts, runs, turn);
            && x.at == at && x.point != Done && ClaimsRight(listing, ts, runs, x, turn.lease)
            && forall j :: 0 <= j < |ts| && ts[j].schedule != at ==> x.triggers[j] == ts[j]
  {
    var n :| 0 <= n < |ts| && PendingAt(ts, at, n);
    var i := FirstPendingExists(ts, at, n);
    PassOutcome(listing[at], at, ts, runs, i, turn);
    var x := Begin(listing[at], at, ts, runs, turn);
    if !ActiveIn(ts, at) {
      OneTakenIsRight(listing, ts, runs, x, i, turn.lease);
    }
  }

  lemma OneTakenIsRight(listing: seq<Schedule>, ts: seq<Trigger>, runs: seq<RunStatus>, x: Stretch, i: nat,
                        lease: int)
    requires i < |ts| == |x.triggers| && TakenRightly(listing, ts, runs, x, i, lease) && ts[i].phase == Pending
    requires x.triggers == ts[i := x.triggers[i]]
    ensures ClaimsRight(listing, ts, runs, x, lease)
    ensures forall j :: 0 <= j < |ts| && ts[j].schedule != x.at ==> x.triggers[j] == ts[j]
  {
    assert Taken(ts[i], x.triggers[i]);
    assert forall j :: 0 <= j < |ts| && Taken(ts[j], x.triggers[j]) ==> j == i;
  }

  lemma SkippedIsNotTaken(listing: seq<Schedule>, at: nat, stop: nat, ts: seq<Trigger>, us: seq<Trigger>,
                          runs: seq<RunStatus>, x: Stretch, lease: int)
    requires at <= stop < |listing| && AfterPassedOver(listing, ts, us, at, stop) && x.at == stop
    requires ClaimsRight(listing, us, runs, x, lease)
    requires forall j :: 0 <= j < |us| && us[j].schedule != stop ==> x.triggers[j] == us[j]
    ensures ClaimsRight(listing, ts, runs, x, lease)
  {
    forall i | 0 <= i < |ts|
      ensures Taken(ts[i], x.triggers[i]) == Taken(us[i], x.triggers[i])
      ensures Taken(ts[i], x.triggers[i]) ==> TakenRightly(listing, ts, runs, x, i, lease)
    {
      assert us[i] == ts[i] || us[i].phase == Phase.Skipped;
    }
  }

  lemma WalkClaimsRight(listing: seq<Schedule>, at: nat, ts: seq<Trigger>, runs: seq<RunStatus>, turn: Turn)
    requires at <= |listing| && !turn.dies
    ensures ClaimsRight(listing, ts, runs, Walk(listing, at, ts, runs, turn), turn.lease)
  {
    var stop := StopFrom(listing, ts, at);
    var us := WalkOutcome(listing, at, stop, ts, runs, turn);
    if stop < |listing| {
      assert SameRows(ts, us, stop);
      SameRowsSameTurn(listing[stop], ts, us, stop);
      BeginClaimsRight(listing, stop, us, runs, turn);
      SkippedIsNotTaken(listing, at, stop, ts, us, runs, Begin(listing[stop], stop, us, runs, turn), turn.lease);
    }
  }

  lemma FromSynced(listing: seq<Schedule>, ts: seq<Trigger>, us: seq<Trigger>, runs: seq<RunStatus>, x: Stretch,
                   lease: int)
    requires |us| == |ts| && forall j :: 0 <= j < |ts| ==> us[j] == ts[j] || us[j] == SyncOne(ts[j], runs)
    requires ClaimsRight(listing, us, runs, x, lease)
    ensures ClaimsRight(listing, ts, runs, x, lease)
  {
    forall i | 0 <= i < |ts|
      ensures Taken(ts[i], x.triggers[i]) == Taken(us[i], x.triggers[i])
      ensures Taken(ts[i], x.triggers[i]) ==> TakenRightly(listing, ts, runs, x, i, lease)
    {
    }
  }

  lemma FinishClaimsRight(listing: seq<Schedule>, at: nat, point: Point, ts: seq<Trigger>, runs: seq<RunStatus>,
                          turn: Turn)
    requires Held(listing, |ts|, at, point) && PointOk(listing[at], ts, at, point) && !turn.dies
    ensures var x := FinishOne(listing, at, point, ts, runs, turn);
            && x.at == at && ClaimsRight(listing, ts, runs, x, turn.lease)
            && (x.point == Done ==> x.runs == runs && (x.triggers == ts || x.triggers == Sync(ts, runs)))
  {
    match point {
      case Cancelling(pending) =>
        var synced := Sync(ts, runs);
        if !ActiveIn(synced, at) {
          LoopClaimsRight(listing, at, synced, runs, pending, turn);
        }
        FromSynced(listing, ts, synced, runs, FinishOne(listing, at, point, ts, runs, turn), turn.lease);
      case Activating(pending) =>
        LoopClaimsRight(listing, at, ts, runs, pending, turn);
    }
  }

  lemma ContinueClaimsRight(listing: seq<Schedule>, at: nat, point: Point, ts: seq<Trigger>, runs: seq<RunStatus>,
                            turn: Turn)
    requires Held(listing, |ts|, at, point) && PointOk(listing[at], ts, at, point) && !turn.dies
    ensures ClaimsRight(listing, ts, runs, Continue(listing, at, point, ts, runs, turn), turn.lease)
  {
    FinishClaimsRight(listing, at, point, ts, runs, turn);
    var x := FinishOne(listing, at, point, ts, runs, turn);
    if x.point == Done {
      WalkClaimsRight(listing, at + 1, x.triggers, runs, turn);
      FromSynced(listing, ts, x.triggers, runs, Walk(listing, at + 1, x.triggers, runs, turn), turn.lease);
    }
  }

  predicate PassStep(s: State, a: Action) {
    Enabled(s, a) && (a.Start? || a.Resume?)
  }

  lemma StretchClaimsRight(s: State, a: Action)
    requires Safe(s) && PassStep(s, a) && !a.turn.dies
    ensures ClaimsRight(ListingOf(s, a), s.triggers, s.runs, StretchOf(s, a), a.turn.lease)
  {
    if a.Start? {
      WalkClaimsRight(s.schedules, 0, s.triggers, s.runs, a.turn);
    } else {
      var r := s.routines[a.routine];
      assert RoutineOk(s.triggers, r);
      ContinueClaimsRight(r.listing, r.at, r.point, s.triggers, s.runs, a.turn);
    }
  }

  /** A new or resumed pass that claims an occurrence submits its run exactly when the prompt it
      read is not blank. If it is blank, the occurrence stays claimed without a run, the pass is
      over, and occurrences of later schedules only take over what their runs report. */
  lemma ClaimSubmitsIff(s: State, a: Action, i: nat)
    requires Safe(s) && PassStep(s, a) && !a.turn.dies && i < |s.triggers|
    requires i < |Next(s, a).triggers| && Taken(s.triggers[i], Next(s, a).triggers[i])
    ensures var at := s.triggers[i].schedule; var s' := Next(s, a);
            && at < |ListingOf(s, a)| && |s'.triggers| == |s.triggers|
            && (!Blank(ListingOf(s, a)[at].prompt) <==>
                  && s'.triggers[i] == s.triggers[i].(phase := Dispatched, lease := None, run := Some(|s.runs|))
                  && s'.runs == s.runs + [RunQueued])
            && (Blank(ListingOf(s, a)[at].prompt) <==>
                  && s'.triggers[i] == s.triggers[i].(phase := Claimed, lease := Some(a.turn.lease))
                  && s'.runs == s.runs
                  && s'.routines[a.routine].Idle?)
            && forall j :: 0 <= j < |s.triggers| && s.triggers[j].schedule > at ==>
                 s'.triggers[j] == s.triggers[j] || s'.triggers[j] == SyncOne(s.triggers[j], s.runs)
  {
    StretchClaimsRight(s, a);
  }

  /** A pass ends in an error only by such a claim. */
  lemma RaisesOnlyOnBlank(s: State, a: Action)
    requires Safe(s) && PassStep(s, a) && !a.turn.dies
    ensures StretchOf(s, a).point == Raised <==>
            exists i :: 0 <= i < |s.triggers| == |Next(s, a).triggers| && Taken(s.triggers[i], Next(s, a).triggers[i])
              && s.triggers[i].schedule < |ListingOf(s, a)| && Blank(ListingOf(s, a)[s.triggers[i].schedule].prompt)
  {
    StretchClaimsRight(s, a);
  }

  // ---------------------------------------------------------------- histories without failures

  ghost predicate Printed(listing: seq<Schedule>) {
    forall k :: 0 <= k < |listing| ==> !Blank(listing[k].prompt)
  }

  /** No blank prompt is stored or about to be used, and no claim is without a run. */
  ghost predicate Healthy(s: State) {
    && Printed(s.schedules)
    && (forall k :: 0 <= k < |s.routines| && s.routines[k].Suspended? ==> Printed(s.routines[k].listing))
    && forall i :: 0 <= i < |s.triggers| ==> s.triggers[i].phase != Claimed
  }

  /** Neither an edit to a blank prompt nor a process that ends between claim and submission. */
  predicate Harmless(a: Action) {
    && (a.Update? ==> !Blank(a.prompt))
    && (a.Start? || a.Resume? ==> !a.turn.dies)
  }

  lemma PassStaysHealthy(s: State, a: Action)
    requires Safe(s) && Healthy(s) && PassStep(s, a) && !a.turn.dies
    ensures Healthy(Next(s, a)) && StretchOf(s, a).point != Raised
  {
    StretchClaimsRight(s, a);
    StepIsSafe(s, a);
    var x := StretchOf(s, a);
    assert Printed(ListingOf(s, a));
    forall i | 0 <= i < |s.triggers|
      ensures x.triggers[i].phase != Claimed && !(Taken(s.triggers[i], x.triggers[i]) && x.point == Raised)
    {
      assert Later(s.triggers[i], x.triggers[i]);
      if Taken(s.triggers[i], x.triggers[i]) {
        assert TakenRightly(ListingOf(s, a), s.triggers, s.runs, x, i, a.turn.lease);
      }
    }
  }

  lemma StepStaysHealthy(s: State, a: Action)
    requires Safe(s) && Healthy(s) && Enabled(s, a) && Harmless(a)
    ensures Healthy(Next(s, a))
  {
    match a {
      case Start(_, _) => PassStaysHealthy(s, a);
      case Resume(_, _) => PassStaysHealthy(s, a);
      case Create(_, prompt) => StripTwice(prompt);
      case Update(_, _, prompt) => StripTwice(prompt);
      case _ =>
    }
  }

  /** In a history without such edits and ends no occurrence is ever left claimed and no pass
      ends in an error, because a schedule is never created with a blank prompt. */
  lemma {:induction false} NoFailureWithoutBlanks(states: seq<State>, actions: seq<Action>, i: nat)
    requires IsRun(states, actions) && i < |states|
    requires forall k {:trigger actions[k]} :: 0 <= k < i ==> Harmless(actions[k])
    ensures forall j :: 0 <= j < |states[i].triggers| ==> states[i].triggers[j].phase != Claimed
    ensures forall a :: PassStep(states[i], a) && !a.turn.dies ==> StretchOf(states[i], a).point != Raised
  {
    AlwaysHealthy(states, actions, i);
    RunsAreSafe(states, actions, i);
    forall a | PassStep(states[i], a) && !a.turn.dies
      ensures StretchOf(states[i], a).point != Raised
    {
      PassStaysHealthy(states[i], a);
    }
  }

  lemma {:induction false} AlwaysHealthy(states: seq<State>, actions: seq<Action>, i: nat)
    requires IsRun(states, actions) && i < |states|
    requires forall k {:trigger actions[k]} :: 0 <= k < i ==> Harmless(actions[k])
    ensures Healthy(states[i])
  {
    if i > 0 {
      AlwaysHealthy(states, actions, i - 1);
      RunsAreSafe(states, actions, i - 1);
      StepStaysHealthy(states[i - 1], actions[i - 1]);
    } else {
      assert forall k :: 0 <= k < |states[0].routines| ==> states[0].routines[k] in states[0].routines;
    }
  }

  // ---------------------------------------------------------------- what a failed claim holds back

  /** What ends the hold of a claimed occurrence: its lease's end, or a new generation. */
  predicate Releases(t: Trigger, a: Action) {
    (a.RecoverLeases? && Lapsed(t.lease, a.now)) || (a.Update? && a.schedule == t.schedule)
  }

  /** Occurrence i stays, its schedule gets no run, and the pending ones wait, if waits. */
  ghost predicate Holds(ts: seq<Trigger>, us: seq<Trigger>, i: nat, waits: bool)
    requires i < |ts|
  {
    var at := ts[i].schedule;
    && |ts| <= |us| && us[i] == ts[i]
    && (forall j :: 0 <= j < |ts| ==> us[j].schedule == ts[j].schedule)
    && (forall j :: 0 <= j < |ts| && ts[j].schedule == at ==>
          us[j].run == ts[j].run && (waits && ts[j].phase == Pending ==> us[j] == ts[j]))
    && (forall j :: |ts| <= j < |us| && us[j].schedule == at ==> us[j].run.None?)
  }

  lemma {:induction false} LoopHolds(schedule: Schedule, at: nat, ts: seq<Trigger>, runs: seq<RunStatus>,
                                     pending: seq<nat>, turn: Turn, i: nat)
    requires i < |ts| && ts[i].phase == Claimed && RowsOf(ts, at, pending)
    requires schedule.policy == Queue && pending != [] ==> !ActiveIn(ts, at)
    ensures Holds(ts, Loop(schedule, at, ts, runs, pending, turn).triggers, i, true)
    ensures |Loop(schedule, at, ts, runs, pending, turn).triggers| == |ts|
  {
    if pending != [] && !(ActiveIn(ts, at) && schedule.policy != Queue) && !Claimable(ts[pending[0]], turn.now) {
      LoopHolds(schedule, at, ts, runs, pending[1..], turn, i);
    }
  }

  lemma SyncHolds(ts: seq<Trigger>, runs: seq<RunStatus>, i: nat)
    requires i < |ts| && ts[i].phase == Claimed
    ensures Holds(ts, Sync(ts, runs), i, true)
  {
  }

  predicate Waits(listing: seq<Schedule>, at: nat) {
    at < |listing| ==> listing[at].policy != Skip
  }

  lemma BeginHolds(schedule: Schedule, at: nat, ts: seq<Trigger>, runs: seq<RunStatus>, turn: Turn, i: nat)
    requires i < |ts| && ts[i].phase == Claimed
    ensures var us := Begin(schedule, at, ts, runs, turn).triggers;
            |us| == |ts| && Holds(ts, us, i, at != ts[i].schedule || schedule.policy != Skip)
  {
    if !ActiveIn(ts, at) {
      LoopHolds(schedule, at, ts, runs, PendingFrom(ts, at, 0), turn, i);
    }
  }

  lemma {:induction false} WalkHolds(listing: seq<Schedule>, at: nat, ts: seq<Trigger>, runs: seq<RunStatus>,
                                     turn: Turn, i: nat)
    requires at <= |listing| && i < |ts| && ts[i].phase == Claimed
    ensures var us := Walk(listing, at, ts, runs, turn).triggers;
            |us| == |ts| && Holds(ts, us, i, Waits(listing, ts[i].schedule))
    decreases |listing| - at
  {
    if at < |listing| {
      var x := Begin(listing[at], at, ts, runs, turn);
      BeginHolds(listing[at], at, ts, runs, turn, i);
      if x.point == Done {
        WalkHolds(listing, at + 1, x.triggers, x.runs, turn, i);
      }
    }
  }

  lemma FinishHolds(listing: seq<Schedule>, at: nat, point: Point, ts: seq<Trigger>, runs: seq<RunStatus>,
                    turn: Turn, i: nat)
    requires Held(listing, |ts|, at, point) && PointOk(listing[at], ts, at, point)
    requires i < |ts| && ts[i].phase == Claimed
    ensures var us := FinishOne(listing, at, point, ts, runs, turn).triggers;
            |us| == |ts| && Holds(ts, us, i, true)
  {
    match point {
      case Cancelling(pending) =>
        SyncHolds(ts, runs, i);
        if !ActiveIn(Sync(ts, runs), at) {
          LoopHolds(listing[at], at, Sync(ts, runs), runs, pending, turn, i);
        }
      case Activating(pending) =>
        LoopHolds(listing[at], at, ts, runs, pending, turn, i);
    }
  }

  lemma StretchHolds(s: State, a: Action, i: nat)
    requires Safe(s) && PassStep(s, a) && i < |s.triggers| && s.triggers[i].phase == Claimed
    ensures Holds(s.triggers, StretchOf(s, a).triggers, i, Waits(ListingOf(s, a), s.triggers[i].schedule))
  {
    if a.Start? {
      WalkHolds(s.schedules, 0, s.triggers, s.runs, a.turn, i);
    } else {
      var r := s.routines[a.routine];
      assert RoutineOk(s.triggers, r);
      FinishHolds(r.listing, r.at, r.point, s.triggers, s.runs, a.turn, i);
      var x := FinishOne(r.listing, r.at, r.point, s.triggers, s.runs, a.turn);
      if x.point == Done {
        FinishIsGood(r.listing, r.at, r.point, s.triggers, s.runs, a.turn);
        WalkHolds(r.listing, r.at + 1, x.triggers, x.runs, a.turn, i);
      }
    }
  }

  /** A claimed occurrence stays as it is through every step but its release; then it is pending
      again, or superseded. */
  lemma StepHoldsIff(s: State, a: Action, i: nat)
    requires Safe(s) && Enabled(s, a) && i < |s.triggers| && s.triggers[i].phase == Claimed
    ensures i < |Next(s, a).triggers|
    ensures Next(s, a).triggers[i] == s.triggers[i] <==> !Releases(s.triggers[i], a)
    ensures Releases(s.triggers[i], a) ==>
              Next(s, a).triggers[i].phase == if a.Update? then Phase.Skipped else Pending
  {
    if a.Start? || a.Resume? {
      StretchHolds(s, a, i);
    }
  }

  /** No pass will skip what is pending of this schedule. */
  ghost predicate Patient(s: State, at: nat) {
    && at < |s.schedules| && s.schedules[at].policy != Skip
    && forall k :: 0 <= k < |s.routines| && s.routines[k].Suspended? ==> Waits(s.routines[k].listing, at)
  }

  lemma StepHolds(s: State, a: Action, i: nat)
    requires Safe(s) && Enabled(s, a) && i < |s.triggers| && s.triggers[i].phase == Claimed
    requires !Releases(s.triggers[i], a)
    ensures Holds(s.triggers, Next(s, a).triggers, i, Patient(s, s.triggers[i].schedule))
    ensures Patient(s, s.triggers[i].schedule) ==> Patient(Next(s, a), s.triggers[i].schedule)
  {
    if a.Start? || a.Resume? {
      StretchHolds(s, a, i);
    } else if a.SyncStates? {
      SyncHolds(s.triggers, s.runs, i);
    }
  }

  /** A claim without a run keeps its schedule from getting any run until its lease's end or an
      edit of the schedule, in every history. What else is pending waits with it, unless some
      pass follows SKIP. */
  lemma {:induction false} HeldUntilReleased(states: seq<State>, actions: seq<Action>, j: nat, k: nat, i: nat)
    requires IsRun(states, actions) && j <= k < |states|
    requires i < |states[j].triggers| && states[j].triggers[i].phase == Claimed
    requires forall l {:trigger actions[l]} :: j <= l < k ==> !Releases(states[j].triggers[i], actions[l])
    ensures Holds(states[j].triggers, states[k].triggers, i, Patient(states[j], states[j].triggers[i].schedule))
    ensures Patient(states[j], states[j].triggers[i].schedule) ==> Patient(states[k], states[j].triggers[i].schedule)
  {
    if j < k {
      HeldUntilReleased(states, actions, j, k - 1, i);
      RunsAreSafe(states, actions, k - 1);
      StepHolds(states[k - 1], actions[k - 1], i);
    }
  }

  /** Under SKIP the next pass that gets as far as the schedule gives the waiting ones up. */
  lemma SkipLosesWaiting(listing: seq<Schedule>, at: nat, ts: seq<Trigger>, runs: seq<RunStatus>, turn: Turn, i: nat,
                         j: nat)
    requires i < |ts| && ts[i].schedule == at && ts[i].phase == Claimed && PendingAt(ts, at, j)
    requires at < StopFrom(listing, ts, 0) && listing[at].enabled && listing[at].policy == Skip
    ensures j < |Walk(listing, 0, ts, runs, turn).triggers|
    ensures Walk(listing, 0, ts, runs, turn).triggers[j] == ts[j].(phase := Phase.Skipped)
  {
    var stop := StopFrom(listing, ts, 0);
    var us := WalkOutcome(listing, 0, stop, ts, runs, turn);
    assert LosesPending(listing[at], at, ts) && us[j] == ts[j].(phase := Phase.Skipped);
    if stop < |listing| {
      SameRowsSameTurn(listing[stop], ts, us, stop);
      var n :| 0 <= n < |us| && PendingAt(us, stop, n);
      var f := FirstPendingExists(us, stop, n);
      PassOutcome(listing[stop], stop, us, runs, f, turn);
    }
  }

  // ---------------------------------------------------------------- a blank prompt never runs

  predicate BlankAt(listing: seq<Schedule>, at: nat) {
    at < |listing| ==> Blank(listing[at].prompt)
  }

  ghost predicate SameRuns(ts: seq<Trigger>, us: seq<Trigger>, at: nat) {
    && |ts| <= |us|
    && (forall j :: 0 <= j < |ts| ==> us[j].schedule == ts[j].schedule)
    && (forall j :: 0 <= j < |ts| && ts[j].schedule == at ==> us[j].run == ts[j].run)
    && forall j :: |ts| <= j < |us| && us[j].schedule == at ==> us[j].run.None?
  }

  lemma {:induction false} LoopNoRuns(schedule: Schedule, k: nat, ts: seq<Trigger>, runs: seq<RunStatus>,
                                      pending: seq<nat>, turn: Turn, at: nat)
    requires RowsOf(ts, k, pending) && (k == at ==> Blank(schedule.prompt))
    ensures var us := Loop(schedule, k, ts, runs, pending, turn).triggers; |us| == |ts| && SameRuns(ts, us, at)
  {
    if pending != [] && !(ActiveIn(ts, k) && schedule.policy != Queue) && !Claimable(ts[pending[0]], turn.now) {
      LoopNoRuns(schedule, k, ts, runs, pending[1..], turn, at);
    }
  }

  lemma {:induction false} WalkNoRuns(listing: seq<Schedule>, k: nat, ts: seq<Trigger>, runs: seq<RunStatus>,
                                      turn: Turn, at: nat)
    requires k <= |listing| && BlankAt(listing, at)
    ensures var us := Walk(listing, k, ts, runs, turn).triggers; |us| == |ts| && SameRuns(ts, us, at)
    decreases |listing| - k
  {
    if k < |listing| {
      var x := Begin(listing[k], k, ts, runs, turn);
      if !ActiveIn(ts, k) {
        LoopNoRuns(listing[k], k, ts, runs, PendingFrom(ts, k, 0), turn, at);
      }
      if x.point == Done {
        WalkNoRuns(listing, k + 1, x.triggers, x.runs, turn, at);
      }
    }
  }

  lemma FinishNoRuns(listing: seq<Schedule>, k: nat, point: Point, ts: seq<Trigger>, runs: seq<RunStatus>, turn: Turn,
                     at: nat)
    requires Held(listing, |ts|, k, point) && PointOk(listing[k], ts, k, point) && BlankAt(listing, at)
    ensures var us := FinishOne(listing, k, point, ts, runs, turn).triggers; |us| == |ts| && SameRuns(ts, us, at)
  {
    match point {
      case Cancelling(pending) =>
        var synced := Sync(ts, runs);
        if !ActiveIn(synced, k) {
          LoopNoRuns(listing[k], k, synced, runs, pending, turn, at);
        }
      case Activating(pending) =>
        LoopNoRuns(listing[k], k, ts, runs, pending, turn, at);
    }
  }

  lemma StretchNoRuns(s: State, a: Action, at: nat)
    requires Safe(s) && PassStep(s, a) && BlankAt(ListingOf(s, a), at)
    ensures SameRuns(s.triggers, StretchOf(s, a).triggers, at)
  {
    if a.Start? {
      WalkNoRuns(s.schedules, 0, s.triggers, s.runs, a.turn, at);
    } else {
      var r := s.routines[a.routine];
      assert RoutineOk(s.triggers, r);
      FinishNoRuns(r.listing, r.at, r.point, s.triggers, s.runs, a.turn, at);
      FinishIsGood(r.listing, r.at, r.point, s.triggers, s.runs, a.turn);
      var x := FinishOne(r.listing, r.at, r.point, s.triggers, s.runs, a.turn);
      if x.point == Done {
        WalkNoRuns(r.listing, r.at + 1, x.triggers, x.runs, a.turn, at);
      }
    }
  }

  /** The schedule's prompt is blank, and so is what every pass in progress has read of it. */
  ghost predicate BlankIn(s: State, at: nat) {
    && at < |s.schedules| && Blank(s.schedules[at].prompt)
    && forall k :: 0 <= k < |s.routines| && s.routines[k].Suspended? ==> BlankAt(s.routines[k].listing, at)
  }

  lemma StepNoRuns(s: State, a: Action, at: nat)
    requires Safe(s) && Enabled(s, a) && BlankIn(s, at) && !(a.Update? && a.schedule == at)
    ensures BlankIn(Next(s, a), at) && SameRuns(s.triggers, Next(s, a).triggers, at)
  {
    if a.Start? || a.Resume? {
      StretchNoRuns(s, a, at);
    }
  }

  /** As long as the prompt stays blank the schedule is given no run, in any history, however
      often its claims are recovered. */
  lemma {:induction false} BlankNeverRuns(states: seq<State>, actions: seq<Action>, j: nat, k: nat, at: nat)
    requires IsRun(states, actions) && j <= k < |states| && BlankIn(states[j], at)
    requires forall l {:trigger actions[l]} :: j <= l < k ==> !(actions[l].Update? && actions[l].schedule == at)
    ensures BlankIn(states[k], at) && SameRuns(states[j].triggers, states[k].triggers, at)
  {
    if j < k {
      BlankNeverRuns(states, actions, j, k - 1, at);
      RunsAreSafe(states, actions, k - 1);
      StepNoRuns(states[k - 1], actions[k - 1], at);
    }
  }

  // ---------------------------------------------------------------- an instance

  /** Creating a schedule with the prompt " " is refused, editing one to it is not. */
  function BlankEdit(): seq<Action> {
    [Create(Queue, " "), Create(Queue, "a"), Create(Queue, "b"), Update(0, Queue, " "),
     Arrive(Trigger(0, Pending, None, None)), Arrive(Trigger(1, Pending, None, None)), Start(0, Turn(5, 65, false))]
  }

  /** Two schedules, the first edited to a blank prompt: the pass claims the first one's
      occurrence, ends, and never comes to the second. */
  lemma BlankEditInstance() returns (states: seq<State>)
    ensures IsRun(states, BlankEdit()) && states[1] == states[0]
    ensures states[7] == State([Schedule(true, Queue, ""), Schedule(true, Queue, "b")],
                               [Trigger(0, Claimed, Some(65), None), Trigger(1, Pending, None, None)], [], [Idle])
  {
    var s0 := State([], [], [], [Idle]);
    var s2 := s0.(schedules := [Schedule(true, Queue, "a")]);
    var s3 := s0.(schedules := [Schedule(true, Queue, "a"), Schedule(true, Queue, "b")]);
    var s4 := s0.(schedules := [Schedule(true, Queue, ""), Schedule(true, Queue, "b")]);
    var s5 := s4.(triggers := [Trigger(0, Pending, None, None)]);
    var s6 := s4.(triggers := [Trigger(0, Pending, None, None), Trigger(1, Pending, None, None)]);
    var s7 := s4.(triggers := [Trigger(0, Claimed, Some(65), None), Trigger(1, Pending, None, None)]);
    states := [s0, s0, s2, s3, s4, s5, s6, s7];
    BlankEditStores(s0, s2, s3, s4);
    assert s5 == Next(s4, BlankEdit()[4]) && s6 == Next(s5, BlankEdit()[5]);
    BlankPass(s6, s7);
  }

  lemma BlankEditStores(s0: State, s2: State, s3: State, s4: State)
    requires s0.schedules == [] && s0.triggers == []
    requires s2 == s0.(schedules := [Schedule(true, Queue, "a")])
    requires s3 == s0.(schedules := [Schedule(true, Queue, "a"), Schedule(true, Queue, "b")])
    requires s4 == s0.(schedules := [Schedule(true, Queue, ""), Schedule(true, Queue, "b")])
    ensures Next(s0, Create(Queue, " ")) == s0 && Next(s0, Create(Queue, "a")) == s2
    ensures Next(s2, Create(Queue, "b")) == s3 && Next(s3, Update(0, Queue, " ")) == s4
  {
    assert Blank(" ") && !Blank("a") && !Blank("b");
  }

  lemma BlankPass(s: State, after: State)
    requires s == State([Schedule(true, Queue, ""), Schedule(true, Queue, "b")],
                        [Trigger(0, Pending, None, None), Trigger(1, Pending, None, None)], [], [Idle])
    requires after == s.(triggers := [Trigger(0, Claimed, Some(65), None), Trigger(1, Pending, None, None)])
    ensures Next(s, Start(0, Turn(5, 65, false))) == after
  {
    var turn := Turn(5, 65, false);
    assert FirstPending(s.triggers, 0, 0);
    FailedDispatch(s.schedules, s.triggers, [], turn, 0);
    assert Walk(s.schedules, 0, s.triggers, [], turn).triggers == after.triggers;
    assert s.routines[0 := Idle] == [Idle];
  }
}
