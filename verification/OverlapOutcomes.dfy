/**
 What the steps around a dispatch pass make of the occurrences: state synchronization, lease
 recovery, schedule edits, and what a suspended pass goes on to do.
 */
module OverlapOutcomes {
  import opened Wrappers
  import opened Text
  import opened Overlap
  import opened OverlapRuns

  /** Synchronization brings a dispatched or running occurrence to the status of its run, and touches
      no other. */
  lemma SyncOutcome(s: State, i: nat)
    requires i < |s.triggers|
    ensures var s' := Next(s, SyncStates); var t := s.triggers[i];
            && s' == s.(triggers := s'.triggers) && |s'.triggers| == |s.triggers|
            && s'.triggers[i] ==
               if t.phase in {Dispatched, Phase.Running} && t.run.Some? && t.run.value < |s.runs| then
                 match s.runs[t.run.value]
                 case RunQueued => t
                 case RunRunning => t.(phase := Phase.Running)
                 case RunCompleted => t.(phase := Completed)
                 case RunFailed => t.(phase := Failed)
                 case RunCancelled => t.(phase := Cancelled)
               else t
  {
  }

  /** Recovery puts back claims without a run whose lease has run out, and nothing else. */
  lemma RecoverOutcome(s: State, now: int, i: nat)
    requires i < |s.triggers|
    ensures var s' := Next(s, RecoverLeases(now)); var t := s.triggers[i];
            && s' == s.(triggers := s'.triggers) && |s'.triggers| == |s.triggers|
            && s'.triggers[i] ==
               if t.phase == Claimed && t.run.None? && t.lease.Some? && t.lease.value <= now
               then t.(phase := Pending, lease := None) else t
  {
  }

  /** An edit gives the schedule its new policy and its prompt without white space around it, and
      skips what of it is pending or claimed. */
  lemma EditOutcome(s: State, k: nat, policy: Policy, prompt: string, i: nat)
    requires k < |s.schedules| && i < |s.triggers|
    ensures var s' := Next(s, Update(k, policy, prompt)); var t := s.triggers[i];
            && s'.runs == s.runs && s'.routines == s.routines && |s'.triggers| == |s.triggers|
            && s'.schedules == s.schedules[k := Schedule(s.schedules[k].enabled, policy, Strip(prompt))]
            && s'.triggers[i] ==
               if t.schedule == k && t.phase in {Pending, Claimed} then t.(phase := Phase.Skipped) else t
  {
  }

  /** A new schedule is enabled; with nothing but white space for a prompt there is none. */
  lemma CreateOutcome(s: State, policy: Policy, prompt: string)
    ensures Next(s, Create(policy, prompt)) ==
            if Strip(prompt) == "" then s
            else s.(schedules := s.schedules + [Schedule(true, policy, Strip(prompt))])
  {
  }

  // ---------------------------------------------------------------- a suspended pass goes on

  /** The first of the rows held that can be claimed. */
  ghost predicate NextUp(ts: seq<Trigger>, pending: seq<nat>, now: int, k: nat)
    requires InBounds(pending, |ts|)
  {
    && k < |pending| && Free(ts[pending[k]], now)
    && forall l :: 0 <= l < k ==> !Free(ts[pending[l]], now)
  }

  predicate Free(t: Trigger, now: int) {
    t.phase == Pending || (t.phase == Claimed && t.lease.Some? && t.lease.value <= now)
  }

  /** An occurrence of the schedule is claimed, dispatched or running. */
  predicate Busy(ts: seq<Trigger>, at: nat) {
    exists i :: 0 <= i < |ts| && ts[i].schedule == at && ts[i].phase in {Claimed, Dispatched, Phase.Running}
  }

  lemma BusyIsActive(ts: seq<Trigger>, at: nat)
    ensures Busy(ts, at) <==> ActiveIn(ts, at)
  {
  }

  /** What the loop over the rows held does next: nothing while something of the schedule is active,
      unless it queues, or if none can be claimed; otherwise the first that can is claimed, and
      submitted with a new run unless the prompt is blank or the process ends. */
  lemma {:induction false} LoopOutcome(schedule: Schedule, at: nat, ts: seq<Trigger>, runs: seq<RunStatus>,
                                       pending: seq<nat>, turn: Turn, k: nat)
    requires InBounds(pending, |ts|)
    ensures var x := Loop(schedule, at, ts, runs, pending, turn);
            && x.at == at
            && (Busy(ts, at) && schedule.policy != Queue ==> x == Stretch(ts, runs, at, Done))
            && ((forall l :: 0 <= l < |pending| ==> !Free(ts[pending[l]], turn.now)) ==>
                  x == Stretch(ts, runs, at, Done))
            && (NextUp(ts, pending, turn.now, k) && !(Busy(ts, at) && schedule.policy != Queue) ==>
                  var t := ts[pending[k]];
                  if Strip(schedule.prompt) == "" || turn.dies then
                    x == Stretch(ts[pending[k] := t.(phase := Claimed, lease := Some(turn.lease))], runs, at, Raised)
                  else
                    && x.triggers == ts[pending[k] := t.(phase := Dispatched, lease := None, run := Some(|runs|))]
                    && x.runs == runs + [RunQueued]
                    && x.point == Activating(if schedule.policy == Queue then [] else pending[k + 1..]))
  {
    BusyIsActive(ts, at);
    if pending != [] && !Claimable(ts[pending[0]], turn.now) && !(ActiveIn(ts, at) && schedule.policy != Queue) {
      LoopOutcome(schedule, at, ts, runs, pending[1..], turn, if k > 0 then k - 1 else 0);
      assert forall l :: 0 <= l < |pending| - 1 ==> pending[1..][l] == pending[l + 1];
      assert 0 < k < |pending| ==> pending[1..][k..] == pending[k + 1..];
    }
  }

  /** After cancelling what it replaces, a pass brings the states up to date and goes on to claim only
      if nothing of the schedule is active any more. */
  lemma AfterCancelOutcome(schedule: Schedule, at: nat, ts: seq<Trigger>, runs: seq<RunStatus>, pending: seq<nat>,
                           turn: Turn)
    requires InBounds(pending, |ts|)
    ensures var x := AfterCancelling(schedule, at, ts, runs, pending, turn);
            var synced := Next(State([], ts, runs, []), SyncStates).triggers;
            x == if Busy(synced, at) then Stretch(synced, runs, at, Done)
                 else Loop(schedule, at, synced, runs, pending, turn)
  {
    BusyIsActive(Sync(ts, runs), at);
  }

  /** When a suspended pass is done with its schedule it takes the following ones as a new pass would. */
  lemma ResumeOutcome(s: State, k: nat, turn: Turn)
    requires Enabled(s, Resume(k, turn)) && !turn.dies
    ensures var r := s.routines[k]; var x := FinishOne(r.listing, r.at, r.point, s.triggers, s.runs, turn);
            Next(s, Resume(k, turn)) ==
            Put(s, k, r.listing,
                if x.point == Done then Walk(r.listing, r.at + 1, x.triggers, x.runs, turn) else x, false)
  {
  }
}
