/**
 When a schedule fires, what a tick decides about each time it finds due, and which schedules a
 tick gets to, in plain numbers.
 */
module SchedulerOutcomes {
  import opened Wrappers
  import opened Scheduler

  // ---------------------------------------------------------------- fire times

  function Repeated(f: int -> int, x: int, n: nat): int {
    if n == 0 then x else f(Repeated(f, x, n - 1))
  }

  lemma {:induction false} RepeatedInside(f: int -> int, x: int, n: nat)
    ensures Repeated(f, f(x), n) == Repeated(f, x, n + 1)
  {
    if n > 0 {
      RepeatedInside(f, x, n - 1);
    }
  }

  /** A cron schedule fires at its cron times one after the other, an interval or heartbeat every so
      many seconds, and a one-shot once. */
  lemma {:induction false} FireOutcome(t: Trigger, first: int, k: nat)
    ensures match t
            case Cron(nextFire) => Fire(t, first, k) == Some(Repeated(nextFire, first, k))
            case Interval(seconds) => Fire(t, first, k) == Some(first + k * seconds * 1000000)
            case Heartbeat(seconds) => Fire(t, first, k) == Some(first + k * seconds * 1000000)
            case OneShot => Fire(t, first, k) == if k == 0 then Some(first) else None
    decreases k
  {
    if k > 0 {
      match t
      case Cron(nextFire) =>
        FireOutcome(t, nextFire(first), k - 1);
        RepeatedInside(nextFire, first, k - 1);
      case Interval(seconds) =>
        FireOutcome(t, first + seconds * 1000000, k - 1);
        OneStepMore(first, seconds, k);
      case Heartbeat(seconds) =>
        FireOutcome(t, first + seconds * 1000000, k - 1);
        OneStepMore(first, seconds, k);
      case OneShot =>
    }
  }

  lemma OneStepMore(first: int, seconds: int, k: nat)
    requires k > 0
    ensures first + seconds * 1000000 + (k - 1) * seconds * 1000000 == first + k * seconds * 1000000
  {
    assert (k - 1) * seconds == k * seconds - seconds;
  }

  // ---------------------------------------------------------------- one tick

  /** The time lies further back than the grace. */
  predicate Late(at: int, now: int, graceSeconds: int) {
    now - at > graceSeconds * 1000000
  }

  /** What becomes of a due time: under the skipping policy a heartbeat's older times are skipped,
      under the run-once policy older times are missed, and what is late is missed. */
  predicate DecidedAs(s: Schedule, at: int, newest: bool, now: int, state: TriggerState) {
    && (state == TriggerState.Skipped <==> s.misfire == Misfire.Skip && s.trigger.Heartbeat? && !newest)
    && (state == Missed <==>
        if s.misfire == RunOnce && !newest then true
        else Late(at, now, s.grace) && !(s.misfire == Misfire.Skip && s.trigger.Heartbeat? && !newest))
  }

  /** A tick of an enabled schedule whose next run has come: each fire time up to now is decided, in
      order, after what was decided before; the last one is the last run, and the next run is
      the first fire time after now, if the schedule goes on. */
  lemma TickOutcome(s: Schedule, now: int, k: nat)
    requires Orderly(s) && Ticked(s, now).Ok? && s.enabled && s.nextRun.Some? && s.nextRun.value <= now
    ensures var x := Ticked(s, now).value; var n := |x.decided| - |s.decided|;
            && n >= 1 && s.decided <= x.decided
            && (k < n ==>
                  var d := x.decided[|s.decided| + k];
                  && Fire(s.trigger, s.nextRun.value, k) == Some(d.at) && d.at <= now
                  && DecidedAs(s, d.at, k == n - 1, now, d.state))
            && x.lastRun == Fire(s.trigger, s.nextRun.value, n - 1)
            && x.nextRun == Fire(s.trigger, s.nextRun.value, n)
            && (x.nextRun.Some? ==> x.nextRun.value > now)
            && x == s.(nextRun := x.nextRun, lastRun := x.lastRun, decided := x.decided)
  {
    TickAppends(s, now);
    DueNotEmpty(s, now);
    var due := DueOf(s, now);
    DueIncreasing(s.trigger, s.nextRun.value, now);
    DueAreFireTimes(s.trigger, s.nextRun.value, now, k);
    DueAreFireTimes(s.trigger, s.nextRun.value, now, |due| - 1);
    DueAreFireTimes(s.trigger, s.nextRun.value, now, |due|);
    assert k < |due| ==> due[k] in due;
  }

  /** Any other schedule is left as it is. */
  lemma NotYet(s: Schedule, now: int)
    requires Valid(s.trigger) && (!s.enabled || s.nextRun.None? || s.nextRun.value > now)
    ensures Ticked(s, now) == Ok(s)
  {
  }

  // ---------------------------------------------------------------- all schedules

  /** A tick is cut short exactly when some schedule is over the limit. */
  lemma {:induction false} SweepRaisesIff(schedules: seq<Schedule>, i: nat, now: int)
    requires i <= |schedules| && Validated(schedules)
    ensures SweepFrom(schedules, i, now).1 <==> exists j :: i <= j < |schedules| && Ticked(schedules[j], now).Err?
    decreases |schedules| - i
  {
    if i < |schedules| {
      SweepOneMore(schedules, i, now);
      if Ticked(schedules[i], now).Ok? {
        var next := schedules[i := Ticked(schedules[i], now).value];
        SweepRaisesIff(next, i + 1, now);
        assert forall j :: i < j < |schedules| ==> next[j] == schedules[j];
      }
    }
  }

  /** It materializes the schedules in turn up to the first that is over the limit. */
  lemma {:induction false} SweepOutcome(schedules: seq<Schedule>, i: nat, now: int, k: nat)
    requires i <= k < |schedules| && Validated(schedules)
    ensures SweepFrom(schedules, i, now).0[k] ==
            if forall j :: i <= j <= k ==> Ticked(schedules[j], now).Ok? then Ticked(schedules[k], now).value
            else schedules[k]
    decreases |schedules| - i
  {
    SweepOneMore(schedules, i, now);
    if Ticked(schedules[i], now).Ok? {
      var next := schedules[i := Ticked(schedules[i], now).value];
      if i < k {
        SweepOutcome(next, i + 1, now, k);
        assert forall j :: i < j <= k ==> next[j] == schedules[j];
      }
    }
  }
}
