/**
 Schedules: which occurrences a tick finds due, what it decides about each, and when the
 schedule fires next. Times are whole microseconds.
 */
module Scheduler {
  import opened Wrappers

  const Second := 1000000
  const Limit := 1000

  // nextFire: the first matching time after a given one, as the cron library computes it.
  datatype Trigger = Cron(nextFire: int -> int) | Interval(seconds: int) | Heartbeat(seconds: int) | OneShot

  /** What validation lets through: a positive interval, and a cron that moves forward. */
  ghost predicate Valid(t: Trigger) {
    match t
    case Cron(nextFire) => forall x :: nextFire(x) > x
    case Interval(seconds) => seconds > 0
    case Heartbeat(seconds) => seconds > 0
    case OneShot => true
  }

  datatype Misfire = Skip | RunOnce | CatchUp

  datatype TriggerState = Pending | Missed | Skipped

  datatype Decision = Decision(at: int, state: TriggerState)

  datatype Schedule = Schedule(enabled: bool, trigger: Trigger, misfire: Misfire, grace: int,
                               nextRun: Option<int>, lastRun: Option<int>, decided: seq<Decision>)

  function Following(t: Trigger, current: int): Option<int> {
    match t
    case OneShot => None
    case Interval(seconds) => Some(current + seconds * Second)
    case Heartbeat(seconds) => Some(current + seconds * Second)
    case Cron(nextFire) => Some(nextFire(current))
  }

  // ---------------------------------------------------------------- fire times

  lemma FollowingLater(t: Trigger, current: int)
    requires Valid(t) && Following(t, current).Some?
    ensures Following(t, current).value > current
  {
  }

  /** The k-th fire time counted from a first one. */
  ghost function Fire(t: Trigger, first: int, k: nat): Option<int>
    decreases k
  {
    if k == 0 then Some(first)
    else
      match Following(t, first)
      case None => None
      case Some(x) => Fire(t, x, k - 1)
  }

  /** The fire times from a first one up to now. */
  ghost function Due(t: Trigger, first: int, now: int): seq<int>
    requires Valid(t)
    decreases now - first
  {
    if first > now then []
    else
      match Following(t, first)
      case None => [first]
      case Some(x) => FollowingLater(t, first); [first] + Due(t, x, now)
  }

  /** The first fire time after now, if there is one. */
  ghost function FirstAfter(t: Trigger, first: int, now: int): Option<int>
    requires Valid(t)
    decreases now - first
  {
    if first > now then Some(first)
    else
      match Following(t, first)
      case None => None
      case Some(x) => FollowingLater(t, first); FirstAfter(t, x, now)
  }

  ghost predicate Increasing(s: seq<int>) {
    forall i, j :: 0 <= i < j < |s| ==> s[i] < s[j]
  }

  lemma {:induction false} DueIncreasing(t: Trigger, first: int, now: int)
    requires Valid(t)
    ensures Increasing(Due(t, first, now))
    ensures forall x <- Due(t, first, now) :: first <= x <= now
    ensures FirstAfter(t, first, now).Some? ==> FirstAfter(t, first, now).value > now
    decreases now - first
  {
    if first <= now && Following(t, first).Some? {
      FollowingLater(t, first);
      DueIncreasing(t, Following(t, first).value, now);
      var rest := Due(t, Following(t, first).value, now);
      assert forall i :: 0 <= i < |rest| ==> rest[i] in rest;
      assert Due(t, first, now) == [first] + rest;
    }
  }

  /** The due list holds the k-th fire time at place k, and the next fire time is the first
      that is not due. */
  lemma {:induction false} DueAreFireTimes(t: Trigger, first: int, now: int, k: nat)
    requires Valid(t)
    ensures var due := Due(t, first, now);
            && (k < |due| ==> Fire(t, first, k) == Some(due[k]))
            && (k == |due| ==> Fire(t, first, k) == FirstAfter(t, first, now))
            && (k >= |due| && Fire(t, first, k).Some? ==> Fire(t, first, k).value > now)
    decreases k
  {
    if first <= now {
      if Following(t, first).Some? && k > 0 {
        FollowingLater(t, first);
        DueAreFireTimes(t, Following(t, first).value, now, k - 1);
      } else if Following(t, first).Some? {
        assert k == 0;
      }
    } else if k > 0 && Following(t, first).Some? {
      FollowingLater(t, first);
      DueAreFireTimes(t, Following(t, first).value, now, k - 1);
    }
  }

  /** A tick finds due exactly the fire times that are not after it. */
  lemma DueExactly(t: Trigger, first: int, now: int, x: int)
    requires Valid(t)
    ensures x in Due(t, first, now) <==> exists k: nat :: Fire(t, first, k) == Some(x) && x <= now
  {
    var due := Due(t, first, now);
    DueIncreasing(t, first, now);
    if x in due {
      var k :| 0 <= k < |due| && due[k] == x;
      DueAreFireTimes(t, first, now, k);
      assert Fire(t, first, k) == Some(x) && x <= now;
    }
    if k: nat :| Fire(t, first, k) == Some(x) && x <= now {
      DueAreFireTimes(t, first, now, k);
    }
  }

  /** Fixed steps give a count in closed form. */
  lemma {:induction false} IntervalCount(t: Trigger, first: int, now: int)
    requires (t.Interval? || t.Heartbeat?) && Valid(t)
    ensures |Due(t, first, now)| == if first > now then 0 else (now - first) / (t.seconds * Second) + 1
    decreases now - first
  {
    if first <= now {
      var step := t.seconds * Second;
      IntervalCount(t, first + step, now);
      StepDown(now - first, step);
    }
  }

  lemma StepDown(a: int, step: int)
    requires a >= 0 && step > 0
    ensures a / step == if a < step then 0 else (a - step) / step + 1
  {
    if a >= step {
      var q := (a - step) / step;
      assert a == (q + 1) * step + (a - step) % step;
      Quotient(a, step, q + 1, (a - step) % step);
    } else {
      Quotient(a, step, 0, a);
    }
  }

  lemma Quotient(a: int, step: int, q: int, r: int)
    requires step > 0 && 0 <= r < step && a == q * step + r
    ensures a / step == q
  {
    var d := a / step - q;
    Scaled(d, step);
    assert d * step == r - a % step;
  }

  lemma Scaled(d: int, step: int)
    requires step > 0
    ensures d >= 1 ==> d * step >= step
    ensures d <= -1 ==> d * step <= -step
  {
  }

  // ---------------------------------------------------------------- decisions

  predicate OutsideGrace(at: int, now: int, grace: int) {
    now - at > grace * Second
  }

  /** Only the newest of several due occurrences may run. */
  predicate Collapses(s: Schedule) {
    s.misfire == RunOnce || (s.misfire == Skip && s.trigger.Heartbeat?)
  }

  /** What is decided about one due occurrence, from its age and whether it is the newest. */
  function Verdict(s: Schedule, at: int, newest: bool, now: int): TriggerState {
    if s.misfire == Skip && s.trigger.Heartbeat? && !newest then Skipped
    else if s.misfire == RunOnce && !newest then Missed
    else if OutsideGrace(at, now, s.grace) then Missed
    else Pending
  }

  ghost function Decisions(s: Schedule, due: seq<int>, now: int): seq<Decision> {
    seq(|due|, i requires 0 <= i < |due| => Decision(due[i], Verdict(s, due[i], i == |due| - 1, now)))
  }

  ghost predicate PendingFrom(ds: seq<Decision>, n: int) {
    && 0 <= n <= |ds|
    && forall i :: 0 <= i < |ds| ==> (ds[i].state == Pending <==> i >= n)
  }

  /** Every due occurrence is decided once, in order. The ones left to run are the newest,
      exactly those within grace, and under a collapsing policy at most the newest one. */
  lemma PendingIsSuffix(s: Schedule, due: seq<int>, now: int) returns (n: int)
    requires Increasing(due)
    ensures |Decisions(s, due, now)| == |due|
    ensures forall i :: 0 <= i < |due| ==> Decisions(s, due, now)[i].at == due[i]
    ensures PendingFrom(Decisions(s, due, now), n)
    ensures forall i :: n <= i < |due| ==> !OutsideGrace(due[i], now, s.grace)
    ensures if Collapses(s)
            then n == if due != [] && !OutsideGrace(due[|due| - 1], now, s.grace) then |due| - 1 else |due|
            else forall i :: 0 <= i < n ==> OutsideGrace(due[i], now, s.grace)
  {
    if Collapses(s) {
      n := if due != [] && !OutsideGrace(due[|due| - 1], now, s.grace) then |due| - 1 else |due|;
    } else {
      n := |due|;
      while n > 0 && !OutsideGrace(due[n - 1], now, s.grace)
        invariant 0 <= n <= |due|
        invariant forall i :: n <= i < |due| ==> !OutsideGrace(due[i], now, s.grace)
      {
        n := n - 1;
      }
      assert forall i :: 0 <= i < n ==> due[i] <= due[n - 1];
    }
  }

  // ---------------------------------------------------------------- one tick of one schedule

  datatype Error = TooMany

  /** An occurrence already decided is not decided again. */
  function Record(decided: seq<Decision>, ds: seq<Decision>): seq<Decision> {
    if ds == [] then decided
    else
      var before := Record(decided, ds[..|ds| - 1]);
      var d := ds[|ds| - 1];
      if exists e <- before :: e.at == d.at then before else before + [d]
  }

  ghost predicate Eligible(s: Schedule, now: int) {
    s.enabled && s.nextRun.Some? && s.nextRun.value <= now
  }

  ghost function DueOf(s: Schedule, now: int): seq<int>
    requires Valid(s.trigger)
  {
    if Eligible(s, now) then Due(s.trigger, s.nextRun.value, now) else []
  }

  /** A schedule after a tick: nothing happens before its time; otherwise every due time is
      decided and the next run is the first fire time after now. */
  ghost function Ticked(s: Schedule, now: int): Result<Schedule, Error>
    requires Valid(s.trigger)
  {
    var due := DueOf(s, now);
    if due == [] then Ok(s)
    else if |due| > Limit then Err(TooMany)
    else Ok(s.(nextRun := FirstAfter(s.trigger, s.nextRun.value, now), lastRun := Some(due[|due| - 1]),
               decided := Record(s.decided, Decisions(s, due, now))))
  }

  lemma DueNotEmpty(s: Schedule, now: int)
    requires Valid(s.trigger)
    ensures DueOf(s, now) != [] <==> Eligible(s, now)
  {
  }

  lemma DueOneMore(t: Trigger, cursor: int, now: int, due: seq<int>)
    requires Valid(t) && cursor <= now
    ensures match Following(t, cursor)
            case None => due + Due(t, cursor, now) == due + [cursor] && FirstAfter(t, cursor, now).None?
            case Some(x) =>
              && due + Due(t, cursor, now) == due + [cursor] + Due(t, x, now)
              && FirstAfter(t, cursor, now) == FirstAfter(t, x, now)
  {
    if Following(t, cursor).Some? {
      FollowingLater(t, cursor);
      JoinThree(due, [cursor], Due(t, Following(t, cursor).value, now));
    }
  }

  /** The loop over fire times stops after one more than the limit. */
  method Enumerate(t: Trigger, first: int, now: int) returns (due: seq<int>, cursor: int)
    requires Valid(t)
    ensures |Due(t, first, now)| <= Limit ==>
              due == Due(t, first, now)
                && (FirstAfter(t, first, now).Some? ==> FirstAfter(t, first, now) == Some(cursor))
    ensures |Due(t, first, now)| > Limit ==> |due| > Limit
  {
    due, cursor := [], first;
    var i := 0;
    while i < Limit + 1 && cursor <= now
      invariant 0 <= i <= Limit + 1 && |due| == i
      invariant Due(t, first, now) == due + Due(t, cursor, now)
      invariant FirstAfter(t, first, now) == FirstAfter(t, cursor, now)
    {
      var following := Following(t, cursor);
      DueOneMore(t, cursor, now, due);
      due := due + [cursor];
      if following.None? {
        cursor := now + Second;
        return;
      }
      cursor := following.value;
      i := i + 1;
    }
  }

  method Decide(s: Schedule, due: seq<int>, now: int) returns (decisions: seq<Decision>)
    ensures decisions == Decisions(s, due, now)
  {
    decisions := [];
    if s.misfire == Skip {
      var i := 0;
      while i < |due|
        invariant 0 <= i <= |due| && |decisions| == i
        invariant forall k :: 0 <= k < i ==> decisions[k] == Decision(due[k], Verdict(s, due[k], k == |due| - 1, now))
      {
        var late := OutsideGrace(due[i], now, s.grace);
        if s.trigger.Heartbeat? && i < |due| - 1 {
          decisions := decisions + [Decision(due[i], Skipped)];
        } else {
          decisions := decisions + [Decision(due[i], if late then Missed else Pending)];
        }
        i := i + 1;
      }
    } else if s.misfire == RunOnce {
      var i := 0;
      while i < |due| - 1
        invariant 0 <= i <= |due| && |decisions| == i && (|due| > 0 ==> i <= |due| - 1)
        invariant forall k :: 0 <= k < i ==> decisions[k] == Decision(due[k], Verdict(s, due[k], k == |due| - 1, now))
      {
        decisions := decisions + [Decision(due[i], Missed)];
        i := i + 1;
      }
      if |due| > 0 {
        var last := due[|due| - 1];
        decisions := decisions + [Decision(last, if OutsideGrace(last, now, s.grace) then Missed else Pending)];
      }
    } else {
      var i := 0;
      while i < |due|
        invariant 0 <= i <= |due| && |decisions| == i
        invariant forall k :: 0 <= k < i ==> decisions[k] == Decision(due[k], Verdict(s, due[k], k == |due| - 1, now))
      {
        decisions := decisions + [Decision(due[i], if OutsideGrace(due[i], now, s.grace) then Missed else Pending)];
        i := i + 1;
      }
    }
    assert decisions == Decisions(s, due, now);
  }

  method Materialize(s: Schedule, now: int) returns (r: Result<Schedule, Error>)
    requires Valid(s.trigger) && Eligible(s, now)
    ensures r == Ticked(s, now)
  {
    var due, cursor := Enumerate(s.trigger, s.nextRun.value, now);
    if |due| > Limit {
      return Err(TooMany);
    }
    var decisions := Decide(s, due, now);
    NoneLeftIffOneShot(s.trigger, s.nextRun.value, now);
    r := Ok(s.(nextRun := if s.trigger.OneShot? then None else Some(cursor),
               lastRun := if due != [] then Some(due[|due| - 1]) else s.lastRun,
               decided := Record(s.decided, decisions)));
  }

  lemma {:induction false} NoneLeftIffOneShot(t: Trigger, first: int, now: int)
    requires Valid(t) && first <= now
    ensures FirstAfter(t, first, now).None? <==> t.OneShot?
    decreases now - first
  {
    if Following(t, first).Some? && Following(t, first).value <= now {
      FollowingLater(t, first);
      NoneLeftIffOneShot(t, Following(t, first).value, now);
    }
  }

  /** It raises exactly when more than a thousand fire times are due; for fixed steps, when
      the step goes at least a thousand times into the delay. */
  lemma RaisesIff(s: Schedule, now: int)
    requires Valid(s.trigger) && Eligible(s, now)
    ensures Ticked(s, now).Err? <==> |Due(s.trigger, s.nextRun.value, now)| > Limit
    ensures s.trigger.Interval? || s.trigger.Heartbeat? ==>
              (Ticked(s, now).Err? <==> (now - s.nextRun.value) / (s.trigger.seconds * Second) >= Limit)
  {
    DueNotEmpty(s, now);
    if s.trigger.Interval? || s.trigger.Heartbeat? {
      IntervalCount(s.trigger, s.nextRun.value, now);
    }
  }

  /** Every second, and nobody looked for a thousand of them. */
  lemma OverLimitInstance(misfire: Misfire, grace: int)
    ensures Ticked(Schedule(true, Interval(1), misfire, grace, Some(0), None, []), 1000 * Second).Err?
  {
    RaisesIff(Schedule(true, Interval(1), misfire, grace, Some(0), None, []), 1000 * Second);
  }

  // ---------------------------------------------------------------- many ticks

  /** Decided times increase and lie before the next run. */
  ghost predicate Orderly(s: Schedule) {
    && Valid(s.trigger)
    && (forall i, j :: 0 <= i < j < |s.decided| ==> s.decided[i].at < s.decided[j].at)
    && (s.nextRun.Some? ==> forall d <- s.decided :: d.at < s.nextRun.value)
  }

  function Times(ds: seq<Decision>): (r: seq<int>)
    ensures |r| == |ds| && forall i :: 0 <= i < |ds| ==> r[i] == ds[i].at
  {
    seq(|ds|, i requires 0 <= i < |ds| => ds[i].at)
  }

  lemma {:induction false} RecordNew(decided: seq<Decision>, ds: seq<Decision>)
    requires forall i, j :: 0 <= i < j < |ds| ==> ds[i].at < ds[j].at
    requires forall d, e :: d in decided && e in ds ==> d.at < e.at
    ensures Record(decided, ds) == decided + ds
  {
    if ds != [] {
      var init, last := ds[..|ds| - 1], ds[|ds| - 1];
      RecordNew(decided, init);
      assert decided + ds == decided + init + [last];
      forall e | e in decided + init
        ensures e.at != last.at
      {
        assert last in ds;
        if e in init {
          var i :| 0 <= i < |init| && init[i] == e;
          assert ds[i].at < ds[|ds| - 1].at;
        }
      }
    }
  }

  /** A tick appends its decisions to those already made, and keeps them in order. */
  lemma TickAppends(s: Schedule, now: int)
    requires Orderly(s) && Ticked(s, now).Ok?
    ensures Ticked(s, now).value.decided == s.decided + Decisions(s, DueOf(s, now), now)
    ensures Orderly(Ticked(s, now).value)
  {
    var due := DueOf(s, now);
    var ds := Decisions(s, due, now);
    if due != [] {
      DueIncreasing(s.trigger, s.nextRun.value, now);
      forall d, e | d in s.decided && e in ds
        ensures d.at < e.at
      {
        var i :| 0 <= i < |ds| && ds[i] == e;
        assert due[i] in due;
      }
      RecordNew(s.decided, ds);
      assert forall d <- ds :: d.at in due;
    }
  }

  ghost function TickAll(s: Schedule, times: seq<int>): Result<Schedule, Error>
    requires Valid(s.trigger)
    ensures TickAll(s, times).Ok? ==> TickAll(s, times).value.trigger == s.trigger
  {
    if times == [] then Ok(s)
    else
      match TickAll(s, times[..|times| - 1])
      case Err(e) => Err(e)
      case Ok(x) => Ticked(x, times[|times| - 1])
  }

  /** Up to a later time, the fire times are those up to an earlier one and those from the
      next fire time after it. */
  lemma {:induction false} DueSplits(t: Trigger, first: int, early: int, late: int)
    requires Valid(t) && early <= late
    ensures match FirstAfter(t, first, early)
            case None => Due(t, first, late) == Due(t, first, early) && FirstAfter(t, first, late).None?
            case Some(x) =>
              && Due(t, first, late) == Due(t, first, early) + Due(t, x, late)
              && FirstAfter(t, first, late) == FirstAfter(t, x, late)
    decreases early - first
  {
    if first <= early && Following(t, first).Some? {
      FollowingLater(t, first);
      var x := Following(t, first).value;
      DueSplits(t, x, early, late);
      if FirstAfter(t, x, early).Some? {
        JoinThree([first], Due(t, x, early), Due(t, FirstAfter(t, x, early).value, late));
      }
    }
  }

  ghost function NextAfter(s: Schedule, now: int): Option<int>
    requires Valid(s.trigger)
  {
    if Eligible(s, now) then FirstAfter(s.trigger, s.nextRun.value, now) else s.nextRun
  }

  ghost function LastOf(due: seq<int>, before: Option<int>): Option<int> {
    if due == [] then before else Some(due[|due| - 1])
  }

  /** Everything a tick at now brings about, but for the verdicts on what was due. */
  ghost predicate Settled(s: Schedule, now: int, x: Schedule)
    requires Valid(s.trigger)
  {
    && x == s.(nextRun := NextAfter(s, now), lastRun := LastOf(DueOf(s, now), s.lastRun), decided := x.decided)
    && Times(x.decided) == Times(s.decided) + DueOf(s, now)
  }

  lemma TickSettles(s: Schedule, now: int)
    requires Orderly(s) && Ticked(s, now).Ok?
    ensures Settled(s, now, Ticked(s, now).value)
  {
    TickAppends(s, now);
    var ds := Decisions(s, DueOf(s, now), now);
    assert Times(ds) == DueOf(s, now);
    assert Times(s.decided + ds) == Times(s.decided) + Times(ds);
    DueNotEmpty(s, now);
  }

  lemma DuesJoin(s: Schedule, early: int, late: int, x: Schedule)
    requires Valid(s.trigger) && early <= late && Settled(s, early, x)
    ensures DueOf(s, late) == DueOf(s, early) + DueOf(x, late)
    ensures NextAfter(s, late) == NextAfter(x, late)
  {
    if Eligible(s, early) {
      DueSplits(s.trigger, s.nextRun.value, early, late);
    }
  }

  lemma LastJoin(a: seq<int>, b: seq<int>, before: Option<int>)
    ensures LastOf(a + b, before) == LastOf(b, LastOf(a, before))
  {
  }

  lemma JoinThree(a: seq<int>, b: seq<int>, c: seq<int>)
    ensures a + b + c == a + (b + c)
  {
  }

  lemma SettledJoin(s: Schedule, early: int, x: Schedule, late: int, y: Schedule)
    requires Valid(s.trigger) && early <= late && Settled(s, early, x) && Settled(x, late, y)
    ensures Settled(s, late, y)
  {
    DuesJoin(s, early, late, x);
    LastJoin(DueOf(s, early), DueOf(x, late), s.lastRun);
    JoinThree(Times(s.decided), DueOf(s, early), DueOf(x, late));
  }

  /** However often the scheduler ticks on the way to a time, the occurrences decided, each
      once, are the fire times up to it, and the next and last run are the same: as after one
      tick at that time, when that one stays within the limit. */
  lemma {:induction false} TickSplitIndependent(s: Schedule, times: seq<int>)
    requires Orderly(s) && times != []
    requires forall i, j :: 0 <= i < j < |times| ==> times[i] <= times[j]
    requires TickAll(s, times).Ok?
    ensures var now := times[|times| - 1];
            && Orderly(TickAll(s, times).value)
            && Settled(s, now, TickAll(s, times).value)
            && (Ticked(s, now).Ok? ==> Settled(s, now, Ticked(s, now).value))
  {
    var n := |times| - 1;
    var now := times[n];
    if n == 0 {
      assert TickAll(s, times[..0]) == Ok(s);
      TickAppends(s, now);
      TickSettles(s, now);
    } else {
      TickSplitIndependent(s, times[..n]);
      var x := TickAll(s, times[..n]).value;
      TickAppends(x, now);
      TickSettles(x, now);
      SettledJoin(s, times[n - 1], x, now, Ticked(x, now).value);
      if Ticked(s, now).Ok? {
        TickSettles(s, now);
      }
    }
  }

  lemma RestSucceeds(s: Schedule, early: int, late: int, x: Schedule)
    requires Valid(s.trigger) && early <= late && Settled(s, early, x) && Ticked(s, late).Ok?
    ensures Ticked(x, late).Ok?
  {
    DuesJoin(s, early, late, x);
  }

  /** Ticks on the way to a time stay within the limit whenever one tick at that time does. */
  lemma {:induction false} SplitTicksSucceed(s: Schedule, times: seq<int>)
    requires Orderly(s) && times != []
    requires forall i, j :: 0 <= i < j < |times| ==> times[i] <= times[j]
    requires Ticked(s, times[|times| - 1]).Ok?
    ensures TickAll(s, times).Ok?
  {
    var n := |times| - 1;
    assert TickAll(s, []) == Ok(s);
    if n > 0 {
      var x0 := times[n - 1];
      DueGrows(s, x0, times[n]);
      SplitTicksSucceed(s, times[..n]);
      TickSplitIndependent(s, times[..n]);
      RestSucceeds(s, x0, times[n], TickAll(s, times[..n]).value);
    } else {
      assert times[..n] == [];
    }
  }

  lemma DueGrows(s: Schedule, early: int, late: int)
    requires Valid(s.trigger) && early <= late && Ticked(s, late).Ok?
    ensures Ticked(s, early).Ok?
  {
    if Eligible(s, early) {
      DueSplits(s.trigger, s.nextRun.value, early, late);
    }
  }

  // ---------------------------------------------------------------- the tick over all schedules

  ghost predicate Validated(schedules: seq<Schedule>) {
    forall i :: 0 <= i < |schedules| ==> Valid(schedules[i].trigger)
  }

  /** Schedules are taken in turn; the first one over the limit ends the tick. */
  ghost function SweepFrom(schedules: seq<Schedule>, i: nat, now: int): (seq<Schedule>, bool)
    requires i <= |schedules| && Validated(schedules)
    ensures |SweepFrom(schedules, i, now).0| == |schedules|
    ensures Validated(SweepFrom(schedules, i, now).0)
    ensures forall k :: 0 <= k < i ==> SweepFrom(schedules, i, now).0[k] == schedules[k]
    decreases |schedules| - i
  {
    if i == |schedules| then (schedules, false)
    else
      match Ticked(schedules[i], now)
      case Err(_) => (schedules, true)
      case Ok(s) => SweepFrom(schedules[i := s], i + 1, now)
  }

  lemma SweepOneMore(schedules: seq<Schedule>, i: nat, now: int)
    requires i < |schedules| && Validated(schedules)
    ensures !Eligible(schedules[i], now) ==> SweepFrom(schedules, i, now) == SweepFrom(schedules, i + 1, now)
    ensures match Ticked(schedules[i], now)
            case Err(_) => SweepFrom(schedules, i, now) == (schedules, true)
            case Ok(x) => x.trigger == schedules[i].trigger
                          && SweepFrom(schedules, i, now) == SweepFrom(schedules[i := x], i + 1, now)
  {
    DueNotEmpty(schedules[i], now);
    assert schedules[i := schedules[i]] == schedules;
  }

  class ScheduleStore {
    var schedules: seq<Schedule>

    method TickOne(i: nat, now: int) returns (raised: bool)
      requires i < |schedules| && Validated(schedules)
      modifies this
      ensures |schedules| == |old(schedules)| && Validated(schedules)
      ensures SweepFrom(old(schedules), i, now)
              == if raised then (schedules, true) else SweepFrom(schedules, i + 1, now)
    {
      SweepOneMore(schedules, i, now);
      var s := schedules[i];
      raised := false;
      if s.enabled && s.nextRun.Some? && s.nextRun.value <= now {
        var r := Materialize(s, now);
        if r.Err? {
          return true;
        }
        schedules := schedules[i := r.value];
      }
    }

    /** The materializing half of a tick; raised tells whether it was cut short. */
    method Tick(now: int) returns (raised: bool)
      requires Validated(schedules)
      modifies this
      ensures Validated(schedules)
      ensures (schedules, raised) == SweepFrom(old(schedules), 0, now)
    {
      ghost var goal := SweepFrom(schedules, 0, now);
      raised := false;
      var i := 0;
      while i < |schedules|
        invariant 0 <= i <= |schedules| && !raised && Validated(schedules)
        invariant SweepFrom(schedules, i, now) == goal
      {
        raised := TickOne(i, now);
        if raised {
          return;
        }
        i := i + 1;
      }
    }
  }

  lemma {:induction false} SweepStopsAt(schedules: seq<Schedule>, i: nat, j: int, now: int)
    requires i <= j < |schedules| && Validated(schedules)
    requires Ticked(schedules[j], now).Err?
    ensures SweepFrom(schedules, i, now).1
    ensures forall k :: j <= k < |schedules| ==> SweepFrom(schedules, i, now).0[k] == schedules[k]
    decreases |schedules| - i
  {
    SweepOneMore(schedules, i, now);
    if Ticked(schedules[i], now).Ok? {
      SweepStopsAt(schedules[i := Ticked(schedules[i], now).value], i + 1, j, now);
    }
  }

  ghost function Sweeps(schedules: seq<Schedule>, times: seq<int>): seq<Schedule>
    requires Validated(schedules)
    ensures |Sweeps(schedules, times)| == |schedules|
    ensures Validated(Sweeps(schedules, times))
  {
    if times == [] then schedules
    else SweepFrom(Sweeps(schedules, times[..|times| - 1]), 0, times[|times| - 1]).0
  }

  /** A schedule that has once gone over the limit stays there: no later tick gets past it, so
      neither it nor any schedule after it is ever materialized again. */
  lemma {:induction false} OverLimitIsFinal(schedules: seq<Schedule>, j: int, now: int, times: seq<int>)
    requires Validated(schedules)
    requires 0 <= j < |schedules| && Ticked(schedules[j], now).Err?
    requires forall t <- times :: now <= t
    ensures forall k :: j <= k < |schedules| ==> Sweeps(schedules, times)[k] == schedules[k]
    ensures forall t <- times :: Ticked(Sweeps(schedules, times)[j], t).Err?
  {
    if times != [] {
      var init, last := times[..|times| - 1], times[|times| - 1];
      assert forall t <- init :: t in times;
      OverLimitIsFinal(schedules, j, now, init);
      forall t <- times
        ensures Ticked(schedules[j], t).Err?
      {
        if Ticked(schedules[j], t).Ok? {
          DueGrows(schedules[j], now, t);
        }
      }
      SweepStopsAt(Sweeps(schedules, init), 0, j, last);
    }
  }
}
