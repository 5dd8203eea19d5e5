/**
 What one delivery makes of its row by the provider's reply, and that a refused first send is
 final over every history.
 */
module DeliveryOutcomes {
  import opened Wrappers
  import opened Outbox
  import opened Delivery
  import opened DeliveryRuns

  /** Seconds to wait before the next try: twice as long each time, up to a minute. */
  predicate Pause(attempt: int, seconds: int) {
    && (attempt <= 0 ==> seconds == 1) && (1 <= attempt <= 5 ==> seconds == Double(attempt))
    && (attempt >= 6 ==> seconds == 60)
  }

  function Double(n: int): int {
    if n <= 0 then 1 else 2 * Double(n - 1)
  }

  /** It waits for another try, not before the delay; at the eighth attempt it has failed. */
  predicate TriedAgain(row: Row, after: Row, delay: int, now: int) {
    && after.status == (if row.attempts >= 8 then Failed else RetryWait)
    && after.availableAt == now + (if delay > 0 then delay else 0)
  }

  /** What the row says once its request is over: an accepted request, or an edit that had been
      applied, has delivered the text as claimed, and all is done if that is still wanted; a
      refusal for good has failed; one that may be repeated, an edit with unknown outcome and an
      unexpected error wait; a first send with unknown outcome is never repeated. */
  ghost predicate RepliedTo(row: Row, record: Row, reply: Reply, now: int, after: Row) {
    && after == row.(status := after.status, provider := after.provider, delivered := after.delivered,
                     availableAt := after.availableAt, leaseUntil := None)
    && (if reply.Accepted? || (reply.Rejected? && reply.alreadyApplied && record.provider.Some?) then
          && after.delivered == Some(record.desired) && after.availableAt == now
          && after.status == (if row.version == record.version && row.desired == record.desired then Delivered
                              else Pending)
          && after.provider == (if reply.Accepted? && record.provider.None? && reply.messageId != ""
                                then Some(reply.messageId) else row.provider)
        else
          && after.delivered == row.delivered && after.provider == row.provider
          && match reply
             case Rejected(retryable, _, asked) =>
               if !retryable then after.status == (if row.attempts >= 1 then Failed else RetryWait)
               else if asked != 0 then TriedAgain(row, after, asked, now)
               else exists pause :: Pause(record.attempts, pause) && TriedAgain(row, after, pause, now)
             case Ambiguous =>
               if row.provider.None? then after.status == Uncertain
               else exists pause :: Pause(record.attempts, pause) && TriedAgain(row, after, pause, now)
             case _ => TriedAgain(row, after, 1, now))
  }

  lemma BackoffPauses(attempt: int)
    ensures Pause(attempt, Backoff(attempt))
  {
    assert Double(1) == 2 && Double(2) == 4 && Double(3) == 8;
    assert Double(4) == 16 && Double(5) == 32;
  }

  lemma SettledAsReplied(row: Row, record: Row, reply: Reply, now: int)
    ensures RepliedTo(row, record, reply, now, Settle(row, record, reply, now))
  {
    BackoffPauses(record.attempts);
  }

  /** The row of a delivery as it was claimed: its lease runs, and one more attempt counts. */
  predicate AsClaimed(was: Row, held: Row, now: int) {
    held == was.(status := Sending, leaseUntil := Some(now + 30), attempts := was.attempts + 1,
                    availableAt := held.availableAt)
  }

  /** It waits for delivery on this channel and is due, or its edit's lease has just run out. */
  predicate ClaimNow(row: Row, channel: string, now: int) {
    && row.channel == channel
    && (((row.status.Pending? || row.status.RetryWait?) && row.availableAt <= now)
        || (row.status.Sending? && row.provider.Some? && row.leaseUntil.Some? && row.leaseUntil.value <= now))
  }

  /** One round of deliveries: each claimed row ends by its reply, having been claimed; every
      other row is as it was, but for a lease that ran out; and what could be claimed is passed
      over only when twenty older rows were. */
  lemma RoundOutcome(rows: seq<Row>, ids: seq<nat>, replies: nat -> Reply, channel: string, now: int, i: nat)
    requires OldestDue(ExpireAll(rows, now), ids, channel, now, 20) && i < |rows|
    ensures var after := SettleIds(ClaimAll(rows, ids, now, now + 30), ids, replies, now);
            && |after| == |rows|
            && if i in ids then
                 ClaimNow(rows[i], channel, now)
                 && exists held :: AsClaimed(rows[i], held, now) && RepliedTo(held, held, replies(i), now, after[i])
               else if rows[i].status.Sending? && rows[i].leaseUntil.Some? && rows[i].leaseUntil.value <= now then
                 && after[i] == rows[i].(leaseUntil := None, status := after[i].status,
                                         availableAt := after[i].availableAt)
                 && after[i].status == if rows[i].provider.None? then Uncertain else Pending
               else after[i] == rows[i]
    ensures i !in ids && ClaimNow(rows[i], channel, now) ==> |ids| == 20 && forall k <- ids :: k < i
  {
    if i in ids {
      var k :| 0 <= k < |ids| && ids[k] == i;
      var held := ClaimAll(rows, ids, now, now + 30)[i];
      assert Outbox.Claimable(ExpireAll(rows, now)[ids[k]], channel, now);
      assert AsClaimed(rows[i], held, now);
      SettledAsReplied(held, held, replies(i), now);
    }
  }

  /** So a claimed row that is refused for good has failed at once, and a refusal that may be
      repeated fails it exactly at the eighth attempt. */
  lemma RefusalOutcome(rows: seq<Row>, ids: seq<nat>, replies: nat -> Reply, channel: string, now: int, i: nat)
    requires OldestDue(ExpireAll(rows, now), ids, channel, now, 20) && i in ids && i < |rows|
    requires replies(i).Rejected? && !(replies(i).alreadyApplied && rows[i].provider.Some?)
    ensures var after := SettleIds(ClaimAll(rows, ids, now, now + 30), ids, replies, now);
            && |after| == |rows|
            && after[i].status ==
               if !replies(i).retryable || rows[i].attempts + 1 >= 8 then Failed else RetryWait
  {
    RoundOutcome(rows, ids, replies, channel, now, i);
  }

  // ---------------------------------------------------------------- over histories

  /** In a history, too, an acknowledgement does this to its row and to no other. */
  lemma AcknowledgeOutcome(s: State, a: Action, i: nat)
    requires a.Acknowledge? && Enabled(s, a) && i < |s.rows|
    ensures |Step(s, a).rows| == |s.rows|
    ensures var f := s.flights[a.ticket];
            if i == f.id then RepliedTo(s.rows[i], f.record, f.phase.reply, a.now, Step(s, a).rows[i])
            else Step(s, a).rows[i] == s.rows[i]
  {
    var f := s.flights[a.ticket];
    SettledAsReplied(s.rows[f.id], f.record, f.phase.reply, a.now);
  }

  /** A row in flight has been claimed. */
  ghost predicate Counted(s: State) {
    forall t :: Live(s, t) && s.flights[t].id < |s.rows| ==> s.rows[s.flights[t].id].attempts >= 1
  }

  lemma CountedStep(s: State, a: Action)
    requires Safe(s) && Counted(s) && Enabled(s, a)
    ensures Counted(Step(s, a))
  {
    var s' := Step(s, a);
    forall t | Live(s', t) && s'.flights[t].id < |s'.rows|
      ensures s'.rows[s'.flights[t].id].attempts >= 1
    {
      if t < |s.flights| {
        assert Live(s, t) && FlightOk(s, s.flights[t]);
        AttemptsStep(s, a, s.flights[t].id);
      } else {
        AttemptsStep(s, a, a.ids[t - |s.flights|]);
        assert a.ids[t - |s.flights|] in a.ids;
      }
    }
  }

  lemma {:induction false} AlwaysCounted(ss: seq<State>, acts: seq<Action>, k: nat)
    requires RunFrom(ss, acts) && k < |ss|
    ensures Counted(ss[k])
  {
    if k > 0 {
      AlwaysCounted(ss, acts, k - 1);
      RunSafe(ss, acts, k - 1);
      assert StepAt(ss, acts, k - 1);
      CountedStep(ss[k - 1], acts[k - 1]);
    }
  }

  /** Refused, and nobody is about to settle it. */
  ghost predicate Refused(s: State, i: nat) {
    && i < |s.rows| && s.rows[i].provider.None? && s.rows[i].status.Failed?
    && forall t :: Live(s, t) ==> s.flights[t].id != i
  }

  lemma RefusedStep(s: State, a: Action, i: nat)
    requires Safe(s) && Enabled(s, a) && Refused(s, i)
    ensures Refused(Step(s, a), i) && (a.ClaimDue? ==> i !in a.ids)
  {
    var s' := Step(s, a);
    if a.ClaimDue? {
      ClaimedRow(s, a, i);
      assert i !in a.ids;
    }
    forall t | Live(s', t)
      ensures s'.flights[t].id != i
    {
      if t < |s.flights| {
        assert Live(s, t);
      } else {
        assert a.ids[t - |s.flights|] in a.ids;
      }
    }
  }

  lemma RefusedNow(s: State, a: Action)
    requires Safe(s) && Counted(s) && Enabled(s, a) && a.Acknowledge? && Sends(s, a.ticket)
    requires s.flights[a.ticket].phase.reply.Rejected? && !s.flights[a.ticket].phase.reply.retryable
    ensures Refused(Step(s, a), s.flights[a.ticket].id)
  {
    var i := s.flights[a.ticket].id;
    assert FlightOk(s, s.flights[a.ticket]);
    AcknowledgeOutcome(s, a, i);
    forall t | Live(Step(s, a), t)
      ensures Step(s, a).flights[t].id != i
    {
      assert Live(s, t) && FlightOk(s, s.flights[t]);
      assert s.flights[t].id == i ==> Sends(s, t);
    }
  }

  /** A first send that the provider refuses for good is final: its row, of either kind, stays
      FAILED and is never claimed again, whatever happens later. */
  lemma {:induction false} RefusedSendIsFinal(ss: seq<State>, acts: seq<Action>, j: nat, k: nat)
    requires RunFrom(ss, acts) && j < k < |ss|
    requires acts[j].Acknowledge? && Sends(ss[j], acts[j].ticket)
    requires ss[j].flights[acts[j].ticket].phase.Replied? && ss[j].flights[acts[j].ticket].phase.reply.Rejected?
    requires !ss[j].flights[acts[j].ticket].phase.reply.retryable
    ensures Refused(ss[k], ss[j].flights[acts[j].ticket].id)
    ensures k < |acts| && acts[k].ClaimDue? ==> ss[j].flights[acts[j].ticket].id !in acts[k].ids
  {
    var i := ss[j].flights[acts[j].ticket].id;
    assert StepAt(ss, acts, k - 1);
    RunSafe(ss, acts, k - 1);
    if j + 1 < k {
      RefusedSendIsFinal(ss, acts, j, k - 1);
      RefusedStep(ss[k - 1], acts[k - 1], i);
    } else {
      AlwaysCounted(ss, acts, j);
      RefusedNow(ss[j], acts[j]);
    }
    if k < |acts| && acts[k].ClaimDue? {
      RunSafe(ss, acts, k);
      assert StepAt(ss, acts, k);
      RefusedStep(ss[k], acts[k], i);
    }
  }

  /** Every MESSAGE row's requests are first sends. */
  lemma MessagesAreSends(ss: seq<State>, acts: seq<Action>, k: nat, t: int)
    requires RunFrom(ss, acts) && k < |ss| && Live(ss[k], t)
    ensures ss[k].flights[t].id < |ss[k].rows|
    ensures ss[k].rows[ss[k].flights[t].id].kind.Message? ==> Sends(ss[k], t)
  {
    RunSafe(ss, acts, k);
    RunMessages(ss, acts, k);
    assert FlightOk(ss[k], ss[k].flights[t]) && MessageFlightOk(ss[k], ss[k].flights[t]);
  }

  /** A new row is pending, due at once, and has neither been tried nor delivered. */
  lemma EnqueueOutcome(s: State, a: Action)
    requires a.Enqueue? && Enabled(s, a)
    ensures var s' := Step(s, a);
            && s' == s.(rows := s'.rows) && |s'.rows| == |s.rows| + 1 && s.rows <= s'.rows
            && s'.rows[|s.rows|] == Row(a.channel, a.kind, a.run, None, a.text, None, Pending, 0, 1, 0, a.now, None)
  {
  }

  function Sendings(rows: seq<Row>, withId: bool): set<int> {
    set i | 0 <= i < |rows| && rows[i].status.Sending? && (rows[i].provider.Some? <==> withId)
  }

  function Ends(ids: seq<nat>, replies: nat -> Reply): set<int> {
    set i | 0 <= i < |ids| && !replies(ids[i]).Broken?
  }

  lemma SendingsGrow(rows: seq<Row>, withId: bool, n: int)
    requires n == |rows| - 1 >= 0
    ensures Sendings(rows, withId) ==
            if rows[n].status.Sending? && (rows[n].provider.Some? <==> withId) then Sendings(rows[..n], withId) + {n}
            else Sendings(rows[..n], withId)
    ensures n !in Sendings(rows[..n], withId)
  {
  }

  /** A restart reports how many rows were being sent, by whether they had a message id. */
  lemma {:induction false} InFlightCounts(rows: seq<Row>, withId: bool)
    ensures InFlight(rows, withId) == |Sendings(rows, withId)|
  {
    if rows != [] {
      var n := |rows| - 1;
      InFlightCounts(rows[..n], withId);
      SendingsGrow(rows, withId, n);
    }
  }

  lemma EndsGrow(ids: seq<nat>, replies: nat -> Reply, n: int)
    requires n == |ids| - 1 >= 0
    ensures Ends(ids, replies) ==
            if replies(ids[n]).Broken? then Ends(ids[..n], replies) else Ends(ids[..n], replies) + {n}
    ensures n !in Ends(ids[..n], replies)
  {
  }

  /** A round of deliveries reports how many requests ended other than by an unexpected error. */
  lemma {:induction false} UnbrokenCounts(ids: seq<nat>, replies: nat -> Reply)
    ensures Unbroken(ids, replies) == |Ends(ids, replies)|
  {
    if ids != [] {
      var n := |ids| - 1;
      UnbrokenCounts(ids[..n], replies);
      EndsGrow(ids, replies, n);
    }
  }

  // ---------------------------------------------------------------- presentations

  /** An update that is neither older nor the same brings the new text, due after the throttle, and
      puts the row up for delivery; not while it is being sent, which then finds the newer version,
      and not after a first send that failed or whose outcome is unknown. */
  lemma UpdateOutcome(s: State, a: Action, i: nat)
    requires a.UpdateRun? && Enabled(s, a) && FindRun(s.rows, a.target) == Some(i)
    ensures i < |s.rows| && |Step(s, a).rows| == |s.rows|
    ensures forall k :: 0 <= k < |s.rows| && k != i ==> Step(s, a).rows[k] == s.rows[k]
    ensures var row, after := s.rows[i], Step(s, a).rows[i];
            if a.sequence <= row.sequence && a.text == row.desired then after == row
            else
              && after.desired == a.text && after.sequence == a.sequence && after.version == row.version + 1
              && after == row.(desired := after.desired, sequence := after.sequence, version := after.version,
                               status := after.status, availableAt := after.availableAt)
              && after.availableAt == a.now + (if a.throttle > 0 then a.throttle else 0)
              && after.status ==
                 if row.status.Sending? then Sending
                 else if row.provider.None? && (row.status.Uncertain? || row.status.Failed?) then row.status
                 else Pending
  {
  }

  /** A restart gives up on first sends in flight and puts edits in flight up again. */
  lemma RestartOutcome(s: State, a: Action, i: nat)
    requires a.Restart? && i < |s.rows|
    ensures |Step(s, a).rows| == |s.rows|
    ensures var row, after := s.rows[i], Step(s, a).rows[i];
            if !row.status.Sending? then after == row
            else if row.provider.None? then after == row.(status := Uncertain, leaseUntil := None)
            else after == row.(status := Pending, leaseUntil := None, availableAt := a.now)
  {
  }
}
