/**
 Whole runs of delivery: at most one message per row, a bounded number of tries per message,
 and what a DELIVERED row is worth.
 */
module DeliveryRuns {
  import opened Wrappers
  import opened Outbox
  import opened Delivery

  ghost predicate RunFrom(ss: seq<State>, acts: seq<Action>) {
    IsRun(ss, acts) && ss[0] == Init
  }

  lemma Prefix(ss: seq<State>, acts: seq<Action>, k: nat)
    requires IsRun(ss, acts) && k <= |acts|
    ensures IsRun(ss[..k + 1], acts[..k])
  {
    var states, actions := ss[..k + 1], acts[..k];
    forall n
      ensures StepAt(states, actions, n)
    {
      assert StepAt(ss, acts, n);
    }
  }

  lemma {:induction false} RunSafe(ss: seq<State>, acts: seq<Action>, k: nat)
    requires RunFrom(ss, acts) && k < |ss|
    ensures Safe(ss[k])
  {
    if k > 0 {
      RunSafe(ss, acts, k - 1);
      assert StepAt(ss, acts, k - 1);
      StepSafe(ss[k - 1], acts[k - 1]);
    }
  }

  // ---------------------------------------------------------------- at most one send

  /** The provider never forgets that it created a message for a row. */
  lemma {:induction false} SentStaysSent(ss: seq<State>, acts: seq<Action>, j: nat, k: nat, i: nat)
    requires IsRun(ss, acts) && j <= k < |ss| && !NeverSent(ss[j], i)
    ensures !NeverSent(ss[k], i)
  {
    if j < k {
      SentStaysSent(ss, acts, j, k - 1, i);
      var s, a := ss[k - 1], acts[k - 1];
      assert StepAt(ss, acts, k - 1);
      var m :| m in s.sent && s.sent[m].row == i;
      assert m in Step(s, a).sent && Step(s, a).sent[m].row == i;
    }
  }

  /** Over every interleaving the provider creates at most one message per row, and once it
      has created one the row is never again both without a message id and claimable. */
  lemma AtMostOneSend(ss: seq<State>, acts: seq<Action>, j: nat, k: nat)
    requires RunFrom(ss, acts) && j <= k < |ss|
    ensures forall m, n :: m in ss[k].sent && n in ss[k].sent && ss[k].sent[m].row == ss[k].sent[n].row ==> m == n
    ensures forall i :: 0 <= i < |ss[k].rows| && !NeverSent(ss[j], i) ==>
              !(ss[k].rows[i].provider.None? && Queued(ss[k].rows[i].status))
  {
    RunSafe(ss, acts, k);
    forall i | 0 <= i < |ss[k].rows| && !NeverSent(ss[j], i)
      ensures !(ss[k].rows[i].provider.None? && Queued(ss[k].rows[i].status))
    {
      SentStaysSent(ss, acts, j, k, i);
      assert RowOk(ss[k], i);
    }
  }

  /** A row that nobody can settle any more: its send was lost. */
  ghost predicate GivenUp(s: State, i: nat) {
    && i < |s.rows| && s.rows[i].provider.None? && s.rows[i].status.Uncertain?
    && forall t :: Live(s, t) ==> s.flights[t].id != i
  }

  lemma GivenUpStep(s: State, a: Action, i: nat)
    requires Safe(s) && Enabled(s, a) && GivenUp(s, i)
    ensures GivenUp(Step(s, a), i)
  {
    var s' := Step(s, a);
    if a.ClaimDue? {
      ClaimedRow(s, a, i);
      assert i !in a.ids;
    }
    forall t | Live(s', t)
      ensures s'.flights[t].id != i
    {
      if t < |s.flights| {
        assert Live(s, t);
      } else {
        assert a.ids[t - |s.flights|] in a.ids;
      }
    }
  }

  /** A send whose outcome the adapter could not tell is never repeated: its row stays
      UNCERTAIN, whatever happens later. */
  lemma {:induction false} AmbiguousSendIsFinal(ss: seq<State>, acts: seq<Action>, j: nat, k: nat)
    requires RunFrom(ss, acts) && j < k < |ss|
    requires acts[j].Acknowledge? && Sends(ss[j], acts[j].ticket)
    requires ss[j].flights[acts[j].ticket].phase == Replied(Ambiguous)
    ensures GivenUp(ss[k], ss[j].flights[acts[j].ticket].id)
  {
    var s, a := ss[k - 1], acts[k - 1];
    assert StepAt(ss, acts, k - 1);
    RunSafe(ss, acts, k - 1);
    var i := ss[j].flights[acts[j].ticket].id;
    if j + 1 < k {
      AmbiguousSendIsFinal(ss, acts, j, k - 1);
      GivenUpStep(s, a, i);
    } else {
      assert FlightOk(s, s.flights[a.ticket]);
      forall t | Live(ss[k], t)
        ensures ss[k].flights[t].id != i
      {
        assert Live(s, t) && FlightOk(s, s.flights[t]);
        assert s.flights[t].id == i ==> Sends(s, t);
      }
    }
  }

  // ---------------------------------------------------------------- bounded retry

  ghost predicate MessageRowOk(row: Row) {
    row.kind.Message? ==>
      && row.run.None? && row.version == 1 && row.attempts <= 8
      && (row.provider.Some? ==> row.status.Delivered?)
      && (Queued(row.status) ==> row.attempts < 8)
  }

  ghost predicate MessageFlightOk(s: State, f: Flight) {
    f.id < |s.rows| && s.rows[f.id].kind.Message? ==>
      f.record.provider.None? && f.record.version == 1 && f.record.desired == s.rows[f.id].desired
  }

  ghost predicate MessagesOk(s: State) {
    && (forall row <- s.rows :: MessageRowOk(row))
    && (forall t :: Live(s, t) ==> MessageFlightOk(s, s.flights[t]))
  }

  lemma MessageRowStep(s: State, a: Action, i: nat)
    requires Safe(s) && MessagesOk(s) && Enabled(s, a) && i < |Step(s, a).rows|
    ensures MessageRowOk(Step(s, a).rows[i])
    ensures i < |s.rows| && s.rows[i].kind.Message? ==>
              Step(s, a).rows[i].kind.Message? && Step(s, a).rows[i].desired == s.rows[i].desired
    ensures i < |s.rows| && s.rows[i].kind.Message? && s.rows[i].status.Delivered? ==> Step(s, a).rows[i] == s.rows[i]
  {
    if i < |s.rows| {
      assert MessageRowOk(s.rows[i]) && RowOk(s, i);
      if a.Acknowledge? && s.flights[a.ticket].id == i {
        assert FlightOk(s, s.flights[a.ticket]) && MessageFlightOk(s, s.flights[a.ticket]);
      }
      if a.ClaimDue? {
        MessageClaimStep(s, a, i);
      }
    }
  }

  lemma MessageClaimStep(s: State, a: Action, i: nat)
    requires Safe(s) && Enabled(s, a) && a.ClaimDue? && i < |s.rows| && MessageRowOk(s.rows[i])
    ensures MessageRowOk(Step(s, a).rows[i])
    ensures Step(s, a).rows[i].kind == s.rows[i].kind
    ensures s.rows[i].kind.Message? ==> Step(s, a).rows[i].desired == s.rows[i].desired
    ensures s.rows[i].kind.Message? && s.rows[i].status.Delivered? ==> Step(s, a).rows[i] == s.rows[i]
  {
    assert RowOk(s, i);
    if i in a.ids {
      ClaimedRow(s, a, i);
      var k :| 0 <= k < |a.ids| && a.ids[k] == i;
      assert Outbox.Claimable(ExpireAll(s.rows, a.now)[a.ids[k]], a.channel, a.now);
    }
  }

  lemma MessagesStep(s: State, a: Action)
    requires Safe(s) && MessagesOk(s) && Enabled(s, a)
    ensures MessagesOk(Step(s, a))
  {
    var s' := Step(s, a);
    forall row <- s'.rows
      ensures MessageRowOk(row)
    {
      var i :| 0 <= i < |s'.rows| && s'.rows[i] == row;
      MessageRowStep(s, a, i);
    }
    forall t | Live(s', t)
      ensures MessageFlightOk(s', s'.flights[t])
    {
      MessageFlightStep(s, a, t);
    }
  }

  lemma MessageFlightStep(s: State, a: Action, t: int)
    requires Safe(s) && MessagesOk(s) && Enabled(s, a) && Live(Step(s, a), t)
    ensures MessageFlightOk(Step(s, a), Step(s, a).flights[t])
  {
    var f := Step(s, a).flights[t];
    if t < |s.flights| {
      assert Live(s, t) && MessageFlightOk(s, s.flights[t]) && FlightOk(s, s.flights[t]);
      MessageRowStep(s, a, f.id);
    } else {
      assert a.ids[t - |s.flights|] in a.ids;
      MessageRowStep(s, a, f.id);
      ClaimedRow(s, a, f.id);
    }
  }

  lemma {:induction false} RunMessages(ss: seq<State>, acts: seq<Action>, k: nat)
    requires RunFrom(ss, acts) && k < |ss|
    ensures MessagesOk(ss[k])
  {
    if k > 0 {
      RunMessages(ss, acts, k - 1);
      RunSafe(ss, acts, k - 1);
      assert StepAt(ss, acts, k - 1);
      MessagesStep(ss[k - 1], acts[k - 1]);
    }
  }

  /** How many times a run claims row i. */
  function ClaimsOf(acts: seq<Action>, i: nat): nat {
    if acts == [] then 0
    else
      var last := acts[|acts| - 1];
      ClaimsOf(acts[..|acts| - 1], i) + if last.ClaimDue? && i in last.ids then 1 else 0
  }

  function AttemptsOf(s: State, i: nat): nat {
    if i < |s.rows| then s.rows[i].attempts else 0
  }

  lemma AttemptsStep(s: State, a: Action, i: nat)
    requires Enabled(s, a)
    ensures AttemptsOf(Step(s, a), i) == AttemptsOf(s, i) + if a.ClaimDue? && i in a.ids then 1 else 0
  {
    if a.ClaimDue? && i in a.ids {
      var k :| 0 <= k < |a.ids| && a.ids[k] == i;
      assert a.ids[k] < |s.rows|;
    }
  }

  lemma {:induction false} AttemptsCountClaims(ss: seq<State>, acts: seq<Action>, i: nat)
    requires RunFrom(ss, acts)
    ensures ClaimsOf(acts, i) == AttemptsOf(ss[|acts|], i)
  {
    var n := |acts|;
    if n > 0 {
      Prefix(ss, acts, n - 1);
      AttemptsCountClaims(ss[..n], acts[..n - 1], i);
      assert StepAt(ss, acts, n - 1);
      AttemptsStep(ss[n - 1], acts[n - 1], i);
    }
  }

  /** A MESSAGE row is claimed at most 8 times, over all loops, crashes and restarts. */
  lemma MessageRetriesBounded(ss: seq<State>, acts: seq<Action>, i: nat)
    requires RunFrom(ss, acts) && i < |ss[|acts|].rows| && ss[|acts|].rows[i].kind.Message?
    ensures ClaimsOf(acts, i) <= 8
  {
    AttemptsCountClaims(ss, acts, i);
    RunMessages(ss, acts, |acts|);
    assert MessageRowOk(ss[|acts|].rows[i]);
  }

  /** And once DELIVERED it is never touched again. */
  lemma {:induction false} DeliveredMessageIsFinal(ss: seq<State>, acts: seq<Action>, i: nat, j: nat, k: nat)
    requires RunFrom(ss, acts) && j <= k < |ss|
    requires i < |ss[j].rows| && ss[j].rows[i].kind.Message? && ss[j].rows[i].status.Delivered?
    ensures i < |ss[k].rows| && ss[k].rows[i] == ss[j].rows[i]
  {
    if j < k {
      DeliveredMessageIsFinal(ss, acts, i, j, k - 1);
      RunSafe(ss, acts, k - 1);
      RunMessages(ss, acts, k - 1);
      assert StepAt(ss, acts, k - 1);
      MessageRowStep(ss[k - 1], acts[k - 1], i);
    }
  }

  // ---------------------------------------------------------------- no lost update

  /** An edit in some loop's hands; the first send of a row is no edit. */
  predicate Edits(s: State, t: int) {
    Live(s, t) && s.flights[t].record.provider.Some?
  }

  /** This step takes a row out of SENDING: its lease has run out, or a restart puts it back. */
  predicate PutsBack(a: Action, row: Row) {
    || (a.ClaimDue? && row.status.Sending? && row.leaseUntil.Some? && row.leaseUntil.value <= a.now)
    || (a.Restart? && row.status.Sending?)
  }

  /** No row is put back while a loop still holds an edit of it. */
  ghost predicate InTime(s: State, a: Action) {
    forall t :: Edits(s, t) && s.flights[t].id < |s.rows| ==> !PutsBack(a, s.rows[s.flights[t].id])
  }

  ghost predicate InTimeRun(ss: seq<State>, acts: seq<Action>) {
    RunFrom(ss, acts) && forall k :: 0 <= k < |acts| ==> InTime(ss[k], acts[k])
  }

  /** One delivery loop, which claims and recovers only with nothing in hand, is always in time. */
  lemma OneLoopIsInTime(s: State, a: Action)
    requires a.ClaimDue? || a.Restart? ==> forall t :: !Live(s, t)
    ensures InTime(s, a)
  {
  }

  /** The message this flight's request is known to have reached. */
  function Reached(f: Flight): Option<string> {
    match f.phase
    case Replied(Accepted(m)) => if f.record.provider.None? then Some(m) else f.record.provider
    case Replied(Rejected(_, true, _)) => f.record.provider
    case _ => None
  }

  ghost predicate Current(s: State, f: Flight) {
    && f.id < |s.rows| && (f.record.provider.Some? ==> s.rows[f.id].status.Sending?)
    && (Reached(f).Some? ==>
          Reached(f).value in s.sent && s.sent[Reached(f).value] == Sent(f.id, f.record.desired))
  }

  /** A DELIVERED row: the provider shows what was delivered, and that is what is wanted. */
  ghost predicate Shown(s: State, i: nat)
    requires i < |s.rows|
  {
    var row := s.rows[i];
    row.status.Delivered? ==>
      && row.delivered == Some(row.desired)
      && row.provider.Some? && row.provider.value in s.sent
      && s.sent[row.provider.value] == Sent(i, row.desired)
  }

  ghost predicate AllShown(s: State) {
    && (forall i :: 0 <= i < |s.rows| ==> Shown(s, i))
    && (forall t :: Live(s, t) ==> Current(s, s.flights[t]))
    && (forall t, u :: Live(s, t) && Live(s, u) && s.flights[t].id == s.flights[u].id ==> t == u)
  }

  lemma ShownStep(s: State, a: Action, i: nat)
    requires Safe(s) && AllShown(s) && Enabled(s, a) && InTime(s, a) && i < |Step(s, a).rows|
    ensures Shown(Step(s, a), i)
  {
    if i < |s.rows| {
      assert Shown(s, i) && RowOk(s, i);
      if a.Acknowledge? || a.Request? {
        var f := s.flights[a.ticket];
        assert FlightOk(s, f) && Current(s, f);
        assert RowOk(s, f.id);
      }
    }
  }

  lemma CurrentAfterClaim(s: State, a: Action, t: int)
    requires Safe(s) && AllShown(s) && a.ClaimDue? && Enabled(s, a) && InTime(s, a) && Live(Step(s, a), t)
    ensures Current(Step(s, a), Step(s, a).flights[t])
  {
    if t < |s.flights| {
      assert Live(s, t) && FlightOk(s, s.flights[t]) && Current(s, s.flights[t]);
      assert RowOk(s, s.flights[t].id);
    } else {
      assert a.ids[t - |s.flights|] in a.ids;
    }
  }

  lemma CurrentAfterOther(s: State, a: Action, t: int)
    requires Safe(s) && AllShown(s) && !a.ClaimDue? && Enabled(s, a) && InTime(s, a) && Live(Step(s, a), t)
    ensures Current(Step(s, a), Step(s, a).flights[t])
  {
    assert Live(s, t) && FlightOk(s, s.flights[t]) && Current(s, s.flights[t]);
    assert RowOk(s, s.flights[t].id);
    if a.Acknowledge? || a.Request? {
      assert Live(s, a.ticket) && FlightOk(s, s.flights[a.ticket]) && Current(s, s.flights[a.ticket]);
      assert RowOk(s, s.flights[a.ticket].id);
    }
  }

  lemma CurrentStep(s: State, a: Action, t: int)
    requires Safe(s) && AllShown(s) && Enabled(s, a) && InTime(s, a) && Live(Step(s, a), t)
    ensures Current(Step(s, a), Step(s, a).flights[t])
  {
    if a.ClaimDue? {
      CurrentAfterClaim(s, a, t);
    } else {
      CurrentAfterOther(s, a, t);
    }
  }

  lemma OneEditStep(s: State, a: Action, t: int, u: int)
    requires Safe(s) && AllShown(s) && Enabled(s, a) && InTime(s, a)
    requires Live(Step(s, a), t) && Live(Step(s, a), u) && Step(s, a).flights[t].id == Step(s, a).flights[u].id
    ensures t == u
  {
    if t < |s.flights| {
      assert Live(s, t);
    }
    if u < |s.flights| {
      assert Live(s, u);
    }
  }

  lemma AllShownStep(s: State, a: Action)
    requires Safe(s) && AllShown(s) && Enabled(s, a) && InTime(s, a)
    ensures AllShown(Step(s, a))
  {
    var s' := Step(s, a);
    forall i | 0 <= i < |s'.rows|
      ensures Shown(s', i)
    {
      ShownStep(s, a, i);
    }
    forall t | Live(s', t)
      ensures Current(s', s'.flights[t])
    {
      CurrentStep(s, a, t);
    }
    forall t, u | Live(s', t) && Live(s', u) && s'.flights[t].id == s'.flights[u].id
      ensures t == u
    {
      OneEditStep(s, a, t, u);
    }
  }

  /** With any number of loops, over every interleaving with updates and crashes: as long as
      no row is put back under an edit, DELIVERED means that the provider shows the delivered
      text and that it is the wanted one. */
  lemma {:induction false} NoLostUpdate(ss: seq<State>, acts: seq<Action>, k: nat)
    requires InTimeRun(ss, acts) && k < |ss|
    ensures AllShown(ss[k])
  {
    if k > 0 {
      NoLostUpdate(ss, acts, k - 1);
      NextAllShown(ss, acts, k - 1);
    }
  }

  lemma NextAllShown(ss: seq<State>, acts: seq<Action>, k: nat)
    requires InTimeRun(ss, acts) && k < |acts| && AllShown(ss[k])
    ensures AllShown(ss[k + 1])
  {
    RunSafe(ss, acts, k);
    assert StepAt(ss, acts, k);
    AllShownStep(ss[k], acts[k]);
  }

  lemma {:induction false} FlightStays(ss: seq<State>, acts: seq<Action>, j: nat, k: nat, t: nat)
    requires IsRun(ss, acts) && j <= k < |ss| && t < |ss[j].flights|
    ensures t < |ss[k].flights| && ss[k].flights[t].id == ss[j].flights[t].id
            && ss[k].flights[t].record == ss[j].flights[t].record
  {
    if j < k {
      FlightStays(ss, acts, j, k - 1, t);
      assert StepAt(ss, acts, k - 1);
    }
  }

  /** No step of the run from j to k rewrites the wanted text of row i. */
  ghost predicate Quiet(ss: seq<State>, acts: seq<Action>, j: nat, k: nat, i: nat)
    requires j <= k <= |acts| && |ss| == |acts| + 1 && i < |ss[j].rows|
  {
    forall x :: j <= x < k && acts[x].UpdateRun? ==> ss[j].rows[i].run != Some(acts[x].target)
  }

  lemma QuietStep(s: State, a: Action, s': State, i: nat)
    requires Enabled(s, a) && s' == Step(s, a) && i < |s.rows|
    requires a.UpdateRun? ==> s.rows[i].run != Some(a.target)
    ensures i < |s'.rows| && s'.rows[i].run == s.rows[i].run
    ensures s'.rows[i].version == s.rows[i].version && s'.rows[i].desired == s.rows[i].desired
  {
  }

  lemma {:induction false} TextStays(ss: seq<State>, acts: seq<Action>, j: nat, k: nat, i: nat)
    requires IsRun(ss, acts) && j <= k < |ss| && i < |ss[j].rows| && Quiet(ss, acts, j, k, i)
    ensures i < |ss[k].rows| && ss[k].rows[i].run == ss[j].rows[i].run
    ensures ss[k].rows[i].version == ss[j].rows[i].version && ss[k].rows[i].desired == ss[j].rows[i].desired
  {
    if j < k {
      TextStays(ss, acts, j, k - 1, i);
      assert StepAt(ss, acts, k - 1);
      QuietStep(ss[k - 1], acts[k - 1], ss[k], i);
    }
  }

  lemma ClaimTakesOff(s: State, a: Action, n: nat)
    requires Enabled(s, a) && a.ClaimDue? && n < |a.ids| && a.ids[n] < |Step(s, a).rows|
    ensures |s.flights| + n < |Step(s, a).flights|
    ensures Step(s, a).flights[|s.flights| + n] == Flight(a.worker, a.ids[n], Step(s, a).rows[a.ids[n]], Held)
  {
  }

  lemma AcknowledgeSettles(s: State, a: Action, i: nat, row: Row)
    requires Safe(s) && Enabled(s, a) && a.Acknowledge? && a.ticket < |s.flights| && i < |s.rows|
    requires s.flights[a.ticket].phase.Replied? && s.flights[a.ticket].phase.reply.Accepted?
    requires s.flights[a.ticket].id == i && s.flights[a.ticket].record == row
    requires s.rows[i].version == row.version && s.rows[i].desired == row.desired
    ensures SettledRow(Step(s, a), i, row.desired)
  {
    assert Live(s, a.ticket) && FlightOk(s, s.flights[a.ticket]);
  }

  /** The row is delivered, shows its text, and the text is the given one. */
  predicate SettledRow(s: State, i: nat, text: string) {
    && i < |s.rows| && s.rows[i].status.Delivered? && s.rows[i].provider.Some?
    && s.rows[i].delivered == Some(s.rows[i].desired) && s.rows[i].desired == text
  }

  lemma ClaimedAt(ss: seq<State>, acts: seq<Action>, j: nat, n: nat)
    requires j < |acts| && |ss| == |acts| + 1
    requires acts[j].ClaimDue? && n < |acts[j].ids| && acts[j].ids[n] < |ss[j + 1].rows|
    requires IsRun(ss, acts)
    ensures |ss[j].flights| + n < |ss[j + 1].flights|
    ensures ss[j + 1].flights[|ss[j].flights| + n].id == acts[j].ids[n]
    ensures ss[j + 1].flights[|ss[j].flights| + n].record == ss[j + 1].rows[acts[j].ids[n]]
  {
    assert StepAt(ss, acts, j);
    ClaimTakesOff(ss[j], acts[j], n);
  }

  lemma HeldSinceClaim(ss: seq<State>, acts: seq<Action>, j: nat, k: nat, n: nat)
    requires j < k < |acts| && |ss| == |acts| + 1
    requires acts[j].ClaimDue? && n < |acts[j].ids| && acts[j].ids[n] < |ss[j + 1].rows|
    requires Quiet(ss, acts, j + 1, k, acts[j].ids[n])
    requires IsRun(ss, acts)
    ensures var t, i := |ss[j].flights| + n, acts[j].ids[n];
            && t < |ss[k].flights| && ss[k].flights[t].id == i && ss[k].flights[t].record == ss[j + 1].rows[i]
            && i < |ss[k].rows| && ss[k].rows[i].version == ss[j + 1].rows[i].version
            && ss[k].rows[i].desired == ss[j + 1].rows[i].desired
  {
    ClaimedAt(ss, acts, j, n);
    FlightStays(ss, acts, j + 1, k, |ss[j].flights| + n);
    TextStays(ss, acts, j + 1, k, acts[j].ids[n]);
  }

  lemma AcknowledgedAt(ss: seq<State>, acts: seq<Action>, k: nat, i: nat, row: Row)
    requires k < |acts| && |ss| == |acts| + 1 && i < |ss[k].rows|
    requires acts[k].Acknowledge? && acts[k].ticket < |ss[k].flights|
    requires var f := ss[k].flights[acts[k].ticket];
               f.phase.Replied? && f.phase.reply.Accepted? && f.id == i && f.record == row
    requires ss[k].rows[i].version == row.version && ss[k].rows[i].desired == row.desired
    requires RunFrom(ss, acts)
    ensures SettledRow(ss[k + 1], i, row.desired)
  {
    RunSafe(ss, acts, k);
    assert StepAt(ss, acts, k);
    AcknowledgeSettles(ss[k], acts[k], i, row);
  }

  /** Once updates stop, one accepted delivery of a claimed row makes it DELIVERED. */
  lemma QuietDeliverySettles(ss: seq<State>, acts: seq<Action>, j: nat, k: nat, n: nat)
    requires j < k < |acts| && |ss| == |acts| + 1
    requires acts[j].ClaimDue? && n < |acts[j].ids| && acts[j].ids[n] < |ss[j + 1].rows|
    requires Quiet(ss, acts, j + 1, k, acts[j].ids[n])
    requires acts[k].Acknowledge? && acts[k].ticket == |ss[j].flights| + n
    requires acts[k].ticket < |ss[k].flights| && ss[k].flights[acts[k].ticket].phase.Replied?
    requires ss[k].flights[acts[k].ticket].phase.reply.Accepted?
    requires RunFrom(ss, acts)
    ensures SettledRow(ss[k + 1], acts[j].ids[n], ss[j + 1].rows[acts[j].ids[n]].desired)
  {
    HeldSinceClaim(ss, acts, j, k, n);
    AcknowledgedAt(ss, acts, k, acts[j].ids[n], ss[j + 1].rows[acts[j].ids[n]]);
  }
}
