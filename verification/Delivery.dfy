/**
 Delivery as a whole: several delivery loops over one outbox, presentation updates, lease
 expiry, crashes and restarts, interleaved in any order, against a provider that remembers
 every message it ever created.
 */
module Delivery {
  import opened Wrappers
  import opened Outbox

  // Landed: settled, or lost with the loop that held it.
  datatype Phase = Held | Replied(reply: Reply) | Landed

  // A claim in some loop's memory: the record as claimed, and how far its request has got.
  datatype Flight = Flight(worker: nat, id: nat, record: Row, phase: Phase)

  // A message at the provider: the outbox row it was created for, and the text it shows now.
  datatype Sent = Sent(row: nat, text: string)

  datatype State = State(rows: seq<Row>, flights: seq<Flight>, sent: map<string, Sent>)

  datatype Action =
    | Enqueue(channel: string, kind: Kind, run: Option<string>, text: string, now: int)
    | ClaimDue(worker: nat, channel: string, ids: seq<nat>, limit: nat, leaseSeconds: int, now: int)
    | Request(ticket: nat, reply: Reply, applied: bool, newId: string)
    | Acknowledge(ticket: nat, now: int)
    | UpdateRun(target: string, text: string, sequence: int, throttle: int, now: int)
    | Crash(worker: nat)
    | Restart(now: int)

  const Init := State([], [], map[])

  /** What a reply can mean. A send creates a message if it is accepted, may or may not if the
      outcome is ambiguous, and does not otherwise; an edit changes the text if accepted, may or
      may not if ambiguous or broken, and "already applied" is said only when it is true. */
  ghost predicate Honest(s: State, f: Flight, a: Action)
    requires a.Request?
  {
    match f.record.provider
    case None =>
      && (a.reply.Accepted? ==> a.applied && a.reply.messageId == a.newId)
      && (a.applied ==> (a.reply.Accepted? || a.reply.Ambiguous?) && a.newId != "" && a.newId !in s.sent)
    case Some(p) =>
      && p in s.sent
      && (a.reply.Accepted? ==> a.applied)
      && (a.reply.Rejected? ==> !a.applied)
      && (a.reply.Rejected? && a.reply.alreadyApplied ==> s.sent[p].text == f.record.desired)
  }

  predicate Live(s: State, t: int) {
    0 <= t < |s.flights| && !s.flights[t].phase.Landed?
  }

  ghost predicate Enabled(s: State, a: Action) {
    match a
    case Enqueue(_, kind, run, _, _) =>
      if kind.Message? then run.None? else run.Some? && forall row <- s.rows :: row.run != run
    case ClaimDue(_, channel, ids, limit, _, now) => OldestDue(ExpireAll(s.rows, now), ids, channel, now, limit)
    case Request(t, _, _, _) => Live(s, t) && s.flights[t].phase.Held? && Honest(s, s.flights[t], a)
    case Acknowledge(t, _) => Live(s, t) && s.flights[t].phase.Replied? && s.flights[t].id < |s.rows|
    case UpdateRun(_, _, _, _, _) => true
    case Crash(_) => true
    case Restart(_) => true
  }

  function Provider(s: State, f: Flight, a: Action): map<string, Sent>
    requires a.Request?
  {
    if !a.applied then s.sent
    else
      match f.record.provider
      case None => s.sent[a.newId := Sent(f.id, f.record.desired)]
      case Some(p) => if p in s.sent then s.sent[p := s.sent[p].(text := f.record.desired)] else s.sent
  }

  function Lost(f: Flight, worker: nat): Flight {
    if f.worker == worker then f.(phase := Landed) else f
  }

  ghost function Step(s: State, a: Action): (s': State)
    requires Enabled(s, a)
  {
    match a
    case Enqueue(channel, kind, run, text, now) =>
      s.(rows := s.rows + [NewRow(channel, kind, run, text, now)])
    case ClaimDue(worker, _, ids, _, leaseSeconds, now) =>
      var rows := ClaimAll(s.rows, ids, now, now + leaseSeconds);
      s.(rows := rows,
         flights := s.flights + seq(|ids|, k requires 0 <= k < |ids| => Flight(worker, ids[k], rows[ids[k]], Held)))
    case Request(t, reply, _, _) =>
      s.(flights := s.flights[t := s.flights[t].(phase := Replied(reply))],
         sent := Provider(s, s.flights[t], a))
    case Acknowledge(t, now) =>
      var f := s.flights[t];
      s.(rows := s.rows[f.id := Settle(s.rows[f.id], f.record, f.phase.reply, now)],
         flights := s.flights[t := f.(phase := Landed)])
    case UpdateRun(run, text, sequence, throttle, now) =>
      (match FindRun(s.rows, run)
       case None => s
       case Some(i) => s.(rows := s.rows[i := Update(s.rows[i], text, sequence, throttle, now)]))
    case Crash(worker) =>
      s.(flights := seq(|s.flights|, k requires 0 <= k < |s.flights| => Lost(s.flights[k], worker)))
    case Restart(now) => s.(rows := RecoverAll(s.rows, now))
  }

  ghost predicate IsRun(ss: seq<State>, acts: seq<Action>) {
    && |ss| == |acts| + 1
    && forall k :: StepAt(ss, acts, k)
  }

  ghost predicate StepAt(ss: seq<State>, acts: seq<Action>, k: int)
    requires |ss| == |acts| + 1
  {
    0 <= k < |acts| ==> Leads(ss[k], acts[k], ss[k + 1])
  }

  ghost predicate Leads(s: State, a: Action, s': State) {
    Enabled(s, a) && Step(s, a) == s'
  }

  // ---------------------------------------------------------------- at most one send

  ghost predicate NeverSent(s: State, i: nat) {
    forall m <- s.sent :: s.sent[m].row != i
  }

  /** A claim whose send is still undecided keeps its row out of reach, and the row's only
      message, if there is one, is the one this claim created. */
  ghost predicate SendOk(s: State, f: Flight) {
    && f.id < |s.rows| && s.rows[f.id].provider.None?
    && (s.rows[f.id].status.Sending? || s.rows[f.id].status.Uncertain?)
    && (match f.phase
        case Replied(Accepted(m)) => m != "" && m in s.sent && s.sent[m].row == f.id
        case Replied(Ambiguous) => true
        case _ => NeverSent(s, f.id))
  }

  ghost predicate FlightOk(s: State, f: Flight) {
    if f.record.provider.None? then SendOk(s, f)
    else f.id < |s.rows| && s.rows[f.id].provider == f.record.provider
  }

  predicate Sends(s: State, t: int) {
    Live(s, t) && s.flights[t].record.provider.None?
  }

  ghost predicate RowOk(s: State, i: nat)
    requires i < |s.rows|
  {
    var row := s.rows[i];
    && (row.provider.Some? ==>
         row.provider.value != "" && row.provider.value in s.sent && s.sent[row.provider.value].row == i)
    && (row.provider.None? && Queued(row.status) ==> NeverSent(s, i))
    && (row.status.Delivered? ==> row.provider.Some?)
  }

  ghost predicate Safe(s: State) {
    && (forall t :: Live(s, t) ==> FlightOk(s, s.flights[t]))
    && (forall t, u :: Sends(s, t) && Sends(s, u) && s.flights[t].id == s.flights[u].id ==> t == u)
    && (forall i :: 0 <= i < |s.rows| ==> RowOk(s, i))
    && (forall m <- s.sent :: s.sent[m].row < |s.rows|)
    && (forall m, n :: m in s.sent && n in s.sent && s.sent[m].row == s.sent[n].row ==> m == n)
  }

  lemma OtherRow(s: State, a: Action, i: nat)
    requires Safe(s) && !a.ClaimDue? && Enabled(s, a) && i < |Step(s, a).rows|
    ensures RowOk(Step(s, a), i)
  {
    assert i < |s.rows| ==> RowOk(s, i);
    if a.Acknowledge? {
      assert FlightOk(s, s.flights[a.ticket]);
    }
  }

  lemma OtherFlight(s: State, a: Action, t: int)
    requires Safe(s) && !a.ClaimDue? && Enabled(s, a) && Live(Step(s, a), t)
    ensures FlightOk(Step(s, a), Step(s, a).flights[t])
    ensures Live(s, t) && Step(s, a).flights[t].id == s.flights[t].id
    ensures Step(s, a).flights[t].record == s.flights[t].record
  {
    assert Live(s, t) && FlightOk(s, s.flights[t]);
    assert RowOk(s, s.flights[t].id);
    if a.Acknowledge? {
      assert FlightOk(s, s.flights[a.ticket]);
    }
  }

  lemma OtherSent(s: State, a: Action)
    requires Safe(s) && !a.ClaimDue? && Enabled(s, a)
    ensures forall m <- Step(s, a).sent :: Step(s, a).sent[m].row < |Step(s, a).rows|
    ensures forall m, n ::
              m in Step(s, a).sent && n in Step(s, a).sent && Step(s, a).sent[m].row == Step(s, a).sent[n].row ==>
                m == n
  {
    if a.Request? {
      assert FlightOk(s, s.flights[a.ticket]);
    }
  }

  /** All but claiming. */
  lemma OtherStepSafe(s: State, a: Action)
    requires Safe(s) && !a.ClaimDue? && Enabled(s, a)
    ensures Safe(Step(s, a))
  {
    var s' := Step(s, a);
    forall i | 0 <= i < |s'.rows|
      ensures RowOk(s', i)
    {
      OtherRow(s, a, i);
    }
    forall t | Live(s', t)
      ensures FlightOk(s', s'.flights[t])
      ensures Live(s, t) && s'.flights[t].id == s.flights[t].id && s'.flights[t].record == s.flights[t].record
    {
      OtherFlight(s, a, t);
    }
    OtherSent(s, a);
  }

  lemma ClaimedRow(s: State, a: Action, i: nat)
    requires Safe(s) && a.ClaimDue? && Enabled(s, a) && i < |s.rows|
    ensures RowOk(Step(s, a), i)
    ensures i in a.ids && s.rows[i].provider.None? ==> NeverSent(s, i) && Queued(s.rows[i].status)
  {
    assert RowOk(s, i);
    if i in a.ids {
      var k :| 0 <= k < |a.ids| && a.ids[k] == i;
      assert Outbox.Claimable(ExpireAll(s.rows, a.now)[a.ids[k]], a.channel, a.now);
    }
  }

  lemma ClaimedFlight(s: State, a: Action, t: int)
    requires Safe(s) && a.ClaimDue? && Enabled(s, a) && Live(Step(s, a), t)
    ensures FlightOk(Step(s, a), Step(s, a).flights[t])
    ensures Sends(s, t) ==> s.flights[t].id !in a.ids
  {
    if t < |s.flights| {
      assert Live(s, t) && FlightOk(s, s.flights[t]);
      ClaimedRow(s, a, s.flights[t].id);
    } else {
      var i := a.ids[t - |s.flights|];
      assert i in a.ids;
      ClaimedRow(s, a, i);
    }
  }

  lemma ClaimedOnce(s: State, a: Action, t: int, u: int)
    requires Safe(s) && a.ClaimDue? && Enabled(s, a)
    requires Sends(Step(s, a), t) && Sends(Step(s, a), u)
    requires Step(s, a).flights[t].id == Step(s, a).flights[u].id
    ensures t == u
  {
    var n := |s.flights|;
    if t < n {
      assert Sends(s, t);
    }
    if u < n {
      assert Sends(s, u);
    }
    ClaimedFlight(s, a, t);
    ClaimedFlight(s, a, u);
    if t >= n {
      assert a.ids[t - n] in a.ids;
    }
    if u >= n {
      assert a.ids[u - n] in a.ids;
    }
  }

  lemma ClaimSafe(s: State, a: Action)
    requires Safe(s) && a.ClaimDue? && Enabled(s, a)
    ensures Safe(Step(s, a))
  {
    var s' := Step(s, a);
    ClaimRowsSafe(s, a);
    forall t | Live(s', t)
      ensures FlightOk(s', s'.flights[t])
    {
      ClaimedFlight(s, a, t);
    }
    forall t, u | Sends(s', t) && Sends(s', u) && s'.flights[t].id == s'.flights[u].id
      ensures t == u
    {
      ClaimedOnce(s, a, t, u);
    }
  }

  lemma ClaimRowsSafe(s: State, a: Action)
    requires Safe(s) && a.ClaimDue? && Enabled(s, a)
    ensures Step(s, a).sent == s.sent && |Step(s, a).rows| == |s.rows|
    ensures forall i :: 0 <= i < |Step(s, a).rows| ==> RowOk(Step(s, a), i)
  {
    forall i | 0 <= i < |Step(s, a).rows|
      ensures RowOk(Step(s, a), i)
    {
      ClaimedRow(s, a, i);
    }
  }

  lemma StepSafe(s: State, a: Action)
    requires Safe(s) && Enabled(s, a)
    ensures Safe(Step(s, a))
  {
    if a.ClaimDue? {
      ClaimSafe(s, a);
    } else {
      OtherStepSafe(s, a);
    }
  }
}
