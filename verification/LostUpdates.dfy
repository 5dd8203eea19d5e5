/**
 When an update can be lost: exactly when a row is put back while a loop still holds an edit
 of it. From every such moment there is a way to end at rest with a DELIVERED row whose
 message shows another text.
 */
module LostUpdates {
  import opened Wrappers
  import opened Outbox
  import opened Delivery
  import opened DeliveryRuns

  // ---------------------------------------------------------------- going on from a state

  ghost predicate CanReach(s: State, last: State) {
    exists ss, acts :: IsRun(ss, acts) && ss[0] == s && ss[|acts|] == last
  }

  lemma ReachOne(s: State, a: Action)
    requires Enabled(s, a)
    ensures CanReach(s, Step(s, a))
  {
    var ss, acts := [s, Step(s, a)], [a];
    assert StepAt(ss, acts, 0);
    assert IsRun(ss, acts) && ss[|acts|] == Step(s, a);
  }

  lemma ReachSelf(s: State)
    ensures CanReach(s, s)
  {
    var ss: seq<State>, acts: seq<Action> := [s], [];
    assert IsRun(ss, acts) && ss[0] == s && ss[|acts|] == s;
  }

  lemma ReachTrans(s: State, t: State, u: State)
    requires CanReach(s, t) && CanReach(t, u)
    ensures CanReach(s, u)
  {
    var ss, acts :| IsRun(ss, acts) && ss[0] == s && ss[|acts|] == t;
    var ss', acts' :| IsRun(ss', acts') && ss'[0] == t && ss'[|acts'|] == u;
    JoinRuns(ss, acts, ss', acts');
    var all, actions := ss + ss'[1..], acts + acts';
    assert all[0] == s && all[|actions|] == u;
  }

  lemma JoinRuns(ss: seq<State>, acts: seq<Action>, ss': seq<State>, acts': seq<Action>)
    requires IsRun(ss, acts) && IsRun(ss', acts') && ss[|acts|] == ss'[0]
    ensures IsRun(ss + ss'[1..], acts + acts')
  {
    var all, actions := ss + ss'[1..], acts + acts';
    forall k
      ensures StepAt(all, actions, k)
    {
      assert StepAt(ss, acts, k) && StepAt(ss', acts', k - |acts|);
      if |acts| <= k < |actions| {
        assert all[k] == ss'[k - |acts|] && all[k + 1] == ss'[k - |acts| + 1];
      }
    }
  }

  // ---------------------------------------------------------------- what holds throughout

  /** A run is presented by one row, and the other rows are messages. */
  ghost predicate RunsOnce(rows: seq<Row>) {
    && (forall i :: 0 <= i < |rows| ==> (rows[i].kind.Message? <==> rows[i].run.None?))
    && (forall i, j :: 0 <= i < j < |rows| && rows[i].run.Some? ==> rows[i].run != rows[j].run)
  }

  ghost predicate Good(s: State) {
    Safe(s) && MessagesOk(s) && RunsOnce(s.rows)
  }

  lemma KindsKept(s: State, a: Action)
    requires Enabled(s, a)
    ensures |Step(s, a).rows| == |s.rows| + if a.Enqueue? then 1 else 0
    ensures forall i :: 0 <= i < |s.rows| ==>
              Step(s, a).rows[i].kind == s.rows[i].kind && Step(s, a).rows[i].run == s.rows[i].run
  {
  }

  lemma GoodStep(s: State, a: Action)
    requires Good(s) && Enabled(s, a)
    ensures Good(Step(s, a))
  {
    StepSafe(s, a);
    MessagesStep(s, a);
    KindsKept(s, a);
    assert forall i :: 0 <= i < |s.rows| ==> s.rows[i] in s.rows;
  }

  lemma {:induction false} RunGood(ss: seq<State>, acts: seq<Action>, k: nat)
    requires RunFrom(ss, acts) && k < |ss|
    ensures Good(ss[k])
  {
    if k > 0 {
      RunGood(ss, acts, k - 1);
      assert StepAt(ss, acts, k - 1);
      GoodStep(ss[k - 1], acts[k - 1]);
    }
  }

  lemma FindsOwn(rows: seq<Row>, i: nat)
    requires RunsOnce(rows) && i < |rows| && rows[i].run.Some?
    ensures FindRun(rows, rows[i].run.value) == Some(i)
  {
    assert rows[i] in rows;
  }

  // ---------------------------------------------------------------- steps towards a loss

  /** An edit held or answered, of a row that is known. */
  ghost predicate EditOf(s: State, t: int, i: nat) {
    Edits(s, t) && s.flights[t].id == i && i < |s.rows|
  }

  /** Its row belongs to a run, has its message id, and the provider has that message. */
  lemma EditFacts(s: State, t: int, i: nat)
    requires Good(s) && EditOf(s, t, i)
    ensures s.rows[i].run.Some? && s.rows[i].provider == s.flights[t].record.provider
    ensures s.rows[i].provider.value in s.sent && s.sent[s.rows[i].provider.value].row == i
  {
    assert FlightOk(s, s.flights[t]) && MessageFlightOk(s, s.flights[t]) && RowOk(s, i);
  }

  /** The text changes while no loop is at work on the row. */
  lemma Rewritten(s: State, i: nat, text: string, now: int) returns (s': State)
    requires Good(s) && i < |s.rows| && s.rows[i].run.Some? && s.rows[i].provider.Some?
    requires text != s.rows[i].desired && !s.rows[i].status.Sending?
    ensures CanReach(s, s') && Good(s') && |s'.rows| == |s.rows| && s' == s.(rows := s.rows[i := s'.rows[i]])
    ensures s'.rows[i].status.Pending? && s'.rows[i].availableAt == now && s'.rows[i].desired == text
    ensures s'.rows[i].provider == s.rows[i].provider
  {
    var a := UpdateRun(s.rows[i].run.value, text, s.rows[i].sequence, 0, now);
    FindsOwn(s.rows, i);
    s' := Step(s, a);
    ReachOne(s, a);
    GoodStep(s, a);
  }

  function DueFrom(rows: seq<Row>, channel: string, now: int, n: nat): (ids: seq<nat>)
    requires n <= |rows|
    ensures forall k :: 0 <= k < |ids| ==> ids[k] < n && Claimable(rows[ids[k]], channel, now)
    ensures forall j, k :: 0 <= j < k < |ids| ==> ids[j] < ids[k]
    ensures forall i :: 0 <= i < n && Claimable(rows[i], channel, now) ==> i in ids
  {
    if n == 0 then []
    else
      var before := DueFrom(rows, channel, now, n - 1);
      if Claimable(rows[n - 1], channel, now) then before + [n - 1] else before
  }

  /** A second loop claims all that is due, the row among it. */
  lemma Claimed(s: State, i: nat, now: int) returns (s': State, g: int)
    requires Good(s) && i < |s.rows| && s.rows[i].status.Pending? && s.rows[i].availableAt <= now
    ensures CanReach(s, s') && Good(s') && |s'.rows| == |s.rows| && s'.sent == s.sent
    ensures forall t :: 0 <= t < |s.flights| ==> t < |s'.flights| && s'.flights[t] == s.flights[t]
    ensures |s.flights| <= g < |s'.flights| && s'.flights[g].phase.Held? && s'.flights[g].id == i
    ensures s'.flights[g].record == s'.rows[i] && s'.rows[i] == Claim(s.rows[i], now + 30)
  {
    var channel, due := s.rows[i].channel, ExpireAll(s.rows, now);
    var ids := DueFrom(due, channel, now, |due|);
    assert due[i] == s.rows[i] && i in ids;
    assert OldestDue(due, ids, channel, now, |ids|);
    s', g := ClaimedBy(s, ClaimDue(0, channel, ids, |ids|, 30, now), i);
  }

  lemma ClaimedBy(s: State, a: Action, i: nat) returns (s': State, g: int)
    requires Good(s) && a.ClaimDue? && Enabled(s, a) && i in a.ids && i < |s.rows| && s.rows[i].status.Pending?
    ensures CanReach(s, s') && Good(s') && |s'.rows| == |s.rows| && s'.sent == s.sent
    ensures forall t :: 0 <= t < |s.flights| ==> t < |s'.flights| && s'.flights[t] == s.flights[t]
    ensures |s.flights| <= g < |s'.flights| && s'.flights[g].phase.Held? && s'.flights[g].id == i
    ensures s'.flights[g].record == s'.rows[i] && s'.rows[i] == Claim(s.rows[i], a.now + a.leaseSeconds)
  {
    s' := Step(s, a);
    ReachOne(s, a);
    GoodStep(s, a);
    g := ClaimedFlightOf(s, a, i);
  }

  lemma ClaimedFlightOf(s: State, a: Action, i: nat) returns (g: int)
    requires a.ClaimDue? && Enabled(s, a) && i in a.ids && i < |s.rows| && s.rows[i].status.Pending?
    ensures var s' := Step(s, a);
            && |s'.rows| == |s.rows| && s'.sent == s.sent
            && (forall t :: 0 <= t < |s.flights| ==> t < |s'.flights| && s'.flights[t] == s.flights[t])
            && |s.flights| <= g < |s'.flights| && s'.flights[g].phase.Held? && s'.flights[g].id == i
            && s'.flights[g].record == s'.rows[i] && s'.rows[i] == Claim(s.rows[i], a.now + a.leaseSeconds)
  {
    ClaimKeepsOthers(s, a, i);
    g := ClaimedTicket(s, a, i);
  }

  lemma ClaimedTicket(s: State, a: Action, i: nat) returns (g: int)
    requires a.ClaimDue? && Enabled(s, a) && i in a.ids && i < |Step(s, a).rows|
    ensures |s.flights| <= g < |Step(s, a).flights|
    ensures Step(s, a).flights[g] == Flight(a.worker, i, Step(s, a).rows[i], Held)
  {
    var k := PlaceIn(a.ids, i);
    ClaimTakesOff(s, a, k);
    g := |s.flights| + k;
  }

  lemma PlaceIn(ids: seq<nat>, i: nat) returns (k: nat)
    requires i in ids
    ensures k < |ids| && ids[k] == i
  {
    k :| k < |ids| && ids[k] == i;
  }

  /** A held edit goes through at the provider. */
  lemma Edited(s: State, t: int, i: nat) returns (s': State)
    requires Good(s) && EditOf(s, t, i) && s.flights[t].phase.Held?
    ensures CanReach(s, s') && Good(s') && s'.rows == s.rows && |s'.flights| == |s.flights|
    ensures s'.flights[t] == s.flights[t].(phase := Replied(Accepted("")))
    ensures forall u :: 0 <= u < |s.flights| && u != t ==> s'.flights[u] == s.flights[u]
    ensures s.rows[i].provider.Some? && s'.sent.Keys == s.sent.Keys && s.rows[i].provider.value in s'.sent
    ensures s'.sent[s.rows[i].provider.value].text == s.flights[t].record.desired
  {
    EditFacts(s, t, i);
    var a := Request(t, Accepted(""), true, "");
    s' := Step(s, a);
    ReachOne(s, a);
    GoodStep(s, a);
  }

  /** The answer to an edit is written down; the row is then in nobody's hands. */
  lemma WrittenDown(s: State, t: int, i: nat, now: int) returns (s': State)
    requires Good(s) && EditOf(s, t, i) && s.flights[t].phase.Replied?
    ensures CanReach(s, s') && Good(s') && s'.sent == s.sent && |s'.rows| == |s.rows| && |s'.flights| == |s.flights|
    ensures forall u :: 0 <= u < |s.flights| && u != t ==> s'.flights[u] == s.flights[u]
    ensures s'.rows[i] == Settle(s.rows[i], s.flights[t].record, s.flights[t].phase.reply, now)
    ensures !s'.rows[i].status.Sending?
  {
    EditFacts(s, t, i);
    var a := Acknowledge(t, now);
    s' := Step(s, a);
    ReachOne(s, a);
    GoodStep(s, a);
  }

  /** The process of every loop ends. */
  lemma {:induction false} AllCrash(s: State, n: nat) returns (s': State)
    requires n <= |s.flights|
    ensures CanReach(s, s') && s' == s.(flights := s'.flights) && |s'.flights| == |s.flights|
    ensures forall t :: 0 <= t < n ==> !Live(s', t)
  {
    if n == 0 {
      s' := s;
      ReachSelf(s);
    } else {
      var x := AllCrash(s, n - 1);
      var a := Crash(x.flights[n - 1].worker);
      s' := Step(x, a);
      ReachOne(x, a);
      ReachTrans(s, x, s');
      forall t | 0 <= t < n
        ensures !Live(s', t)
      {
        assert t < n - 1 ==> !Live(x, t);
      }
    }
  }

  // ---------------------------------------------------------------- the loss

  ghost predicate LostAtRest(s: State) {
    && (forall t :: !Live(s, t))
    && exists i :: 0 <= i < |s.rows| && s.rows[i].status.Delivered? && !Shown(s, i)
  }

  ghost predicate LossFollows(s: State) {
    exists last :: CanReach(s, last) && LostAtRest(last)
  }

  lemma LossFollowsFrom(s: State, t: State)
    requires CanReach(s, t) && LossFollows(t)
    ensures LossFollows(s)
  {
    var last :| CanReach(t, last) && LostAtRest(last);
    ReachTrans(s, t, last);
  }

  /** A claimed row is delivered. */
  lemma ClaimDelivered(s: State, g: int, i: nat, now: int) returns (s': State)
    requires Good(s) && EditOf(s, g, i) && s.flights[g].phase.Held? && s.flights[g].record == s.rows[i]
    ensures CanReach(s, s') && Good(s') && |s'.rows| == |s.rows| && |s'.flights| == |s.flights|
    ensures forall u :: 0 <= u < |s.flights| && u != g ==> s'.flights[u] == s.flights[u]
    ensures s'.rows[i].status.Delivered? && s'.rows[i].desired == s.rows[i].desired
    ensures s'.rows[i].provider == s.rows[i].provider
  {
    var x := Edited(s, g, i);
    s' := WrittenDown(x, g, i, now);
    ReachTrans(s, x, s');
  }

  /** A stalled edit goes through behind a delivery of another text. */
  lemma OvertakenEdit(s: State, t: int, i: nat)
    requires Good(s) && EditOf(s, t, i) && s.flights[t].phase.Held?
    requires s.rows[i].status.Delivered? && s.rows[i].desired != s.flights[t].record.desired
    ensures LossFollows(s)
  {
    EditFacts(s, t, i);
    var x := Edited(s, t, i);
    var last := AllCrash(x, |x.flights|);
    ReachTrans(s, x, last);
    assert last.rows[i].status.Delivered? && !Shown(last, i);
    assert LostAtRest(last);
  }

  /** A loop holds an edit of a row that is in nobody's hands. */
  lemma LossUnderHeld(s: State, t: int, i: nat, now: int)
    requires Good(s) && EditOf(s, t, i) && s.flights[t].phase.Held? && !s.rows[i].status.Sending?
    ensures LossFollows(s)
  {
    EditFacts(s, t, i);
    var text := s.rows[i].desired + s.flights[t].record.desired + "x";
    var x := Rewritten(s, i, text, now);
    var y, g := Claimed(x, i, now);
    ReachTrans(s, x, y);
    var z := ClaimDelivered(y, g, i, now);
    ReachTrans(s, y, z);
    OvertakenEdit(z, t, i);
    LossFollowsFrom(s, z);
  }

  /** One loop holds the row, fresh from a claim; another still has an edit of it. */
  lemma LossUnderClaim(s: State, t: int, g: int, i: nat, now: int)
    requires Good(s) && EditOf(s, t, i) && EditOf(s, g, i) && t != g
    requires s.flights[g].phase.Held? && s.flights[g].record == s.rows[i]
    ensures LossFollows(s)
  {
    if s.flights[t].phase.Held? {
      var x := ClaimDelivered(s, g, i, now);
      LossUnderHeld(x, t, i, now);
      LossFollowsFrom(s, x);
    } else {
      var x := WrittenDown(s, t, i, now);
      LossUnderHeld(x, g, i, now);
      LossFollowsFrom(s, x);
    }
  }

  lemma LossUnderEdit(s: State, t: int, i: nat, now: int)
    requires Good(s) && EditOf(s, t, i) && !s.rows[i].status.Sending?
    ensures LossFollows(s)
  {
    if s.flights[t].phase.Held? {
      LossUnderHeld(s, t, i, now);
    } else {
      EditFacts(s, t, i);
      var x := Rewritten(s, i, s.rows[i].desired + "x", now);
      var y, g := Claimed(x, i, now);
      ReachTrans(s, x, y);
      LossUnderClaim(y, t, g, i, now);
      LossFollowsFrom(s, y);
    }
  }

  lemma ClaimPutsBack(s: State, a: Action, t: int, i: nat)
    requires Good(s) && Enabled(s, a) && a.ClaimDue? && EditOf(s, t, i) && PutsBack(a, s.rows[i])
    ensures LossFollows(Step(s, a))
  {
    EditFacts(s, t, i);
    GoodStep(s, a);
    var s' := Step(s, a);
    EditStays(s, a, t, i);
    if i in a.ids {
      var g := FreshClaim(s, a, i);
      LossUnderClaim(s', t, g, i, a.now);
    } else {
      LossUnderEdit(s', t, i, a.now);
    }
  }

  lemma EditStays(s: State, a: Action, t: int, i: nat)
    requires Enabled(s, a) && a.ClaimDue? && EditOf(s, t, i) && PutsBack(a, s.rows[i])
    ensures EditOf(Step(s, a), t, i) && t < |s.flights|
    ensures s.rows[i].provider.Some? && i !in a.ids ==> !Step(s, a).rows[i].status.Sending?
  {
  }

  lemma FreshClaim(s: State, a: Action, i: nat) returns (g: int)
    requires Enabled(s, a) && a.ClaimDue? && i in a.ids && i < |s.rows| && s.rows[i].provider.Some?
    ensures |s.flights| <= g && EditOf(Step(s, a), g, i)
    ensures Step(s, a).flights[g].phase.Held? && Step(s, a).flights[g].record == Step(s, a).rows[i]
  {
    ClaimKeepsOthers(s, a, i);
    g := ClaimedTicket(s, a, i);
  }

  lemma ClaimKeepsOthers(s: State, a: Action, i: nat)
    requires Enabled(s, a) && a.ClaimDue? && i < |s.rows|
    ensures |Step(s, a).rows| == |s.rows| && Step(s, a).sent == s.sent && |Step(s, a).flights| == |s.flights| + |a.ids|
    ensures forall t :: 0 <= t < |s.flights| ==> Step(s, a).flights[t] == s.flights[t]
    ensures Step(s, a).rows[i].provider == s.rows[i].provider
    ensures i in a.ids && s.rows[i].status.Pending? ==> Step(s, a).rows[i] == Claim(s.rows[i], a.now + a.leaseSeconds)
  {
  }

  /** The converse of NoLostUpdate: after any step that puts a row back under an edit, in any
      state that can arise, the run can go on to rest with a DELIVERED row not shown. */
  lemma LostUpdateFollows(ss: seq<State>, acts: seq<Action>, a: Action)
    requires RunFrom(ss, acts) && Enabled(ss[|acts|], a) && !InTime(ss[|acts|], a)
    ensures LossFollows(Step(ss[|acts|], a))
  {
    var s := ss[|acts|];
    RunGood(ss, acts, |acts|);
    var t :| Edits(s, t) && s.flights[t].id < |s.rows| && PutsBack(a, s.rows[s.flights[t].id]);
    var i := s.flights[t].id;
    if a.ClaimDue? {
      ClaimPutsBack(s, a, t, i);
    } else {
      EditFacts(s, t, i);
      GoodStep(s, a);
      LossUnderEdit(Step(s, a), t, i, a.now);
    }
  }

  // ---------------------------------------------------------------- an instance

  /** Row 0 of the run below. */
  function TheRow(provider: Option<string>, desired: string, delivered: Option<string>, status: Status, sequence: int,
                  version: int, attempts: nat, availableAt: int, lease: Option<int>): Row
  {
    Row("tg", Presentation, Some("r"), provider, desired, delivered, status, sequence, version, attempts,
      availableAt, lease)
  }

  lemma MessageClaimed() returns (ss: seq<State>, acts: seq<Action>)
    ensures RunFrom(ss, acts)
    ensures var s := ss[|acts|];
            && s.rows == [TheRow(None, "A", None, Sending, 0, 1, 1, 0, Some(30))]
            && s.flights == [Flight(1, 0, s.rows[0], Held)] && s.sent == map[]
  {
    var r1 := TheRow(None, "A", None, Pending, 0, 1, 0, 0, None);
    var r2 := TheRow(None, "A", None, Sending, 0, 1, 1, 0, Some(30));
    var s1, s2 := State([r1], [], map[]), State([r2], [Flight(1, 0, r2, Held)], map[]);
    ss := [Init, s1, s2];
    acts := [Enqueue("tg", Presentation, Some("r"), "A", 0), ClaimDue(1, "tg", [0], 20, 30, 0)];
    assert Leads(Init, acts[0], s1);
    OneRowClaimed(r1, 0, []);
    assert Leads(s1, acts[1], s2);
  }

  /** The only row there is, pending and due, is claimed. */
  lemma OneRowClaimed(row: Row, now: int, flights: seq<Flight>)
    requires row.channel == "tg" && row.status.Pending? && row.availableAt <= now
    ensures var held := Claim(row, now + 30);
            forall sent :: Leads(State([row], flights, sent), ClaimDue(1, "tg", [0], 20, 30, now),
                                 State([held], flights + [Flight(1, 0, held, Held)], sent))
  {
    assert ExpireAll([row], now) == [row];
    assert ClaimAll([row], [0], now, now + 30) == [Claim(row, now + 30)];
  }

  lemma MessageOut() returns (ss: seq<State>, acts: seq<Action>)
    ensures RunFrom(ss, acts)
    ensures ss[|acts|].rows == [TheRow(Some("m"), "A", Some("A"), Delivered, 0, 1, 1, 0, None)]
    ensures |ss[|acts|].flights| == 1
  {
    var ss1, acts1 := MessageClaimed();
    var s := ss1[|acts1|];
    var f, sent := s.flights[0], map["m" := Sent(0, "A")];
    var r4 := TheRow(Some("m"), "A", Some("A"), Delivered, 0, 1, 1, 0, None);
    var s3 := State(s.rows, [f.(phase := Replied(Accepted("m")))], sent);
    var s4 := State([r4], [f.(phase := Landed)], sent);
    var ss2, acts2 := [s, s3, s4], [Request(0, Accepted("m"), true, "m"), Acknowledge(0, 0)];
    assert Leads(s, acts2[0], s3);
    assert Leads(s3, acts2[1], s4);
    JoinRuns(ss1, acts1, ss2, acts2);
    ss, acts := ss1 + ss2[1..], acts1 + acts2;
    assert ss[0] == Init && ss[|acts|] == s4;
  }

  /** Its text changes to B, and a loop claims the edit under a lease to 31. */
  lemma EditClaimed() returns (ss: seq<State>, acts: seq<Action>)
    ensures RunFrom(ss, acts)
    ensures var s := ss[|acts|];
            && s.rows == [TheRow(Some("m"), "B", Some("A"), Sending, 1, 2, 2, 1, Some(31))]
            && |s.flights| == 2 && s.flights[1] == Flight(1, 0, s.rows[0], Held)
  {
    var ss1, acts1 := MessageOut();
    var s := ss1[|acts1|];
    var r5 := TheRow(Some("m"), "B", Some("A"), Pending, 1, 2, 1, 1, None);
    var r6 := TheRow(Some("m"), "B", Some("A"), Sending, 1, 2, 2, 1, Some(31));
    var s5 := s.(rows := [r5]);
    var s6 := s.(rows := [r6], flights := s.flights + [Flight(1, 0, r6, Held)]);
    var ss2, acts2 := [s, s5, s6], [UpdateRun("r", "B", 1, 0, 1), ClaimDue(1, "tg", [0], 20, 30, 1)];
    assert Leads(s, acts2[0], s5);
    OneRowClaimed(r5, 1, s.flights);
    assert Leads(s5, acts2[1], s6);
    JoinRuns(ss1, acts1, ss2, acts2);
    ss, acts := ss1 + ss2[1..], acts1 + acts2;
    assert ss[0] == Init && ss[|acts|] == s6;
  }

  /** With two loops an update can be lost: a second loop claims at 31, when the first has not
      yet sent its edit. */
  lemma TwoLoopsLoseAnUpdate() returns (ss: seq<State>, acts: seq<Action>)
    ensures RunFrom(ss, acts) && LostAtRest(ss[|acts|])
  {
    var ss1, acts1 := EditClaimed();
    var s, a := ss1[|acts1|], ClaimDue(2, "tg", [0], 20, 30, 31);
    assert ExpireAll(s.rows, 31) == [Interrupted(s.rows[0], 31)];
    assert Enabled(s, a);
    assert Edits(s, 1) && PutsBack(a, s.rows[0]);
    LostUpdateFollows(ss1, acts1, a);
    var last :| CanReach(Step(s, a), last) && LostAtRest(last);
    ReachOne(s, a);
    ReachTrans(s, Step(s, a), last);
    var ss2, acts2 :| IsRun(ss2, acts2) && ss2[0] == s && ss2[|acts2|] == last;
    JoinRuns(ss1, acts1, ss2, acts2);
    ss, acts := ss1 + ss2[1..], acts1 + acts2;
    assert ss[0] == Init && ss[|acts|] == last;
  }
}
