/**
 The durable outbox: one row per message the channel owes, and the transitions of a row as
 functions. Rows are held in creation order and a row's id is its position.
 */
module Outbox {
  import opened Wrappers

  datatype Kind = Message | Presentation

  datatype Status = Pending | Sending | RetryWait | Delivered | Uncertain | Failed

  datatype Row = Row(channel: string, kind: Kind, run: Option<string>, provider: Option<string>,
                     desired: string, delivered: Option<string>, status: Status, sequence: int,
                     version: int, attempts: nat, availableAt: int, leaseUntil: Option<int>)

  const MaxAttempts: int := 8

  function NewRow(channel: string, kind: Kind, run: Option<string>, text: string, now: int): Row {
    Row(channel, kind, run, None, text, None, Pending, 0, 1, 0, now, None)
  }

  predicate Queued(status: Status) {
    status.Pending? || status.RetryWait?
  }

  /** A send whose outcome was lost must not be repeated; an edit may be. */
  function Interrupted(row: Row, now: int): Row {
    if row.provider.None? then row.(status := Uncertain, leaseUntil := None)
    else row.(status := Pending, leaseUntil := None, availableAt := now)
  }

  /** recover_deliveries, on one row. */
  function Recover(row: Row, now: int): Row {
    if row.status.Sending? then Interrupted(row, now) else row
  }

  /** claim_outbox, first half: what an expired lease does to one row. */
  function Expire(row: Row, now: int): Row {
    if row.status.Sending? && row.leaseUntil.Some? && row.leaseUntil.value <= now then Interrupted(row, now) else row
  }

  predicate Claimable(row: Row, channel: string, now: int) {
    row.channel == channel && Queued(row.status) && row.availableAt <= now
  }

  /** claim_outbox, second half. */
  function Claim(row: Row, leaseUntil: int): Row {
    row.(status := Sending, leaseUntil := Some(leaseUntil), attempts := row.attempts + 1)
  }

  /** mark_delivered. An empty message id counts as none. */
  function Acknowledged(row: Row, claimedVersion: int, text: string, acked: Option<string>, now: int): Row {
    var settled := row.version == claimedVersion && row.desired == text;
    row.(provider := if acked.Some? && acked.value != "" then acked else row.provider,
         delivered := Some(text),
         status := if settled then Delivered else Pending,
         availableAt := now, leaseUntil := None)
  }

  /** mark_retry. */
  function Retried(row: Row, ambiguous: bool, retryAfter: int, maxAttempts: int, now: int): Row {
    row.(status := if ambiguous && row.provider.None? then Uncertain
                   else if row.attempts >= maxAttempts then Failed else RetryWait,
         availableAt := now + (if retryAfter > 0 then retryAfter else 0), leaseUntil := None)
  }

  /** update_presentation, on the row of the run. */
  function Update(row: Row, text: string, sequence: int, throttle: int, now: int): Row {
    if row.sequence >= sequence && row.desired == text then row
    else
      row.(desired := text, sequence := sequence, version := row.version + 1,
           status := if (row.status.Uncertain? || row.status.Failed?) && row.provider.None? then row.status
                     else if row.status.Sending? then Sending else Pending,
           availableAt := now + (if throttle > 0 then throttle else 0))
  }

  /** The row update_presentation selects: the first one of the run. */
  function FindRun(rows: seq<Row>, run: string): (r: Option<nat>)
    ensures r.Some? ==> r.value < |rows| && rows[r.value].run == Some(run)
    ensures r.None? ==> forall row <- rows :: row.run != Some(run)
  {
    if rows == [] then None
    else if rows[0].run == Some(run) then Some(0)
    else
      match FindRun(rows[1..], run)
      case None => None
      case Some(i) => Some(i + 1)
  }

  /** ids are the oldest rows due on the channel, up to limit of them, oldest first. */
  ghost predicate OldestDue(rows: seq<Row>, ids: seq<nat>, channel: string, now: int, limit: nat) {
    && |ids| <= limit
    && (forall k :: 0 <= k < |ids| ==> ids[k] < |rows| && Claimable(rows[ids[k]], channel, now))
    && (forall j, k :: 0 <= j < k < |ids| ==> ids[j] < ids[k])
    && (forall i :: 0 <= i < |rows| && Claimable(rows[i], channel, now) && i !in ids ==>
          |ids| == limit && forall id <- ids :: id < i)
  }

  /** Every row expired if its lease has run out, and then the picked ones claimed. */
  function ClaimAll(rows: seq<Row>, ids: seq<nat>, now: int, leaseUntil: int): (r: seq<Row>)
    ensures |r| == |rows|
  {
    seq(|rows|, i requires 0 <= i < |rows| =>
      if i in ids then Claim(Expire(rows[i], now), leaseUntil) else Expire(rows[i], now))
  }

  function ExpireAll(rows: seq<Row>, now: int): (r: seq<Row>)
    ensures |r| == |rows|
  {
    seq(|rows|, i requires 0 <= i < |rows| => Expire(rows[i], now))
  }

  function RecoverAll(rows: seq<Row>, now: int): (r: seq<Row>)
    ensures |r| == |rows|
  {
    seq(|rows|, i requires 0 <= i < |rows| => Recover(rows[i], now))
  }

  /** How many rows are being sent, with or without a message id. */
  function InFlight(rows: seq<Row>, withId: bool): nat {
    if rows == [] then 0
    else
      var row := rows[|rows| - 1];
      InFlight(rows[..|rows| - 1], withId) + if row.status.Sending? && row.provider.Some? == withId then 1 else 0
  }

  datatype Claimed = Claimed(id: nat, record: Row)

  /** How one request to the provider ended, as the adapter reports it. */
  datatype Reply =
    | Accepted(messageId: string)
    | Rejected(retryable: bool, alreadyApplied: bool, retryAfter: int)
    | Ambiguous
    | Broken

  function Backoff(attempt: int): int {
    if attempt <= 0 then 1 else if attempt == 1 then 2 else if attempt == 2 then 4 else if attempt == 3 then 8
    else if attempt == 4 then 16 else if attempt == 5 then 32 else 60
  }

  /** What _deliver and deliver_once write for a claimed record, given the provider's reply. */
  function Settle(row: Row, record: Row, reply: Reply, now: int): Row {
    match reply
    case Accepted(id) =>
      Acknowledged(row, record.version, record.desired, if record.provider.None? then Some(id) else None, now)
    case Rejected(retryable, alreadyApplied, after) =>
      if alreadyApplied && record.provider.Some? then Acknowledged(row, record.version, record.desired, None, now)
      else if retryable then
        Retried(row, false, if after != 0 then after else Backoff(record.attempts), MaxAttempts, now)
      else Retried(row, false, 0, 1, now)
    case Ambiguous => Retried(row, true, Backoff(record.attempts), MaxAttempts, now)
    case Broken => Retried(row, false, 1, MaxAttempts, now)
  }

  datatype Missing = NotFound

  class ChannelStore {
    var rows: seq<Row>

    constructor ()
      ensures rows == []
    {
      rows := [];
    }

    /** A row for a new message; its logical key is new. */
    method Enqueue(channel: string, kind: Kind, run: Option<string>, text: string, now: int) returns (id: nat)
      modifies this
      ensures id == |old(rows)| && rows == old(rows) + [NewRow(channel, kind, run, text, now)]
    {
      id := |rows|;
      rows := rows + [NewRow(channel, kind, run, text, now)];
    }

    method RecoverDeliveries(now: int) returns (uncertain: nat, retry: nat)
      modifies this
      ensures rows == RecoverAll(old(rows), now)
      ensures forall row <- rows :: !row.status.Sending?
      ensures uncertain == InFlight(old(rows), false) && retry == InFlight(old(rows), true)
    {
      uncertain, retry := 0, 0;
      for i := 0 to |rows|
        invariant |rows| == |old(rows)|
        invariant uncertain == InFlight(old(rows)[..i], false) && retry == InFlight(old(rows)[..i], true)
        invariant forall k :: 0 <= k < |rows| ==>
                    rows[k] == if k < i then Recover(old(rows)[k], now) else old(rows)[k]
      {
        assert old(rows)[..i + 1][..i] == old(rows)[..i];
        if rows[i].status.Sending? {
          if rows[i].provider.None? {
            uncertain := uncertain + 1;
          } else {
            retry := retry + 1;
          }
          rows := rows[i := Interrupted(rows[i], now)];
        }
      }
      assert old(rows)[..|rows|] == old(rows);
      assert rows == RecoverAll(old(rows), now);
    }

    method ExpireLeases(now: int)
      modifies this
      ensures rows == ExpireAll(old(rows), now)
    {
      ghost var was := rows;
      for i := 0 to |rows|
        invariant |rows| == |was|
        invariant forall k :: 0 <= k < |rows| ==> rows[k] == if k < i then Expire(was[k], now) else was[k]
      {
        rows := rows[i := Expire(rows[i], now)];
      }
    }

    /** Expires stale leases, then claims the oldest due rows of the channel. */
    method ClaimOutbox(channel: string, limit: nat, leaseSeconds: int, now: int)
      returns (ghost ids: seq<nat>, claimed: seq<Claimed>)
      modifies this
      ensures OldestDue(ExpireAll(old(rows), now), ids, channel, now, limit)
      ensures rows == ClaimAll(old(rows), ids, now, now + leaseSeconds)
      ensures |claimed| == |ids|
      ensures forall k :: 0 <= k < |ids| ==> claimed[k] == Claimed(ids[k], rows[ids[k]])
    {
      ghost var was := rows;
      ExpireLeases(now);
      ghost var due := rows;
      ids, claimed := [], [];
      for i := 0 to |rows|
        invariant |rows| == |due| && |claimed| == |ids| <= limit
        invariant forall k :: 0 <= k < |ids| ==> ids[k] < i && Claimable(due[ids[k]], channel, now)
        invariant forall j, k :: 0 <= j < k < |ids| ==> ids[j] < ids[k]
        invariant forall k :: 0 <= k < |rows| ==>
                    rows[k] == if k in ids then Claim(due[k], now + leaseSeconds) else due[k]
        invariant forall k :: 0 <= k < |ids| ==> claimed[k] == Claimed(ids[k], rows[ids[k]])
        invariant forall k :: 0 <= k < i && Claimable(due[k], channel, now) && k !in ids ==>
                    |ids| == limit && forall id <- ids :: id < k
      {
        if |claimed| < limit && Claimable(rows[i], channel, now) {
          rows := rows[i := Claim(rows[i], now + leaseSeconds)];
          ids := ids + [i];
          claimed := claimed + [Claimed(i, rows[i])];
        }
      }
      assert rows == ClaimAll(was, ids, now, now + leaseSeconds);
    }

    method MarkDelivered(id: nat, claimedVersion: int, text: string, acked: Option<string>, now: int)
      returns (r: Result<Row, Missing>)
      modifies this
      ensures r.Err? <==> id >= |old(rows)|
      ensures r.Err? ==> rows == old(rows)
      ensures r.Ok? ==> rows == old(rows)[id := Acknowledged(old(rows)[id], claimedVersion, text, acked, now)]
                        && r.value == rows[id]
    {
      if id >= |rows| {
        return Err(NotFound);
      }
      var row := rows[id];
      var settled := row.version == claimedVersion && row.desired == text;
      var status := if settled then Status.Delivered else Pending;
      var resolved := if acked.Some? && acked.value != "" then acked else row.provider;
      rows := rows[id := row.(provider := resolved, delivered := Some(text), status := status,
                              availableAt := now, leaseUntil := None)];
      r := Ok(rows[id]);
    }

    method MarkRetry(id: nat, ambiguous: bool, retryAfter: int, maxAttempts: int, now: int)
      returns (r: Result<Row, Missing>)
      modifies this
      ensures r.Err? <==> id >= |old(rows)|
      ensures r.Err? ==> rows == old(rows)
      ensures r.Ok? ==> rows == old(rows)[id := Retried(old(rows)[id], ambiguous, retryAfter, maxAttempts, now)]
                        && r.value == rows[id]
    {
      if id >= |rows| {
        return Err(NotFound);
      }
      var row := rows[id];
      var status := RetryWait;
      if ambiguous && row.provider.None? {
        status := Uncertain;
      } else if row.attempts >= maxAttempts {
        status := Status.Failed;
      }
      rows := rows[id := row.(status := status, availableAt := now + (if retryAfter > 0 then retryAfter else 0),
                              leaseUntil := None)];
      r := Ok(rows[id]);
    }

    method UpdatePresentation(run: string, text: string, sequence: int, throttle: int, now: int)
      returns (r: Option<Row>)
      modifies this
      ensures var found := FindRun(old(rows), run);
              if found.None? then r.None? && rows == old(rows)
              else rows == old(rows)[found.value := Update(old(rows)[found.value], text, sequence, throttle, now)]
                   && r == Some(rows[found.value])
    {
      var found := FindRun(rows, run);
      if found.None? {
        return None;
      }
      var row := rows[found.value];
      if row.sequence >= sequence && row.desired == text {
        return Some(row);
      }
      var status := Pending;
      if (row.status.Uncertain? || row.status.Failed?) && row.provider.None? {
        status := row.status;
      } else if row.status.Sending? {
        status := Sending;
      }
      rows := rows[found.value := row.(desired := text, sequence := sequence, version := row.version + 1,
                                       status := status,
                                       availableAt := now + (if throttle > 0 then throttle else 0))];
      r := Some(rows[found.value]);
    }
  }

  class ChannelRuntime {
    const store: ChannelStore

    constructor (store: ChannelStore)
      ensures this.store == store
    {
      this.store := store;
    }

    /** Writes down how one delivery ended. The request itself is the caller's reply. */
    method Deliver(claim: Claimed, reply: Reply, now: int)
      requires claim.id < |store.rows|
      modifies store
      ensures store.rows == old(store.rows)[claim.id := Settle(old(store.rows)[claim.id], claim.record, reply, now)]
    {
      var record := claim.record;
      match reply
      case Accepted(id) =>
        var _ := store.MarkDelivered(claim.id, record.version, record.desired,
                                     if record.provider.None? then Some(id) else None, now);
      case Rejected(retryable, alreadyApplied, after) =>
        if alreadyApplied && record.provider.Some? {
          var _ := store.MarkDelivered(claim.id, record.version, record.desired, None, now);
        } else if retryable {
          var delay := if after != 0 then after else Backoff(record.attempts);
          var _ := store.MarkRetry(claim.id, false, delay, MaxAttempts, now);
        } else {
          var _ := store.MarkRetry(claim.id, false, 0, 1, now);
        }
      case Ambiguous =>
        var _ := store.MarkRetry(claim.id, true, Backoff(record.attempts), MaxAttempts, now);
      case Broken =>
        var _ := store.MarkRetry(claim.id, false, 1, MaxAttempts, now);
    }

    /** One delivery round: claim what is due and settle each claim in turn. */
    method DeliverOnce(channel: string, replies: nat -> Reply, now: int)
      returns (ghost ids: seq<nat>, delivered: nat)
      modifies store
      ensures OldestDue(ExpireAll(old(store.rows), now), ids, channel, now, 20)
      ensures delivered == Unbroken(ids, replies)
      ensures store.rows == SettleIds(ClaimAll(old(store.rows), ids, now, now + 30), ids, replies, now)
    {
      var claimed;
      ids, claimed := store.ClaimOutbox(channel, 20, 30, now);
      ghost var held := store.rows;
      assert SettleIds(held, ids[..0], replies, now) == held;
      delivered := 0;
      for i := 0 to |claimed|
        invariant store.rows == SettleIds(held, ids[..i], replies, now)
        invariant delivered == Unbroken(ids[..i], replies)
      {
        assert ids[..i + 1][..i] == ids[..i];
        assert claimed[i] == Claimed(ids[i], held[ids[i]]);
        SettleNext(held, ids, i, replies, now);
        Deliver(claimed[i], replies(claimed[i].id), now);
        if !replies(claimed[i].id).Broken? {
          delivered := delivered + 1;
        }
      }
      assert ids[..|ids|] == ids;
    }
  }

  /** How many of the deliveries end other than by an unexpected error. */
  function Unbroken(ids: seq<nat>, replies: nat -> Reply): nat {
    if ids == [] then 0
    else Unbroken(ids[..|ids| - 1], replies) + if replies(ids[|ids| - 1]).Broken? then 0 else 1
  }

  /** The claimed rows with the outcome of their deliveries written down. */
  function SettleIds(held: seq<Row>, ids: seq<nat>, replies: nat -> Reply, now: int): (r: seq<Row>)
    ensures |r| == |held|
  {
    seq(|held|, k requires 0 <= k < |held| => if k in ids then Settle(held[k], held[k], replies(k), now) else held[k])
  }

  lemma SettleNext(held: seq<Row>, ids: seq<nat>, i: nat, replies: nat -> Reply, now: int)
    requires i < |ids| && ids[i] < |held|
    requires forall j, k :: 0 <= j < k < |ids| ==> ids[j] < ids[k]
    ensures var before := SettleIds(held, ids[..i], replies, now);
            && before[ids[i]] == held[ids[i]]
            && SettleIds(held, ids[..i + 1], replies, now) ==
               before[ids[i] := Settle(held[ids[i]], held[ids[i]], replies(ids[i]), now)]
  {
    assert ids[..i + 1] == ids[..i] + [ids[i]];
    assert ids[i] !in ids[..i];
  }
}
