/**
 What a restart's two scans do to any ledger whose rows are in order, whoever started the
 containers: exactly when they fail, that a failure repeats, and exactly when they leave runs
 and workers in agreement.
 */
module RestartScan {
  import opened Wrappers
  import opened Reconcile

  /** The engine lists each of its workers once, as it is. */
  predicate ListingOf(l: Ledger, listing: seq<Listed>) {
    && (forall i :: 0 <= i < |listing| ==>
         listing[i].id in l.workers && listing[i].worker == l.workers[listing[i].id])
    && (forall i, j :: 0 <= i < j < |listing| ==> listing[i].id != listing[j].id)
    && (forall w :: w in l.workers ==> Seen(listing, w))
  }

  predicate AllRuns(l: Ledger, order: seq<string>) {
    forall r :: r in l.runs ==> r in order
  }

  // ---------------------------------------------------------------- rows in order

  /** A worker labelled with a run there is, and with a workspace. */
  predicate Known(l: Ledger, w: string) {
    w in l.workers && l.workers[w].run.Some? && l.workers[w].run.value in l.runs && l.workers[w].workspace.Some?
  }

  ghost predicate RunsFiled(l: Ledger) {
    forall r :: r in l.runs && l.runs[r].worker.Some? ==>
      l.runs[r].worker.value in l.records && l.records[l.runs[r].worker.value].run == Some(r)
  }

  ghost predicate RowsDistinct(l: Ledger) {
    forall v, w :: v in l.records && w in l.records && v != w && l.records[v].run.Some? ==>
      l.records[v].run != l.records[w].run
  }

  /** What is on record about a container agrees with its label. */
  ghost predicate RowMatches(l: Ledger, w: string) {
    w in l.records && w in l.workers ==>
      && (Known(l, w) ==> l.records[w].run == l.workers[w].run)
      && (l.records[w].run.Some? ==> l.workers[w].run == l.records[w].run && l.workers[w].workspace.Some?)
  }

  ghost predicate Filed(l: Ledger) {
    && RunsFiled(l) && RowsDistinct(l) && (forall w :: RowMatches(l, w))
    && (forall r :: r in l.runs ==> l.runs[r].workspace in l.workspaces)
  }

  ghost predicate Named(l: Ledger, run: Option<string>) {
    run.Some? && exists v :: v in l.records && l.records[v].run == run
  }

  /** An unrecorded worker that cannot be recorded: its workspace is unknown, or its run is
      named by a row or claimed by another unrecorded worker. */
  ghost predicate Troubled(l: Ledger, w: string) {
    && Known(l, w) && w !in l.records
    && (|| l.workers[w].workspace.value !in l.workspaces
        || Named(l, l.workers[w].run)
        || exists u :: u != w && Known(l, u) && u !in l.records && l.workers[u].run == l.workers[w].run)
  }

  // ---------------------------------------------------------------- one worker of the listing

  /** A worker the first scan is done with: its run is known; alive means that its run is
      running, has it on record and is watched, or is still queued; exited means that its run
      is not running. */
  ghost predicate Settled(l: Ledger, w: string) {
    w in l.workers ==>
      && Known(l, w)
      && var run := l.runs[l.workers[w].run.value];
         if l.workers[w].running
         then && l.workers[w].workspace == Some(run.workspace)
              && (run.status == Queued
                  || (run.status == Running && run.worker == Some(w) && l.workers[w].run.value in l.watched))
         else run.status != Running
  }

  /** Runs that were not running are untouched, running ones stay so or end. */
  ghost predicate OnlyEnds(l: Ledger, x: Ledger) {
    && x.runs.Keys == l.runs.Keys && x.workspaces == l.workspaces
    && forall r :: r in l.runs && x.runs[r] != l.runs[r] ==>
         l.runs[r].status == Running && x.runs[r].status != Queued
         && x.runs[r].conversation == l.runs[r].conversation && x.runs[r].workspace == l.runs[r].workspace
  }

  /** A queued run's worker that runs in the right workspace is left alone. */
  predicate Idle(l: Ledger, w: string) {
    && Known(l, w) && l.workers[w].running && l.runs[l.workers[w].run.value].status == Queued
    && l.workers[w].workspace == Some(l.runs[l.workers[w].run.value].workspace)
  }

  /** What examining one worker leaves alone. */
  ghost predicate Touches(l: Ledger, x: Ledger, w: string) {
    && OnlyEnds(l, x) && l.watched <= x.watched
    && (forall v :: v != w ==>
         (v in x.workers <==> v in l.workers) && (v in l.workers ==> x.workers[v] == l.workers[v]))
    && (w in x.workers ==> w in l.workers && x.workers[w].(running := l.workers[w].running) == l.workers[w]
                           && (x.workers[w].running ==> l.workers[w].running))
    && (forall r :: r in l.runs && x.runs[r] != l.runs[r] ==> Known(l, w) && l.workers[w].run == Some(r))
  }

  /** Rows stay; only this worker's may be new or get its run. */
  ghost predicate RowsTouched(l: Ledger, x: Ledger, w: string) {
    && (forall v :: v != w ==>
         (v in x.records <==> v in l.records) && (v in l.records ==> x.records[v].run == l.records[v].run))
    && (w in l.records ==> w in x.records && x.records[w].run == l.records[w].run)
  }

  /** This worker could not be recorded. */
  ghost predicate Stopped(x: Ledger, w: string) {
    && Known(x, w) && w !in x.records
    && (x.workers[w].workspace.value !in x.workspaces || Named(x, x.workers[w].run))
  }

  /** It could, and its row now names its run. */
  ghost predicate Filed1(l: Ledger, x: Ledger, w: string) {
    && w in x.records
    && (if Known(l, w) then
          && x.records[w].run == l.workers[w].run && w in x.workers
          && (w !in l.records ==> l.workers[w].workspace.value in l.workspaces && !Named(l, l.workers[w].run))
        else && w !in x.workers && (w !in l.records ==> x.records[w].run.None?)
             && (x.records[w].run.Some? ==> x.records[w].run.value !in x.runs))
    && (Idle(l, w) ==> x.workers[w].running)
  }

  ghost predicate Examined(l: Ledger, x: Scanned, w: string) {
    && Filed(x.ledger) && Touches(l, x.ledger, w) && RowsTouched(l, x.ledger, w)
    && (if x.raised then x.ledger.runs == l.runs && x.ledger.records == l.records && Stopped(x.ledger, w)
        else Filed1(l, x.ledger, w) && Settled(x.ledger, w))
  }

  lemma StopIfKeeps(l: Ledger, w: string, running: bool)
    requires Filed(l) && w in l.workers && (l.workers[w].running ==> running)
    ensures var x := StopIf(l, w, running);
            && Filed(x) && x == l.(workers := x.workers) && x.workers.Keys == l.workers.Keys
            && x.workers == l.workers[w := l.workers[w].(running := false)]
  {
    var x := StopIf(l, w, running);
    assert l.workers[w := l.workers[w].(running := false)] == x.workers;
    assert forall v :: Known(x, v) <==> Known(l, v);
    forall v
      ensures RowMatches(x, v)
    {
      assert RowMatches(l, v);
    }
  }

  lemma DropWorks(l: Ledger, w: string)
    requires Filed(l) && w in l.workers && !Known(l, w)
    ensures Examined(l, DropUnknown(l, w, l.workers[w]), w)
  {
    var s := StopIf(l, w, l.workers[w].running);
    StopIfKeeps(l, w, l.workers[w].running);
    var x := RecordWorker(s, w, None, None, WorkerOrphaned).value;
    assert RowMatches(l, w);
    forall v
      ensures RowMatches(Remove(x, w), v)
    {
      assert RowMatches(s, v);
    }
  }

  /** A row for a known worker, when it has one or can have one. */
  lemma RecordWorks(l: Ledger, w: string, state: WorkerState)
    requires Filed(l) && Known(l, w)
    ensures var r := RecordWorker(l, w, l.workers[w].run, l.workers[w].workspace, state);
            && (r.None? <==>
                 w !in l.records && (l.workers[w].workspace.value !in l.workspaces || Named(l, l.workers[w].run)))
            && (r.Some? ==> Filed(r.value) && r.value.(records := l.records) == l && RowsTouched(l, r.value, w)
                            && w in r.value.records && r.value.records[w].run == l.workers[w].run)
  {
    assert RowMatches(l, w);
    var r := RecordWorker(l, w, l.workers[w].run, l.workers[w].workspace, state);
    if r.Some? {
      assert forall v :: Known(r.value, v) <==> Known(l, v);
      forall v
        ensures RowMatches(r.value, v)
      {
        assert RowMatches(l, v);
      }
    }
  }

  lemma FinishKeeps(l: Ledger, r: string, status: Status)
    requires Filed(l) && Terminal(status)
    ensures Filed(Finish(l, r, status)) && OnlyEnds(l, Finish(l, r, status))
  {
    var x := Finish(l, r, status);
    assert forall v :: Known(x, v) <==> Known(l, v);
    forall v
      ensures RowMatches(x, v)
    {
      assert RowMatches(l, v);
    }
  }

  lemma StateKeeps(l: Ledger, w: string, state: WorkerState)
    requires Filed(l)
    ensures Filed(UpdateWorkerState(l, w, state)) && RowsTouched(l, UpdateWorkerState(l, w, state), w)
  {
    var x := UpdateWorkerState(l, w, state);
    assert forall v :: Known(x, v) <==> Known(l, v);
    forall v
      ensures RowMatches(x, v)
    {
      assert RowMatches(l, v);
    }
  }

  /** The run as the scan remembers it, unless another row has come to name it since. */
  ghost predicate Remembered(l: Ledger, w: string, r: string, run: Run)
    requires r in l.runs
  {
    run == l.runs[r] || Taken(l, w, Some(r))
  }

  lemma TakenIsStopped(l: Ledger, w: string)
    requires Filed(l) && Known(l, w) && Taken(l, w, l.workers[w].run)
    ensures w !in l.records && Named(l, l.workers[w].run)
  {
    assert RowMatches(l, w);
  }

  lemma MismatchWorks(l: Ledger, w: string, r: string, run: Run)
    requires Filed(l) && Known(l, w) && l.workers[w].run == Some(r) && Remembered(l, w, r, run)
    requires l.workers[w].workspace != Some(run.workspace) || (run.worker.Some? && run.worker != Some(w))
    ensures Examined(l, Mismatch(l, w, l.workers[w], r, run), w)
  {
    var s := StopIf(l, w, l.workers[w].running);
    StopIfKeeps(l, w, l.workers[w].running);
    RecordWorks(s, w, WorkerOrphaned);
    var recorded := RecordWorker(s, w, Some(r), l.workers[w].workspace, WorkerOrphaned);
    if recorded.Some? {
      if Taken(l, w, Some(r)) {
        TakenIsStopped(l, w);
        assert false;
      }
      MismatchedIsElsewhere(l, w, r);
      MismatchRecorded(l, s, recorded.value, w, r);
    }
  }

  lemma MismatchRecorded(l: Ledger, s: Ledger, x: Ledger, w: string, r: string)
    requires Filed(x) && Known(l, w) && l.workers[w].run == Some(r)
             && l.workers[w].workspace != Some(l.runs[r].workspace)
    requires s == l.(workers := l.workers[w := l.workers[w].(running := false)])
    requires x.(records := s.records) == s && RowsTouched(s, x, w) && w in x.records && x.records[w].run == Some(r)
    requires w !in l.records ==> l.workers[w].workspace.value in l.workspaces && !Named(l, l.workers[w].run)
    ensures Examined(l, Scanned(if l.runs[r].status == Running then Finish(x, r, Orphaned) else x, false), w)
  {
    var y := if l.runs[r].status == Running then Finish(x, r, Orphaned) else x;
    FinishKeeps(x, r, Orphaned);
    MismatchTouches(l, s, x, y, w, r);
    assert Filed1(l, y, w) && Settled(y, w);
  }

  lemma MismatchTouches(l: Ledger, s: Ledger, x: Ledger, y: Ledger, w: string, r: string)
    requires Filed(x) && Known(l, w) && l.workers[w].run == Some(r)
    requires s == l.(workers := l.workers[w := l.workers[w].(running := false)])
    requires x.(records := s.records) == s && RowsTouched(s, x, w)
    requires y == if l.runs[r].status == Running then Finish(x, r, Orphaned) else x
    ensures Touches(l, y, w) && RowsTouched(l, y, w)
  {
  }

  /** The worker on record for a run that no other row names is this one. */
  lemma MismatchedIsElsewhere(l: Ledger, w: string, r: string)
    requires Filed(l) && Known(l, w) && l.workers[w].run == Some(r) && !Taken(l, w, Some(r))
    ensures l.runs[r].worker.None? || l.runs[r].worker == Some(w)
  {
  }

  lemma SettleWorks(l: Ledger, w: string, r: string)
    requires Filed(l) && Known(l, w) && l.workers[w].run == Some(r) && w in l.records && l.records[w].run == Some(r)
    requires l.workers[w].workspace == Some(l.runs[r].workspace)
    requires l.runs[r].status == Running ==> l.runs[r].worker == Some(w)
    ensures var x := Settle(l, w, l.workers[w], r, l.runs[r]);
            && Filed(x) && Touches(l, x, w) && RowsTouched(l, x, w) && Settled(x, w) && w in x.workers
            && (Idle(l, w) ==> x.workers[w].running)
  {
    var run, snapshot := l.runs[r], l.workers[w];
    if Terminal(run.status) && snapshot.running {
      StopIfKeeps(l, w, true);
      StateKeeps(Stop(l, w), w, WorkerOrphaned);
    } else if run.status == Running && snapshot.running {
      WatchKeeps(l, r);
    } else if run.status == Running {
      FinishKeeps(l, r, FinalStatus(run.log));
      StateKeeps(Finish(l, r, FinalStatus(run.log)), w, WorkerExited);
    }
  }

  lemma WatchKeeps(l: Ledger, r: string)
    requires Filed(l)
    ensures Filed(l.(watched := l.watched + {r}))
  {
    var x := l.(watched := l.watched + {r});
    assert forall v :: Known(x, v) <==> Known(l, v);
    forall v
      ensures RowMatches(x, v)
    {
      assert RowMatches(l, v);
    }
  }

  /** Adopting a worker for a running run that has none on record. */
  lemma AttachWorks(l: Ledger, w: string, r: string)
    requires Filed(l) && Known(l, w) && l.workers[w].run == Some(r) && !Taken(l, w, Some(r))
    requires l.workers[w].workspace == Some(l.runs[r].workspace)
    requires l.runs[r].status == Running && l.runs[r].worker.None?
    ensures Attach(l, r, w, l.runs[r].workspace).Some?
    ensures var x := Attach(l, r, w, l.runs[r].workspace).value;
            && Filed(x) && RowsTouched(l, x, w) && x.workers == l.workers && x.watched == l.watched
            && x.workspaces == l.workspaces && x.runs == l.runs[r := l.runs[r].(worker := Some(w))]
            && w in x.records && x.records[w].run == Some(r)
  {
    assert RowMatches(l, w);
    var x := Attach(l, r, w, l.runs[r].workspace).value;
    assert forall v :: Known(x, v) <==> Known(l, v);
    forall v
      ensures RowMatches(x, v)
    {
      assert RowMatches(l, v);
    }
  }

  lemma OwnTaken(l: Ledger, w: string, r: string, run: Run)
    requires Filed(l) && Known(l, w) && l.workers[w].run == Some(r) && Taken(l, w, Some(r))
    ensures Examined(l, ScanOwn(l, w, l.workers[w], r, run), w)
  {
    TakenIsStopped(l, w);
    RecordWorks(l, w, if l.workers[w].running then WorkerRunning else WorkerExited);
  }

  lemma OwnAdopted(l: Ledger, w: string, r: string)
    requires Filed(l) && Known(l, w) && l.workers[w].run == Some(r) && !Taken(l, w, Some(r))
    requires l.workers[w].workspace == Some(l.runs[r].workspace)
    requires l.runs[r].status == Running && l.runs[r].worker.None?
    ensures Examined(l, ScanOwn(l, w, l.workers[w], r, l.runs[r]), w)
  {
    AttachWorks(l, w, r);
    var x := Attach(l, r, w, l.runs[r].workspace).value;
    var state := if l.workers[w].running then WorkerRunning else WorkerExited;
    RecordWorks(x, w, state);
    var y := RecordWorker(x, w, Some(r), l.workers[w].workspace, state).value;
    SettleWorks(y, w, r);
    assert Settle(y, w, l.workers[w], r, l.runs[r]) == Settle(y, w, y.workers[w], r, y.runs[r]);
    AdoptedTouches(l, x, y, Settle(y, w, l.workers[w], r, l.runs[r]), w, r);
  }

  lemma AdoptedTouches(l: Ledger, x: Ledger, y: Ledger, z: Ledger, w: string, r: string)
    requires Known(l, w) && l.workers[w].run == Some(r) && l.runs[r].status == Running
    requires RowsTouched(l, x, w) && x.workers == l.workers && x.watched == l.watched && x.workspaces == l.workspaces
    requires x.runs == l.runs[r := l.runs[r].(worker := Some(w))]
    requires y.(records := x.records) == x && RowsTouched(x, y, w) && Touches(y, z, w) && RowsTouched(y, z, w)
    ensures Touches(l, z, w) && RowsTouched(l, z, w)
  {
  }

  lemma OwnOnRecord(l: Ledger, w: string, r: string)
    requires Filed(l) && Known(l, w) && l.workers[w].run == Some(r) && !Taken(l, w, Some(r))
    requires l.workers[w].workspace == Some(l.runs[r].workspace)
    requires l.runs[r].status == Running ==> l.runs[r].worker == Some(w)
    ensures Examined(l, ScanOwn(l, w, l.workers[w], r, l.runs[r]), w)
  {
    var state := if l.workers[w].running then WorkerRunning else WorkerExited;
    RecordWorks(l, w, state);
    var recorded := RecordWorker(l, w, Some(r), l.workers[w].workspace, state);
    if recorded.Some? {
      SettleWorks(recorded.value, w, r);
    }
  }

  /** One worker of the listing, in any ledger whose rows are in order: it is recorded and
      settled, or it cannot be recorded and nothing stored changes. */
  lemma ScanOneWorks(l: Ledger, stale: map<string, Run>, w: string)
    requires Filed(l) && w in l.workers && stale.Keys == l.runs.Keys
    requires Known(l, w) ==> Remembered(l, w, l.workers[w].run.value, stale[l.workers[w].run.value])
    ensures Examined(l, ScanOne(l, stale, w, l.workers[w]), w)
  {
    if !Known(l, w) {
      DropWorks(l, w);
    } else {
      var r := l.workers[w].run.value;
      var run := stale[r];
      if l.workers[w].workspace != Some(run.workspace) || (run.worker.Some? && run.worker != Some(w)) {
        MismatchWorks(l, w, r, run);
      } else if Taken(l, w, Some(r)) {
        OwnTaken(l, w, r, run);
      } else if run.worker.None? && run.status == Running {
        OwnAdopted(l, w, r);
      } else {
        OwnOnRecord(l, w, r);
      }
    }
  }

  // ---------------------------------------------------------------- the first scan

  ghost predicate RowsKept(l: Ledger, x: Ledger) {
    && (forall v :: v in l.records ==> v in x.records && x.records[v].run == l.records[v].run)
    && (forall v :: v in x.records && v !in l.records ==> v in l.workers)
  }

  /** A worker the scan has not come to. */
  ghost predicate Waiting(l: Ledger, x: Ledger, w: string)
    requires x.runs.Keys == l.runs.Keys
  {
    && w in l.workers && w in x.workers && x.workers[w] == l.workers[w]
    && (w in x.records <==> w in l.records)
    && (Known(l, w) ==> Remembered(x, w, l.workers[w].run.value, l.runs[l.workers[w].run.value]))
  }

  /** A worker the scan has recorded. */
  ghost predicate Past(l: Ledger, x: Ledger, w: string) {
    && w in x.records && Settled(x, w)
    && (if Known(l, w) then
          && x.records[w].run == l.workers[w].run && w in x.workers && x.workers[w].run == l.workers[w].run
          && (w !in l.records ==> l.workers[w].workspace.value in l.workspaces && !Named(l, l.workers[w].run))
          && (Idle(l, w) ==> x.workers[w].running)
        else && w !in x.workers && (w !in l.records ==> x.records[w].run.None?)
             && (x.records[w].run.Some? ==> x.records[w].run.value !in x.runs))
  }

  /** Workers are only stopped or removed. */
  ghost predicate WorkersLeft(l: Ledger, x: Ledger) {
    forall w :: w in x.workers ==>
      && w in l.workers && x.workers[w].(running := l.workers[w].running) == l.workers[w]
      && (x.workers[w].running ==> l.workers[w].running)
  }

  ghost predicate Progress(l: Ledger, listing: seq<Listed>, n: nat, x: Ledger) {
    && n <= |listing| && Filed(x) && OnlyEnds(l, x) && RowsKept(l, x)
    && WorkersLeft(l, x)
    && (forall i :: 0 <= i < n ==> Past(l, x, listing[i].id))
    && (forall i :: n <= i < |listing| ==> Waiting(l, x, listing[i].id))
  }

  lemma PastStays(l: Ledger, x: Ledger, y: Ledger, v: string, w: string)
    requires OnlyEnds(l, x) && Past(l, x, v) && v != w && w in x.workers && Examined(x, Scanned(y, false), w)
    ensures Past(l, y, v)
  {
    if Known(l, v) {
      assert y.records[v].run == l.workers[v].run;
      assert Known(x, w) ==> y.records[w].run == x.workers[w].run;
      assert y.runs[l.workers[v].run.value] == x.runs[l.workers[v].run.value];
    }
  }

  lemma WaitingStays(l: Ledger, x: Ledger, y: Ledger, v: string, w: string)
    requires OnlyEnds(l, x) && OnlyEnds(l, y) && Waiting(l, x, v) && v != w && Examined(x, Scanned(y, false), w)
    ensures Waiting(l, y, v)
  {
    if Known(l, v) {
      var r := l.workers[v].run.value;
      if y.runs[r] != x.runs[r] {
        assert y.records[w].run == Some(r);
      } else if Taken(x, v, Some(r)) {
        var u :| u in x.records && u != v && x.records[u].run == Some(r);
        assert u in y.records && y.records[u].run == Some(r);
      }
    }
  }

  lemma OnlyEndsJoin(l: Ledger, x: Ledger, y: Ledger)
    requires OnlyEnds(l, x) && OnlyEnds(x, y)
    ensures OnlyEnds(l, y)
  {
  }

  lemma JustPast(l: Ledger, x: Ledger, y: Ledger, w: string)
    requires OnlyEnds(l, x) && RowsKept(l, x) && Waiting(l, x, w) && Examined(x, Scanned(y, false), w)
    ensures Past(l, y, w)
  {
    assert Known(x, w) <==> Known(l, w);
    if Idle(l, w) {
      assert x.runs[l.workers[w].run.value] == l.runs[l.workers[w].run.value];
    }
  }

  lemma FrameStep(l: Ledger, x: Ledger, y: Ledger, w: string)
    requires x.runs.Keys == l.runs.Keys && RowsKept(l, x) && WorkersLeft(l, x) && Waiting(l, x, w)
    requires Examined(x, Scanned(y, false), w)
    ensures RowsKept(l, y) && WorkersLeft(l, y)
  {
  }

  lemma ProgressStep(l: Ledger, listing: seq<Listed>, n: nat, x: Ledger, y: Ledger)
    requires ListingOf(l, listing) && n < |listing| && Progress(l, listing, n, x)
    requires Examined(x, Scanned(y, false), listing[n].id)
    ensures Progress(l, listing, n + 1, y)
  {
    var w := listing[n].id;
    assert Waiting(l, x, w);
    OnlyEndsJoin(l, x, y);
    FrameStep(l, x, y, w);
    JustPast(l, x, y, w);
    forall i | 0 <= i < n
      ensures Past(l, y, listing[i].id)
    {
      PastStays(l, x, y, listing[i].id, w);
    }
    forall i | n + 1 <= i < |listing|
      ensures Waiting(l, y, listing[i].id)
    {
      assert Waiting(l, x, listing[i].id);
      WaitingStays(l, x, y, listing[i].id, w);
    }
  }

  /** A worker that cannot be recorded when its turn comes was in trouble from the start. */
  lemma StoppedWasTroubled(l: Ledger, listing: seq<Listed>, n: nat, x: Ledger, y: Ledger)
    requires ListingOf(l, listing) && n < |listing| && Progress(l, listing, n, x)
    requires Examined(x, Scanned(y, true), listing[n].id)
    ensures Troubled(l, listing[n].id) && Troubled(y, listing[n].id)
  {
    var w := listing[n].id;
    assert Waiting(l, x, w) && Known(l, w) && w !in l.records;
    if l.workers[w].workspace.value in l.workspaces {
      var v :| v in x.records && x.records[v].run == l.workers[w].run;
      if v !in l.records {
        assert Seen(listing, v);
        var i :| 0 <= i < |listing| && listing[i].id == v;
        assert i < n && Past(l, x, v);
        assert Known(l, v) && l.workers[v].run == l.workers[w].run;
      }
    }
  }

  lemma ScanOneMore(l: Ledger, stale: map<string, Run>, listing: seq<Listed>, n: nat)
    requires n < |listing|
    ensures Scan(l, stale, listing[..n + 1]) ==
            var before := Scan(l, stale, listing[..n]);
            if before.raised then before else ScanOne(before.ledger, stale, listing[n].id, listing[n].worker)
  {
    assert listing[..n + 1][..n] == listing[..n];
  }

  /** The scan of the first n workers: it is under way, or it has failed at one that was in
      trouble to begin with and still is. */
  ghost predicate ScanState(l: Ledger, listing: seq<Listed>, n: nat, x: Scanned) {
    if x.raised then Filed(x.ledger) && (exists w :: Troubled(l, w)) && exists w :: Troubled(x.ledger, w)
    else Progress(l, listing, n, x.ledger)
  }

  lemma ScanStep(l: Ledger, listing: seq<Listed>, n: nat, x: Ledger)
    requires ListingOf(l, listing) && n < |listing| && Progress(l, listing, n, x)
    ensures ScanState(l, listing, n + 1, ScanOne(x, l.runs, listing[n].id, listing[n].worker))
  {
    var w := listing[n].id;
    assert Waiting(l, x, w);
    ScanOneWorks(x, l.runs, w);
    var y := ScanOne(x, l.runs, w, listing[n].worker);
    if y.raised {
      StoppedWasTroubled(l, listing, n, x, y.ledger);
    } else {
      ProgressStep(l, listing, n, x, y.ledger);
    }
  }

  lemma ScanGoesOn(l: Ledger, listing: seq<Listed>, n: nat)
    requires ListingOf(l, listing) && n < |listing| && ScanState(l, listing, n, Scan(l, l.runs, listing[..n]))
    ensures ScanState(l, listing, n + 1, Scan(l, l.runs, listing[..n + 1]))
  {
    ScanOneMore(l, l.runs, listing, n);
    if !Scan(l, l.runs, listing[..n]).raised {
      ScanStep(l, listing, n, Scan(l, l.runs, listing[..n]).ledger);
    }
  }

  lemma {:induction false} ScanWorks(l: Ledger, listing: seq<Listed>, n: nat)
    requires Filed(l) && ListingOf(l, listing) && n <= |listing|
    ensures ScanState(l, listing, n, Scan(l, l.runs, listing[..n]))
  {
    if n > 0 {
      ScanWorks(l, listing, n - 1);
      ScanGoesOn(l, listing, n - 1);
    } else {
      assert listing[..0] == [];
    }
  }

  lemma NoTroubleIfPast(l: Ledger, listing: seq<Listed>, x: Ledger, w: string)
    requires ListingOf(l, listing) && Progress(l, listing, |listing|, x)
    ensures !Troubled(l, w)
  {
    if Troubled(l, w) {
      PastOf(l, listing, x, w);
      var u :| u != w && Known(l, u) && u !in l.records && l.workers[u].run == l.workers[w].run;
      PastOf(l, listing, x, u);
      assert false;
    }
  }

  lemma PastOf(l: Ledger, listing: seq<Listed>, x: Ledger, w: string)
    requires ListingOf(l, listing) && Progress(l, listing, |listing|, x) && w in l.workers
    ensures Past(l, x, w)
  {
    assert Seen(listing, w);
    var i :| 0 <= i < |listing| && listing[i].id == w;
  }

  /** The restart scan fails exactly when some worker cannot be recorded: it names a run there
      is, has no row yet, and its workspace is unknown, or its run has a row already, or
      another such worker names the same run. */
  lemma RestartRaisesIff(l: Ledger, listing: seq<Listed>, order: seq<string>)
    requires Filed(l) && ListingOf(l, listing)
    ensures Reconciled(l, listing, order).raised <==> exists w :: Troubled(l, w)
  {
    ScanWorks(l, listing, |listing|);
    assert listing[..|listing|] == listing;
    var x := Scan(l, l.runs, listing);
    if !x.raised {
      forall w
        ensures !Troubled(l, w)
      {
        NoTroubleIfPast(l, listing, x.ledger, w);
      }
    }
  }

  /** And then every later restart fails too: the rows are still in order and a worker is
      still in trouble. */
  lemma FailedRestartRepeats(l: Ledger, listing: seq<Listed>, order: seq<string>, relisting: seq<Listed>,
    reorder: seq<string>)
    requires Filed(l) && ListingOf(l, listing) && Reconciled(l, listing, order).raised
    requires ListingOf(Reconciled(l, listing, order).ledger, relisting)
    ensures Filed(Reconciled(l, listing, order).ledger)
    ensures Reconciled(Reconciled(l, listing, order).ledger, relisting, reorder).raised
  {
    ScanWorks(l, listing, |listing|);
    assert listing[..|listing|] == listing;
    RestartRaisesIff(Reconciled(l, listing, order).ledger, relisting, reorder);
  }

  // ---------------------------------------------------------------- the second scan

  predicate Missing(l: Ledger, listing: seq<Listed>, r: string)
    requires r in l.runs
  {
    l.runs[r].status == Running && (l.runs[r].worker.None? || !Seen(listing, l.runs[r].worker.value))
  }

  /** The missing runs are interrupted, and nothing else changes. */
  ghost predicate MissingEnded(x: Ledger, listing: seq<Listed>, y: Ledger) {
    && y == x.(runs := y.runs) && y.runs.Keys == x.runs.Keys
    && forall r :: r in x.runs ==>
         y.runs[r] == if Missing(x, listing, r) then x.runs[r].(status := Interrupted) else x.runs[r]
  }

  lemma {:induction false} InterruptWorks(l: Ledger, listing: seq<Listed>, order: seq<string>)
    ensures var x := InterruptAll(l, listing, order);
            && x == l.(runs := x.runs) && x.runs.Keys == l.runs.Keys
            && forall r :: r in l.runs ==>
                 x.runs[r] ==
                 if r in order && Missing(l, listing, r) then l.runs[r].(status := Interrupted) else l.runs[r]
  {
    if order != [] {
      InterruptWorks(l, listing, order[..|order| - 1]);
      assert order == order[..|order| - 1] + [order[|order| - 1]];
    }
  }

  lemma MissingEndedKeeps(l: Ledger, listing: seq<Listed>, x: Ledger, y: Ledger)
    requires Filed(x) && OnlyEnds(l, x) && MissingEnded(x, listing, y)
    ensures Filed(y) && OnlyEnds(l, y)
  {
    assert forall v :: Known(y, v) <==> Known(x, v);
    forall v
      ensures RowMatches(y, v)
    {
      assert RowMatches(x, v);
    }
  }

  /** A running run that is not missing has its own worker, alive and watched. */
  lemma NotMissingHasWorker(l: Ledger, listing: seq<Listed>, x: Ledger, r: string)
    requires ListingOf(l, listing) && Progress(l, listing, |listing|, x)
    requires r in x.runs && x.runs[r].status == Running && !Missing(x, listing, r)
    ensures HasWorker(x, r)
  {
    var w := x.runs[r].worker.value;
    assert x.records[w].run == Some(r);
    var i :| 0 <= i < |listing| && listing[i].id == w;
    assert w in l.workers;
    PastOf(l, listing, x, w);
    assert Known(l, w) && x.workers[w].run == Some(r);
  }

  predicate HasWorker(l: Ledger, r: string)
    requires r in l.runs
  {
    && r in l.watched && l.runs[r].worker.Some? && l.runs[r].worker.value in l.workers
    && l.workers[l.runs[r].worker.value].running && l.workers[l.runs[r].worker.value].run == Some(r)
  }

  predicate Employed(l: Ledger, w: string)
    requires w in l.workers
  {
    && l.workers[w].run.Some? && l.workers[w].run.value in l.runs
    && l.runs[l.workers[w].run.value].status == Running && l.runs[l.workers[w].run.value].worker == Some(w)
  }

  /** Runs and workers agree: a running run has its own recorded worker alive and watched, and
      a live worker's run is running and has it on record. */
  ghost predicate Restored(l: Ledger) {
    && (forall r :: r in l.runs && l.runs[r].status == Running ==> HasWorker(l, r))
    && (forall w :: w in l.workers && l.workers[w].running ==> Employed(l, w))
  }

  /** The state after both scans: every worker settled, and every running run with its worker. */
  ghost predicate Outcome(l: Ledger, y: Ledger) {
    && Filed(y) && OnlyEnds(l, y) && WorkersLeft(l, y)
    && (forall w :: Settled(y, w))
    && (forall w :: w in y.workers ==> w in y.records)
    && (forall r :: r in y.runs && y.runs[r].status == Running ==> HasWorker(y, r))
    && (forall w :: Idle(l, w) ==> w in y.workers && y.workers[w].running)
  }

  lemma SettledAfter(x: Ledger, listing: seq<Listed>, y: Ledger, w: string)
    requires Settled(x, w) && MissingEnded(x, listing, y) && (w in x.workers ==> Seen(listing, w))
    ensures Settled(y, w)
  {
  }

  lemma SecondScan(l: Ledger, listing: seq<Listed>, x: Ledger, y: Ledger)
    requires ListingOf(l, listing) && Progress(l, listing, |listing|, x) && MissingEnded(x, listing, y)
    ensures Outcome(l, y)
  {
    MissingEndedKeeps(l, listing, x, y);
    forall w
      ensures Settled(y, w)
      ensures w in y.workers ==> w in y.records
      ensures Idle(l, w) ==> w in y.workers && y.workers[w].running
    {
      if w in l.workers {
        PastOf(l, listing, x, w);
      }
      SettledAfter(x, listing, y, w);
    }
    forall r | r in y.runs && y.runs[r].status == Running
      ensures HasWorker(y, r)
    {
      NotMissingHasWorker(l, listing, x, r);
    }
  }

  lemma RestartOutcome(l: Ledger, listing: seq<Listed>, order: seq<string>)
    requires Filed(l) && ListingOf(l, listing) && AllRuns(l, order) && !Reconciled(l, listing, order).raised
    ensures Outcome(l, Reconciled(l, listing, order).ledger)
  {
    ScanWorks(l, listing, |listing|);
    assert listing[..|listing|] == listing;
    var x := Scan(l, l.runs, listing).ledger;
    InterruptWorks(x, listing, order);
    SecondScan(l, listing, x, InterruptAll(x, listing, order));
  }

  /** A restart that goes through leaves runs that were not running untouched, and leaves runs
      and workers in agreement exactly when no worker was running for a run still queued. */
  lemma RestartRestoresIff(l: Ledger, listing: seq<Listed>, order: seq<string>)
    requires Filed(l) && ListingOf(l, listing) && AllRuns(l, order) && !Reconciled(l, listing, order).raised
    ensures OnlyEnds(l, Reconciled(l, listing, order).ledger)
    ensures Restored(Reconciled(l, listing, order).ledger) <==> forall w :: !Idle(l, w)
  {
    RestartOutcome(l, listing, order);
    RestoredIff(l, Reconciled(l, listing, order).ledger);
  }

  lemma RestoredIff(l: Ledger, y: Ledger)
    requires Outcome(l, y)
    ensures Restored(y) <==> forall w :: !Idle(l, w)
  {
    if Restored(y) {
      forall w
        ensures !Idle(l, w)
      {
        assert w in y.workers && y.workers[w].running ==> Employed(y, w);
      }
    }
    if forall w :: !Idle(l, w) {
      forall w | w in y.workers && y.workers[w].running
        ensures Employed(y, w)
      {
        assert Settled(y, w) && !Idle(l, w);
      }
    }
  }

  // ---------------------------------------------------------------- once more

  ghost predicate SameButRecords(l: Ledger, x: Ledger) {
    l.(records := x.records) == x
  }

  lemma SettledScansQuietly(l: Ledger, x: Ledger, w: string)
    requires Filed(x) && SameButRecords(l, x) && w in l.workers && Settled(l, w) && w in x.records
    ensures !ScanOne(x, l.runs, w, l.workers[w]).raised
    ensures SameButRecords(l, ScanOne(x, l.runs, w, l.workers[w]).ledger)
  {
    assert RowMatches(x, w);
    RecordWorks(x, w, WorkerRunning);
    RecordWorks(x, w, WorkerExited);
    RecordWorks(x, w, WorkerOrphaned);
  }

  ghost predicate Quiet(l: Ledger, x: Scanned) {
    !x.raised && SameButRecords(l, x.ledger) && Filed(x.ledger)
      && forall w :: w in l.workers ==> w in x.ledger.records
  }

  lemma QuietStep(l: Ledger, x: Ledger, w: string)
    requires Quiet(l, Scanned(x, false)) && w in l.workers && Settled(l, w)
    ensures Quiet(l, ScanOne(x, l.runs, w, l.workers[w]))
  {
    SettledScansQuietly(l, x, w);
    ScanOneWorks(x, l.runs, w);
  }

  lemma {:induction false} QuietScan(l: Ledger, listing: seq<Listed>, n: nat)
    requires Filed(l) && ListingOf(l, listing) && n <= |listing|
    requires (forall w :: Settled(l, w)) && forall w :: w in l.workers ==> w in l.records
    ensures Quiet(l, Scan(l, l.runs, listing[..n]))
  {
    if n > 0 {
      QuietScan(l, listing, n - 1);
      ScanOneMore(l, l.runs, listing, n - 1);
      assert Settled(l, listing[n - 1].id);
      QuietStep(l, Scan(l, l.runs, listing[..n - 1]).ledger, listing[n - 1].id);
    } else {
      assert listing[..0] == [];
    }
  }

  lemma QuietReconcile(l: Ledger, listing: seq<Listed>, order: seq<string>)
    requires Outcome(l, l) && ListingOf(l, listing)
    ensures !Reconciled(l, listing, order).raised && SameButRecords(l, Reconciled(l, listing, order).ledger)
  {
    QuietScan(l, listing, |listing|);
    assert listing[..|listing|] == listing;
    var x := Scan(l, l.runs, listing).ledger;
    InterruptWorks(x, listing, order);
    assert forall r :: r in x.runs && x.runs[r].status == Running ==> HasWorker(l, r);
  }

  /** After a restart that went through, reconciling again goes through and changes no run and
      no worker. */
  lemma ReconcileIsIdempotent(l: Ledger, listing: seq<Listed>, order: seq<string>, relisting: seq<Listed>,
    reorder: seq<string>)
    requires Filed(l) && ListingOf(l, listing) && AllRuns(l, order) && !Reconciled(l, listing, order).raised
    requires ListingOf(Reconciled(l, listing, order).ledger, relisting)
    ensures var once := Reconciled(l, listing, order).ledger;
            !Reconciled(once, relisting, reorder).raised
              && SameButRecords(once, Reconciled(once, relisting, reorder).ledger)
  {
    RestartOutcome(l, listing, order);
    QuietReconcile(Reconciled(l, listing, order).ledger, relisting, reorder);
  }
}
