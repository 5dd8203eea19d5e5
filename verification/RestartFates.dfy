/**
 What a restart makes of each run that was running, and what it records of each worker, told
 from the rows, the listing and the run's log.
 */
module RestartFates {
  import opened Wrappers
  import opened Reconcile
  import opened RestartScan

  /** A container with the run's label. */
  predicate Labelled(l: Ledger, u: string, r: string) {
    Known(l, u) && l.workers[u].run == Some(r)
  }

  /** How a run whose worker has exited ends, read from its log. */
  predicate EndsAs(log: Log, status: Status) {
    && (status == Cancelled <==> log.cancelRequested)
    && (status == Completed <==> !log.cancelRequested && log.ending == SaidCompleted(false))
    && (status == Failed <==>
        !log.cancelRequested && (log.ending == SaidCompleted(true) || log.ending == SaidFailed))
    && (status == Interrupted <==>
        !log.cancelRequested && (log.ending == SaidInterrupted || log.ending == Unfinished))
  }

  /** The end of a running run with a container u of its label. */
  predicate FateWith(l: Ledger, r: string, u: string, status: Status)
    requires r in l.runs && u in l.workers
  {
    if l.workers[u].workspace != Some(l.runs[r].workspace) then status == Orphaned
    else if l.workers[u].running then status == Running
    else EndsAs(l.runs[r].log, status)
  }

  lemma OneLabel(l: Ledger, u: string, v: string, r: string)
    requires Filed(l) && Labelled(l, u, r) && Labelled(l, v, r) && forall w :: !Troubled(l, w)
    ensures u == v
  {
    assert RowMatches(l, u) && RowMatches(l, v);
    assert !Troubled(l, u) && !Troubled(l, v);
  }

  lemma OwnIsLabelled(l: Ledger, r: string)
    requires Filed(l) && r in l.runs && l.runs[r].worker.Some? && l.runs[r].worker.value in l.workers
    ensures Labelled(l, l.runs[r].worker.value, r)
  {
    assert RowMatches(l, l.runs[r].worker.value);
  }

  /** With no worker in trouble, a run's recorded worker is the container of its label, if any. */
  lemma LabelIsOwn(l: Ledger, u: string, r: string)
    requires Filed(l) && Labelled(l, u, r) && (forall w :: !Troubled(l, w)) && l.runs[r].worker.Some?
    ensures l.runs[r].worker == Some(u)
  {
    assert RowMatches(l, u) && !Troubled(l, u);
  }

  // What has become of run r when n workers of the listing have been examined.
  ghost predicate SoFar(l: Ledger, listing: seq<Listed>, n: nat, x: Ledger, r: string)
    requires n <= |listing| && r in l.runs
  {
    && r in x.runs
    && (forall i :: 0 <= i < n && Labelled(l, listing[i].id, r) ==>
          FateWith(l, r, listing[i].id, x.runs[r].status)
          && (x.runs[r].status == Running ==> x.runs[r].worker == Some(listing[i].id)))
    && ((forall i :: 0 <= i < n ==> !Labelled(l, listing[i].id, r)) ==> x.runs[r] == l.runs[r])
  }

  lemma OwnTurn(l: Ledger, x: Ledger, w: string, r: string)
    requires Filed(x) && Labelled(x, w, r) && Labelled(l, w, r) && x.workers[w] == l.workers[w]
    requires x.runs[r] == l.runs[r] && l.runs[r].status == Running
    requires l.runs[r].worker.Some? ==> l.runs[r].worker == Some(w)
    requires !ScanOne(x, l.runs, w, l.workers[w]).raised
    ensures var y := ScanOne(x, l.runs, w, l.workers[w]).ledger;
            && r in y.runs && FateWith(l, r, w, y.runs[r].status)
            && (y.runs[r].status == Running ==> y.runs[r].worker == Some(w))
  {
    if l.workers[w].workspace == Some(l.runs[r].workspace) {
      HomeRun(l, x, w, r);
    }
  }

  lemma HomeRun(l: Ledger, x: Ledger, w: string, r: string)
    requires Labelled(x, w, r) && Labelled(l, w, r) && x.runs[r] == l.runs[r] && l.runs[r].status == Running
    requires l.runs[r].worker.Some? ==> l.runs[r].worker == Some(w)
    requires l.workers[w].workspace == Some(l.runs[r].workspace) && !ScanOwn(x, w, l.workers[w], r, l.runs[r]).raised
    ensures var y := ScanOwn(x, w, l.workers[w], r, l.runs[r]).ledger;
            && r in y.runs && FateWith(l, r, w, y.runs[r].status)
            && (y.runs[r].status == Running ==> y.runs[r].worker == Some(w))
  {
  }

  lemma OtherTurn(l: Ledger, x: Ledger, y: Ledger, w: string, r: string)
    requires w in l.workers && w in x.workers && x.workers[w] == l.workers[w] && x.runs.Keys == l.runs.Keys
    requires r in l.runs && !Labelled(l, w, r) && Examined(x, Scanned(y, false), w)
    ensures r in y.runs && y.runs[r] == x.runs[r]
  {
    assert Known(x, w) <==> Known(l, w);
  }

  lemma FateStep(l: Ledger, listing: seq<Listed>, n: nat, x: Ledger, r: string)
    requires Filed(l) && ListingOf(l, listing) && n < |listing| && Progress(l, listing, n, x)
    requires (forall w :: !Troubled(l, w)) && r in l.runs && l.runs[r].status == Running
    requires SoFar(l, listing, n, x, r) && !ScanOne(x, l.runs, listing[n].id, listing[n].worker).raised
    ensures SoFar(l, listing, n + 1, ScanOne(x, l.runs, listing[n].id, listing[n].worker).ledger, r)
  {
    var w := listing[n].id;
    var y := ScanOne(x, l.runs, w, listing[n].worker).ledger;
    assert Waiting(l, x, w);
    ScanOneWorks(x, l.runs, w);
    if Labelled(l, w, r) {
      NoneBefore(l, listing, n, r);
      if l.runs[r].worker.Some? {
        LabelIsOwn(l, w, r);
      }
      assert Known(x, w);
      OwnTurn(l, x, w, r);
    } else {
      OtherTurn(l, x, y, w, r);
    }
    SoFarStep(l, listing, n, x, y, r);
  }

  lemma NoneBefore(l: Ledger, listing: seq<Listed>, n: nat, r: string)
    requires Filed(l) && ListingOf(l, listing) && n < |listing| && (forall w :: !Troubled(l, w))
    requires Labelled(l, listing[n].id, r)
    ensures forall i :: 0 <= i < n ==> !Labelled(l, listing[i].id, r)
  {
    forall i | 0 <= i < n
      ensures !Labelled(l, listing[i].id, r)
    {
      if Labelled(l, listing[i].id, r) {
        OneLabel(l, listing[i].id, listing[n].id, r);
      }
    }
  }

  lemma SoFarStep(l: Ledger, listing: seq<Listed>, n: nat, x: Ledger, y: Ledger, r: string)
    requires n < |listing| && r in l.runs && r in y.runs && SoFar(l, listing, n, x, r)
    requires if Labelled(l, listing[n].id, r) then
               && FateWith(l, r, listing[n].id, y.runs[r].status)
               && (y.runs[r].status == Running ==> y.runs[r].worker == Some(listing[n].id))
               && forall i :: 0 <= i < n ==> !Labelled(l, listing[i].id, r)
             else y.runs[r] == x.runs[r]
    ensures SoFar(l, listing, n + 1, y, r)
  {
  }

  lemma {:induction false} FateSoFar(l: Ledger, listing: seq<Listed>, n: nat, r: string)
    requires Filed(l) && ListingOf(l, listing) && n <= |listing| && !Scan(l, l.runs, listing[..n]).raised
    requires (forall w :: !Troubled(l, w)) && r in l.runs && l.runs[r].status == Running
    ensures SoFar(l, listing, n, Scan(l, l.runs, listing[..n]).ledger, r)
  {
    if n == 0 {
      assert listing[..0] == [];
    } else {
      ScanOneMore(l, l.runs, listing, n - 1);
      FateSoFar(l, listing, n - 1, r);
      FateNext(l, listing, n - 1, r);
    }
  }

  lemma FateNext(l: Ledger, listing: seq<Listed>, n: nat, r: string)
    requires Filed(l) && ListingOf(l, listing) && n < |listing| && !Scan(l, l.runs, listing[..n + 1]).raised
    requires (forall w :: !Troubled(l, w)) && r in l.runs && l.runs[r].status == Running
    requires SoFar(l, listing, n, Scan(l, l.runs, listing[..n]).ledger, r)
    ensures SoFar(l, listing, n + 1, Scan(l, l.runs, listing[..n + 1]).ledger, r)
  {
    ScanOneMore(l, l.runs, listing, n);
    ScanWorks(l, listing, n);
    FateStep(l, listing, n, Scan(l, l.runs, listing[..n]).ledger, r);
  }

  /** What a restart that goes through makes of a run that was running. With a container of its
      label: orphaned if that is in another workspace, still running if it runs, and otherwise
      ended as its log says. Without one: interrupted. */
  lemma RunFate(l: Ledger, listing: seq<Listed>, order: seq<string>, r: string)
    requires Filed(l) && ListingOf(l, listing) && AllRuns(l, order) && !Reconciled(l, listing, order).raised
    requires r in l.runs && l.runs[r].status == Running
    ensures r in Reconciled(l, listing, order).ledger.runs
    ensures forall u :: Labelled(l, u, r) ==> FateWith(l, r, u, Reconciled(l, listing, order).ledger.runs[r].status)
    ensures (forall u :: !Labelled(l, u, r)) ==>
              Reconciled(l, listing, order).ledger.runs[r].status == Interrupted
  {
    var n := |listing|;
    assert listing[..n] == listing;
    RestartRaisesIff(l, listing, order);
    var x := Scan(l, l.runs, listing).ledger;
    FateSoFar(l, listing, n, r);
    InterruptWorks(x, listing, order);
    forall u | Labelled(l, u, r)
      ensures FateWith(l, r, u, Reconciled(l, listing, order).ledger.runs[r].status)
    {
      assert Seen(listing, u);
      var i :| 0 <= i < n && listing[i].id == u;
      assert x.runs[r].status == Running ==> !Missing(x, listing, r);
    }
    if forall u :: !Labelled(l, u, r) {
      NoOwnListed(l, listing, r);
    }
  }

  lemma NoOwnListed(l: Ledger, listing: seq<Listed>, r: string)
    requires Filed(l) && ListingOf(l, listing) && r in l.runs && forall u :: !Labelled(l, u, r)
    ensures l.runs[r].worker.None? || !Seen(listing, l.runs[r].worker.value)
  {
    if l.runs[r].worker.Some? && Seen(listing, l.runs[r].worker.value) {
      var i :| 0 <= i < |listing| && listing[i].id == l.runs[r].worker.value;
      OwnIsLabelled(l, r);
    }
  }

  /** A run whose own worker is listed as exited ends as its log says. */
  lemma ExitedRunEnds(l: Ledger, listing: seq<Listed>, order: seq<string>, r: string)
    requires Filed(l) && ListingOf(l, listing) && AllRuns(l, order) && !Reconciled(l, listing, order).raised
    requires r in l.runs && l.runs[r].status == Running && l.runs[r].worker.Some?
    requires var w := l.runs[r].worker.value;
             w in l.workers && !l.workers[w].running && l.workers[w].workspace == Some(l.runs[r].workspace)
    ensures r in Reconciled(l, listing, order).ledger.runs
    ensures EndsAs(l.runs[r].log, Reconciled(l, listing, order).ledger.runs[r].status)
  {
    OwnIsLabelled(l, r);
    RunFate(l, listing, order, r);
  }

  // ---------------------------------------------------------------- workers

  /** The container runs in another workspace than its run, or its run has another worker. */
  predicate Astray(l: Ledger, w: string)
    requires Known(l, w)
  {
    var run := l.runs[l.workers[w].run.value];
    l.workers[w].workspace != Some(run.workspace) || (run.worker.Some? && run.worker != Some(w))
  }

  /** What a restart leaves of a listed container and records of it: an unknown one is removed, a
      stray one and one of an ended run are stopped, and all these are on record as orphaned; any
      other is left alone and on record as running or exited. */
  predicate WorkerFate(l: Ledger, w: string, y: Ledger)
    requires w in l.workers
  {
    && w in y.records
    && if !Known(l, w) then w !in y.workers && y.records[w].state == WorkerOrphaned
       else
         && w in y.workers
         && var run := l.runs[l.workers[w].run.value];
            if Astray(l, w) || (Terminal(run.status) && l.workers[w].running)
            then !y.workers[w].running && y.records[w].state == WorkerOrphaned
            else y.workers[w] == l.workers[w]
                 && y.records[w].state == if l.workers[w].running then WorkerRunning else WorkerExited
  }

  lemma WorkerTurn(l: Ledger, x: Ledger, w: string)
    requires w in l.workers && w in x.workers && x.workers[w] == l.workers[w]
    requires !ScanOne(x, l.runs, w, l.workers[w]).raised
    ensures WorkerFate(l, w, ScanOne(x, l.runs, w, l.workers[w]).ledger)
  {
    if Known(l, w) {
      var r := l.workers[w].run.value;
      if Astray(l, w) {
        StrayTurn(l, x, w, r);
      } else {
        HomeTurn(l, x, w, r);
      }
    }
  }

  lemma StrayTurn(l: Ledger, x: Ledger, w: string, r: string)
    requires Known(l, w) && w in x.workers && x.workers[w] == l.workers[w] && l.workers[w].run == Some(r)
    requires Astray(l, w) && !Mismatch(x, w, l.workers[w], r, l.runs[r]).raised
    ensures WorkerFate(l, w, Mismatch(x, w, l.workers[w], r, l.runs[r]).ledger)
  {
  }

  lemma HomeTurn(l: Ledger, x: Ledger, w: string, r: string)
    requires Known(l, w) && w in x.workers && x.workers[w] == l.workers[w] && l.workers[w].run == Some(r)
    requires !Astray(l, w) && !ScanOwn(x, w, l.workers[w], r, l.runs[r]).raised
    ensures WorkerFate(l, w, ScanOwn(x, w, l.workers[w], r, l.runs[r]).ledger)
  {
    var run, snapshot := l.runs[r], l.workers[w];
    var a := if run.worker.None? && run.status == Running then Attach(x, r, w, snapshot.workspace.value).value else x;
    var y := RecordWorker(a, w, Some(r), snapshot.workspace, if snapshot.running then WorkerRunning else WorkerExited);
    assert a.workers == x.workers && y.value.workers == x.workers && w in y.value.records;
    SettleTurn(l, y.value, w, r);
  }

  lemma SettleTurn(l: Ledger, y: Ledger, w: string, r: string)
    requires Known(l, w) && w in y.workers && y.workers[w] == l.workers[w] && l.workers[w].run == Some(r)
    requires !Astray(l, w) && w in y.records
    requires y.records[w].state == if l.workers[w].running then WorkerRunning else WorkerExited
    ensures WorkerFate(l, w, Settle(y, w, l.workers[w], r, l.runs[r]))
  {
  }

  predicate Spared(x: Ledger, y: Ledger, v: string) {
    && (v in y.records <==> v in x.records) && (v in x.records ==> y.records[v] == x.records[v])
    && (v in y.workers <==> v in x.workers) && (v in x.workers ==> y.workers[v] == x.workers[v])
  }

  lemma WorkerSpared(l: Ledger, x: Ledger, v: string, w: string, snapshot: Worker)
    requires v != w
    ensures Spared(x, ScanOne(x, l.runs, w, snapshot).ledger, v)
  {
    if snapshot.run.Some? && snapshot.run.value in l.runs && snapshot.workspace.Some? {
      MismatchSpares(x, v, w, snapshot, snapshot.run.value, l.runs[snapshot.run.value]);
      OwnSpares(x, v, w, snapshot, snapshot.run.value, l.runs[snapshot.run.value]);
    } else {
      DropSpares(x, v, w, snapshot);
    }
  }

  lemma DropSpares(x: Ledger, v: string, w: string, snapshot: Worker)
    requires v != w
    ensures Spared(x, DropUnknown(x, w, snapshot).ledger, v)
  {
  }

  lemma MismatchSpares(x: Ledger, v: string, w: string, snapshot: Worker, r: string, run: Run)
    requires v != w
    ensures Spared(x, Mismatch(x, w, snapshot, r, run).ledger, v)
  {
  }

  lemma OwnSpares(x: Ledger, v: string, w: string, snapshot: Worker, r: string, run: Run)
    requires v != w && snapshot.workspace.Some?
    ensures Spared(x, ScanOwn(x, w, snapshot, r, run).ledger, v)
  {
    var attached :=
      if run.worker.None? && run.status == Running then Attach(x, r, w, snapshot.workspace.value) else Some(x);
    if attached.Some? {
      assert Spared(x, attached.value, v);
      RecordSpares(attached.value, v, w, snapshot, r, run);
    }
  }

  lemma RecordSpares(a: Ledger, v: string, w: string, snapshot: Worker, r: string, run: Run)
    requires v != w
    ensures var y := RecordWorker(a, w, Some(r), snapshot.workspace,
                                  if snapshot.running then WorkerRunning else WorkerExited);
            y.Some? ==> Spared(a, y.value, v) && Spared(a, Settle(y.value, w, snapshot, r, run), v)
  {
  }

  lemma FateSpared(l: Ledger, x: Ledger, y: Ledger, v: string)
    requires v in l.workers && WorkerFate(l, v, x) && Spared(x, y, v)
    ensures WorkerFate(l, v, y)
  {
  }

  ghost predicate FateAt(l: Ledger, listing: seq<Listed>, n: nat, i: nat)
    requires i < n <= |listing| && listing[i].id in l.workers
  {
    WorkerFate(l, listing[i].id, Scan(l, l.runs, listing[..n]).ledger)
  }

  lemma NewFate(l: Ledger, listing: seq<Listed>, n: nat)
    requires Filed(l) && ListingOf(l, listing) && n < |listing| && !Scan(l, l.runs, listing[..n + 1]).raised
    ensures FateAt(l, listing, n + 1, n)
  {
    ScanOneMore(l, l.runs, listing, n);
    ScanWorks(l, listing, n);
    LastFate(l, listing, n, Scan(l, l.runs, listing[..n]).ledger);
  }

  lemma OldFate(l: Ledger, listing: seq<Listed>, n: nat, i: nat)
    requires ListingOf(l, listing) && i < n < |listing| && !Scan(l, l.runs, listing[..n + 1]).raised
    requires FateAt(l, listing, n, i)
    ensures FateAt(l, listing, n + 1, i)
  {
    ScanOneMore(l, l.runs, listing, n);
    EarlierFate(l, listing, n, i, Scan(l, l.runs, listing[..n]).ledger);
  }

  lemma {:induction false} WorkersSoFar(l: Ledger, listing: seq<Listed>, n: nat, i: nat)
    requires Filed(l) && ListingOf(l, listing) && i < n <= |listing| && !Scan(l, l.runs, listing[..n]).raised
    ensures FateAt(l, listing, n, i)
  {
    if i == n - 1 {
      NewFate(l, listing, n - 1);
    } else {
      ScanOneMore(l, l.runs, listing, n - 1);
      WorkersSoFar(l, listing, n - 1, i);
      OldFate(l, listing, n - 1, i);
    }
  }

  lemma LastFate(l: Ledger, listing: seq<Listed>, n: nat, x: Ledger)
    requires ListingOf(l, listing) && n < |listing| && Progress(l, listing, n, x)
    requires !ScanOne(x, l.runs, listing[n].id, listing[n].worker).raised
    ensures WorkerFate(l, listing[n].id, ScanOne(x, l.runs, listing[n].id, listing[n].worker).ledger)
  {
    assert Waiting(l, x, listing[n].id);
    WorkerTurn(l, x, listing[n].id);
  }

  lemma EarlierFate(l: Ledger, listing: seq<Listed>, n: nat, i: nat, x: Ledger)
    requires ListingOf(l, listing) && i < n < |listing| && WorkerFate(l, listing[i].id, x)
    ensures WorkerFate(l, listing[i].id, ScanOne(x, l.runs, listing[n].id, listing[n].worker).ledger)
  {
    WorkerSpared(l, x, listing[i].id, listing[n].id, listing[n].worker);
    FateSpared(l, x, ScanOne(x, l.runs, listing[n].id, listing[n].worker).ledger, listing[i].id);
  }

  /** A restart that goes through does this to every container there is. */
  lemma EveryWorkerFate(l: Ledger, listing: seq<Listed>, order: seq<string>, w: string)
    requires Filed(l) && ListingOf(l, listing) && !Reconciled(l, listing, order).raised && w in l.workers
    ensures WorkerFate(l, w, Reconciled(l, listing, order).ledger)
  {
    var n := |listing|;
    assert listing[..n] == listing;
    assert Seen(listing, w);
    var i :| 0 <= i < n && listing[i].id == w;
    WorkersSoFar(l, listing, n, i);
    var x := Scan(l, l.runs, listing).ledger;
    InterruptWorks(x, listing, order);
    FateSpared(l, x, Reconciled(l, listing, order).ledger, w);
  }
}
