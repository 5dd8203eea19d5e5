/**
 Runs and the workers that execute them: what the manager records about each, and the two
 scans with which a restarted manager brings both into agreement.
 */
module Reconcile {
  import opened Wrappers

  datatype Status = Queued | Running | Completed | Failed | Cancelled | Interrupted | Orphaned

  // What a run's event log says about its end.
  datatype Ending = Unfinished | SaidCompleted(emptyAfterToolFailure: bool) | SaidFailed | SaidInterrupted

  datatype Log = Log(cancelRequested: bool, ending: Ending)

  // workspace: that of the run's conversation.
  datatype Run = Run(conversation: string, workspace: string, status: Status, worker: Option<string>, log: Log)

  // A managed container and its labels.
  datatype Worker = Worker(run: Option<string>, workspace: Option<string>, running: bool)

  datatype WorkerState = WorkerRunning | WorkerExited | WorkerOrphaned | WorkerTerminated

  datatype Record = Record(run: Option<string>, state: WorkerState)

  // runs and records are stored; workers are what the container engine has; watched are the
  // runs with a monitor in this process.
  datatype Ledger = Ledger(runs: map<string, Run>, workers: map<string, Worker>, records: map<string, Record>,
                           workspaces: set<string>, watched: set<string>)

  predicate Terminal(s: Status) {
    s != Queued && s != Running
  }

  // ---------------------------------------------------------------- store and engine operations

  /** Compare-and-set on a running run. */
  function Finish(l: Ledger, r: string, status: Status): Ledger {
    if r in l.runs && l.runs[r].status == Running
    then l.(runs := l.runs[r := l.runs[r].(status := status)]) else l
  }

  predicate Taken(l: Ledger, w: string, run: Option<string>) {
    run.Some? && exists v :: v in l.records && v != w && l.records[v].run == run
  }

  /** A row is added or its state updated; a new row may not name an unknown workspace or a
      run another row names. */
  function RecordWorker(l: Ledger, w: string, run: Option<string>, workspace: Option<string>, state: WorkerState)
    : Option<Ledger>
  {
    if w in l.records then Some(l.(records := l.records[w := l.records[w].(state := state)]))
    else if (workspace.Some? && workspace.value !in l.workspaces) || Taken(l, w, run) then None
    else Some(l.(records := l.records[w := Record(run, state)]))
  }

  function UpdateWorkerState(l: Ledger, w: string, state: WorkerState): Ledger {
    if w in l.records then l.(records := l.records[w := l.records[w].(state := state)]) else l
  }

  function Attach(l: Ledger, r: string, w: string, workspace: string): Option<Ledger> {
    if r !in l.runs || l.runs[r].status != Running || Taken(l, w, Some(r)) || workspace !in l.workspaces then None
    else Some(l.(records := l.records[w := Record(Some(r), WorkerRunning)],
                 runs := l.runs[r := l.runs[r].(worker := Some(w))]))
  }

  function Stop(l: Ledger, w: string): Ledger {
    if w in l.workers then l.(workers := l.workers[w := l.workers[w].(running := false)]) else l
  }

  function Remove(l: Ledger, w: string): Ledger {
    l.(workers := l.workers - {w})
  }

  /** How a run ends whose worker is found exited at a restart. */
  function FinalStatus(log: Log): Status {
    if log.cancelRequested then Cancelled
    else
      match log.ending
      case SaidCompleted(empty) => if empty then Failed else Completed
      case SaidFailed => Failed
      case SaidInterrupted => Interrupted
      case Unfinished => Interrupted
  }

  // ---------------------------------------------------------------- the scan over workers

  // raised: a store operation failed and the scan ended there.
  datatype Scanned = Scanned(ledger: Ledger, raised: bool)

  function StopIf(l: Ledger, w: string, running: bool): Ledger {
    if running then Stop(l, w) else l
  }

  function DropUnknown(l: Ledger, w: string, snapshot: Worker): Scanned {
    var stopped := StopIf(l, w, snapshot.running);
    match RecordWorker(stopped, w, None, None, WorkerOrphaned)
    case None => Scanned(stopped, true)
    case Some(x) => Scanned(Remove(x, w), false)
  }

  function Mismatch(l: Ledger, w: string, snapshot: Worker, r: string, run: Run): Scanned {
    var stopped := StopIf(l, w, snapshot.running);
    match RecordWorker(stopped, w, Some(r), snapshot.workspace, WorkerOrphaned)
    case None => Scanned(stopped, true)
    case Some(x) => Scanned(if run.status == Running then Finish(x, r, Orphaned) else x, false)
  }

  /** Adopts, ends or leaves alone the run a worker was started for; run is its current row. */
  function Settle(l: Ledger, w: string, snapshot: Worker, r: string, run: Run): Ledger {
    if Terminal(run.status) then
      if snapshot.running then UpdateWorkerState(Stop(l, w), w, WorkerOrphaned) else l
    else if run.status != Running then l
    else if snapshot.running then l.(watched := l.watched + {r})
    else UpdateWorkerState(Finish(l, r, FinalStatus(run.log)), w, WorkerExited)
  }

  function ScanOwn(l: Ledger, w: string, snapshot: Worker, r: string, run: Run): Scanned
    requires snapshot.workspace.Some?
  {
    var attached :=
      if run.worker.None? && run.status == Running then Attach(l, r, w, snapshot.workspace.value) else Some(l);
    match attached
    case None => Scanned(l, true)
    case Some(x) =>
      match RecordWorker(x, w, Some(r), snapshot.workspace, if snapshot.running then WorkerRunning else WorkerExited)
      case None => Scanned(x, true)
      case Some(y) => Scanned(Settle(y, w, snapshot, r, run), false)
  }

  /** One worker of the listing; stale holds the runs as they were when the scan began. */
  function ScanOne(l: Ledger, stale: map<string, Run>, w: string, snapshot: Worker): Scanned {
    if snapshot.run.None? || snapshot.run.value !in stale || snapshot.workspace.None? then DropUnknown(l, w, snapshot)
    else
      var r := snapshot.run.value;
      var run := stale[r];
      if snapshot.workspace != Some(run.workspace) || (run.worker.Some? && run.worker != Some(w))
      then Mismatch(l, w, snapshot, r, run)
      else ScanOwn(l, w, snapshot, r, run)
  }

  // One line of the engine's listing.
  datatype Listed = Listed(id: string, worker: Worker)

  function Scan(l: Ledger, stale: map<string, Run>, listing: seq<Listed>): Scanned {
    if listing == [] then Scanned(l, false)
    else
      var before := Scan(l, stale, listing[..|listing| - 1]);
      var last := listing[|listing| - 1];
      if before.raised then before else ScanOne(before.ledger, stale, last.id, last.worker)
  }

  // ---------------------------------------------------------------- the scan over running runs

  predicate Seen(listing: seq<Listed>, w: string) {
    exists x <- listing :: x.id == w
  }

  function InterruptOne(l: Ledger, listing: seq<Listed>, r: string): Ledger {
    if r in l.runs && l.runs[r].status == Running
      && (l.runs[r].worker.None? || !Seen(listing, l.runs[r].worker.value))
    then Finish(l, r, Interrupted) else l
  }

  function InterruptAll(l: Ledger, listing: seq<Listed>, order: seq<string>): Ledger {
    if order == [] then l
    else InterruptOne(InterruptAll(l, listing, order[..|order| - 1]), listing, order[|order| - 1])
  }

  /** Both scans; order lists the run ids. */
  function Reconciled(l: Ledger, listing: seq<Listed>, order: seq<string>): Scanned {
    var scanned := Scan(l, l.runs, listing);
    if scanned.raised then scanned else Scanned(InterruptAll(scanned.ledger, listing, order), false)
  }

  // ---------------------------------------------------------------- the manager

  class RunManager {
    var order: seq<string>
    var ledger: Ledger

    constructor (workspaces: set<string>)
      ensures order == [] && ledger == Ledger(map[], map[], map[], workspaces, {})
    {
      order := [];
      ledger := Ledger(map[], map[], map[], workspaces, {});
    }

    /** One pass of the first loop. */
    method Examine(stale: map<string, Run>, w: string, snapshot: Worker) returns (raised: bool)
      modifies this`ledger
      ensures Scanned(ledger, raised) == ScanOne(old(ledger), stale, w, snapshot)
    {
      if snapshot.run.None? || snapshot.run.value !in stale || snapshot.workspace.None? {
        if snapshot.running {
          ledger := Stop(ledger, w);
        }
        var recorded := RecordWorker(ledger, w, None, None, WorkerOrphaned);
        if recorded.None? {
          return true;
        }
        ledger := Remove(recorded.value, w);
        return false;
      }
      var r := snapshot.run.value;
      var run := stale[r];
      if snapshot.workspace != Some(run.workspace) || (run.worker.Some? && run.worker != Some(w)) {
        if snapshot.running {
          ledger := Stop(ledger, w);
        }
        var recorded := RecordWorker(ledger, w, Some(r), snapshot.workspace, WorkerOrphaned);
        if recorded.None? {
          return true;
        }
        ledger := recorded.value;
        if run.status == Running {
          ledger := Finish(ledger, r, Orphaned);
        }
        return false;
      }
      if run.worker.None? && run.status == Running {
        var attached := Attach(ledger, r, w, snapshot.workspace.value);
        if attached.None? {
          return true;
        }
        ledger := attached.value;
      }
      var recorded := RecordWorker(ledger, w, Some(r), snapshot.workspace,
                                   if snapshot.running then WorkerRunning else WorkerExited);
      if recorded.None? {
        return true;
      }
      ledger := recorded.value;
      raised := false;
      if Terminal(run.status) {
        if snapshot.running {
          ledger := UpdateWorkerState(Stop(ledger, w), w, WorkerOrphaned);
        }
      } else if run.status == Running {
        if snapshot.running {
          ledger := ledger.(watched := ledger.watched + {r});
        } else {
          ledger := UpdateWorkerState(Finish(ledger, r, FinalStatus(run.log)), w, WorkerExited);
        }
      }
    }

    method Reconcile(listing: seq<Listed>) returns (raised: bool)
      modifies this`ledger
      ensures Scanned(ledger, raised) == Reconciled(old(ledger), listing, order)
    {
      var stale := ledger.runs;
      var i := 0;
      while i < |listing|
        invariant 0 <= i <= |listing|
        invariant Scan(old(ledger), stale, listing[..i]) == Scanned(ledger, false)
      {
        assert listing[..i + 1][..i] == listing[..i];
        var failed := Examine(stale, listing[i].id, listing[i].worker);
        if failed {
          ScanStays(old(ledger), stale, listing, i + 1);
          return true;
        }
        i := i + 1;
      }
      assert listing[..i] == listing;
      ghost var scanned := ledger;
      var k := 0;
      while k < |order|
        invariant 0 <= k <= |order|
        invariant ledger == InterruptAll(scanned, listing, order[..k])
      {
        assert order[..k + 1][..k] == order[..k];
        var r := order[k];
        if r in ledger.runs && ledger.runs[r].status == Running {
          var run := ledger.runs[r];
          if run.worker.None? || !Seen(listing, run.worker.value) {
            ledger := Finish(ledger, r, Interrupted);
          }
        }
        k := k + 1;
      }
      assert order[..k] == order;
      raised := false;
    }
  }

  lemma {:induction false} ScanStays(l: Ledger, stale: map<string, Run>, listing: seq<Listed>, i: nat)
    requires i <= |listing| && Scan(l, stale, listing[..i]).raised
    ensures Scan(l, stale, listing) == Scan(l, stale, listing[..i])
    decreases |listing| - i
  {
    if i < |listing| {
      assert listing[..i + 1][..i] == listing[..i];
      ScanStays(l, stale, listing, i + 1);
    } else {
      assert listing[..i] == listing;
    }
  }
}
