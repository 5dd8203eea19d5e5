/**
 Every way claims, worker starts, exits, monitors, cancellations, containers of unknown origin
 and crashes can interleave, and what a restart then does.
 */
module ReconcileRuns {
  import opened Wrappers
  import opened Reconcile
  import opened RestartScan

  // started: which worker each run was given, as the container name allows once; dispatching:
  // the runs being started by this process, with their worker once it has one.
  datatype State = State(ledger: Ledger, started: map<string, string>, dispatching: map<string, Option<string>>)

  datatype Step =
    | Submit(run: string, conversation: string, workspace: string)
    | Claim(run: string)
    | StartWorker(run: string, worker: string)
    | StartupFails(run: string)
    | AttachStarted(run: string)
    | Conclude(run: string, status: Status)
    | LogEvent(run: string, log: Log)
    | WorkerExits(worker: string)
    | WorkerVanishes(worker: string)
    | Watch(run: string)
    | StrangerAppears(worker: string, runLabel: Option<string>, workspaceLabel: Option<string>)
    | Crash
    | Restart(listing: seq<Listed>, order: seq<string>)

  predicate Occupied(l: Ledger, conversation: string) {
    exists r :: r in l.runs && l.runs[r].conversation == conversation && l.runs[r].status == Running
  }

  predicate Unlabelled(l: Ledger, run: string) {
    forall w :: w in l.workers ==> l.workers[w].run != Some(run)
  }

  predicate Enabled(s: State, a: Step) {
    var l := s.ledger;
    match a
    case Submit(r, _, workspace) => r !in l.runs && Unlabelled(l, r) && workspace in l.workspaces
    case Claim(r) => r in l.runs && l.runs[r].status == Queued && !Occupied(l, l.runs[r].conversation)
    case StartWorker(r, w) => r in s.dispatching && s.dispatching[r].None? && r in l.runs
                              && w !in l.workers && w !in l.records && w !in s.started.Values
    case StartupFails(r) => r in s.dispatching
    case AttachStarted(r) => r in s.dispatching && s.dispatching[r].Some? && r in l.runs
    case Conclude(r, status) => r in l.runs && Terminal(status)
    case LogEvent(r, _) => r in l.runs
    case WorkerExits(w) => w in l.workers
    case WorkerVanishes(w) => w in l.workers
    case Watch(_) => true
    case StrangerAppears(w, _, _) => w !in l.workers && w !in l.records && w !in s.started.Values
    case Crash => true
    case Restart(listing, order) => s.dispatching == map[] && ListingOf(l, listing) && AllRuns(l, order)
  }

  function AttachOrStop(l: Ledger, r: string, w: string): Ledger
    requires r in l.runs
  {
    if l.runs[r].status == Running then
      match Attach(l, r, w, l.runs[r].workspace)
      case Some(x) => x.(watched := x.watched + {r})
      case None => Finish(l, r, Failed)
    else
      match RecordWorker(Stop(l, w), w, Some(r), Some(l.runs[r].workspace), WorkerTerminated)
      case Some(x) => x
      case None => Stop(l, w)
  }

  function Next(s: State, a: Step): State
    requires Enabled(s, a)
  {
    var l := s.ledger;
    match a
    case Submit(r, c, workspace) =>
      s.(ledger := l.(runs := l.runs[r := Run(c, workspace, Queued, None, Log(false, Unfinished))]))
    case Claim(r) =>
      s.(ledger := Claimed(l, r), dispatching := s.dispatching[r := None])
    case StartWorker(r, w) =>
      State(l.(workers := l.workers[w := Worker(Some(r), Some(l.runs[r].workspace), true)]),
            s.started[r := w], s.dispatching[r := Some(w)])
    case StartupFails(r) => State(Finish(l, r, Failed), s.started, s.dispatching - {r})
    case AttachStarted(r) => State(AttachOrStop(l, r, s.dispatching[r].value), s.started, s.dispatching - {r})
    case Conclude(r, status) =>
      s.(ledger := if l.runs[r].status == Queued && status == Cancelled
                   then l.(runs := l.runs[r := l.runs[r].(status := Cancelled)]) else Finish(l, r, status))
    case LogEvent(r, log) => s.(ledger := l.(runs := l.runs[r := l.runs[r].(log := log)]))
    case WorkerExits(w) => s.(ledger := Stop(l, w))
    case WorkerVanishes(w) => s.(ledger := Remove(l, w))
    case Watch(r) => s.(ledger := l.(watched := l.watched + {r}))
    case StrangerAppears(w, labelled, workspace) =>
      s.(ledger := l.(workers := l.workers[w := Worker(labelled, workspace, true)]))
    case Crash => State(l.(watched := {}), s.started, map[])
    case Restart(listing, order) => s.(ledger := Reconciled(l, listing, order).ledger)
  }

  // ---------------------------------------------------------------- what every step keeps

  /** A run is given one worker, whose labels name the run and its workspace. */
  ghost predicate StartedOnce(l: Ledger, started: map<string, string>) {
    && (forall r :: r in started ==> r in l.runs && l.runs[r].status != Queued)
    && (forall r :: r in started && started[r] in l.workers ==>
          l.workers[started[r]].run == Some(r) && l.workers[started[r]].workspace == Some(l.runs[r].workspace))
    && (forall p, q :: p in started && q in started && p != q ==> started[p] != started[q])
    && (forall r :: r in l.runs && l.runs[r].status == Queued ==> l.runs[r].worker.None?)
  }

  ghost predicate DispatchOk(s: State) {
    forall r :: r in s.dispatching ==>
      && r in s.ledger.runs && s.ledger.runs[r].status != Queued && s.ledger.runs[r].worker.None?
      && (if s.dispatching[r].None? then r !in s.started
          else r in s.started && s.started[r] == s.dispatching[r].value && s.started[r] !in s.ledger.records)
  }

  /** A conversation runs one thing at a time. */
  ghost predicate OneRunning(l: Ledger) {
    forall p, q ::
      p in l.runs && q in l.runs && p != q && l.runs[p].status == Running && l.runs[q].status == Running ==>
      l.runs[p].conversation != l.runs[q].conversation
  }

  ghost predicate Inv(s: State) {
    Filed(s.ledger) && StartedOnce(s.ledger, s.started) && DispatchOk(s) && OneRunning(s.ledger)
  }

  /** The ledger changes, the rest does not: rows of others, labels and started runs stay. */
  ghost predicate Alike(l: Ledger, x: Ledger) {
    && x.workers.Keys == l.workers.Keys
      && (forall w :: w in l.workers ==> x.workers[w].(running := l.workers[w].running) == l.workers[w])
    && x.records.Keys == l.records.Keys && (forall w :: w in l.records ==> x.records[w].run == l.records[w].run)
    && x.runs.Keys == l.runs.Keys && x.workspaces == l.workspaces
    && forall r :: r in l.runs ==> x.runs[r].workspace == l.runs[r].workspace && x.runs[r].worker == l.runs[r].worker
  }

  lemma AlikeFiled(l: Ledger, x: Ledger)
    requires Filed(l) && Alike(l, x)
    ensures Filed(x)
  {
    assert forall w :: Known(x, w) <==> Known(l, w);
    forall w
      ensures RowMatches(x, w)
    {
      assert RowMatches(l, w);
    }
  }

  /** Statuses move from queued to running to the end, one running at a time. */
  lemma AlikeKeeps(s: State, x: Ledger)
    requires Inv(s) && Alike(s.ledger, x) && OneRunning(x)
    requires forall r :: r in s.ledger.runs && s.ledger.runs[r].status != Queued ==> x.runs[r].status != Queued
    ensures Inv(s.(ledger := x))
  {
    AlikeFiled(s.ledger, x);
  }

  lemma SubmitKeeps(s: State, r: string, c: string, workspace: string)
    requires Inv(s) && Enabled(s, Submit(r, c, workspace))
    ensures Inv(Next(s, Submit(r, c, workspace)))
  {
    var x := Next(s, Submit(r, c, workspace)).ledger;
    assert forall w :: Known(x, w) <==> Known(s.ledger, w);
    forall w
      ensures RowMatches(x, w)
    {
      assert RowMatches(s.ledger, w);
    }
  }

  function Claimed(l: Ledger, r: string): Ledger
    requires r in l.runs
  {
    l.(runs := l.runs[r := l.runs[r].(status := Running)])
  }

  lemma ClaimKeeps(s: State, r: string)
    requires Inv(s) && Enabled(s, Claim(r))
    ensures Inv(Next(s, Claim(r)))
  {
    assert r !in s.started;
    ClaimKeepsOne(s.ledger, r);
    AlikeKeeps(s, Claimed(s.ledger, r));
  }

  lemma ClaimKeepsOne(l: Ledger, r: string)
    requires OneRunning(l) && r in l.runs && !Occupied(l, l.runs[r].conversation)
    ensures OneRunning(Claimed(l, r))
  {
  }

  lemma NewWorkerFiled(l: Ledger, w: string, worker: Worker)
    requires Filed(l) && w !in l.workers && w !in l.records
    ensures Filed(l.(workers := l.workers[w := worker]))
  {
    var x := l.(workers := l.workers[w := worker]);
    forall v
      ensures RowMatches(x, v)
    {
      assert RowMatches(l, v);
    }
  }

  lemma StartKeeps(s: State, r: string, w: string)
    requires Inv(s) && Enabled(s, StartWorker(r, w))
    ensures Inv(Next(s, StartWorker(r, w)))
  {
    NewWorkerFiled(s.ledger, w, Worker(Some(r), Some(s.ledger.runs[r].workspace), true));
    StartKeepsRest(s, r, w);
  }

  lemma StartKeepsRest(s: State, r: string, w: string)
    requires StartedOnce(s.ledger, s.started) && DispatchOk(s) && Enabled(s, StartWorker(r, w))
    ensures StartedOnce(Next(s, StartWorker(r, w)).ledger, Next(s, StartWorker(r, w)).started)
    ensures DispatchOk(Next(s, StartWorker(r, w)))
  {
  }

  lemma StrangerKeeps(s: State, a: Step)
    requires Inv(s) && a.StrangerAppears? && Enabled(s, a)
    ensures Inv(Next(s, a))
  {
    NewWorkerFiled(s.ledger, a.worker, Worker(a.runLabel, a.workspaceLabel, true));
  }

  lemma VanishKeeps(s: State, w: string)
    requires Inv(s)
    ensures Inv(s.(ledger := Remove(s.ledger, w)))
  {
    var x := Remove(s.ledger, w);
    forall v
      ensures RowMatches(x, v)
    {
      assert RowMatches(s.ledger, v);
    }
  }

  /** Ending a run touches only its status. */
  lemma FinishStatus(s: State, r: string, status: Status)
    requires Inv(s) && Terminal(status)
    ensures Inv(s.(ledger := Finish(s.ledger, r, status)))
  {
    AlikeKeeps(s, Finish(s.ledger, r, status));
  }

  /** A row for a started worker that has none. */
  lemma NewRowFiled(l: Ledger, r: string, w: string, x: Ledger)
    requires Filed(l) && r in l.runs && w !in l.records && !Taken(l, w, Some(r))
    requires w in l.workers ==> l.workers[w].run == Some(r) && l.workers[w].workspace.Some?
    requires x.workers == l.workers && x.workspaces == l.workspaces && x.runs.Keys == l.runs.Keys
    requires x.records.Keys == l.records.Keys + {w} && x.records[w].run == Some(r)
    requires forall v :: v in l.records ==> x.records[v] == l.records[v]
    requires forall q :: q in l.runs ==> x.runs[q].workspace == l.runs[q].workspace
    requires forall q :: q in l.runs ==>
               x.runs[q].worker == l.runs[q].worker || (q == r && x.runs[q].worker == Some(w))
    ensures Filed(x)
  {
    assert forall v :: Known(x, v) <==> Known(l, v);
    forall v
      ensures RowMatches(x, v)
    {
      assert RowMatches(l, v);
    }
  }

  lemma AttachedKeeps(s: State, r: string, w: string)
    requires Inv(s) && r in s.dispatching && s.dispatching[r] == Some(w)
    requires Attach(s.ledger, r, w, s.ledger.runs[r].workspace).Some?
    ensures Inv(State(Attach(s.ledger, r, w, s.ledger.runs[r].workspace).value.(watched := s.ledger.watched + {r}),
                      s.started, s.dispatching - {r}))
  {
    var x := Attach(s.ledger, r, w, s.ledger.runs[r].workspace).value;
    NewRowFiled(s.ledger, r, w, x);
    AlikeFiled(x, x.(watched := s.ledger.watched + {r}));
    AttachKeepsRest(s, r, w, x.(watched := s.ledger.watched + {r}));
  }

  lemma AttachKeepsRest(s: State, r: string, w: string, x: Ledger)
    requires StartedOnce(s.ledger, s.started) && DispatchOk(s) && OneRunning(s.ledger)
    requires r in s.dispatching && s.dispatching[r] == Some(w) && s.ledger.runs[r].status == Running
    requires x.workers == s.ledger.workers && x.records == s.ledger.records[w := Record(Some(r), WorkerRunning)]
    requires x.runs == s.ledger.runs[r := s.ledger.runs[r].(worker := Some(w))]
    ensures StartedOnce(x, s.started) && OneRunning(x) && DispatchOk(State(x, s.started, s.dispatching - {r}))
  {
  }

  lemma StoppedKeeps(s: State, r: string, w: string)
    requires Inv(s) && r in s.dispatching && s.dispatching[r] == Some(w)
    ensures Inv(s.(ledger := Stop(s.ledger, w)))
  {
    AlikeKeeps(s, Stop(s.ledger, w));
  }

  lemma TerminatedKeeps(s: State, r: string, w: string, x: Ledger)
    requires Inv(s) && r in s.dispatching && s.dispatching[r] == Some(w)
    requires RecordWorker(s.ledger, w, Some(r), Some(s.ledger.runs[r].workspace), WorkerTerminated) == Some(x)
    ensures Inv(State(x, s.started, s.dispatching - {r}))
  {
    NewRowFiled(s.ledger, r, w, x);
  }

  lemma DoneDispatching(s: State, r: string)
    requires Inv(s)
    ensures Inv(s.(dispatching := s.dispatching - {r}))
  {
  }

  lemma AttachKeeps(s: State, r: string)
    requires Inv(s) && Enabled(s, AttachStarted(r))
    ensures Inv(Next(s, AttachStarted(r)))
  {
    var w := s.dispatching[r].value;
    if s.ledger.runs[r].status == Running {
      if Attach(s.ledger, r, w, s.ledger.runs[r].workspace).Some? {
        AttachedKeeps(s, r, w);
      } else {
        FinishStatus(s, r, Failed);
        DoneDispatching(s.(ledger := Finish(s.ledger, r, Failed)), r);
      }
    } else {
      StoppedKeeps(s, r, w);
      var t := s.(ledger := Stop(s.ledger, w));
      var recorded := RecordWorker(t.ledger, w, Some(r), Some(s.ledger.runs[r].workspace), WorkerTerminated);
      if recorded.Some? {
        TerminatedKeeps(t, r, w, recorded.value);
      } else {
        DoneDispatching(t, r);
      }
    }
  }

  lemma ConcludeKeeps(s: State, r: string, status: Status)
    requires Inv(s) && Enabled(s, Conclude(r, status))
    ensures Inv(Next(s, Conclude(r, status)))
  {
    if s.ledger.runs[r].status == Queued && status == Cancelled {
      AlikeKeeps(s, s.ledger.(runs := s.ledger.runs[r := s.ledger.runs[r].(status := Cancelled)]));
    } else {
      FinishStatus(s, r, status);
    }
  }

  lemma LedgerStepKeeps(s: State, a: Step)
    requires Inv(s) && Enabled(s, a) && (a.LogEvent? || a.WorkerExits? || a.Watch? || a.Crash?)
    ensures Inv(Next(s, a))
  {
    LedgerStepAlike(s, a);
    AlikeKeeps(s, Next(s, a).ledger);
  }

  lemma LedgerStepAlike(s: State, a: Step)
    requires Enabled(s, a) && (a.LogEvent? || a.WorkerExits? || a.Watch? || a.Crash?)
    ensures var x := Next(s, a).ledger;
            && Alike(s.ledger, x) && Next(s, a).started == s.started
            && (Next(s, a).dispatching == s.dispatching || Next(s, a).dispatching == map[])
            && forall r :: r in s.ledger.runs ==> x.runs[r].(log := s.ledger.runs[r].log) == s.ledger.runs[r]
  {
  }

  ghost predicate ScanLeft(l: Ledger, listing: seq<Listed>, n: nat)
    requires n <= |listing|
  {
    var x := Scan(l, l.runs, listing[..n]).ledger;
    OnlyEnds(l, x) && WorkersLeft(l, x)
  }

  lemma ScanLeftNext(l: Ledger, listing: seq<Listed>, n: nat)
    requires Filed(l) && ListingOf(l, listing) && n < |listing| && ScanLeft(l, listing, n)
    ensures ScanLeft(l, listing, n + 1)
  {
    ScanOneMore(l, l.runs, listing, n);
    ScanWorks(l, listing, n);
    if !Scan(l, l.runs, listing[..n]).raised {
      OneMoreKeeps(l, listing, n, Scan(l, l.runs, listing[..n]).ledger);
    }
  }

  lemma {:induction false} RaisedScanKeeps(l: Ledger, listing: seq<Listed>, n: nat)
    requires Filed(l) && ListingOf(l, listing) && n <= |listing|
    ensures ScanLeft(l, listing, n)
  {
    if n > 0 {
      RaisedScanKeeps(l, listing, n - 1);
      ScanLeftNext(l, listing, n - 1);
    } else {
      assert listing[..0] == [];
    }
  }

  lemma OneMoreKeeps(l: Ledger, listing: seq<Listed>, n: nat, x: Ledger)
    requires ListingOf(l, listing) && n < |listing| && Progress(l, listing, n, x)
    ensures var y := ScanOne(x, l.runs, listing[n].id, listing[n].worker).ledger;
            OnlyEnds(l, y) && WorkersLeft(l, y)
  {
    assert Waiting(l, x, listing[n].id);
    ScanOneWorks(x, l.runs, listing[n].id);
  }

  lemma RestartLedger(l: Ledger, listing: seq<Listed>, order: seq<string>)
    requires Filed(l) && ListingOf(l, listing) && AllRuns(l, order)
    ensures var x := Reconciled(l, listing, order).ledger; Filed(x) && OnlyEnds(l, x) && WorkersLeft(l, x)
  {
    assert listing[..|listing|] == listing;
    if Reconciled(l, listing, order).raised {
      ScanWorks(l, listing, |listing|);
      RaisedScanKeeps(l, listing, |listing|);
    } else {
      RestartOutcome(l, listing, order);
    }
  }

  lemma RestartKeeps(s: State, listing: seq<Listed>, order: seq<string>)
    requires Inv(s) && Enabled(s, Restart(listing, order))
    ensures Inv(Next(s, Restart(listing, order)))
  {
    RestartLedger(s.ledger, listing, order);
  }

  /** Every step keeps the rows in order, each run to one worker and each conversation to one
      running run, whatever labels containers of unknown origin carry. */
  lemma StepKeepsInv(s: State, a: Step)
    requires Inv(s) && Enabled(s, a)
    ensures Inv(Next(s, a))
  {
    match a {
      case Submit(r, c, workspace) => SubmitKeeps(s, r, c, workspace);
      case Claim(r) => ClaimKeeps(s, r);
      case StartWorker(r, w) => StartKeeps(s, r, w);
      case StartupFails(r) =>
        FinishStatus(s, r, Failed);
        DoneDispatching(s.(ledger := Finish(s.ledger, r, Failed)), r);
      case AttachStarted(r) => AttachKeeps(s, r);
      case Conclude(r, status) => ConcludeKeeps(s, r, status);
      case WorkerVanishes(w) => VanishKeeps(s, w);
      case StrangerAppears(_, _, _) => StrangerKeeps(s, a);
      case Restart(listing, order) => RestartKeeps(s, listing, order);
      case _ => LedgerStepKeeps(s, a);
    }
  }

  // ---------------------------------------------------------------- whole histories

  ghost predicate IsRun(states: seq<State>, steps: seq<Step>) {
    && |states| == |steps| + 1
    && states[0].ledger.runs == map[] && states[0].ledger.workers == map[] && states[0].ledger.records == map[]
    && states[0].started == map[] && states[0].dispatching == map[]
    && forall i {:trigger steps[i]} :: 0 <= i < |steps| ==>
         Enabled(states[i], steps[i]) && states[i + 1] == Next(states[i], steps[i])
  }

  lemma {:induction false} RunsKeepInv(states: seq<State>, steps: seq<Step>, i: nat)
    requires IsRun(states, steps) && i < |states|
    ensures Inv(states[i])
  {
    if i > 0 {
      RunsKeepInv(states, steps, i - 1);
      StepKeepsInv(states[i - 1], steps[i - 1]);
    }
  }

  /** At every moment of every history a conversation has at most one run running. */
  lemma OneRunPerConversation(states: seq<State>, steps: seq<Step>, i: nat, p: string, q: string)
    requires IsRun(states, steps) && i < |states|
    requires p in states[i].ledger.runs && q in states[i].ledger.runs && p != q
    requires states[i].ledger.runs[p].status == Running && states[i].ledger.runs[q].status == Running
    ensures states[i].ledger.runs[p].conversation != states[i].ledger.runs[q].conversation
  {
    RunsKeepInv(states, steps, i);
  }

  /** A restart at any moment of any history, strangers included: it fails exactly when a
      worker is in trouble, and otherwise leaves runs and workers in agreement exactly when no
      worker was running for a run still queued. */
  lemma RestartExactly(states: seq<State>, steps: seq<Step>, i: nat)
    requires IsRun(states, steps) && i < |steps| && steps[i].Restart?
    ensures var l, r := states[i].ledger, Reconciled(states[i].ledger, steps[i].listing, steps[i].order);
            && (r.raised <==> exists w :: Troubled(l, w))
            && (!r.raised ==> OnlyEnds(l, r.ledger) && (Restored(r.ledger) <==> forall w :: !Idle(l, w)))
  {
    RunsKeepInv(states, steps, i);
    RestartRaisesIff(states[i].ledger, steps[i].listing, steps[i].order);
    if !Reconciled(states[i].ledger, steps[i].listing, steps[i].order).raised {
      RestartRestoresIff(states[i].ledger, steps[i].listing, steps[i].order);
    }
  }

  // ---------------------------------------------------------------- no borrowed labels

  /** No container of unknown origin carries the label of a run there is. */
  predicate Truthful(s: State, a: Step) {
    a.StrangerAppears? ==> a.runLabel.None? || a.runLabel.value !in s.ledger.runs
  }

  ghost predicate TruthfulRun(states: seq<State>, steps: seq<Step>) {
    IsRun(states, steps) && forall i {:trigger steps[i]} :: 0 <= i < |steps| ==> Truthful(states[i], steps[i])
  }

  /** Labels and rows with a run there is belong to the worker the run was given. */
  ghost predicate Owned(l: Ledger, started: map<string, string>) {
    && (forall w :: w in l.workers && l.workers[w].run.Some? && l.workers[w].run.value in l.runs ==>
          l.workers[w].run.value in started && started[l.workers[w].run.value] == w)
    && (forall w :: w in l.records && l.records[w].run.Some? ==>
          l.records[w].run.value in started && started[l.records[w].run.value] == w)
  }

  lemma RowsOwned(l: Ledger, started: map<string, string>, x: Ledger)
    requires Owned(l, started) && WorkersLeft(l, x) && x.runs.Keys == l.runs.Keys
    requires forall w :: w in x.records && x.records[w].run.Some? ==>
               (w in l.records && l.records[w].run == x.records[w].run)
               || (w in l.workers && l.workers[w].run == x.records[w].run && l.workers[w].run.value in l.runs)
    ensures Owned(x, started)
  {
  }

  /** Rows written by a restart name what they named before, or their worker's label. */
  lemma RestartRows(l: Ledger, listing: seq<Listed>, order: seq<string>, started: map<string, string>)
    requires Filed(l) && ListingOf(l, listing) && AllRuns(l, order) && !Reconciled(l, listing, order).raised
             && Owned(l, started)
    ensures Owned(Reconciled(l, listing, order).ledger, started)
  {
    ScanWorks(l, listing, |listing|);
    assert listing[..|listing|] == listing;
    var x := Scan(l, l.runs, listing).ledger;
    InterruptWorks(x, listing, order);
    forall w | w in x.records && x.records[w].run.Some? && w !in l.records
      ensures w in l.workers && l.workers[w].run == x.records[w].run && l.workers[w].run.value in l.runs
    {
      PastOf(l, listing, x, w);
    }
    RowsOwned(l, started, x);
    RowsOwned(x, started, InterruptAll(x, listing, order));
  }

  lemma OwnedIsClear(l: Ledger, started: map<string, string>)
    requires Filed(l) && StartedOnce(l, started) && Owned(l, started)
    ensures forall w :: !Troubled(l, w) && !Idle(l, w)
  {
  }

  lemma OwnedStep(s: State, a: Step)
    requires Inv(s) && Enabled(s, a) && Truthful(s, a) && Owned(s.ledger, s.started) && !a.Restart?
    ensures Owned(Next(s, a).ledger, Next(s, a).started)
  {
    match a {
      case StartWorker(r, w) => OwnedStart(s.ledger, s.started, r, w);
      case AttachStarted(r) => OwnedAttach(s, r);
      case _ => OwnedRest(s, a);
    }
  }

  lemma OwnedRest(s: State, a: Step)
    requires Enabled(s, a) && Truthful(s, a) && Owned(s.ledger, s.started)
    requires !a.Restart? && !a.StartWorker? && !a.AttachStarted?
    ensures Owned(Next(s, a).ledger, Next(s, a).started)
  {
  }

  lemma OwnedStart(l: Ledger, started: map<string, string>, r: string, w: string)
    requires Owned(l, started) && r in l.runs && r !in started
    ensures Owned(l.(workers := l.workers[w := Worker(Some(r), Some(l.runs[r].workspace), true)]), started[r := w])
  {
  }

  lemma OwnedAttach(s: State, r: string)
    requires Inv(s) && Enabled(s, AttachStarted(r)) && Owned(s.ledger, s.started)
    ensures Owned(AttachOrStop(s.ledger, r, s.dispatching[r].value), s.started)
  {
    AttachOrStopShape(s.ledger, r, s.dispatching[r].value);
    OwnedAttached(s.ledger, AttachOrStop(s.ledger, r, s.dispatching[r].value), r, s.dispatching[r].value, s.started);
  }

  lemma AttachOrStopShape(l: Ledger, r: string, w: string)
    requires r in l.runs
    ensures var x := AttachOrStop(l, r, w);
            && x.runs.Keys == l.runs.Keys && x.workers.Keys == l.workers.Keys
            && (forall v :: v in l.workers ==> x.workers[v].run == l.workers[v].run)
            && (forall v :: v in x.records && x.records[v].run.Some? ==>
                  (v in l.records && x.records[v].run == l.records[v].run) || (v == w && x.records[v].run == Some(r)))
  {
  }

  lemma OwnedAttached(l: Ledger, x: Ledger, r: string, w: string, started: map<string, string>)
    requires Owned(l, started) && r in started && started[r] == w && x.runs.Keys == l.runs.Keys
    requires x.workers.Keys == l.workers.Keys && forall v :: v in l.workers ==> x.workers[v].run == l.workers[v].run
    requires forall v :: v in x.records && x.records[v].run.Some? ==>
               (v in l.records && x.records[v].run == l.records[v].run) || (v == w && x.records[v].run == Some(r))
    ensures Owned(x, started)
  {
  }

  lemma {:induction false} TruthfulOwned(states: seq<State>, steps: seq<Step>, i: nat)
    requires TruthfulRun(states, steps) && i < |states|
    ensures Inv(states[i]) && Owned(states[i].ledger, states[i].started)
  {
    RunsKeepInv(states, steps, i);
    if i > 0 {
      TruthfulOwned(states, steps, i - 1);
      var s, a := states[i - 1], steps[i - 1];
      if a.Restart? {
        OwnedIsClear(s.ledger, s.started);
        RestartRaisesIff(s.ledger, a.listing, a.order);
        RestartRows(s.ledger, a.listing, a.order, s.started);
      } else {
        OwnedStep(s, a);
      }
    }
  }

  /** Without borrowed labels, whatever happened before and wherever the process died, a
      restart goes through and leaves runs and workers in agreement. */
  lemma RestartRestores(states: seq<State>, steps: seq<Step>, i: nat)
    requires TruthfulRun(states, steps) && i < |steps| && steps[i].Restart?
    ensures !Reconciled(states[i].ledger, steps[i].listing, steps[i].order).raised
    ensures Restored(states[i + 1].ledger) && OnlyEnds(states[i].ledger, states[i + 1].ledger)
  {
    TruthfulOwned(states, steps, i);
    OwnedIsClear(states[i].ledger, states[i].started);
    RestartExactly(states, steps, i);
  }

  // ---------------------------------------------------------------- how a run comes to be ORPHANED

  /** Its worker was not yet attached, and a container with its label is in another workspace. */
  const Strayed := Ledger(map["r" := Run("c", "p", Running, None, Log(false, Unfinished))],
                          map["w" := Worker(Some("r"), Some("q"), true)], map[], {"p", "q"}, {})

  lemma StrayedArises() returns (states: seq<State>, steps: seq<Step>)
    ensures IsRun(states, steps) && states[|steps|].ledger == Strayed && states[|steps|].dispatching == map[]
  {
    var l0 := Ledger(map[], map[], map[], {"p", "q"}, {});
    var l1 := l0.(runs := map["r" := Run("c", "p", Queued, None, Log(false, Unfinished))]);
    var l2 := Strayed.(workers := map[]);
    states := [State(l0, map[], map[]), State(l1, map[], map[]), State(l2, map[], map["r" := None]),
               State(Strayed, map[], map["r" := None]), State(Strayed, map[], map[])];
    steps := [Submit("r", "c", "p"), Claim("r"), StrangerAppears("w", Some("r"), Some("q")), Crash];
  }

  /** Then the restart goes through and leaves the run ORPHANED. */
  lemma StrayedRunIsOrphaned(listing: seq<Listed>, order: seq<string>)
    requires listing == [Listed("w", Strayed.workers["w"])] && order == ["r"]
    ensures ListingOf(Strayed, listing) && !Reconciled(Strayed, listing, order).raised
    ensures var x := Reconciled(Strayed, listing, order).ledger; "r" in x.runs && x.runs["r"].status == Orphaned
  {
    assert listing[0] in listing;
    assert listing[..0] == [] && order[..0] == [];
    assert Scan(Strayed, Strayed.runs, listing) == ScanOne(Strayed, Strayed.runs, "w", Strayed.workers["w"]);
    var x := Scan(Strayed, Strayed.runs, listing).ledger;
    assert InterruptAll(x, listing, order) == InterruptOne(x, listing, "r");
  }

  // ---------------------------------------------------------------- a worker too early

  /** A container carries the labels of a run that has not been claimed. */
  const Early := Ledger(map["r" := Run("c", "p", Queued, None, Log(false, Unfinished))],
                        map["w" := Worker(Some("r"), Some("p"), true)], map[], {"p"}, {})

  lemma EarlyArises() returns (states: seq<State>, steps: seq<Step>)
    ensures IsRun(states, steps) && states[|steps|] == State(Early, map[], map[])
  {
    var l0 := Ledger(map[], map[], map[], {"p"}, {});
    states := [State(l0, map[], map[]), State(Early.(workers := map[]), map[], map[]), State(Early, map[], map[])];
    steps := [Submit("r", "c", "p"), StrangerAppears("w", Some("r"), Some("p"))];
  }

  /** A restart goes through and leaves it running. */
  lemma EarlyWorkerSurvives(listing: seq<Listed>, order: seq<string>)
    requires ListingOf(Early, listing) && AllRuns(Early, order)
    ensures !Reconciled(Early, listing, order).raised && !Restored(Reconciled(Early, listing, order).ledger)
  {
    var states, steps := EarlyArises();
    RunsKeepInv(states, steps, |steps|);
    RestartRaisesIff(Early, listing, order);
    RestartRestoresIff(Early, listing, order);
    assert Idle(Early, "w");
  }

  // ---------------------------------------------------------------- a borrowed label

  const RunRow := Run("c", "p", Running, Some("v"), Log(false, Unfinished))
  const OwnWorker := Worker(Some("r"), Some("p"), true)
  const Before := Ledger(map["r" := RunRow.(worker := None)], map["v" := OwnWorker], map[], {"p"}, {})
  const Attached := Ledger(map["r" := RunRow], map["v" := OwnWorker], map["v" := Record(Some("r"), WorkerRunning)],
    {"p"}, {"r"})
  const Borrowed := Attached.(workers := map["v" := OwnWorker, "w" := OwnWorker], watched := {})

  lemma ItsWorkerStarts() returns (states: seq<State>, steps: seq<Step>)
    ensures IsRun(states, steps) && |steps| == 3
    ensures states[3] == State(Before, map["r" := "v"], map["r" := Some("v")])
  {
    var l0 := Ledger(map[], map[], map[], {"p"}, {});
    var l1 := l0.(runs := map["r" := RunRow.(status := Queued, worker := None)]);
    var l2 := l0.(runs := map["r" := RunRow.(worker := None)]);
    states := [State(l0, map[], map[]), State(l1, map[], map[]), State(l2, map[], map["r" := None]),
               State(Before, map["r" := "v"], map["r" := Some("v")])];
    steps := [Submit("r", "c", "p"), Claim("r"), StartWorker("r", "v")];
  }

  lemma ItIsAttached()
    ensures AttachOrStop(Before, "r", "v") == Attached
  {
    assert !Taken(Before, "v", Some("r"));
  }

  /** A run is under way in its worker v when a container w with the run's labels appears, and
      the process dies. */
  lemma LabelBorrowed() returns (states: seq<State>, steps: seq<Step>)
    ensures IsRun(states, steps) && states[|steps|].ledger == Borrowed
  {
    var states0, steps0 := ItsWorkerStarts();
    ItIsAttached();
    var started := map["r" := "v"];
    var s4 := State(Attached, started, map[]);
    var s5 := State(Borrowed.(watched := {"r"}), started, map[]);
    states := states0 + [s4, s5, State(Borrowed, started, map[])];
    steps := steps0 + [AttachStarted("r"), StrangerAppears("w", Some("r"), Some("p")), Crash];
    assert steps[3] == AttachStarted("r") && states[3] == states0[3];
    assert Next(states[3], steps[3]) == s4;
    assert Next(s4, steps[4]) == s5;
    forall i | 0 <= i < |steps|
      ensures Enabled(states[i], steps[i]) && states[i + 1] == Next(states[i], steps[i])
    {
      assert i < 3 ==> steps[i] == steps0[i] && states[i] == states0[i] && states[i + 1] == states0[i + 1];
    }
  }

  /** From then on every restart fails. */
  lemma BorrowedLabelBlocksRestart(listing: seq<Listed>, order: seq<string>, relisting: seq<Listed>,
    reorder: seq<string>)
      returns (states: seq<State>, steps: seq<Step>)
    requires ListingOf(Borrowed, listing) && ListingOf(Reconciled(Borrowed, listing, order).ledger, relisting)
    ensures IsRun(states, steps) && states[|steps|].ledger == Borrowed
    ensures Reconciled(Borrowed, listing, order).raised
    ensures Reconciled(Reconciled(Borrowed, listing, order).ledger, relisting, reorder).raised
  {
    states, steps := LabelBorrowed();
    RunsKeepInv(states, steps, |steps|);
    assert Borrowed.records["v"].run == Some("r") && Troubled(Borrowed, "w");
    RestartRaisesIff(Borrowed, listing, order);
    FailedRestartRepeats(Borrowed, listing, order, relisting, reorder);
  }

  // ---------------------------------------------------------------- the end of a start

  /** When a worker has started: a run that still runs has it on record, running and watched, unless
      its row is taken, which fails the run; of a run that ended meanwhile the worker is stopped
      and on record as terminated. */
  lemma StartOutcome(s: State, r: string)
    requires Inv(s) && Enabled(s, AttachStarted(r))
    ensures var s' := Next(s, AttachStarted(r)); var w := s.dispatching[r].value;
            var l, x := s.ledger, s'.ledger;
            && r !in s'.dispatching && x.runs.Keys == l.runs.Keys
            && (forall q :: q in l.runs && q != r ==> x.runs[q] == l.runs[q])
            && if l.runs[r].status == Running then
                 if Taken(l, w, Some(r)) then x.runs[r] == l.runs[r].(status := Failed)
                 else
                   && x.runs[r] == l.runs[r].(worker := Some(w)) && r in x.watched
                   && w in x.records && x.records[w] == Record(Some(r), WorkerRunning)
               else
                 && x.runs[r] == l.runs[r] && (w in l.workers ==> w in x.workers && !x.workers[w].running)
                 && (!Taken(l, w, Some(r)) ==> w in x.records && x.records[w] == Record(Some(r), WorkerTerminated))
  {
    assert s.ledger.runs[r].workspace in s.ledger.workspaces;
  }
}
