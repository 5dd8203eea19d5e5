/**
 Polling, replays, crashes and everything else that touches the same rows, in any order: what
 the inbox guarantees about each update, and what routing keeps.
 */
module IntakeRuns {
  import opened Wrappers
  import opened Text
  import opened Intake

  // log: the provider's updates in the order of their ids; batch: what the poller still holds.
  datatype State = State(store: Store, log: seq<Update>, batch: seq<Update>)

  datatype Step =
    | Arrive(update: Update)
    | Fetch(count: nat)
    | TakeHead(fails: bool)
    | Redeliver(update: Update)
    | Crash
    | RunMoves(run: nat, status: RunStatus)
    | SubmitElsewhere(conversation: nat, prompt: string)
    | SetAlias(name: string, workspace: string)
    | Archive(conversation: nat)
    | Restore(conversation: nat)
    | CreateElsewhere(workspace: string, title: string)
    | EnsureMain(workspace: string)

  function Pending(log: seq<Update>, cursor: int): seq<Update> {
    if log == [] then []
    else if log[0].id > cursor then log else Pending(log[1..], cursor)
  }

  function FirstOf<T>(s: seq<T>, n: nat): seq<T> {
    if n < |s| then s[..n] else s
  }

  predicate Enabled(s: State, a: Step) {
    match a
    case Arrive(u) => u.id >= 0 && (s.log == [] || s.log[|s.log| - 1].id < u.id)
      && (u.message.Some? ==> u.message.value.id == u.id)
    case Fetch(_) => s.batch == []
    case TakeHead(_) => s.batch != []
    case Redeliver(u) => u in s.log && u.id <= s.store.cursor
    case RunMoves(r, _) => r < |s.store.runs|
    case SubmitElsewhere(c, _) => c < |s.store.conversations|
    case Archive(c) => c < |s.store.conversations| && !s.store.conversations[c].main
    case Restore(c) => c < |s.store.conversations|
    case _ => true
  }

  function Flag(s: Store, c: nat, archived: bool): Store
    requires c < |s.conversations|
  {
    s.(conversations := s.conversations[c := s.conversations[c].(archived := archived)])
  }

  function Next(e: Setting, s: State, a: Step): State
    requires Enabled(s, a)
  {
    var store := s.store;
    match a
    case Arrive(u) => s.(log := s.log + [u])
    case Fetch(n) => s.(batch := FirstOf(Pending(s.log, store.cursor), n))
    case TakeHead(fails) =>
      var (x, ok) := Take(e, store, s.batch[0]);
      s.(store := x, batch := if ok && !fails then s.batch[1..] else [])
    case Redeliver(u) => s.(store := Take(e, store, u).0)
    case Crash => s.(batch := [])
    case RunMoves(r, status) => s.(store := store.(runs := store.runs[r := store.runs[r].(status := status)]))
    case SubmitElsewhere(c, prompt) => s.(store := store.(runs := store.runs + [Run(c, None, prompt, Queued)]))
    case SetAlias(name, workspace) => s.(store := store.(aliases := store.aliases[name := workspace]))
    case Archive(c) => s.(store := Flag(store, c, true))
    case Restore(c) => s.(store := Flag(store, c, false))
    case CreateElsewhere(workspace, title) =>
      s.(store := WithConversation(store, Conversation(workspace, false, false, title)))
    case EnsureMain(workspace) =>
      if MainFrom(store.conversations, workspace, 0).Some? then s
      else s.(store := WithConversation(store, Conversation(workspace, true, false, "Main")))
  }

  // ---------------------------------------------------------------- routing

  ghost predicate BindingsOk(s: Store) {
    forall a :: a in s.bindings ==>
      s.bindings[a].conversation < |s.conversations|
        && s.conversations[s.bindings[a].conversation].workspace == s.bindings[a].workspace
  }

  predicate OpenMain(c: Conversation) {
    c.main && !c.archived
  }

  ghost predicate MainsOk(cs: seq<Conversation>) {
    && (forall i :: 0 <= i < |cs| ==> (cs[i].main ==> !cs[i].archived))
    && (forall i, j :: 0 <= i < j < |cs| && cs[i].main && cs[j].main ==> cs[i].workspace != cs[j].workspace)
  }

  ghost predicate RunsPlaced(s: Store) {
    forall r :: 0 <= r < |s.runs| ==> s.runs[r].conversation < |s.conversations|
  }

  ghost predicate Routed(s: Store) {
    BindingsOk(s) && MainsOk(s.conversations) && RunsPlaced(s)
  }

  /** What a command may touch: its sender's selection, and conversations added at the end. */
  ghost predicate OwnSelection(s: Store, x: Store, a: Address) {
    && x == s.(bindings := x.bindings, conversations := x.conversations, cancellations := x.cancellations)
    && s.conversations <= x.conversations
    && (forall b :: b != a ==>
         (b in x.bindings <==> b in s.bindings) && (b in s.bindings ==> x.bindings[b] == s.bindings[b]))
    && (a in s.bindings ==> a in x.bindings)
  }

  lemma SelectMainRoutes(s: Store, a: Address, workspace: string)
    requires Routed(s)
    ensures Routed(SelectMain(s, a, workspace)) && OwnSelection(s, SelectMain(s, a, workspace), a)
    ensures var x := SelectMain(s, a, workspace);
            a in x.bindings && x.bindings[a].workspace == workspace
              && OpenMain(x.conversations[x.bindings[a].conversation])
  {
    var main := MainFrom(s.conversations, workspace, 0);
    if main.Some? {
      BindRoutes(s, a, Binding(workspace, main.value));
    } else {
      var c := Conversation(workspace, true, false, "Main");
      AddMainKeeps(s.conversations, c);
      BindRoutes(WithConversation(s, c), a, Binding(workspace, |s.conversations|));
    }
  }

  lemma BindRoutes(s: Store, a: Address, b: Binding)
    requires Routed(s) && b.conversation < |s.conversations|
             && s.conversations[b.conversation].workspace == b.workspace
    ensures Routed(Bind(s, a, b)) && OwnSelection(s, Bind(s, a, b), a)
  {
  }

  lemma AddMainKeeps(cs: seq<Conversation>, c: Conversation)
    requires MainsOk(cs) && c.main && !c.archived && MainFrom(cs, c.workspace, 0).None?
    ensures MainsOk(cs + [c])
  {
  }

  lemma SwitchChatRoutes(e: Setting, s: Store, a: Address, b: Binding, argument: string)
    requires Routed(s) && a in s.bindings && s.bindings[a] == b
    ensures Routed(SwitchChat(e, s, a, b, argument)) && OwnSelection(s, SwitchChat(e, s, a, b, argument), a)
  {
  }

  lemma NewConversationRoutes(s: Store, a: Address, b: Binding, title: string)
    requires Routed(s) && a in s.bindings && s.bindings[a] == b
    ensures Routed(NewConversation(s, a, b, title)) && OwnSelection(s, NewConversation(s, a, b, title), a)
  {
  }

  lemma CommandRoutes(e: Setting, s: Store, a: Address, command: string, argument: string)
    requires Routed(s)
    ensures var d := Command(e, s, a, command, argument);
            && Routed(d.store) && OwnSelection(s, d.store, a) && d.kind != RunStarted
  {
    var b := BindingOf(s, a);
    if command == "/workspace" && argument != "" {
      if SwitchWorkspace(e, s, a, argument).Some? {
        SelectMainRoutes(s, a, s.aliases[Alias(e, argument).value]);
      }
    } else if command == "/main" && b.Some? {
      SelectMainRoutes(s, a, b.value.workspace);
    } else if command == "/chat" && b.Some? {
      SwitchChatRoutes(e, s, a, b.value, argument);
    } else if command == "/new" && b.Some? {
      NewConversationRoutes(s, a, b.value, Title(e, argument));
    }
  }

  lemma PrepareRoutes(e: Setting, s: Store, m: Message, text: string)
    requires Routed(s)
    ensures Routed(Prepare(e, s, m, text)) && OwnSelection(s, Prepare(e, s, m, text), m.address)
  {
    if Prepare(e, s, m, text) != s {
      SelectMainRoutes(s, m.address, s.aliases[Alias(e, e.defaultAlias.value).value]);
    }
  }

  /** What a new message brings about: only its sender's selection may change, and it starts
      one run in the selected conversation or none. */
  ghost predicate Handled(s: Store, d: Draft, m: Message, text: string) {
    && Routed(d.store) && OwnSelection(s, d.store.(runs := s.runs), m.address)
    && (if d.kind == RunStarted
        then && d.run == Some(|s.runs|) && m.address in d.store.bindings
             && d.conversation == Some(d.store.bindings[m.address].conversation)
             && d.store.runs == s.runs + [Run(d.conversation.value, Some(m.id), text, Queued)]
        else d.store.runs == s.runs)
  }

  lemma HandleRoutes(e: Setting, s: Store, m: Message, text: string)
    requires Routed(s)
    ensures Handled(s, Handle(e, Prepare(e, s, m, text), m, text), m, text)
  {
    PrepareRoutes(e, s, m, text);
    var p := Prepare(e, s, m, text);
    var (command, argument) := Parse(e, text);
    if command.Some? {
      CommandRoutes(e, p, m.address, command.value, argument);
      SelectionsJoin(s, p, Command(e, p, m.address, command.value, argument).store, m.address);
    }
  }

  lemma SelectionsJoin(s: Store, x: Store, y: Store, a: Address)
    requires OwnSelection(s, x, a) && OwnSelection(x, y, a)
    ensures OwnSelection(s, y, a)
  {
  }

  // ---------------------------------------------------------------- one row, one run, one answer

  ghost predicate RowsBacked(s: Store) {
    forall id :: id in s.inbox ==> RowBacked(s, id)
  }

  ghost predicate RowBacked(s: Store, id: int)
    requires id in s.inbox
  {
    var row := s.inbox[id];
    && row.outbox < |s.outbox|
      && s.outbox[row.outbox] == Outgoing(id, if row.kind == RunStarted then row.run else None)
    && (row.kind == RunStarted ==>
          && row.run.Some? && row.run.value < |s.runs| && row.conversation.Some?
          && s.runs[row.run.value].update == Some(id) && s.runs[row.run.value].prompt == row.text
          && s.runs[row.run.value].conversation == row.conversation.value)
  }

  ghost predicate OutgoingOwned(s: Store) {
    forall o :: 0 <= o < |s.outbox| ==> s.outbox[o].update in s.inbox && s.inbox[s.outbox[o].update].outbox == o
  }

  ghost predicate RunsOwned(s: Store) {
    forall r :: 0 <= r < |s.runs| && s.runs[r].update.Some? ==>
      && s.runs[r].update.value in s.inbox
      && s.inbox[s.runs[r].update.value].kind == RunStarted && s.inbox[s.runs[r].update.value].run == Some(r)
  }

  ghost predicate Recorded(s: Store) {
    RowsBacked(s) && OutgoingOwned(s) && RunsOwned(s)
  }

  lemma EnterRecords(s: Store, d: Draft, m: Message, text: string, command: Option<string>)
    requires Recorded(s) && Routed(s) && m.id !in s.inbox && Handled(s, d, m, text)
    ensures Recorded(Enter(d, m, text, command).0) && Routed(Enter(d, m, text, command).0)
  {
    var x := Enter(d, m, text, command).0;
    forall id | id in x.inbox
      ensures RowBacked(x, id)
    {
      if id in s.inbox {
        assert RowBacked(s, id);
      }
    }
  }

  /** Rows already there, and everyone else's selection, are never changed by a message. */
  ghost predicate Kept(s: Store, x: Store) {
    && s.cursor <= x.cursor
    && (forall id :: id in s.inbox ==> id in x.inbox && x.inbox[id] == s.inbox[id])
  }

  lemma IngestWorks(e: Setting, s: Store, m: Message)
    requires Recorded(s) && Routed(s)
    ensures var (x, outcome) := Ingest(e, s, m);
            && Recorded(x) && Routed(x) && Kept(s, x)
            && (outcome.None? <==> Strip(m.text) == "") && (outcome.None? ==> x == s)
            && (outcome.Some? ==>
                 m.id in x.inbox && x.inbox[m.id] == outcome.value.row && x.cursor == Advance(s, m.id).cursor)
            && (forall id :: id in x.inbox && id !in s.inbox ==> id == m.id)
  {
    var text := Strip(m.text);
    if text != "" && m.id !in s.inbox {
      HandleRoutes(e, s, m, text);
      EnterRecords(s, Handle(e, Prepare(e, s, m, text), m, text), m, text, Parse(e, text).0);
    }
  }

  /** Ingesting an update again returns what was recorded for it and creates nothing. */
  lemma ReingestReturnsRecord(e: Setting, s: Store, m: Message)
    requires m.id in s.inbox && Strip(m.text) != ""
    ensures Ingest(e, s, m) == (Advance(s, m.id), Some(Outcome(true, s.inbox[m.id])))
    ensures Ingest(e, s, m).0.(cursor := s.cursor) == s
  {
  }

  /** A message changes at most its own sender's selection and starts at most one run, in the
      conversation then selected, with its text as prompt. */
  lemma MessageIsContained(e: Setting, s: Store, m: Message)
    requires Recorded(s) && Routed(s)
    ensures var x := Ingest(e, s, m).0;
            && (forall b :: b != m.address && b in s.bindings ==> b in x.bindings && x.bindings[b] == s.bindings[b])
            && (forall b :: b != m.address && b in x.bindings ==> b in s.bindings)
            && s.conversations <= x.conversations && s.runs <= x.runs && |x.runs| <= |s.runs| + 1
            && (|x.runs| > |s.runs| ==>
                  && m.address in x.bindings
                  && x.runs[|s.runs|] == Run(x.bindings[m.address].conversation, Some(m.id), Strip(m.text), Queued))
  {
    var text := Strip(m.text);
    if text != "" && m.id !in s.inbox {
      HandleRoutes(e, s, m, text);
    }
  }

  lemma TakeWorks(e: Setting, s: Store, u: Update)
    requires Recorded(s) && Routed(s) && (u.message.Some? ==> u.message.value.id == u.id)
    ensures var (x, ok) := Take(e, s, u);
            && Recorded(x) && Routed(x) && Kept(s, x)
            && (ok <==> !Blank(e, u)) && (!ok ==> x == s)
            && (ok ==> Accounted(e, x, u) && x.cursor == if u.id > s.cursor then u.id else s.cursor)
            && (forall id :: id in x.inbox && id !in s.inbox ==> id == u.id)
  {
    if u.message.Some? && u.message.value.address.sender == e.owner {
      IngestWorks(e, s, u.message.value);
    }
  }

  /** The owner's message with no text, which is refused. */
  predicate Blank(e: Setting, u: Update) {
    u.message.Some? && u.message.value.address.sender == e.owner && Strip(u.message.value.text) == ""
  }

  /** Nothing more is to be done about an update. */
  predicate Accounted(e: Setting, s: Store, u: Update) {
    u.message.None? || u.message.value.address.sender != e.owner || u.id in s.inbox
  }

  lemma TakeOkIff(e: Setting, s: Store, u: Update)
    ensures Take(e, s, u).1 <==> !Blank(e, u)
  {
  }

  /** A batch is taken in whole exactly when it holds no blank message of the owner. */
  lemma {:induction false} BatchOkIff(e: Setting, s: Store, us: seq<Update>)
    ensures TakeAll(e, s, us).1 <==> forall u <- us :: !Blank(e, u)
  {
    if us != [] {
      var init, last := us[..|us| - 1], us[|us| - 1];
      BatchOkIff(e, s, init);
      TakeOkIff(e, TakeAll(e, s, init).0, last);
      assert us == init + [last];
      assert forall u <- init :: u in us;
    }
  }

  // ---------------------------------------------------------------- nothing is lost

  ghost predicate LogOk(log: seq<Update>) {
    && (forall i, j :: 0 <= i < j < |log| ==> log[i].id < log[j].id)
    && (forall i :: 0 <= i < |log| ==> (log[i].message.Some? ==> log[i].message.value.id == log[i].id))
  }

  ghost predicate NothingLost(e: Setting, s: Store, log: seq<Update>) {
    forall i :: 0 <= i < |log| && log[i].id <= s.cursor ==> Accounted(e, s, log[i])
  }

  /** The poller holds a stretch of the log that starts right after the cursor. */
  ghost predicate Stretch(log: seq<Update>, cursor: int, batch: seq<Update>, from: int) {
    && 0 <= from && from + |batch| <= |log| && batch == log[from..from + |batch|]
    && (forall i :: 0 <= i < from ==> log[i].id <= cursor)
    && (forall i :: from <= i < |log| ==> log[i].id > cursor)
  }

  ghost predicate BatchOk(s: State) {
    s.batch != [] ==> exists from :: Stretch(s.log, s.store.cursor, s.batch, from)
  }

  ghost predicate Inv(e: Setting, s: State) {
    && Recorded(s.store) && Routed(s.store)
    && LogOk(s.log) && NothingLost(e, s.store, s.log) && BatchOk(s) && s.store.cursor <= LastId(s.log)
  }

  function LastId(log: seq<Update>): int {
    if log == [] then NoCursor else log[|log| - 1].id
  }

  lemma {:induction false} PendingIsStretch(log: seq<Update>, cursor: int) returns (from: int)
    requires forall i, j :: 0 <= i < j < |log| ==> log[i].id < log[j].id
    ensures 0 <= from <= |log| && Pending(log, cursor) == log[from..]
    ensures Stretch(log, cursor, Pending(log, cursor), from)
  {
    if log == [] || log[0].id > cursor {
      from := 0;
    } else {
      var rest := PendingIsStretch(log[1..], cursor);
      from := rest + 1;
      assert log[1..][rest..] == log[from..];
      forall i | 0 <= i < from
        ensures log[i].id <= cursor
      {
        assert i > 0 ==> log[1..][i - 1] == log[i];
      }
      forall i | from <= i < |log|
        ensures log[i].id > cursor
      {
        assert log[1..][i - 1] == log[i];
      }
    }
  }

  lemma TakeHeadKeeps(e: Setting, s: State, fails: bool)
    requires Inv(e, s) && s.batch != []
    ensures Inv(e, Next(e, s, TakeHead(fails))) && Kept(s.store, Next(e, s, TakeHead(fails)).store)
  {
    var from :| Stretch(s.log, s.store.cursor, s.batch, from);
    var u := s.batch[0];
    assert u == s.log[from];
    TakeWorks(e, s.store, u);
    if Take(e, s.store, u).1 {
      HeadTaken(e, s.store, Take(e, s.store, u).0, s.log, from);
      StretchMoves(s.log, s.store.cursor, s.batch, from);
    }
  }

  lemma HeadTaken(e: Setting, s: Store, x: Store, log: seq<Update>, from: int)
    requires LogOk(log) && NothingLost(e, s, log) && Kept(s, x) && 0 <= from < |log|
    requires forall i :: 0 <= i < from ==> log[i].id <= s.cursor
    requires x.cursor == log[from].id && Accounted(e, x, log[from])
    ensures NothingLost(e, x, log) && x.cursor <= LastId(log)
  {
    forall i | 0 <= i < |log| && log[i].id <= x.cursor
      ensures Accounted(e, x, log[i])
    {
      assert i < from ==> Accounted(e, s, log[i]);
    }
  }

  lemma StretchMoves(log: seq<Update>, cursor: int, batch: seq<Update>, from: int)
    requires LogOk(log) && batch != [] && Stretch(log, cursor, batch, from)
    ensures Stretch(log, log[from].id, batch[1..], from + 1)
  {
  }

  lemma RedeliverKeeps(e: Setting, s: State, u: Update)
    requires Inv(e, s) && Enabled(s, Redeliver(u))
    ensures Inv(e, Next(e, s, Redeliver(u))) && Kept(s.store, Next(e, s, Redeliver(u)).store)
  {
    TakeWorks(e, s.store, u);
    var x := Take(e, s.store, u).0;
    assert forall i :: 0 <= i < |s.log| && s.log[i].id <= x.cursor ==> Accounted(e, s.store, s.log[i]);
  }

  lemma FetchKeeps(e: Setting, s: State, n: nat)
    requires Inv(e, s) && s.batch == []
    ensures Inv(e, Next(e, s, Fetch(n)))
  {
    var from := PendingIsStretch(s.log, s.store.cursor);
    FirstOfStretch(s.log, s.store.cursor, Pending(s.log, s.store.cursor), from, n);
  }

  lemma FirstOfStretch(log: seq<Update>, cursor: int, batch: seq<Update>, from: int, n: nat)
    requires Stretch(log, cursor, batch, from)
    ensures Stretch(log, cursor, FirstOf(batch, n), from)
  {
  }

  lemma ArriveKeeps(e: Setting, s: State, u: Update)
    requires Inv(e, s) && Enabled(s, Arrive(u))
    ensures Inv(e, Next(e, s, Arrive(u)))
  {
    ArriveKeepsLog(s.log, u);
    if s.batch != [] {
      var from :| Stretch(s.log, s.store.cursor, s.batch, from);
      ArriveKeepsStretch(s.log, s.store.cursor, s.batch, from, u);
    }
  }

  lemma ArriveKeepsLog(log: seq<Update>, u: Update)
    requires LogOk(log) && LastId(log) < u.id && (u.message.Some? ==> u.message.value.id == u.id)
    ensures LogOk(log + [u]) && LastId(log + [u]) == u.id
  {
  }

  lemma ArriveKeepsStretch(log: seq<Update>, cursor: int, batch: seq<Update>, from: int, u: Update)
    requires Stretch(log, cursor, batch, from) && cursor < u.id
    ensures Stretch(log + [u], cursor, batch, from)
  {
  }

  lemma OtherStepKeeps(e: Setting, s: State, a: Step)
    requires Inv(e, s) && Enabled(s, a)
    requires a.Crash? || a.RunMoves? || a.SubmitElsewhere? || a.SetAlias? || a.Archive? || a.Restore?
             || a.CreateElsewhere? || a.EnsureMain?
    ensures Inv(e, Next(e, s, a)) && Kept(s.store, Next(e, s, a).store)
  {
    var x := Next(e, s, a).store;
    OtherStepRoutes(e, s, a);
    RecordsKept(s.store, x);
    assert forall i :: 0 <= i < |s.log| && s.log[i].id <= x.cursor ==> Accounted(e, s.store, s.log[i]);
  }

  /** Runs may change status and new ones from elsewhere may be added. */
  ghost predicate RunsExtend(s: Store, x: Store) {
    && x.inbox == s.inbox && x.outbox == s.outbox && x.cursor == s.cursor && |s.runs| <= |x.runs|
    && (forall r :: 0 <= r < |s.runs| ==> x.runs[r].(status := s.runs[r].status) == s.runs[r])
    && (forall r :: |s.runs| <= r < |x.runs| ==> x.runs[r].update.None?)
  }

  lemma RecordsKept(s: Store, x: Store)
    requires Recorded(s) && RunsExtend(s, x)
    ensures Recorded(x)
  {
    forall id | id in x.inbox
      ensures RowBacked(x, id)
    {
      assert RowBacked(s, id);
    }
  }

  lemma OtherStepRoutes(e: Setting, s: State, a: Step)
    requires Routed(s.store) && Enabled(s, a)
    requires a.Crash? || a.RunMoves? || a.SubmitElsewhere? || a.SetAlias? || a.Archive? || a.Restore?
             || a.CreateElsewhere? || a.EnsureMain?
    ensures Routed(Next(e, s, a).store) && RunsExtend(s.store, Next(e, s, a).store)
  {
  }

  lemma StepKeeps(e: Setting, s: State, a: Step)
    requires Inv(e, s) && Enabled(s, a)
    ensures Inv(e, Next(e, s, a)) && Kept(s.store, Next(e, s, a).store) && s.log <= Next(e, s, a).log
  {
    match a {
      case Arrive(u) => ArriveKeeps(e, s, u);
      case Fetch(n) => FetchKeeps(e, s, n);
      case TakeHead(fails) => TakeHeadKeeps(e, s, fails);
      case Redeliver(u) => RedeliverKeeps(e, s, u);
      case _ => OtherStepKeeps(e, s, a);
    }
  }

  // ---------------------------------------------------------------- whole histories

  ghost predicate IsRun(e: Setting, states: seq<State>, steps: seq<Step>) {
    && |states| == |steps| + 1
    && states[0] == State(Store(NoCursor, map[], map[], [], [], [], states[0].store.aliases, {}), [], [])
    && forall i :: StepAt(e, states, steps, i)
  }

  ghost predicate StepAt(e: Setting, states: seq<State>, steps: seq<Step>, i: int)
    requires |states| == |steps| + 1
  {
    0 <= i < |steps| ==> Enabled(states[i], steps[i]) && states[i + 1] == Next(e, states[i], steps[i])
  }

  lemma {:induction false} RunKeeps(e: Setting, states: seq<State>, steps: seq<Step>, i: nat)
    requires IsRun(e, states, steps) && i < |states|
    ensures Inv(e, states[i])
  {
    if i > 0 {
      RunKeeps(e, states, steps, i - 1);
      assert StepAt(e, states, steps, i - 1);
      StepKeeps(e, states[i - 1], steps[i - 1]);
    }
  }

  /** At every moment, every update up to the cursor is no message, not the owner's, or has its
      row in the inbox; and each row has the one answer and, if it started one, the one run
      made for it. */
  lemma ExactlyOnceIntake(e: Setting, states: seq<State>, steps: seq<Step>, i: nat)
    requires IsRun(e, states, steps) && i < |states|
    ensures var s := states[i].store;
            && (forall u <- states[i].log :: u.id <= s.cursor ==> Accounted(e, s, u))
            && (forall id :: id in s.inbox ==> RowBacked(s, id))
            && (forall o, p :: 0 <= o < p < |s.outbox| ==> s.outbox[o].update != s.outbox[p].update)
            && (forall q, r :: 0 <= q < r < |s.runs| && s.runs[q].update.Some? ==>
                 s.runs[q].update != s.runs[r].update)
            && (forall r :: 0 <= r < |s.runs| && s.runs[r].update.Some? ==> s.runs[r].update.value in s.inbox)
  {
    RunKeeps(e, states, steps, i);
  }

  lemma KeptJoin(s: Store, x: Store, y: Store)
    requires Kept(s, x) && Kept(x, y)
    ensures Kept(s, y)
  {
  }

  lemma KeptByStep(e: Setting, states: seq<State>, steps: seq<Step>, i: nat)
    requires IsRun(e, states, steps) && i < |steps|
    ensures Kept(states[i].store, states[i + 1].store)
  {
    RunKeeps(e, states, steps, i);
    assert StepAt(e, states, steps, i);
    StepKeeps(e, states[i], steps[i]);
  }

  lemma {:induction false} KeptOverRun(e: Setting, states: seq<State>, steps: seq<Step>, i: nat, j: nat)
    requires IsRun(e, states, steps) && i <= j < |states|
    ensures Kept(states[i].store, states[j].store)
  {
    if i < j {
      KeptOverRun(e, states, steps, i, j - 1);
      KeptByStep(e, states, steps, j - 1);
      KeptJoin(states[i].store, states[j - 1].store, states[j].store);
    }
  }

  /** The cursor never goes back, a recorded row never changes, and ingesting its update at any
      later time returns it and changes nothing else. */
  lemma RecordedOutcomeIsFinal(e: Setting, states: seq<State>, steps: seq<Step>, i: nat, j: nat, m: Message)
    requires IsRun(e, states, steps) && i <= j < |states| && m.id in states[i].store.inbox && Strip(m.text) != ""
    ensures states[i].store.cursor <= states[j].store.cursor
    ensures Ingest(e, states[j].store, m)
            == (Advance(states[j].store, m.id), Some(Outcome(true, states[i].store.inbox[m.id])))
  {
    KeptOverRun(e, states, steps, i, j);
    ReingestReturnsRecord(e, states[j].store, m);
  }

  /** Every selection leads to a conversation of its workspace, and a workspace never has two
      main conversations. */
  lemma RoutingHolds(e: Setting, states: seq<State>, steps: seq<Step>, i: nat)
    requires IsRun(e, states, steps) && i < |states|
    ensures var s := states[i].store;
            && (forall a :: a in s.bindings ==>
                  && s.bindings[a].conversation < |s.conversations|
                  && s.conversations[s.bindings[a].conversation].workspace == s.bindings[a].workspace)
            && (forall p, q ::
                 0 <= p < q < |s.conversations| && OpenMain(s.conversations[p]) && OpenMain(s.conversations[q]) ==>
                  s.conversations[p].workspace != s.conversations[q].workspace)
            && (forall r :: 0 <= r < |s.runs| ==> s.runs[r].conversation < |s.conversations|)
  {
    RunKeeps(e, states, steps, i);
  }

  // ---------------------------------------------------------------- a blank message

  /** The blank message is at place b of the log and the cursor has not reached it. */
  ghost predicate Stuck(e: Setting, s: State, b: nat) {
    b < |s.log| && Blank(e, s.log[b]) && s.store.cursor < s.log[b].id
  }

  lemma StuckStays(e: Setting, s: State, a: Step, b: nat)
    requires Inv(e, s) && Enabled(s, a) && Stuck(e, s, b)
    ensures Stuck(e, Next(e, s, a), b)
  {
    StepKeeps(e, s, a);
    if a.TakeHead? {
      var from :| Stretch(s.log, s.store.cursor, s.batch, from);
      assert s.batch[0] == s.log[from];
      TakeWorks(e, s.store, s.batch[0]);
      assert from <= b;
    } else if a.Redeliver? {
      TakeWorks(e, s.store, a.update);
    }
  }

  lemma {:induction false} StuckOverRun(e: Setting, states: seq<State>, steps: seq<Step>, i: nat, j: nat, b: nat)
    requires IsRun(e, states, steps) && i <= j < |states| && Stuck(e, states[i], b)
    ensures Stuck(e, states[j], b) && states[j].log[b] == states[i].log[b]
  {
    if i < j {
      StuckOverRun(e, states, steps, i, j - 1, b);
      RunKeeps(e, states, steps, j - 1);
      assert StepAt(e, states, steps, j - 1);
      StuckStays(e, states[j - 1], steps[j - 1], b);
    }
  }

  lemma {:induction false} RowsComeFromTaken(e: Setting, states: seq<State>, steps: seq<Step>, j: nat)
    requires IsRun(e, states, steps) && j < |states|
    ensures forall id :: id in states[j].store.inbox ==> id <= states[j].store.cursor
  {
    if j > 0 {
      RowsComeFromTaken(e, states, steps, j - 1);
      RunKeeps(e, states, steps, j - 1);
      assert StepAt(e, states, steps, j - 1);
      var s := states[j - 1];
      match steps[j - 1] {
        case TakeHead(_) => TakeWorks(e, s.store, s.batch[0]);
          var from :| Stretch(s.log, s.store.cursor, s.batch, from);
          assert s.batch[0] == s.log[from];
        case Redeliver(u) => TakeWorks(e, s.store, u);
        case _ =>
      }
    }
  }

  /** Once the owner's message with no text is next in line, the cursor never passes it and no
      update after it is ever taken in. */
  lemma BlankMessageStopsIntake(e: Setting, states: seq<State>, steps: seq<Step>, i: nat, j: nat, b: nat)
    requires IsRun(e, states, steps) && i <= j < |states| && b < |states[i].log|
    requires Blank(e, states[i].log[b])
    ensures states[j].store.cursor < states[i].log[b].id
    ensures forall id :: id in states[j].store.inbox ==> id < states[i].log[b].id
  {
    RunKeeps(e, states, steps, i);
    NeverReached(e, states, steps, i, b);
    StuckOverRun(e, states, steps, i, j, b);
    RowsComeFromTaken(e, states, steps, j);
  }

  /** A blank message in the log has never been passed. */
  lemma {:induction false} NeverReached(e: Setting, states: seq<State>, steps: seq<Step>, i: nat, b: nat)
    requires IsRun(e, states, steps) && i < |states| && b < |states[i].log| && Blank(e, states[i].log[b])
    ensures states[i].store.cursor < states[i].log[b].id
  {
    if i > 0 {
      RunKeeps(e, states, steps, i - 1);
      assert StepAt(e, states, steps, i - 1);
      if b < |states[i - 1].log| {
        NeverReached(e, states, steps, i - 1, b);
        StuckStays(e, states[i - 1], steps[i - 1], b);
      }
    }
  }

  /** The owner's message of one space arrives first: polling for it gets nowhere. */
  lemma BlankMessageInstance(e: Setting) returns (states: seq<State>, steps: seq<Step>)
    ensures IsRun(e, states, steps)
    ensures var last := states[|steps|];
            |last.log| == 1 && Blank(e, last.log[0]) && last.batch == [] && last.store.cursor < last.log[0].id
  {
    var u := Update(0, Some(Message(0, Address(e.owner, "c", ""), " ")));
    var s0 := State(Store(NoCursor, map[], map[], [], [], [], map[], {}), [], []);
    var s1 := s0.(log := [u]);
    var s2 := s1.(batch := [u]);
    states := [s0, s1, s2, s1];
    steps := [Arrive(u), Fetch(1), TakeHead(false)];
    assert Strip(" ") == "";
    assert Blank(e, u);
    TakeOkIff(e, s2.store, u);
    assert StepAt(e, states, steps, 0) && StepAt(e, states, steps, 1) && StepAt(e, states, steps, 2);
  }
}
