/**
 The durable inbox of one chat channel: each update is recorded once with what came of it, and
 messages are routed to the conversation its sender has selected.
 */
module Intake {
  import opened Wrappers
  import opened Text

  datatype Address = Address(sender: string, chat: string, thread: string)

  datatype Message = Message(id: int, address: Address, text: string)

  datatype Binding = Binding(workspace: string, conversation: nat)

  datatype Conversation = Conversation(workspace: string, main: bool, archived: bool, title: string)

  datatype RunStatus = Queued | Running | Over

  // update: the inbox row a run was submitted for, if it came from this channel.
  datatype Run = Run(conversation: nat, update: Option<int>, prompt: string, status: RunStatus)

  // A reply to an update, or the presentation of the run it started.
  datatype Outgoing = Outgoing(update: int, run: Option<nat>)

  datatype Kind = RunStarted | CommandDone | Cancellation | RoutingError

  datatype InboxRow = InboxRow(address: Address, text: string, command: Option<string>, conversation: Option<nat>,
                               run: Option<nat>, outbox: nat, kind: Kind)

  // Conversations, runs and outgoing rows are identified by their place.
  datatype Store = Store(cursor: int, inbox: map<int, InboxRow>, bindings: map<Address, Binding>,
                         conversations: seq<Conversation>, runs: seq<Run>, outbox: seq<Outgoing>,
                         aliases: map<string, string>, cancellations: set<nat>)

  // What the model takes as given: letter case, letters and digits, which of the open
  // conversations a /chat argument selects, and the deployment's settings.
  datatype Setting = Setting(lower: string -> string, alnum: char -> bool, pick: (seq<nat>, string) -> Option<nat>,
                             channel: string, owner: string, defaultAlias: Option<string>)

  datatype Outcome = Outcome(duplicate: bool, row: InboxRow)

  const NoCursor := -1

  // ---------------------------------------------------------------- commands

  function IndexOf(s: string, c: char): (i: nat)
    ensures i <= |s| && (i < |s| ==> s[i] == c) && forall k :: 0 <= k < i ==> s[k] != c
  {
    if s == "" || s[0] == c then 0 else 1 + IndexOf(s[1..], c)
  }

  function Parse(e: Setting, text: string): (Option<string>, string) {
    if text == "" || text[0] != '/' then (None, "")
    else
      var n := IndexOf(text, ' ');
      var first := text[..n];
      (Some(e.lower(first[..IndexOf(first, '@')])), Strip(if n < |text| then text[n + 1..] else ""))
  }

  predicate AliasChar(e: Setting, c: char) {
    e.alnum(c) || c == '-' || c == '_'
  }

  function Alias(e: Setting, value: string): Option<string> {
    var a := e.lower(Strip(value));
    if a == "" || |a| > 64 || exists c <- a :: !AliasChar(e, c) then None else Some(a)
  }

  // ---------------------------------------------------------------- routing

  function MainFrom(cs: seq<Conversation>, workspace: string, i: nat): (r: Option<nat>)
    ensures r.Some? ==>
              i <= r.value < |cs| && cs[r.value].workspace == workspace && cs[r.value].main && !cs[r.value].archived
    ensures r.None? ==> forall k :: i <= k < |cs| ==> !(cs[k].workspace == workspace && cs[k].main && !cs[k].archived)
    decreases |cs| - i
  {
    if i >= |cs| then None
    else if cs[i].workspace == workspace && cs[i].main && !cs[i].archived then Some(i)
    else MainFrom(cs, workspace, i + 1)
  }

  /** The open conversations of a workspace. */
  function OpenIn(cs: seq<Conversation>, workspace: string): (r: seq<nat>)
    ensures forall k :: 0 <= k < |r| ==> r[k] < |cs| && cs[r[k]].workspace == workspace && !cs[r[k]].archived
  {
    if cs == [] then []
    else
      var n := |cs| - 1;
      var before := OpenIn(cs[..n], workspace);
      if cs[n].workspace == workspace && !cs[n].archived then before + [n] else before
  }

  function Bind(s: Store, a: Address, b: Binding): Store {
    s.(bindings := s.bindings[a := b])
  }

  function BindingOf(s: Store, a: Address): Option<Binding> {
    if a in s.bindings then Some(s.bindings[a]) else None
  }

  function WithConversation(s: Store, c: Conversation): Store {
    s.(conversations := s.conversations + [c])
  }

  /** Selects a workspace's main conversation, making one if there is none. */
  function SelectMain(s: Store, a: Address, workspace: string): Store {
    var main := MainFrom(s.conversations, workspace, 0);
    if main.Some? then Bind(s, a, Binding(workspace, main.value))
    else Bind(WithConversation(s, Conversation(workspace, true, false, "Main")), a,
      Binding(workspace, |s.conversations|))
  }

  /** None when the alias is malformed or unknown. */
  function SwitchWorkspace(e: Setting, s: Store, a: Address, alias: string): Option<Store> {
    match Alias(e, alias)
    case None => None
    case Some(name) => if name in s.aliases then Some(SelectMain(s, a, s.aliases[name])) else None
  }

  function SwitchChat(e: Setting, s: Store, a: Address, b: Binding, argument: string): Store {
    var candidates := OpenIn(s.conversations, b.workspace);
    var choice := e.pick(candidates, Strip(argument));
    if Strip(argument) == "" || choice.None? || choice.value >= |candidates| then s
    else Bind(s, a, b.(conversation := candidates[choice.value]))
  }

  function Title(e: Setting, argument: string): string {
    if argument == "" then e.channel + " chat" else argument
  }

  function NewConversation(s: Store, a: Address, b: Binding, title: string): Store {
    Bind(WithConversation(s, Conversation(b.workspace, false, false, title)), a,
      b.(conversation := |s.conversations|))
  }

  function FirstRun(runs: seq<Run>, conversation: nat, status: RunStatus, i: nat): (r: Option<nat>)
    ensures r.Some? ==>
              r.value < |runs| && runs[r.value].conversation == conversation && runs[r.value].status == status
    decreases |runs| - i
  {
    if i >= |runs| then None
    else if runs[i].conversation == conversation && runs[i].status == status then Some(i)
    else FirstRun(runs, conversation, status, i + 1)
  }

  /** The running run of the selected conversation, or else its oldest queued one. */
  function ActiveRun(s: Store, a: Address): Option<nat> {
    match BindingOf(s, a)
    case None => None
    case Some(b) =>
      var running := FirstRun(s.runs, b.conversation, Running, 0);
      if running.Some? then running else FirstRun(s.runs, b.conversation, Queued, 0)
  }

  // ---------------------------------------------------------------- ingestion

  // What came of a new message, before it is recorded.
  datatype Draft = Draft(store: Store, conversation: Option<nat>, run: Option<nat>, kind: Kind)

  function Selected(s: Store, a: Address): Option<nat> {
    if a in s.bindings then Some(s.bindings[a].conversation) else None
  }

  /** A command done with: it reports the conversation now selected. */
  function Done(s: Store, a: Address): Draft {
    Draft(s, Selected(s, a), None, CommandDone)
  }

  function Command(e: Setting, s: Store, a: Address, command: string, argument: string): Draft {
    var b := BindingOf(s, a);
    if command == "/workspace" && argument != "" then
      match SwitchWorkspace(e, s, a, argument)
      case None => Draft(s, None, None, CommandDone)
      case Some(x) => Done(x, a)
    else if command == "/main" && b.Some? then Done(SelectMain(s, a, b.value.workspace), a)
    else if command == "/chat" && b.Some? then Done(SwitchChat(e, s, a, b.value, argument), a)
    else if command == "/new" && b.Some? then Done(NewConversation(s, a, b.value, Title(e, argument)), a)
    else if command == "/stop" then
      var target := ActiveRun(s, a);
      Draft(if target.Some? then s.(cancellations := s.cancellations + {target.value}) else s,
            Selected(s, a), target, Cancellation)
    else Done(s, a)
  }

  function Handle(e: Setting, s: Store, m: Message, text: string): Draft {
    var (command, argument) := Parse(e, text);
    if command.Some? then Command(e, s, m.address, command.value, argument)
    else
      match BindingOf(s, m.address)
      case None => Draft(s, None, None, RoutingError)
      case Some(b) =>
        var run := Run(b.conversation, Some(m.id), text, Queued);
        Draft(s.(runs := s.runs + [run]), Some(b.conversation), Some(|s.runs|), RunStarted)
  }

  /** A sender without a selection gets the default workspace, unless choosing one. */
  function Prepare(e: Setting, s: Store, m: Message, text: string): Store {
    if m.address !in s.bindings && e.defaultAlias.Some? && e.defaultAlias.value != ""
      && Parse(e, text).0 != Some("/workspace")
    then
      match SwitchWorkspace(e, s, m.address, e.defaultAlias.value)
      case None => s
      case Some(x) => x
    else s
  }

  function Advance(s: Store, id: int): Store {
    s.(cursor := if id > s.cursor then id else s.cursor)
  }

  function Enter(d: Draft, m: Message, text: string, command: Option<string>): (Store, InboxRow) {
    var s := d.store;
    var row := InboxRow(m.address, text, command, d.conversation, d.run, |s.outbox|, d.kind);
    (Advance(s.(outbox := s.outbox + [Outgoing(m.id, if d.kind == RunStarted then d.run else None)],
                inbox := s.inbox[m.id := row]), m.id), row)
  }

  /** None when the message is blank: an error, and nothing changes. */
  function Ingest(e: Setting, s: Store, m: Message): (Store, Option<Outcome>) {
    var text := Strip(m.text);
    if text == "" then (s, None)
    else if m.id in s.inbox then (Advance(s, m.id), Some(Outcome(true, s.inbox[m.id])))
    else
      var (x, row) := Enter(Handle(e, Prepare(e, s, m, text), m, text), m, text, Parse(e, text).0);
      (x, Some(Outcome(false, row)))
  }

  /** Messages of anyone but the owner are passed over. */
  function IngestAuthorized(e: Setting, s: Store, m: Message): (Store, bool) {
    if m.address.sender != e.owner then (Advance(s, m.id), true)
    else var (x, outcome) := Ingest(e, s, m); (x, outcome.Some?)
  }

  // An update without a message has None.
  datatype Update = Update(id: int, message: Option<Message>)

  function Take(e: Setting, s: Store, u: Update): (Store, bool) {
    match u.message
    case None => (Advance(s, u.id), true)
    case Some(m) => IngestAuthorized(e, s, m)
  }

  function TakeAll(e: Setting, s: Store, us: seq<Update>): (Store, bool) {
    if us == [] then (s, true)
    else
      var (x, ok) := TakeAll(e, s, us[..|us| - 1]);
      if ok then Take(e, x, us[|us| - 1]) else (x, false)
  }

  // ---------------------------------------------------------------- the store, statement by statement

  class ChannelStore {
    const setting: Setting
    var cursor: int
    var inbox: map<int, InboxRow>
    var bindings: map<Address, Binding>
    var conversations: seq<Conversation>
    var runs: seq<Run>
    var outbox: seq<Outgoing>
    var aliases: map<string, string>
    var cancellations: set<nat>

    function Rows(): Store
      reads this
    {
      Store(cursor, inbox, bindings, conversations, runs, outbox, aliases, cancellations)
    }

    constructor (setting: Setting)
      ensures this.setting == setting && Rows() == Store(NoCursor, map[], map[], [], [], [], map[], {})
    {
      this.setting := setting;
      cursor, inbox, bindings, conversations := NoCursor, map[], map[], [];
      runs, outbox, aliases, cancellations := [], [], map[], {};
    }

    method AdvanceCursor(id: int)
      modifies this`cursor
      ensures Rows() == Advance(old(Rows()), id)
    {
      if id > cursor {
        cursor := id;
      }
    }

    method BindToMain(a: Address, workspace: string)
      modifies this`bindings, this`conversations
      ensures Rows() == SelectMain(old(Rows()), a, workspace)
    {
      var main := MainFrom(conversations, workspace, 0);
      var conversation := |conversations|;
      if main.Some? {
        conversation := main.value;
      } else {
        conversations := conversations + [Conversation(workspace, true, false, "Main")];
      }
      bindings := bindings[a := Binding(workspace, conversation)];
    }

    method ChooseWorkspace(a: Address, alias: string) returns (found: bool)
      modifies this`bindings, this`conversations
      ensures found == SwitchWorkspace(setting, old(Rows()), a, alias).Some?
      ensures Rows() == if found then SwitchWorkspace(setting, old(Rows()), a, alias).value else old(Rows())
    {
      var name := Alias(setting, alias);
      found := name.Some? && name.value in aliases;
      if found {
        BindToMain(a, aliases[name.value]);
      }
    }

    method RunCommand(a: Address, command: string, argument: string)
      returns (conversation: Option<nat>, run: Option<nat>, kind: Kind)
      modifies this`bindings, this`conversations, this`cancellations
      ensures Draft(Rows(), conversation, run, kind) == Command(setting, old(Rows()), a, command, argument)
    {
      run, kind := None, CommandDone;
      if command == "/workspace" && argument != "" {
        var found := ChooseWorkspace(a, argument);
        if !found {
          return None, None, CommandDone;
        }
      } else if command == "/main" && a in bindings {
        BindToMain(a, bindings[a].workspace);
      } else if command == "/chat" && a in bindings {
        var candidates := OpenIn(conversations, bindings[a].workspace);
        var choice := setting.pick(candidates, Strip(argument));
        if Strip(argument) != "" && choice.Some? && choice.value < |candidates| {
          bindings := bindings[a := bindings[a].(conversation := candidates[choice.value])];
        }
      } else if command == "/new" && a in bindings {
        conversations := conversations
          + [Conversation(bindings[a].workspace, false, false, Title(setting, argument))];
        bindings := bindings[a := bindings[a].(conversation := |conversations| - 1)];
      } else if command == "/stop" {
        kind := Cancellation;
        run := ActiveRun(Rows(), a);
        if run.Some? {
          cancellations := cancellations + {run.value};
        }
      }
      conversation := Selected(Rows(), a);
    }

    method IngestMessage(m: Message) returns (outcome: Option<Outcome>)
      modifies this
      ensures (Rows(), outcome) == Ingest(setting, old(Rows()), m)
    {
      var text := Strip(m.text);
      if text == "" {
        return None;
      }
      if m.id in inbox {
        AdvanceCursor(m.id);
        return Some(Outcome(true, inbox[m.id]));
      }
      ChooseDefault(m, text);
      var (command, argument) := Parse(setting, text);
      var conversation, run, kind := None, None, RoutingError;
      if command.Some? {
        conversation, run, kind := RunCommand(m.address, command.value, argument);
      } else if m.address in bindings {
        conversation, run, kind := Some(bindings[m.address].conversation), Some(|runs|), RunStarted;
        runs := runs + [Run(bindings[m.address].conversation, Some(m.id), text, Queued)];
      }
      var row := Record(m, text, command, conversation, run, kind);
      outcome := Some(Outcome(false, row));
    }

    method ChooseDefault(m: Message, text: string)
      modifies this`bindings, this`conversations
      ensures Rows() == Prepare(setting, old(Rows()), m, text)
    {
      if m.address !in bindings && setting.defaultAlias.Some? && setting.defaultAlias.value != ""
        && Parse(setting, text).0 != Some("/workspace") {
        var _ := ChooseWorkspace(m.address, setting.defaultAlias.value);
      }
    }

    method Record(m: Message, text: string, command: Option<string>, conversation: Option<nat>, run: Option<nat>,
                  kind: Kind) returns (row: InboxRow)
      modifies this`outbox, this`inbox, this`cursor
      ensures (Rows(), row) == Enter(Draft(old(Rows()), conversation, run, kind), m, text, command)
    {
      row := InboxRow(m.address, text, command, conversation, run, |outbox|, kind);
      outbox := outbox + [Outgoing(m.id, if kind == RunStarted then run else None)];
      inbox := inbox[m.id := row];
      AdvanceCursor(m.id);
    }

    /** One batch of updates; the first error ends it. */
    method Poll(batch: seq<Update>) returns (ok: bool)
      modifies this
      ensures (Rows(), ok) == TakeAll(setting, old(Rows()), batch)
    {
      var i := 0;
      while i < |batch|
        invariant 0 <= i <= |batch|
        invariant (Rows(), true) == TakeAll(setting, old(Rows()), batch[..i])
      {
        assert batch[..i + 1][..i] == batch[..i];
        var u := batch[i];
        if u.message.None? {
          AdvanceCursor(u.id);
        } else if u.message.value.address.sender != setting.owner {
          AdvanceCursor(u.message.value.id);
        } else {
          var outcome := IngestMessage(u.message.value);
          if outcome.None? {
            TakeStops(setting, old(Rows()), batch, i + 1);
            return false;
          }
        }
        i := i + 1;
      }
      assert batch[..i] == batch;
      ok := true;
    }
  }

  lemma {:induction false} TakeStops(e: Setting, s: Store, us: seq<Update>, i: nat)
    requires i <= |us| && !TakeAll(e, s, us[..i]).1
    ensures TakeAll(e, s, us) == TakeAll(e, s, us[..i])
    decreases |us| - i
  {
    if i < |us| {
      assert us[..i + 1][..i] == us[..i];
      TakeStops(e, s, us, i + 1);
    } else {
      assert us[..i] == us;
    }
  }
}
