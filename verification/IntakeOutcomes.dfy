/**
 What each kind of new message does, told from the rows before and after it is taken in.
 */
module IntakeOutcomes {
  import opened Wrappers
  import opened Text
  import opened Intake
  import opened IntakeRuns

  // ---------------------------------------------------------------- reading a message

  /** The command is the first word up to an @, in lower case; the argument is what follows the
      first space, stripped. */
  lemma ParseOutcome(e: Setting, word: string, at: string, rest: string, spaced: bool)
    requires word != "" && word[0] == '/' && ' ' !in word && '@' !in word && ' ' !in at
    requires at == "" || at[0] == '@'
    requires !spaced ==> rest == ""
    ensures Parse(e, word + at + (if spaced then " " + rest else "")) == (Some(e.lower(word)), Strip(rest))
  {
    var first := word + at;
    var text := first + (if spaced then " " + rest else "");
    IndexAfter(first, ' ', if spaced then " " + rest else "");
    assert text[..|first|] == first;
    IndexAfter(word, '@', at);
    assert first[..|word|] == word;
    if spaced {
      assert text[|first| + 1..] == rest;
    } else {
      assert text == first;
    }
  }

  lemma {:induction false} IndexAfter(a: string, c: char, b: string)
    requires c !in a && (b == "" || b[0] == c)
    ensures IndexOf(a + b, c) == |a|
  {
    if a == "" {
      assert a + b == b;
    } else {
      assert (a + b)[1..] == a[1..] + b;
      IndexAfter(a[1..], c, b);
    }
  }

  /** An alias is the stripped text in lower case: one to sixty-four letters, digits, dashes and
      underscores. */
  lemma AliasOutcome(e: Setting, value: string)
    ensures var a := e.lower(Strip(value));
            Alias(e, value) ==
            if 1 <= |a| <= 64 && forall i :: 0 <= i < |a| ==> e.alnum(a[i]) || a[i] == '-' || a[i] == '_'
            then Some(a) else None
  {
    var a := e.lower(Strip(value));
    assert (exists c <- a :: !AliasChar(e, c)) <==> exists i :: 0 <= i < |a| && !AliasChar(e, a[i]);
  }

  /** A message not seen before, and what taking it in leaves and reports. */
  ghost predicate New(e: Setting, s: Store, m: Message, command: Option<string>, argument: string) {
    Routed(s) && Strip(m.text) != "" && m.id !in s.inbox && Parse(e, Strip(m.text)) == (command, argument)
  }

  function After(e: Setting, s: Store, m: Message): Store {
    Ingest(e, s, m).0
  }

  function RowOf(e: Setting, s: Store, m: Message): InboxRow
    requires Strip(m.text) != "" && m.id !in s.inbox
  {
    Ingest(e, s, m).1.value.row
  }

  /** Runs and other senders' selections are as they were, and the row tells the selection. */
  ghost predicate OnlySelects(s: Store, x: Store, row: InboxRow, a: Address) {
    && x.runs == s.runs && x.cancellations == s.cancellations && row.kind == CommandDone && row.run.None?
    && a in x.bindings && row.conversation == Some(x.bindings[a].conversation)
  }

  /** A conversation the sender may be led to. */
  predicate OpenOf(x: Store, c: nat, workspace: string) {
    c < |x.conversations| && x.conversations[c].workspace == workspace && !x.conversations[c].archived
  }

  /** The sender ends on the one open main conversation of a workspace, which is new only if there
      was none. */
  ghost predicate OnMain(s: Store, x: Store, a: Address, workspace: string) {
    && a in x.bindings && x.bindings[a].workspace == workspace
    && OpenOf(x, x.bindings[a].conversation, workspace) && x.conversations[x.bindings[a].conversation].main
    && (if exists c :: 0 <= c < |s.conversations| && OpenOf(s, c, workspace) && s.conversations[c].main
        then x.conversations == s.conversations
        else x.conversations == s.conversations + [Conversation(workspace, true, false, "Main")])
  }

  lemma MainSelected(s: Store, a: Address, workspace: string)
    requires Routed(s)
    ensures OnMain(s, SelectMain(s, a, workspace), a, workspace)
  {
    SelectMainRoutes(s, a, workspace);
  }

  /** "/main": the main conversation of the sender's workspace. */
  lemma MainOutcome(e: Setting, s: Store, m: Message, argument: string)
    requires New(e, s, m, Some("/main"), argument) && m.address in s.bindings
    ensures var x := After(e, s, m);
            OnlySelects(s, x, RowOf(e, s, m), m.address) && OnMain(s, x, m.address, s.bindings[m.address].workspace)
  {
    MainSelected(s, m.address, s.bindings[m.address].workspace);
  }

  /** "/workspace": the main conversation of the workspace the alias stands for. */
  lemma WorkspaceOutcome(e: Setting, s: Store, m: Message, argument: string)
    requires New(e, s, m, Some("/workspace"), argument) && argument != ""
    ensures var x := After(e, s, m); var row := RowOf(e, s, m);
            if Alias(e, argument).Some? && Alias(e, argument).value in s.aliases then
              OnlySelects(s, x, row, m.address) && OnMain(s, x, m.address, s.aliases[Alias(e, argument).value])
            else
              && x.bindings == s.bindings && x.conversations == s.conversations && x.runs == s.runs
              && row.conversation.None? && row.run.None? && row.kind == CommandDone
  {
    if Alias(e, argument).Some? && Alias(e, argument).value in s.aliases {
      MainSelected(s, m.address, s.aliases[Alias(e, argument).value]);
    }
  }

  /** "/new": a conversation that was not there before, in the same workspace and not its main one. */
  lemma NewOutcome(e: Setting, s: Store, m: Message, argument: string)
    requires New(e, s, m, Some("/new"), argument) && m.address in s.bindings
    ensures var x := After(e, s, m); var workspace := s.bindings[m.address].workspace;
            && OnlySelects(s, x, RowOf(e, s, m), m.address)
            && x.bindings[m.address] == Binding(workspace, |s.conversations|)
            && x.conversations == s.conversations + [Conversation(workspace, false, false,
                                                      if argument == "" then e.channel + " chat" else argument)]
  {
  }

  /** The open conversations of a workspace, oldest first. */
  ghost predicate Listing(cs: seq<Conversation>, workspace: string, open: seq<nat>) {
    && (forall i, j :: 0 <= i < j < |open| ==> open[i] < open[j])
    && forall c: nat :: c in open <==> c < |cs| && cs[c].workspace == workspace && !cs[c].archived
  }

  lemma {:induction false} OpenInLists(cs: seq<Conversation>, workspace: string)
    ensures Listing(cs, workspace, OpenIn(cs, workspace))
  {
    if cs != [] {
      var n := |cs| - 1;
      OpenInLists(cs[..n], workspace);
      OpenInGrows(cs, workspace, n);
    }
  }

  lemma OpenInGrows(cs: seq<Conversation>, workspace: string, n: nat)
    requires |cs| == n + 1 && Listing(cs[..n], workspace, OpenIn(cs[..n], workspace))
    ensures Listing(cs, workspace, OpenIn(cs, workspace))
  {
    var before, now := OpenIn(cs[..n], workspace), OpenIn(cs, workspace);
    assert forall c: nat :: c in before <==> c < n && cs[c].workspace == workspace && !cs[c].archived;
    assert forall c: nat :: c in now <==> c in before || (c == n && cs[n].workspace == workspace && !cs[n].archived);
  }

  lemma ListingIsOne(cs: seq<Conversation>, workspace: string, xs: seq<nat>, ys: seq<nat>)
    requires Listing(cs, workspace, xs) && Listing(cs, workspace, ys)
    ensures xs == ys
  {
    SameSorted(xs, ys);
  }

  lemma {:induction false} SameSorted(xs: seq<nat>, ys: seq<nat>)
    requires forall i, j :: 0 <= i < j < |xs| ==> xs[i] < xs[j]
    requires forall i, j :: 0 <= i < j < |ys| ==> ys[i] < ys[j]
    requires forall c: nat :: c in xs <==> c in ys
    ensures xs == ys
  {
    if xs != [] || ys != [] {
      assert xs != [] ==> xs[|xs| - 1] in ys;
      assert ys != [] ==> ys[|ys| - 1] in xs;
      var xi, yi := xs[..|xs| - 1], ys[..|ys| - 1];
      assert xs[|xs| - 1] == ys[|ys| - 1];
      assert forall c: nat :: c in xi <==> c in xs && c != xs[|xs| - 1];
      assert forall c: nat :: c in yi <==> c in ys && c != ys[|ys| - 1];
      SameSorted(xi, yi);
      assert xs == xi + [xs[|xs| - 1]] && ys == yi + [ys[|ys| - 1]];
    }
  }

  /** "/chat": the open conversation of the workspace that the argument picks, if it picks one. */
  lemma ChatOutcome(e: Setting, s: Store, m: Message, argument: string, open: seq<nat>)
    requires New(e, s, m, Some("/chat"), argument) && m.address in s.bindings
    requires Listing(s.conversations, s.bindings[m.address].workspace, open)
    ensures var x := After(e, s, m); var was := s.bindings[m.address]; var choice := e.pick(open, Strip(argument));
            && OnlySelects(s, x, RowOf(e, s, m), m.address) && x.conversations == s.conversations
            && x.bindings[m.address].workspace == was.workspace
            && x.bindings[m.address].conversation ==
               if Strip(argument) != "" && choice.Some? && choice.value < |open| then open[choice.value]
               else was.conversation
  {
    OpenInLists(s.conversations, s.bindings[m.address].workspace);
    ListingIsOne(s.conversations, s.bindings[m.address].workspace, open,
                 OpenIn(s.conversations, s.bindings[m.address].workspace));
  }

  /** The first run of a conversation with this status. */
  ghost predicate First(runs: seq<Run>, conversation: nat, status: RunStatus, r: nat) {
    && r < |runs| && runs[r].conversation == conversation && runs[r].status == status
    && forall q :: 0 <= q < r ==> !(runs[q].conversation == conversation && runs[q].status == status)
  }

  lemma {:induction false} FirstRunFirst(runs: seq<Run>, conversation: nat, status: RunStatus, i: nat)
    requires forall q :: 0 <= q < i && q < |runs| ==>
               !(runs[q].conversation == conversation && runs[q].status == status)
    ensures var r := FirstRun(runs, conversation, status, i);
            && (r.Some? ==> First(runs, conversation, status, r.value))
            && (r.None? ==> forall q :: 0 <= q < |runs| ==>
                  !(runs[q].conversation == conversation && runs[q].status == status))
    decreases |runs| - i
  {
    if i < |runs| && !(runs[i].conversation == conversation && runs[i].status == status) {
      FirstRunFirst(runs, conversation, status, i + 1);
    }
  }

  predicate Has(runs: seq<Run>, conversation: nat, status: RunStatus) {
    exists q :: 0 <= q < |runs| && runs[q].conversation == conversation && runs[q].status == status
  }

  /** "/stop": a request to cancel the running run of the selected conversation, or else its oldest
      queued one; nothing if it has neither. */
  lemma StopOutcome(e: Setting, s: Store, m: Message, argument: string)
    requires New(e, s, m, Some("/stop"), argument) && m.address in s.bindings
    ensures var x := After(e, s, m); var row := RowOf(e, s, m); var c := s.bindings[m.address].conversation;
            && x.bindings == s.bindings && x.conversations == s.conversations && x.runs == s.runs
            && row.kind == Cancellation && row.conversation == Some(c)
            && if Has(s.runs, c, Running) || Has(s.runs, c, Queued) then
                 && row.run.Some? && x.cancellations == s.cancellations + {row.run.value}
                 && First(s.runs, c, if Has(s.runs, c, Running) then Running else Queued, row.run.value)
               else row.run.None? && x.cancellations == s.cancellations
  {
    FirstRunFirst(s.runs, s.bindings[m.address].conversation, Running, 0);
    FirstRunFirst(s.runs, s.bindings[m.address].conversation, Queued, 0);
  }

  /** Any other command, or one without its argument, leaves everything as it is. */
  lemma OtherOutcome(e: Setting, s: Store, m: Message, command: string, argument: string)
    requires New(e, s, m, Some(command), argument) && m.address in s.bindings
    requires command !in {"/main", "/chat", "/new", "/stop"} && (command == "/workspace" ==> argument == "")
    ensures var x := After(e, s, m);
            && OnlySelects(s, x, RowOf(e, s, m), m.address)
            && x.bindings == s.bindings && x.conversations == s.conversations
  {
  }

  /** A message that is no command starts a queued run with its text in the sender's selected
      conversation; the selection stays. */
  lemma MessageOutcome(e: Setting, s: Store, m: Message)
    requires New(e, s, m, None, "") && m.address in s.bindings
    ensures var x := After(e, s, m); var row := RowOf(e, s, m); var c := s.bindings[m.address].conversation;
            && x.runs == s.runs + [Run(c, Some(m.id), Strip(m.text), Queued)]
            && x.bindings == s.bindings && x.conversations == s.conversations && x.cancellations == s.cancellations
            && row.kind == RunStarted && row.run == Some(|s.runs|) && row.conversation == Some(c)
  {
  }

  /** A sender without a selection is first led to the default workspace's main conversation, if
      the default is a known alias; a message that is no command then starts its run there, and
      otherwise none. */
  lemma FirstMessageOutcome(e: Setting, s: Store, m: Message)
    requires New(e, s, m, None, "") && m.address !in s.bindings
    ensures var x := After(e, s, m); var row := RowOf(e, s, m);
            if e.defaultAlias.Some? && e.defaultAlias.value != "" && Alias(e, e.defaultAlias.value).Some?
               && Alias(e, e.defaultAlias.value).value in s.aliases
            then
              && OnMain(s, x, m.address, s.aliases[Alias(e, e.defaultAlias.value).value])
              && x.runs == s.runs + [Run(x.bindings[m.address].conversation, Some(m.id), Strip(m.text), Queued)]
              && row.kind == RunStarted && row.run == Some(|s.runs|)
              && row.conversation == Some(x.bindings[m.address].conversation)
            else
              && x.runs == s.runs && x.bindings == s.bindings && x.conversations == s.conversations
              && row.kind == RoutingError && row.run.None? && row.conversation.None?
  {
    if e.defaultAlias.Some? && e.defaultAlias.value != "" && Alias(e, e.defaultAlias.value).Some?
      && Alias(e, e.defaultAlias.value).value in s.aliases {
      MainSelected(s, m.address, s.aliases[Alias(e, e.defaultAlias.value).value]);
    }
  }

  /** So is one who sends a command other than "/workspace"; the command then acts from there. */
  lemma FirstCommandOutcome(e: Setting, s: Store, m: Message, command: string, argument: string)
    requires New(e, s, m, Some(command), argument) && m.address !in s.bindings && command != "/workspace"
    ensures var x := After(e, s, m);
            if e.defaultAlias.Some? && e.defaultAlias.value != "" && Alias(e, e.defaultAlias.value).Some?
               && Alias(e, e.defaultAlias.value).value in s.aliases
            then m.address in x.bindings
                 && x.bindings[m.address].workspace == s.aliases[Alias(e, e.defaultAlias.value).value]
            else m.address !in x.bindings && x.conversations == s.conversations
  {
    var x := Prepare(e, s, m, Strip(m.text));
    PrepareRoutes(e, s, m, Strip(m.text));
    DefaultSelected(e, s, m);
    if m.address in x.bindings {
      StaysInWorkspace(e, x, m.address, command, argument);
    } else {
      NothingSelected(e, x, m.address, command, argument);
    }
    assert After(e, s, m).bindings == Command(e, x, m.address, command, argument).store.bindings;
  }

  lemma DefaultSelected(e: Setting, s: Store, m: Message)
    requires Routed(s) && m.address !in s.bindings && Parse(e, Strip(m.text)).0 != Some("/workspace")
    ensures var x := Prepare(e, s, m, Strip(m.text));
            if e.defaultAlias.Some? && e.defaultAlias.value != "" && Alias(e, e.defaultAlias.value).Some?
               && Alias(e, e.defaultAlias.value).value in s.aliases
            then m.address in x.bindings
                 && x.bindings[m.address].workspace == s.aliases[Alias(e, e.defaultAlias.value).value]
            else x == s
  {
  }

  lemma StaysInWorkspace(e: Setting, x: Store, a: Address, command: string, argument: string)
    requires Routed(x) && a in x.bindings && command != "/workspace"
    ensures var y := Command(e, x, a, command, argument).store;
            a in y.bindings && y.bindings[a].workspace == x.bindings[a].workspace
  {
  }

  lemma NothingSelected(e: Setting, x: Store, a: Address, command: string, argument: string)
    requires a !in x.bindings && command != "/workspace"
    ensures var y := Command(e, x, a, command, argument).store;
            y.bindings == x.bindings && y.conversations == x.conversations
  {
  }
}
