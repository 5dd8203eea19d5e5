/**
 Rolling summaries of a growing conversation: the text kept for older messages, and the
 bookkeeping of which prefix of the conversation that text stands for.
 */
module Summary {
  import opened Wrappers
  import opened Text

  // run: the run a message was written for or by, if any.
  datatype Message = Message(id: string, conversation: string, role: string, content: string, run: Option<string>)

  datatype Proposal = Proposal(conversation: string, version: int, firstId: string, lastId: string, count: int,
                               content: string)

  datatype Error = EmptyRange | BoundaryGone | TooFewMessages

  const Selected := 80
  const LineWidth := 160
  const ContentWidth := 16000
  const KeptTail := 15950
  const Compacted := "[older summary compacted; raw messages retained]\n"

  // ---------------------------------------------------------------- text

  function Shorten(s: string): string {
    if |s| > LineWidth then s[..LineWidth - 3] + "..." else s
  }

  function Line(m: Message): string {
    m.role + ": " + Shorten(JoinWith(" ", Words(m.content, "")))
  }

  function Heading(prior: Option<Proposal>, messages: seq<Message>): seq<string> {
    (if prior.Some? then [prior.value.content] else []) +
    if |messages| > Selected
    then ["[" + Digits(|messages| - Selected) + " earlier messages retained in raw storage]"] else []
  }

  function Recent(messages: seq<Message>): seq<Message> {
    if |messages| > Selected then messages[|messages| - Selected..] else messages
  }

  function Lines(messages: seq<Message>): seq<string> {
    if messages == [] then [] else Lines(messages[..|messages| - 1]) + [Line(messages[|messages| - 1])]
  }

  function Bounded(content: string): string {
    if |content| > ContentWidth then Compacted + content[|content| - KeptTail..] else content
  }

  function Summarize(messages: seq<Message>, version: int, prior: Option<Proposal>): Result<Proposal, Error> {
    if messages == [] then Err(EmptyRange)
    else Ok(Propose(messages, version, prior, Content(Heading(prior, messages) + Lines(Recent(messages)))))
  }

  function Propose(messages: seq<Message>, version: int, prior: Option<Proposal>, content: string): Proposal
    requires messages != []
  {
    Proposal(messages[0].conversation, version,
             if prior.Some? then prior.value.firstId else messages[0].id,
             messages[|messages| - 1].id,
             (if prior.Some? then prior.value.count else 0) + |messages|, content)
  }

  function Content(lines: seq<string>): (r: string)
    ensures |r| <= ContentWidth
  {
    Bounded(JoinWith("\n", lines))
  }

  lemma LinesOneMore(messages: seq<Message>, i: int)
    requires 0 <= i < |messages|
    ensures Lines(messages[..i + 1]) == Lines(messages[..i]) + [Line(messages[i])]
  {
    assert messages[..i + 1][..i] == messages[..i];
  }

  /** The loop over the newest messages. */
  method CollectLines(heading: seq<string>, selected: seq<Message>) returns (lines: seq<string>)
    ensures lines == heading + Lines(selected)
  {
    lines := heading;
    var i := 0;
    while i < |selected|
      invariant 0 <= i <= |selected|
      invariant lines == heading + Lines(selected[..i])
    {
      LinesOneMore(selected, i);
      lines := lines + [Line(selected[i])];
      i := i + 1;
    }
    assert selected[..i] == selected;
  }

  method SummarizeMessages(messages: seq<Message>, version: int, prior: Option<Proposal>)
    returns (r: Result<Proposal, Error>)
    ensures r == Summarize(messages, version, prior)
    ensures r.Err? <==> messages == []
    ensures r.Ok? ==> |r.value.content| <= ContentWidth && r.value.lastId == messages[|messages| - 1].id
  {
    if messages == [] {
      return Err(EmptyRange);
    }
    var lines := CollectLines(Heading(prior, messages), Recent(messages));
    r := Ok(Propose(messages, version, prior, Content(lines)));
  }

  lemma JoinEnds(separator: string, items: seq<string>)
    requires items != []
    ensures |items[|items| - 1]| <= |JoinWith(separator, items)|
    ensures var s := JoinWith(separator, items); s[|s| - |items[|items| - 1]|..] == items[|items| - 1]
  {
  }

  /** However long the conversation and the earlier summary, the content stays bounded and
      ends with the newest message's line. */
  lemma SummaryKeepsNewest(messages: seq<Message>, version: int, prior: Option<Proposal>)
    requires messages != [] && |messages[|messages| - 1].role| + 2 + LineWidth <= KeptTail
    ensures var content := Summarize(messages, version, prior).value.content;
            var line := Line(messages[|messages| - 1]);
            && |content| <= ContentWidth
            && |line| <= |content|
            && content[|content| - |line|..] == line
  {
    EndsWithNewest(Heading(prior, messages), Recent(messages));
  }

  lemma EndsWithNewest(heading: seq<string>, recent: seq<Message>)
    requires recent != [] && |recent[|recent| - 1].role| + 2 + LineWidth <= KeptTail
    ensures var content, line := Content(heading + Lines(recent)), Line(recent[|recent| - 1]);
            |line| <= |content| && content[|content| - |line|..] == line
  {
    var init, line := Lines(recent[..|recent| - 1]), Line(recent[|recent| - 1]);
    assert heading + Lines(recent) == heading + init + [line];
    EndsWithLast(heading + init, line);
  }

  lemma EndsWithLast(items: seq<string>, line: string)
    requires |line| <= KeptTail
    ensures var content := Content(items + [line]); |line| <= |content| && content[|content| - |line|..] == line
  {
    JoinEnds("\n", items + [line]);
    BoundedKeepsTail(JoinWith("\n", items + [line]), line);
  }

  lemma BoundedKeepsTail(text: string, line: string)
    requires |line| <= KeptTail && |line| <= |text| && text[|text| - |line|..] == line
    ensures |line| <= |Bounded(text)| <= ContentWidth && Bounded(text)[|Bounded(text)| - |line|..] == line
  {
    if |text| > ContentWidth {
      var content := Bounded(text);
      assert content[|Compacted|..] == text[|text| - KeptTail..];
      assert content[|content| - |line|..] == text[|text| - |line|..];
    }
  }

  // ---------------------------------------------------------------- compaction

  const HistoryLimit := 10000

  /** What is left of a list after its last k entries are cut off, with 0 cutting all. */
  function AllBut<T>(s: seq<T>, k: nat): seq<T> {
    if k == 0 || k >= |s| then [] else s[..|s| - k]
  }

  function LastOf<T>(s: seq<T>, k: nat): seq<T> {
    if k == 0 || k >= |s| then s else s[|s| - k..]
  }

  function NextVersion(prior: Option<Proposal>): int {
    if prior.Some? then prior.value.version + 1 else 1
  }

  // history: what goes into the prompt message by message.
  datatype Compiled = Compiled(summary: Option<Proposal>, proposed: bool, history: seq<Message>)

  /** A history over the threshold is summarized but for its most recent turns. */
  function Compact(history: seq<Message>, prior: Option<Proposal>, threshold: nat, recent: nat)
    : Result<Compiled, Error>
  {
    if |history| > threshold then
      match Summarize(AllBut(history, recent), NextVersion(prior), prior)
      case Err(e) => Err(e)
      case Ok(s) => Ok(Compiled(Some(s), true, LastOf(history, recent)))
    else Ok(Compiled(prior, false, history))
  }

  function Boundary(log: seq<Message>, id: string): Option<nat> {
    if log == [] then None
    else if log[|log| - 1].id == id then Some(|log|)
    else Boundary(log[..|log| - 1], id)
  }

  /** The messages not tied to the run being compiled. */
  function Others(log: seq<Message>, run: string): seq<Message> {
    if log == [] then []
    else
      var last := log[|log| - 1];
      Others(log[..|log| - 1], run) + if last.run == Some(run) then [] else [last]
  }

  function FirstOf<T>(s: seq<T>, n: nat): seq<T> {
    if |s| > n then s[..n] else s
  }

  function Pending(log: seq<Message>, prior: Option<Proposal>): Result<seq<Message>, Error> {
    if prior.None? then Ok(log)
    else
      match Boundary(log, prior.value.lastId)
      case None => Err(BoundaryGone)
      case Some(n) => if n <= |log| then Ok(log[n..]) else Ok([])
  }

  function History(log: seq<Message>, prior: Option<Proposal>, run: string): Result<seq<Message>, Error> {
    match Pending(log, prior)
    case Err(e) => Err(e)
    case Ok(rest) => Ok(FirstOf(Others(rest, run), HistoryLimit))
  }

  function CompileRun(log: seq<Message>, prior: Option<Proposal>, run: string, threshold: nat, recent: nat)
    : Result<Compiled, Error>
  {
    match History(log, prior, run)
    case Err(e) => Err(e)
    case Ok(history) => Compact(history, prior, threshold, recent)
  }

  /** Compaction on request: everything but the newest turns, counted on top of the last summary. */
  function CompactOnRequest(log: seq<Message>, prior: Option<Proposal>, keep: nat): Result<Proposal, Error> {
    if |LastOf(log, HistoryLimit)| < 2 then Err(TooFewMessages)
    else Summarize(Requested(log, keep), NextVersion(prior), prior)
  }

  function Requested(log: seq<Message>, keep: nat): seq<Message> {
    var messages := LastOf(log, HistoryLimit);
    AllBut(messages, if |messages| <= keep then 1 else keep)
  }

  // ---------------------------------------------------------------- what a summary covers

  ghost predicate Distinct(log: seq<Message>) {
    forall i, j :: 0 <= i < j < |log| ==> log[i].id != log[j].id
  }

  function Covered(s: Option<Proposal>): int {
    if s.Some? then s.value.count else 0
  }

  /** The count is the length of a prefix of the conversation and the ids are its ends. */
  predicate Covers(log: seq<Message>, s: Option<Proposal>) {
    s.Some? ==>
      && 0 < s.value.count <= |log|
      && s.value.firstId == log[0].id
      && s.value.lastId == log[s.value.count - 1].id
  }

  lemma {:induction false} BoundaryAt(log: seq<Message>, i: int)
    requires Distinct(log) && 0 <= i < |log|
    ensures Boundary(log, log[i].id) == Some(i + 1)
  {
    if i < |log| - 1 {
      BoundaryAt(log[..|log| - 1], i);
    }
  }

  lemma PendingAfterCovered(log: seq<Message>, prior: Option<Proposal>)
    requires Distinct(log) && Covers(log, prior)
    ensures Pending(log, prior) == Ok(log[Covered(prior)..])
  {
    if prior.Some? {
      BoundaryAt(log, prior.value.count - 1);
    }
  }

  predicate NoneOf(log: seq<Message>, run: string) {
    forall i :: 0 <= i < |log| ==> log[i].run != Some(run)
  }

  lemma {:induction false} OthersCount(log: seq<Message>, run: string)
    ensures |Others(log, run)| <= |log|
    ensures |Others(log, run)| == |log| <==> NoneOf(log, run)
    ensures NoneOf(log, run) ==> Others(log, run) == log
  {
    if log != [] {
      var init, last := log[..|log| - 1], log[|log| - 1];
      OthersCount(init, run);
      assert log == init + [last];
    }
  }

  lemma {:induction false} OthersJoin(a: seq<Message>, b: seq<Message>, run: string)
    ensures Others(a + b, run) == Others(a, run) + Others(b, run)
  {
    if b == [] {
      assert a + b == a;
    } else {
      assert (a + b)[..|a + b| - 1] == a + b[..|b| - 1];
      OthersJoin(a, b[..|b| - 1], run);
    }
  }

  /** The place in the conversation of the k-th message not tied to the run. */
  lemma {:induction false} PlaceOf(log: seq<Message>, run: string, k: int) returns (p: int)
    requires 0 < k <= |Others(log, run)|
    ensures 0 <= p < |log| && log[p] == Others(log, run)[k - 1] && log[p].run != Some(run)
    ensures Others(log[..p + 1], run) == Others(log, run)[..k]
  {
    var init, last := log[..|log| - 1], log[|log| - 1];
    if k <= |Others(init, run)| {
      p := PlaceOf(init, run, k);
      assert log[..p + 1] == init[..p + 1];
      assert Others(log, run)[..k] == Others(init, run)[..k];
    } else {
      p := |log| - 1;
      assert log[..p + 1] == log;
    }
  }

  /** The messages beyond the covered ones. */
  function Rest(log: seq<Message>, prior: Option<Proposal>): seq<Message> {
    if 0 <= Covered(prior) <= |log| then log[Covered(prior)..] else []
  }

  /** How many messages a compaction for the run folds in. */
  function FoldSize(log: seq<Message>, prior: Option<Proposal>, run: string, recent: nat): nat {
    |AllBut(FirstOf(Others(Rest(log, prior), run), HistoryLimit), recent)|
  }

  /** The run's own messages come after as many pending ones as are to be folded in. */
  predicate OwnComeLater(log: seq<Message>, prior: Option<Proposal>, run: string, recent: nat) {
    NoneOf(FirstOf(Rest(log, prior), FoldSize(log, prior, run, recent)), run)
  }

  lemma AllButFirst<T>(s: seq<T>, limit: nat, keep: nat)
    requires AllBut(FirstOf(s, limit), keep) != []
    ensures var k := |AllBut(FirstOf(s, limit), keep)|;
            && k <= |s| && AllBut(FirstOf(s, limit), keep) == s[..k]
            && FirstOf(s, limit) == s[..k] + LastOf(FirstOf(s, limit), keep)
  {
  }

  lemma OthersOneMore(log: seq<Message>, run: string, k: int)
    requires 0 <= k < |log| && log[|log| - 1].run != Some(run)
    ensures |Others(log, run)| > |Others(log[..k], run)|
  {
    assert log == log[..k] + log[k..];
    OthersJoin(log[..k], log[k..], run);
  }

  /** The k-th other message is the k-th message exactly when none of the first k is the run's. */
  lemma FoldedFirst(rest: seq<Message>, run: string, k: int, p: int)
    requires 0 < k <= |Others(rest, run)| && 0 <= p < |rest| && rest[p].run != Some(run)
    requires Others(rest[..p + 1], run) == Others(rest, run)[..k]
    ensures k <= p + 1 && (k == p + 1 <==> NoneOf(rest[..k], run))
    ensures k == p + 1 ==> Others(rest, run)[..k] == rest[..k] && Others(rest, run)[0] == rest[0]
  {
    var upto := rest[..p + 1];
    OthersCount(upto, run);
    assert Others(rest, run)[..k][0] == Others(rest, run)[0];
    if k < p + 1 && NoneOf(rest[..k], run) {
      assert upto[..k] == rest[..k];
      OthersCount(rest[..k], run);
      OthersOneMore(upto, run, k);
      assert false;
    }
  }

  /** Folding the first k pending messages not tied to the run on top of the covered prefix. */
  lemma FoldedCovers(log: seq<Message>, prior: Option<Proposal>, run: string, k: int, next: Proposal)
    requires Distinct(log) && Covers(log, prior)
    requires 0 < k <= |Others(log[Covered(prior)..], run)| && k <= |log| - Covered(prior)
    requires next.count == Covered(prior) + k
    requires next.firstId == if prior.Some? then prior.value.firstId else Others(log[Covered(prior)..], run)[0].id
    requires next.lastId == Others(log[Covered(prior)..], run)[k - 1].id
    ensures Covers(log, Some(next)) <==> NoneOf(log[Covered(prior)..][..k], run)
    ensures Covers(log, Some(next)) ==> Others(log[Covered(prior)..], run)[..k] == log[Covered(prior)..next.count]
  {
    var done := Covered(prior);
    var p := FoldedSpan(log, done, run, k);
    CountIsPlace(log, prior, next, done + p);
  }

  /** Where the first k messages not tied to the run end. */
  lemma FoldedSpan(log: seq<Message>, done: nat, run: string, k: int) returns (p: int)
    requires done <= |log| && 0 < k <= |Others(log[done..], run)| && k <= |log| - done
    ensures 0 <= p && done + p < |log| && log[done + p] == Others(log[done..], run)[k - 1]
    ensures k <= p + 1 && (k == p + 1 <==> NoneOf(log[done..][..k], run))
    ensures k == p + 1 ==>
              Others(log[done..], run)[..k] == log[done..done + k] && Others(log[done..], run)[0] == log[done]
  {
    var rest := log[done..];
    p := PlaceOf(rest, run, k);
    FoldedFirst(rest, run, k, p);
    assert rest[..k] == log[done..done + k];
  }

  /** With the right last message, the count decides. */
  lemma CountIsPlace(log: seq<Message>, prior: Option<Proposal>, next: Proposal, place: nat)
    requires Distinct(log) && Covers(log, prior) && Covered(prior) <= place < |log| && next.lastId == log[place].id
    requires 0 < next.count
    ensures Covers(log, Some(next)) ==> next.count == place + 1
    ensures next.count == place + 1 && next.firstId == log[0].id ==> Covers(log, Some(next))
  {
    assert 0 < next.count <= |log| && next.count != place + 1 ==> log[next.count - 1].id != log[place].id;
  }

  /** The new summary's count is right exactly when the compiling run's own messages come after
      as many pending ones as are folded in; then nothing falls between summary and history. */
  lemma CompactionCoversIff(log: seq<Message>, prior: Option<Proposal>, run: string, threshold: nat, recent: nat)
    requires Distinct(log) && Covers(log, prior)
    requires var r := CompileRun(log, prior, run, threshold, recent); r.Ok? && r.value.proposed
    ensures var c := CompileRun(log, prior, run, threshold, recent).value;
            && (Covers(log, c.summary) <==> OwnComeLater(log, prior, run, recent))
            && (Covers(log, c.summary) ==>
                  && Covered(c.summary) == Covered(prior) + FoldSize(log, prior, run, recent)
                  && FirstOf(Others(log[Covered(prior)..], run), HistoryLimit) ==
                     log[Covered(prior)..Covered(c.summary)] + c.history)
  {
    PendingAfterCovered(log, prior);
    CompactProposes(History(log, prior, run).value, prior, threshold, recent);
    var c := CompileRun(log, prior, run, threshold, recent).value;
    CompactedCovers(log, prior, run, recent, c.summary.value, c.history);
  }

  lemma CompactedCovers(log: seq<Message>, prior: Option<Proposal>, run: string, recent: nat, next: Proposal,
    history: seq<Message>)
    requires Distinct(log) && Covers(log, prior)
    requires var offered := FirstOf(Others(Rest(log, prior), run), HistoryLimit);
             var older := AllBut(offered, recent);
             && older != [] && history == LastOf(offered, recent)
             && next.count == Covered(prior) + |older| && next.lastId == older[|older| - 1].id
             && next.firstId == (if prior.Some? then prior.value.firstId else older[0].id)
    ensures Covers(log, Some(next)) <==> OwnComeLater(log, prior, run, recent)
    ensures Covers(log, Some(next)) ==>
              FirstOf(Others(log[Covered(prior)..], run), HistoryLimit) == log[Covered(prior)..next.count] + history
  {
    var rest := log[Covered(prior)..];
    var others := Others(rest, run);
    OthersCount(rest, run);
    AllButFirst(others, HistoryLimit, recent);
    var k := |AllBut(FirstOf(others, HistoryLimit), recent)|;
    FoldedCovers(log, prior, run, k, next);
    assert FirstOf(rest, k) == rest[..k];
  }

  lemma CompactProposes(history: seq<Message>, prior: Option<Proposal>, threshold: nat, recent: nat)
    requires Compact(history, prior, threshold, recent).Ok?
             && Compact(history, prior, threshold, recent).value.proposed
    ensures var c := Compact(history, prior, threshold, recent).value;
            var older := AllBut(history, recent);
            && older != [] && c.history == LastOf(history, recent) && c.summary.Some?
            && c.summary.value.count == Covered(prior) + |older|
            && c.summary.value.lastId == older[|older| - 1].id
            && c.summary.value.firstId == (if prior.Some? then prior.value.firstId else older[0].id)
            && |c.summary.value.content| <= ContentWidth
  {
    SummarizeProposes(AllBut(history, recent), NextVersion(prior), prior);
  }

  lemma SummarizeProposes(older: seq<Message>, version: int, prior: Option<Proposal>)
    requires older != []
    ensures Summarize(older, version, prior).Ok?
    ensures var s := Summarize(older, version, prior).value;
            && s.count == Covered(prior) + |older| && s.lastId == older[|older| - 1].id
            && s.firstId == (if prior.Some? then prior.value.firstId else older[0].id) && |s.content| <= ContentWidth
  {
  }

  /** On request the count is right exactly when the earlier summary stands for precisely the
      messages beyond the newest ten thousand: in a shorter conversation, when there was none. */
  lemma RequestCoversIff(log: seq<Message>, prior: Option<Proposal>, keep: nat, next: Proposal)
    requires Distinct(log) && Covers(log, prior)
    requires CompactOnRequest(log, prior, keep) == Ok(next)
    ensures Covers(log, Some(next)) <==> Covered(prior) == |log| - |LastOf(log, HistoryLimit)|
  {
    var older := Requested(log, keep);
    SummarizeProposes(older, NextVersion(prior), prior);
    RequestedCovers(log, prior, keep, next);
  }

  lemma RequestedCovers(log: seq<Message>, prior: Option<Proposal>, keep: nat, next: Proposal)
    requires Distinct(log) && Covers(log, prior) && Requested(log, keep) != []
    requires var older := Requested(log, keep);
             next.count == Covered(prior) + |older| && next.lastId == older[|older| - 1].id
             && next.firstId == (if prior.Some? then prior.value.firstId else older[0].id)
    ensures Covers(log, Some(next)) <==> Covered(prior) == |log| - |LastOf(log, HistoryLimit)|
  {
    RequestedStretch(log, keep);
    StretchCovers(log, prior, |log| - |LastOf(log, HistoryLimit)|, |Requested(log, keep)|, next);
  }

  lemma RequestedStretch(log: seq<Message>, keep: nat)
    requires Requested(log, keep) != []
    ensures var skipped, older := |log| - |LastOf(log, HistoryLimit)|, Requested(log, keep);
            && 0 <= skipped && skipped + |older| <= |log|
            && older[0] == log[skipped] && older[|older| - 1] == log[skipped + |older| - 1]
  {
    var messages := LastOf(log, HistoryLimit);
    MiddleOf(log, HistoryLimit, if |messages| <= keep then 1 else keep);
  }

  lemma MiddleOf<T>(s: seq<T>, limit: nat, keep: nat)
    requires AllBut(LastOf(s, limit), keep) != []
    ensures var last, older := LastOf(s, limit), AllBut(LastOf(s, limit), keep);
            && |older| <= |last| <= |s|
            && older[0] == s[|s| - |last|] && older[|older| - 1] == s[|s| - |last| + |older| - 1]
  {
  }

  /** A summary of the stretch of n messages after the first few, on top of an earlier one. */
  lemma StretchCovers(log: seq<Message>, prior: Option<Proposal>, skipped: nat, n: nat, next: Proposal)
    requires Distinct(log) && Covers(log, prior) && 0 < n && skipped + n <= |log|
    requires next.count == Covered(prior) + n && next.lastId == log[skipped + n - 1].id
    requires next.firstId == if prior.Some? then prior.value.firstId else log[skipped].id
    ensures Covers(log, Some(next)) <==> Covered(prior) == skipped
  {
    assert 0 < next.count <= |log| && next.count != skipped + n ==> log[next.count - 1].id != log[skipped + n - 1].id;
  }

  // ---------------------------------------------------------------- over a whole conversation

  datatype Event = Append(message: Message) | Compile(run: string) | Request(keep: nat)

  datatype State = State(log: seq<Message>, summary: Option<Proposal>)

  const Threshold := 24
  const RecentTurns := 12

  function Next(s: State, e: Event): State {
    match e
    case Append(m) => s.(log := s.log + [m])
    case Compile(run) =>
      var r := CompileRun(s.log, s.summary, run, Threshold, RecentTurns);
      if r.Ok? then s.(summary := r.value.summary) else s
    case Request(keep) =>
      var r := CompactOnRequest(s.log, s.summary, keep);
      if r.Ok? then s.(summary := Some(r.value)) else s
  }

  /** A new message's id is new. */
  predicate Fresh(s: State, e: Event) {
    e.Append? ==> forall x <- s.log :: x.id != e.message.id
  }

  /** A compaction folds in nothing past the compiling run's first own message; a requested one
      that goes through finds just what lies beyond the newest ten thousand already covered. */
  predicate Tidy(s: State, e: Event) {
    match e
    case Append(_) => true
    case Compile(run) =>
      |Others(Rest(s.log, s.summary), run)| > Threshold ==> OwnComeLater(s.log, s.summary, run, RecentTurns)
    case Request(keep) =>
      |LastOf(s.log, HistoryLimit)| >= 2 && Requested(s.log, keep) != [] ==>
        Covered(s.summary) == |s.log| - |LastOf(s.log, HistoryLimit)|
  }

  function After(es: seq<Event>): State {
    if es == [] then State([], None) else Next(After(es[..|es| - 1]), es[|es| - 1])
  }

  predicate AllFresh(es: seq<Event>) {
    es == [] || (AllFresh(es[..|es| - 1]) && Fresh(After(es[..|es| - 1]), es[|es| - 1]))
  }

  predicate AllTidy(es: seq<Event>) {
    es == [] || (AllTidy(es[..|es| - 1]) && Tidy(After(es[..|es| - 1]), es[|es| - 1]))
  }

  /** At every point of the history the summary describes a prefix of the conversation. */
  predicate CoversThroughout(es: seq<Event>) {
    Covers(After(es).log, After(es).summary) && (es == [] || CoversThroughout(es[..|es| - 1]))
  }

  /** What the next compilation offers, in terms of what is already covered. */
  lemma NextCompilation(s: State, run: string)
    requires Distinct(s.log) && Covers(s.log, s.summary)
    ensures var r := CompileRun(s.log, s.summary, run, Threshold, RecentTurns);
            var others := Others(Rest(s.log, s.summary), run);
            && r.Ok? && |r.value.history| <= Threshold
            && (r.value.proposed <==> |others| > Threshold)
            && (if r.value.proposed then |r.value.history| == RecentTurns && r.value.summary.Some?
                else r.value.history == others && r.value.summary == s.summary)
  {
    PendingAfterCovered(s.log, s.summary);
    var r := CompileRun(s.log, s.summary, run, Threshold, RecentTurns);
    if r.value.proposed {
      CompactProposes(History(s.log, s.summary, run).value, s.summary, Threshold, RecentTurns);
    }
  }

  lemma CompileCoversIff(s: State, run: string)
    requires Distinct(s.log) && Covers(s.log, s.summary)
    ensures Covers(Next(s, Compile(run)).log, Next(s, Compile(run)).summary) <==> Tidy(s, Compile(run))
  {
    NextCompilation(s, run);
    if CompileRun(s.log, s.summary, run, Threshold, RecentTurns).value.proposed {
      CompactionCoversIff(s.log, s.summary, run, Threshold, RecentTurns);
    }
  }

  lemma NextCoversIff(s: State, e: Event)
    requires Distinct(s.log) && Covers(s.log, s.summary) && Fresh(s, e)
    ensures Distinct(Next(s, e).log)
    ensures Covers(Next(s, e).log, Next(s, e).summary) <==> Tidy(s, e)
  {
    match e {
      case Append(_) =>
      case Compile(run) => CompileCoversIff(s, run);
      case Request(keep) =>
        var r := CompactOnRequest(s.log, s.summary, keep);
        if r.Ok? {
          RequestCoversIff(s.log, s.summary, keep, r.value);
        } else if Requested(s.log, keep) != [] {
          SummarizeProposes(Requested(s.log, keep), NextVersion(s.summary), s.summary);
        }
    }
  }

  lemma {:induction false} LogStaysDistinct(es: seq<Event>)
    requires AllFresh(es)
    ensures Distinct(After(es).log)
  {
    if es != [] {
      LogStaysDistinct(es[..|es| - 1]);
    }
  }

  /** Over any history of turns, compilations and requested compactions: the summary's count,
      first and last id describe one prefix of the conversation at every point exactly when
      each step is tidy when its turn comes. */
  lemma {:induction false} SummaryChainIff(es: seq<Event>)
    requires AllFresh(es)
    ensures CoversThroughout(es) <==> AllTidy(es)
  {
    if es != [] {
      SummaryChainIff(es[..|es| - 1]);
      LogStaysDistinct(es[..|es| - 1]);
      if CoversThroughout(es[..|es| - 1]) {
        NextCoversIff(After(es[..|es| - 1]), es[|es| - 1]);
      }
    }
  }

  predicate SummaryBounded(s: Option<Proposal>) {
    s.Some? ==> |s.value.content| <= ContentWidth
  }

  lemma NextStaysBounded(s: State, e: Event)
    requires SummaryBounded(s.summary)
    ensures SummaryBounded(Next(s, e).summary)
  {
    match e {
      case Append(_) =>
      case Compile(run) =>
        if CompileRun(s.log, s.summary, run, Threshold, RecentTurns).Ok? {
          CompileStaysBounded(s.log, s.summary, run, Threshold, RecentTurns);
        }
      case Request(keep) =>
        if Requested(s.log, keep) != [] {
          SummarizeProposes(Requested(s.log, keep), NextVersion(s.summary), s.summary);
        }
    }
  }

  lemma CompileStaysBounded(log: seq<Message>, prior: Option<Proposal>, run: string, threshold: nat, recent: nat)
    requires SummaryBounded(prior) && CompileRun(log, prior, run, threshold, recent).Ok?
    ensures SummaryBounded(CompileRun(log, prior, run, threshold, recent).value.summary)
  {
    var history := History(log, prior, run).value;
    if Compact(history, prior, threshold, recent).value.proposed {
      CompactProposes(history, prior, threshold, recent);
    }
  }

  /** Over any history at all, the content stays bounded. */
  lemma {:induction false} SummaryStaysBounded(es: seq<Event>)
    ensures SummaryBounded(After(es).summary)
  {
    if es != [] {
      SummaryStaysBounded(es[..|es| - 1]);
      NextStaysBounded(After(es[..|es| - 1]), es[|es| - 1]);
    }
  }

  // ---------------------------------------------------------------- two failing inputs

  /** A message of its own length as id. */
  function Numbered(n: nat, run: Option<string>): Message {
    Message(seq(n, _ => 'x'), "c", "user", "hello", run)
  }

  /** A run's first message, then twenty-five from elsewhere. */
  function OwnFirst(): (log: seq<Message>)
    ensures |log| == 26 && log[0] == Numbered(0, Some("r"))
    ensures forall i :: 1 <= i < 26 ==> log[i] == Numbered(i, None)
  {
    seq(26, i requires 0 <= i < 26 => Numbered(i, if i == 0 then Some("r") else None))
  }

  /** Compiling that run folds past its own message, and the summary's count is one short. */
  lemma OwnMessageBreaksCoverage()
    ensures Distinct(OwnFirst()) && Covers(OwnFirst(), None)
    ensures var c := CompileRun(OwnFirst(), None, "r", Threshold, RecentTurns);
            c.Ok? && c.value.proposed && !Covers(OwnFirst(), c.value.summary)
  {
    OwnFirstOthers(OwnFirst());
    FirstIsOwn(OwnFirst());
  }

  lemma OwnFirstOthers(log: seq<Message>)
    requires log == OwnFirst()
    ensures Distinct(log) && Rest(log, None) == log && |Others(log, "r")| == 25
  {
    assert forall i :: 0 <= i < 26 ==> |log[i].id| == i;
    assert log == log[..1] + log[1..];
    OthersJoin(log[..1], log[1..], "r");
    OthersCount(log[1..], "r");
    assert Others(log[..1], "r") == [];
  }

  /** A conversation of a run's own message and more others than the threshold. */
  lemma FirstIsOwn(log: seq<Message>)
    requires Distinct(log) && Rest(log, None) == log && log != [] && log[0].run == Some("r")
    requires Threshold < |Others(log, "r")|
    ensures var c := CompileRun(log, None, "r", Threshold, RecentTurns);
            c.Ok? && c.value.proposed && !Covers(log, c.value.summary)
  {
    NextCompilation(State(log, None), "r");
    CompactionCoversIff(log, None, "r", Threshold, RecentTurns);
    assert FoldSize(log, None, "r", RecentTurns) > 0;
    assert FirstOf(log, FoldSize(log, None, "r", RecentTurns))[0] == log[0];
  }

  /** Ten messages from elsewhere. */
  function TenMessages(): (log: seq<Message>)
    ensures |log| == 10 && forall i :: 0 <= i < 10 ==> log[i] == Numbered(i, None)
  {
    seq(10, i requires 0 <= i < 10 => Numbered(i, None))
  }

  /** A summary of the first message, and compaction on request that keeps eight turns: two
      messages are counted as three. */
  lemma RequestCountsTwice(content: string)
    ensures var prior := Proposal("c", 1, "", "", 1, content);
            var r := CompactOnRequest(TenMessages(), Some(prior), 8);
            && Distinct(TenMessages()) && Covers(TenMessages(), Some(prior))
            && r.Ok? && r.value.count == 3 && r.value.lastId == TenMessages()[1].id
            && !Covers(TenMessages(), Some(r.value))
  {
    var log, prior := TenMessages(), Proposal("c", 1, "", "", 1, content);
    assert forall i :: 0 <= i < 10 ==> |log[i].id| == i;
    assert Requested(log, 8) == log[..2];
    SummarizeProposes(Requested(log, 8), 2, Some(prior));
    RequestCoversIff(log, Some(prior), 8, CompactOnRequest(log, Some(prior), 8).value);
  }
}
