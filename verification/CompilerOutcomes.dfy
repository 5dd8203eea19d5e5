/**
 In which order optional material competes for room, what each piece of it is measured by when
 its turn comes, and where what is kept stands in the prompt.
 */
module CompilerOutcomes {
  import opened Wrappers
  import opened Ordering
  import opened Rendering
  import opened RenderOrder
  import opened Context
  import opened Compiler
  import Summary

  // ---------------------------------------------------------------- the order of turns

  /** Tier, then the higher priority, then sort key and name. */
  predicate NotAfter(x: Candidate, y: Candidate) {
    x.tier < y.tier
    || (x.tier == y.tier
        && (x.priority > y.priority
            || (x.priority == y.priority && Leq(x.sortKey + Codes(x.name), y.sortKey + Codes(y.name)))))
  }

  lemma KeysCompare(x: Candidate, y: Candidate)
    requires Leq(OptionalKey(x), OptionalKey(y))
    ensures NotAfter(x, y)
  {
    var a, b := x.sortKey + Codes(x.name), y.sortKey + Codes(y.name);
    var p, q := [-x.priority as real] + a, [-y.priority as real] + b;
    assert OptionalKey(x) == [x.tier as real] + p && OptionalKey(y) == [y.tier as real] + q;
    HeadsCompare(x.tier as real, p, y.tier as real, q);
    HeadsCompare(-x.priority as real, a, -y.priority as real, b);
  }

  lemma HeadsCompare(m: real, a: Key, n: real, b: Key)
    ensures Leq([m] + a, [n] + b) <==> m < n || (m == n && Leq(a, b))
  {
    assert ([m] + a)[1..] == a && ([n] + b)[1..] == b;
  }

  /** Optional material is tried by tier, in a tier by falling priority, and then by sort key. */
  lemma TurnsByPriority(s: Settings, r: Request, p: Plan, i: int, j: int)
    requires Prepare(s, r) == Ok(p) && 0 <= i < j < |p.optional|
    ensures NotAfter(p.optional[i], p.optional[j])
  {
    PreparedMembers(s, r, p);
    var cs := Optional(s.encoding, r, Conversation(r, s.profiles[r.profile]).value);
    SortSorted(cs, OptionalKey);
    assert p.optional == Sort(cs, OptionalKey);
    KeysCompare(p.optional[i], p.optional[j]);
  }

  // ---------------------------------------------------------------- what competes

  /** The kinds of optional material by tier, and within one by priority. */
  ghost predicate Ranked(c: Candidate) {
    match c.category
    case "conversation_summary" => c.tier == 2 && c.priority == 850 && c.sortKey == [0.0]
    case "history" => c.tier == 2 && c.priority >= 700
    case "curated_memory" => c.tier == 3 && c.priority == 800
    case "retrieved_memory" => c.tier == 3
    case "operational" => c.tier == 4
    case "artifact" => c.tier == 5
    case _ => false
  }

  function Rank(category: string): int {
    match category
    case "conversation_summary" => 2
    case "history" => 2
    case "curated_memory" => 3
    case "retrieved_memory" => 3
    case "operational" => 4
    case _ => 5
  }

  ghost predicate AllRanked(cs: seq<Candidate>) {
    forall c <- cs :: Ranked(c) && !c.mandatory
  }

  lemma OptionalRanked(e: Encoding, r: Request, c: Summary.Compiled)
    ensures AllRanked(Optional(e, r, c))
  {
    var curated, heartbeat := CuratedCandidates(e, r.curated), HeartbeatCandidates(e, r.profile, r.heartbeat);
    var memories, artifacts := MemoryCandidates(e, r.memories), ArtifactCandidates(e, r.artifacts);
    var summary, messages := SummaryCandidates(e, c.summary), MessageCandidates(e, c.history);
    JoinRanked(curated, heartbeat);
    JoinRanked(curated + heartbeat, memories);
    JoinRanked(Early(e, r), summary);
    JoinRanked(Early(e, r) + summary, messages);
    JoinRanked(Early(e, r) + summary + messages, artifacts);
  }

  lemma JoinRanked(a: seq<Candidate>, b: seq<Candidate>)
    requires AllRanked(a) && AllRanked(b)
    ensures AllRanked(a + b)
  {
  }

  lemma PreparedRanked(s: Settings, r: Request, p: Plan)
    requires Prepare(s, r) == Ok(p)
    ensures AllRanked(p.optional)
  {
    PreparedMembers(s, r, p);
    var cs := Optional(s.encoding, r, Conversation(r, s.profiles[r.profile]).value);
    OptionalRanked(s.encoding, r, Conversation(r, s.profiles[r.profile]).value);
    forall c <- p.optional
      ensures Ranked(c) && !c.mandatory
    {
      assert c in multiset(p.optional) && c in multiset(cs) && c in cs;
    }
  }

  /** Conversation before memory before operational notes before artifacts. */
  lemma TurnsByKind(s: Settings, r: Request, p: Plan, i: int, j: int)
    requires Prepare(s, r) == Ok(p) && 0 <= i < j < |p.optional|
    ensures Rank(p.optional[i].category) <= Rank(p.optional[j].category)
  {
    var x, y := p.optional[i], p.optional[j];
    TurnsByPriority(s, r, p, i, j);
    PreparedTier(s, r, p, i);
    PreparedTier(s, r, p, j);
    assert x.tier <= y.tier;
  }

  lemma PreparedTier(s: Settings, r: Request, p: Plan, i: int)
    requires Prepare(s, r) == Ok(p) && 0 <= i < |p.optional|
    ensures p.optional[i].tier == Rank(p.optional[i].category)
  {
    PreparedRanked(s, r, p);
    RankedTier(p.optional[i]);
  }

  lemma RankedTier(c: Candidate)
    requires Ranked(c)
    ensures c.tier == Rank(c.category)
  {
  }

  // ---------------------------------------------------------------- history

  /** The candidate made of the i-th message offered. */
  ghost predicate MessageAt(history: seq<Summary.Message>, i: int, c: Candidate) {
    && 0 <= i < |history| && c.category == "history" && c.name == "message:" + history[i].id
    && c.tier == 2 && c.priority == 700 + i && c.sortKey == [i as real]
  }

  lemma HistoryIsMessages(e: Encoding, r: Request, c: Summary.Compiled, x: Candidate)
    requires x in Optional(e, r, c) && x.category == "history"
    ensures x in MessageCandidates(e, c.history)
  {
    assert x in CuratedCandidates(e, r.curated) ==> x.category == "curated_memory";
    assert x in HeartbeatCandidates(e, r.profile, r.heartbeat) ==> x.category == "operational";
    assert x in MemoryCandidates(e, r.memories) ==> x.category == "retrieved_memory";
    assert x in SummaryCandidates(e, c.summary) ==> x.category == "conversation_summary";
    assert x in ArtifactCandidates(e, r.artifacts) ==> x.category == "artifact";
  }

  lemma MessagePlace(s: Settings, r: Request, p: Plan, x: Candidate) returns (i: int)
    requires Prepare(s, r) == Ok(p) && x in p.optional && x.category == "history"
    ensures r.profile in s.profiles && Conversation(r, s.profiles[r.profile]).Ok?
    ensures MessageAt(Conversation(r, s.profiles[r.profile]).value.history, i, x)
  {
    PreparedMembers(s, r, p);
    var c := Conversation(r, s.profiles[r.profile]).value;
    assert x in multiset(p.optional) && x in multiset(Optional(s.encoding, r, c));
    i := PlaceOf(s.encoding, r, c, x);
  }

  lemma PlaceOf(e: Encoding, r: Request, c: Summary.Compiled, x: Candidate) returns (i: int)
    requires x in Optional(e, r, c) && x.category == "history"
    ensures MessageAt(c.history, i, x)
  {
    HistoryIsMessages(e, r, c, x);
    var ms := MessageCandidates(e, c.history);
    i :| 0 <= i < |ms| && ms[i] == x;
  }

  lemma TwiceCounted<T>(s: seq<T>, a: int, b: int)
    requires 0 <= a < b < |s| && s[a] == s[b]
    ensures multiset(s)[s[a]] >= 2
  {
    assert s == s[..b] + s[b..];
    assert s[a] in s[..b] && s[b] in s[b..];
  }

  lemma {:induction false} OnceCounted<T>(s: seq<T>, k: int)
    requires 0 <= k < |s| && forall l :: 0 <= l < |s| && l != k ==> s[l] != s[k]
    ensures multiset(s)[s[k]] == 1
  {
    assert s == s[..k] + [s[k]] + s[k + 1..];
    assert s[k] !in s[..k] && s[k] !in s[k + 1..];
  }

  lemma MessageOnce(e: Encoding, r: Request, c: Summary.Compiled, x: Candidate)
    requires x in Optional(e, r, c) && x.category == "history"
    ensures multiset(Optional(e, r, c))[x] == 1
  {
    HistoryIsMessages(e, r, c, x);
    var early, summary := Early(e, r), SummaryCandidates(e, c.summary);
    var messages, artifacts := MessageCandidates(e, c.history), ArtifactCandidates(e, r.artifacts);
    NotHistory(e, r, c, x);
    var k :| 0 <= k < |messages| && messages[k] == x;
    forall l | 0 <= l < |messages| && l != k
      ensures messages[l] != messages[k]
    {
      assert messages[l].priority != messages[k].priority;
    }
    OnceCounted(messages, k);
    assert Optional(e, r, c) == early + summary + messages + artifacts;
    assert multiset(early + summary + messages + artifacts)
        == multiset(early) + multiset(summary) + multiset(messages) + multiset(artifacts);
  }

  lemma NotHistory(e: Encoding, r: Request, c: Summary.Compiled, x: Candidate)
    requires x.category == "history"
    ensures x !in Early(e, r) && x !in SummaryCandidates(e, c.summary) && x !in ArtifactCandidates(e, r.artifacts)
  {
    assert x in CuratedCandidates(e, r.curated) ==> x.category == "curated_memory";
    assert x in HeartbeatCandidates(e, r.profile, r.heartbeat) ==> x.category == "operational";
    assert x in MemoryCandidates(e, r.memories) ==> x.category == "retrieved_memory";
  }

  /** Of two messages the later one has its turn first. */
  lemma NewestFirst(s: Settings, r: Request, p: Plan, a: int, b: int) returns (i: int, j: int)
    requires Prepare(s, r) == Ok(p) && 0 <= a < b < |p.optional|
    requires p.optional[a].category == "history" && p.optional[b].category == "history"
    ensures r.profile in s.profiles && Conversation(r, s.profiles[r.profile]).Ok? && i > j
    ensures MessageAt(Conversation(r, s.profiles[r.profile]).value.history, i, p.optional[a])
    ensures MessageAt(Conversation(r, s.profiles[r.profile]).value.history, j, p.optional[b])
  {
    i := MessagePlace(s, r, p, p.optional[a]);
    j := MessagePlace(s, r, p, p.optional[b]);
    TurnsByPriority(s, r, p, a, b);
    DifferentPlaces(s, r, p, a, b, i, j);
  }

  lemma DifferentPlaces(s: Settings, r: Request, p: Plan, a: int, b: int, i: int, j: int)
    requires Prepare(s, r) == Ok(p) && 0 <= a < b < |p.optional| && r.profile in s.profiles
    requires Conversation(r, s.profiles[r.profile]).Ok?
    requires MessageAt(Conversation(r, s.profiles[r.profile]).value.history, i, p.optional[a])
    requires MessageAt(Conversation(r, s.profiles[r.profile]).value.history, j, p.optional[b])
    ensures i != j
  {
    PreparedMembers(s, r, p);
    var e, c := s.encoding, Conversation(r, s.profiles[r.profile]).value;
    var x, y := p.optional[a], p.optional[b];
    assert x in multiset(p.optional) && y in multiset(p.optional);
    assert x in multiset(Optional(e, r, c)) && y in multiset(Optional(e, r, c));
    MessageOnce(e, r, c, x);
    if i == j {
      SameMessage(e, r, c, x, y);
      TwiceCounted(p.optional, a, b);
    }
  }

  lemma SameMessage(e: Encoding, r: Request, c: Summary.Compiled, x: Candidate, y: Candidate)
    requires x in Optional(e, r, c) && y in Optional(e, r, c) && x.category == y.category == "history"
    requires x.priority == y.priority
    ensures x == y
  {
    HistoryIsMessages(e, r, c, x);
    HistoryIsMessages(e, r, c, y);
  }

  /** The summary has its turn before the first hundred and fifty-one messages, and after any
      further ones. */
  lemma SummaryTurn(s: Settings, r: Request, p: Plan, a: int, b: int) returns (i: int)
    requires Prepare(s, r) == Ok(p) && 0 <= a < |p.optional| && 0 <= b < |p.optional|
    requires p.optional[a].category == "conversation_summary" && p.optional[b].category == "history"
    ensures r.profile in s.profiles && Conversation(r, s.profiles[r.profile]).Ok?
    ensures MessageAt(Conversation(r, s.profiles[r.profile]).value.history, i, p.optional[b])
    ensures a < b <==> i <= 150
  {
    i := MessagePlace(s, r, p, p.optional[b]);
    PreparedRanked(s, r, p);
    SummaryRanked(p.optional[a]);
    if a < b {
      TurnsByPriority(s, r, p, a, b);
      HeadsCompare(0.0, Codes(p.optional[a].name), i as real, Codes(p.optional[b].name));
    } else {
      assert a != b;
      TurnsByPriority(s, r, p, b, a);
      HeadsCompare(i as real, Codes(p.optional[b].name), 0.0, Codes(p.optional[a].name));
    }
  }

  lemma SummaryRanked(c: Candidate)
    requires Ranked(c) && c.category == "conversation_summary"
    ensures c.tier == 2 && c.priority == 850 && c.sortKey == [0.0]
  {
  }

  // ---------------------------------------------------------------- memories and artifacts

  lemma TruncateGrows(x: real, y: real)
    requires x <= y
    ensures Truncate(x) <= Truncate(y)
  {
  }

  lemma HundredfoldGrows(x: real, y: real)
    requires x <= y
    ensures x * 100.0 <= y * 100.0
  {
  }

  lemma MemoriesCompare(e: Encoding, m: Memory, n: Memory)
    requires NotAfter(MemoryCandidate(e, m), MemoryCandidate(e, n))
    ensures m.confidence >= n.confidence
  {
    var x, y := MemoryCandidate(e, m), MemoryCandidate(e, n);
    var a, b := x.sortKey + Codes(x.name), y.sortKey + Codes(y.name);
    assert a[0] == -m.confidence && b[0] == -n.confidence;
    if m.confidence < n.confidence {
      HundredfoldGrows(m.confidence, n.confidence);
      TruncateGrows(m.confidence * 100.0, n.confidence * 100.0);
    }
  }

  lemma MemoryOf(s: Settings, r: Request, p: Plan, x: Candidate) returns (m: Memory)
    requires Prepare(s, r) == Ok(p) && x in p.optional && x.category == "retrieved_memory"
    ensures m in r.memories && x == MemoryCandidate(s.encoding, m) && x.name == "memory:" + m.id
  {
    PreparedMembers(s, r, p);
    var e, c := s.encoding, Conversation(r, s.profiles[r.profile]).value;
    assert x in multiset(p.optional) && x in multiset(Optional(e, r, c));
    IsMemory(e, r, c, x);
    m := MemoryBehind(e, r.memories, x);
  }

  lemma MemoryBehind(e: Encoding, ms: seq<Memory>, x: Candidate) returns (m: Memory)
    requires x in MemoryCandidates(e, ms)
    ensures m in ms && x == MemoryCandidate(e, m) && x.name == "memory:" + m.id
  {
    var i :| 0 <= i < |ms| && MemoryCandidates(e, ms)[i] == x;
    m := ms[i];
  }

  lemma IsMemory(e: Encoding, r: Request, c: Summary.Compiled, x: Candidate)
    requires x in Optional(e, r, c) && x.category == "retrieved_memory"
    ensures x in MemoryCandidates(e, r.memories)
  {
    assert x in CuratedCandidates(e, r.curated) ==> x.category == "curated_memory";
    assert x in HeartbeatCandidates(e, r.profile, r.heartbeat) ==> x.category == "operational";
    assert x in SummaryCandidates(e, c.summary) ==> x.category == "conversation_summary";
    assert x in MessageCandidates(e, c.history) ==> x.category == "history";
    assert x in ArtifactCandidates(e, r.artifacts) ==> x.category == "artifact";
  }

  /** Of two memories the one held with more confidence has its turn first. */
  lemma MoreConfidentFirst(s: Settings, r: Request, p: Plan, a: int, b: int) returns (m: Memory, n: Memory)
    requires Prepare(s, r) == Ok(p) && 0 <= a < b < |p.optional|
    requires p.optional[a].category == "retrieved_memory" && p.optional[b].category == "retrieved_memory"
    ensures m in r.memories && n in r.memories && m.confidence >= n.confidence
    ensures p.optional[a].name == "memory:" + m.id && p.optional[b].name == "memory:" + n.id
  {
    m := MemoryOf(s, r, p, p.optional[a]);
    n := MemoryOf(s, r, p, p.optional[b]);
    TurnsByPriority(s, r, p, a, b);
    MemoriesCompare(s.encoding, m, n);
  }

  lemma ArtifactOf(s: Settings, r: Request, p: Plan, x: Candidate) returns (a: Artifact)
    requires Prepare(s, r) == Ok(p) && x in p.optional && x.category == "artifact"
    ensures a in r.artifacts && x == ArtifactCandidate(s.encoding, a) && x.name == "artifact:" + a.id
  {
    PreparedMembers(s, r, p);
    var e, c := s.encoding, Conversation(r, s.profiles[r.profile]).value;
    assert x in multiset(p.optional) && x in multiset(Optional(e, r, c));
    IsArtifact(e, r, c, x);
    a := ArtifactBehind(e, r.artifacts, x);
  }

  lemma ArtifactBehind(e: Encoding, xs: seq<Artifact>, x: Candidate) returns (a: Artifact)
    requires x in ArtifactCandidates(e, xs)
    ensures a in xs && x == ArtifactCandidate(e, a) && x.name == "artifact:" + a.id
  {
    var i :| 0 <= i < |xs| && ArtifactCandidates(e, xs)[i] == x;
    a := xs[i];
  }

  lemma IsArtifact(e: Encoding, r: Request, c: Summary.Compiled, x: Candidate)
    requires x in Optional(e, r, c) && x.category == "artifact"
    ensures x in ArtifactCandidates(e, r.artifacts)
  {
    assert x in CuratedCandidates(e, r.curated) ==> x.category == "curated_memory";
    assert x in HeartbeatCandidates(e, r.profile, r.heartbeat) ==> x.category == "operational";
    assert x in MemoryCandidates(e, r.memories) ==> x.category == "retrieved_memory";
    assert x in SummaryCandidates(e, c.summary) ==> x.category == "conversation_summary";
    assert x in MessageCandidates(e, c.history) ==> x.category == "history";
  }

  /** Of two artifacts the more relevant one. */
  lemma MoreRelevantFirst(s: Settings, r: Request, p: Plan, a: int, b: int) returns (x: Artifact, y: Artifact)
    requires Prepare(s, r) == Ok(p) && 0 <= a < b < |p.optional|
    requires p.optional[a].category == "artifact" && p.optional[b].category == "artifact"
    ensures x in r.artifacts && y in r.artifacts && x.relevance >= y.relevance
    ensures p.optional[a].name == "artifact:" + x.id && p.optional[b].name == "artifact:" + y.id
  {
    x := ArtifactOf(s, r, p, p.optional[a]);
    y := ArtifactOf(s, r, p, p.optional[b]);
    TurnsByPriority(s, r, p, a, b);
  }

  // ---------------------------------------------------------------- what a turn decides

  /** What one kind of optional material may come to, in tokens. */
  function Share(p: Profile, category: string): int {
    if category in {"history", "conversation_summary"} then p.conversationTokens
    else if category in {"curated_memory", "retrieved_memory"} then p.memoryTokens
    else p.operationalTokens
  }

  /** A third of the UTF-8 bytes, rounded up. */
  predicate Estimates(n: nat, s: string) {
    3 * n - 2 <= Bytes(s) <= 3 * n
  }

  function Kind(cs: seq<Candidate>, category: string): seq<string> {
    if cs == [] then []
    else Kind(cs[..|cs| - 1], category)
         + if cs[|cs| - 1].category == category then [cs[|cs| - 1].encoded] else []
  }

  function Tokens(texts: seq<string>): nat {
    if texts == [] then 0 else Tokens(texts[..|texts| - 1]) + EstimateTokens(texts[|texts| - 1])
  }

  lemma EstimateIsThird(s: string)
    ensures Estimates(EstimateTokens(s), s)
  {
  }

  lemma {:induction false} CategoryIsKind(cs: seq<Candidate>, category: string)
    ensures CategoryTokens(cs, category) == Tokens(Kind(cs, category))
  {
    if cs != [] {
      var init, last := Kind(cs[..|cs| - 1], category), cs[|cs| - 1];
      CategoryIsKind(cs[..|cs| - 1], category);
      if last.category == category {
        assert Kind(cs, category) == init + [last.encoded];
        assert (init + [last.encoded])[..|init|] == init;
      } else {
        assert Kind(cs, category) == init;
      }
    }
  }

  /** Beside what is kept, the candidate would break a limit: first its kind's share, then the
      characters, then the tokens of the prompt. */
  function Obstacle(f: Frame, kept: seq<Candidate>, c: Candidate): Option<Reason> {
    if Tokens(Kind(kept + [c], c.category)) > Share(f.profile, c.category) then Some(CategoryBudget)
    else if |Render(f.header, kept + [c])| > f.characters then Some(CharacterBudget)
    else if EstimateTokens(Render(f.header, kept + [c])) > f.profile.totalTokens then Some(TokenBudget)
    else None
  }

  lemma RefusalIsObstacle(f: Frame, kept: seq<Candidate>, c: Candidate)
    requires c.category != "identity" && c.category != "task"
    ensures Refusal(f, kept, c) == Obstacle(f, kept, c)
  {
    CategoryAppend(kept, c, c.category);
    CategoryIsKind(kept + [c], c.category);
  }

  /** What is kept and left out after one more turn. */
  ghost predicate TurnTaken(f: Frame, before: Selection, c: Candidate, after: Selection) {
    match Obstacle(f, before.included, c)
    case None => after == before.(included := before.included + [c])
    case Some(reason) => after == before.(excluded := before.excluded + [Excluded(c, reason)])
  }

  /** The prompt is filled turn by turn, from the mandatory part on: a candidate is kept exactly if
      nothing stands against it at its turn, and what is left out is listed in that order with
      the first reason against it. */
  ghost predicate Filled(f: Frame, start: seq<Candidate>, turns: seq<Candidate>, stages: seq<Selection>) {
    && |stages| == |turns| + 1 && stages[0] == Selection(start, [])
    && forall i {:trigger turns[i]} :: 0 <= i < |turns| ==> TurnTaken(f, stages[i], turns[i], stages[i + 1])
  }

  lemma OneTurn(f: Frame, start: seq<Candidate>, turns: seq<Candidate>, i: int)
    requires 0 <= i < |turns| && turns[i].category != "identity" && turns[i].category != "task"
    ensures TurnTaken(f, Greedy(BudgetRule(f), start, turns[..i]), turns[i],
                      Greedy(BudgetRule(f), start, turns[..i + 1]))
  {
    var rule := BudgetRule(f);
    var before := Greedy(rule, start, turns[..i]);
    GreedyOneMore(rule, start, turns, i);
    RefusalIsObstacle(f, before.included, turns[i]);
    RuleIsRefusal(f, rule, before.included, turns[i]);
  }

  function Stages(rule: Rule, start: seq<Candidate>, turns: seq<Candidate>): (r: seq<Selection>)
    ensures |r| == |turns| + 1 && forall i :: 0 <= i <= |turns| ==> r[i] == Greedy(rule, start, turns[..i])
  {
    seq(|turns| + 1, i requires 0 <= i <= |turns| => Greedy(rule, start, turns[..i]))
  }

  lemma GreedyIsFilled(f: Frame, start: seq<Candidate>, turns: seq<Candidate>) returns (stages: seq<Selection>)
    requires forall c <- turns :: c.category != "identity" && c.category != "task"
    ensures Filled(f, start, turns, stages) && stages[|turns|] == Greedy(BudgetRule(f), start, turns)
    ensures forall i :: 0 <= i <= |turns| ==> stages[i] == Greedy(BudgetRule(f), start, turns[..i])
  {
    stages := Stages(BudgetRule(f), start, turns);
    assert turns[..|turns|] == turns && turns[..0] == [];
    forall i | 0 <= i < |turns|
      ensures TurnTaken(f, stages[i], turns[i], stages[i + 1])
    {
      OneTurn(f, start, turns, i);
    }
  }

  lemma TurnOutcome(s: Settings, r: Request, p: Plan) returns (stages: seq<Selection>)
    requires Prepare(s, r) == Ok(p)
    ensures Filled(p.frame, p.mandatory, p.optional, stages) && stages[|p.optional|] == Chosen(p)
  {
    NoneIsMandatory(s, r, p);
    stages := GreedyIsFilled(p.frame, p.mandatory, p.optional);
  }

  lemma NoneIsMandatory(s: Settings, r: Request, p: Plan)
    requires Prepare(s, r) == Ok(p)
    ensures forall c <- p.optional :: c.category != "identity" && c.category != "task"
  {
    forall i | 0 <= i < |p.optional|
      ensures p.optional[i].category != "identity" && p.optional[i].category != "task"
    {
      OptionalKind(s, r, p, i);
    }
  }

  lemma OptionalKind(s: Settings, r: Request, p: Plan, i: int)
    requires Prepare(s, r) == Ok(p) && 0 <= i < |p.optional|
    ensures p.optional[i].category != "identity" && p.optional[i].category != "task"
  {
    PreparedRanked(s, r, p);
    RankedIsOptional(p.optional[i]);
  }

  lemma RankedIsOptional(c: Candidate)
    requires Ranked(c)
    ensures c.category != "identity" && c.category != "task"
  {
  }

  lemma {:induction false} StagesGrow(f: Frame, start: seq<Candidate>, turns: seq<Candidate>, stages: seq<Selection>,
                                      i: nat, j: nat)
    requires Filled(f, start, turns, stages) && i <= j <= |turns|
    ensures stages[i].included <= stages[j].included
  {
    if i < j {
      StagesGrow(f, start, turns, stages, i, j - 1);
      assert TurnTaken(f, stages[j - 1], turns[j - 1], stages[j]);
    }
  }

  // ---------------------------------------------------------------- the earlier of two alike

  predicate Competing(c: Candidate) {
    c.category != "identity" && c.category != "task"
  }

  lemma LighterAdds(w: Weighing, header: string, kept: seq<Candidate>, x: Candidate, y: Candidate)
    requires x.section == y.section && Weight(w, x.encoded) <= Weight(w, y.encoded)
    ensures Weight(w, Render(header, kept + [x])) <= Weight(w, Render(header, kept + [y]))
  {
    RenderWeight(w, header, kept + [x]);
    RenderWeight(w, header, kept + [y]);
    CostAppend(w, kept, x);
    CostAppend(w, kept, y);
    WeightOfBlock(w, x.section, [x.encoded]);
    WeightOfBlock(w, y.section, [y.encoded]);
  }

  lemma LighterIsShorter(header: string, kept: seq<Candidate>, x: Candidate, y: Candidate)
    requires x.section == y.section && |x.encoded| <= |y.encoded| && Bytes(x.encoded) <= Bytes(y.encoded)
    ensures |Render(header, kept + [x])| <= |Render(header, kept + [y])|
    ensures Bytes(Render(header, kept + [x])) <= Bytes(Render(header, kept + [y]))
  {
    OneCountsCharacters(x.encoded);
    OneCountsCharacters(y.encoded);
    LighterAdds(One, header, kept, x, y);
    LighterAdds(CharBytes, header, kept, x, y);
    OneCountsCharacters(Render(header, kept + [x]));
    OneCountsCharacters(Render(header, kept + [y]));
  }

  /** What is no longer than something of its kind and section fits where that does. */
  lemma LighterFits(f: Frame, kept: seq<Candidate>, x: Candidate, y: Candidate)
    requires x.section == y.section && x.category == y.category
    requires |x.encoded| <= |y.encoded| && Bytes(x.encoded) <= Bytes(y.encoded) && Refusal(f, kept, y).None?
    ensures Refusal(f, kept, x).None?
  {
    LighterIsShorter(f.header, kept, x, y);
  }

  /** Of two pieces of one kind and section the one whose turn comes first is kept if the other is,
      unless it is longer. */
  lemma EarlierOfTwoKept(f: Frame, start: seq<Candidate>, turns: seq<Candidate>, stages: seq<Selection>, a: nat, b: nat)
    requires Filled(f, start, turns, stages) && a < b < |turns|
    requires turns[a].section == turns[b].section && turns[a].category == turns[b].category && Competing(turns[a])
    requires |turns[a].encoded| <= |turns[b].encoded| && Bytes(turns[a].encoded) <= Bytes(turns[b].encoded)
    requires stages[b + 1].included == stages[b].included + [turns[b]]
    ensures stages[a + 1].included == stages[a].included + [turns[a]]
  {
    var early, late := stages[a].included, stages[b].included;
    StagesGrow(f, start, turns, stages, a, b);
    assert late == early + late[|early|..];
    assert TurnTaken(f, stages[a], turns[a], stages[a + 1]) && TurnTaken(f, stages[b], turns[b], stages[b + 1]);
    StillFits(f, early, late[|early|..], turns[a], turns[b]);
  }

  lemma StillFits(f: Frame, early: seq<Candidate>, more: seq<Candidate>, x: Candidate, y: Candidate)
    requires x.section == y.section && x.category == y.category && Competing(x)
    requires |x.encoded| <= |y.encoded| && Bytes(x.encoded) <= Bytes(y.encoded)
    requires Obstacle(f, early + more, y).None?
    ensures Obstacle(f, early, x).None?
  {
    RefusalIsObstacle(f, early + more, y);
    RefusalIsObstacle(f, early, x);
    if Refusal(f, early, y).Some? {
      RefusedBesideMore(f, early, more, y);
    }
    LighterFits(f, early, x, y);
  }

  // ---------------------------------------------------------------- where it stands

  /** Of the messages kept, the earlier one stands before the later one in the prompt. */
  lemma HistoryInOrder(s: Settings, r: Request, p: Plan, x: Candidate, y: Candidate, i: int, j: int)
    requires Prepare(s, r) == Ok(p) && x in Chosen(p).included && y in Chosen(p).included
    requires r.profile in s.profiles && Conversation(r, s.profiles[r.profile]).Ok? && 0 <= i < j
    requires MessageAt(Conversation(r, s.profiles[r.profile]).value.history, i, x)
    requires MessageAt(Conversation(r, s.profiles[r.profile]).value.history, j, y) && x.section == y.section
    ensures Compile(s, r).Ok? && Before(Compile(s, r).value.prompt, x.encoded, y.encoded)
  {
    ItemsByKey(p.frame.header, Chosen(p).included, x, y);
  }

  /** What is kept of a lower tier stands before any section of higher tiers. */
  lemma TiersStandInOrder(s: Settings, r: Request, p: Plan, x: Candidate, y: Candidate)
    requires Prepare(s, r) == Ok(p) && x in Chosen(p).included && y in Chosen(p).included
    requires forall c <- Chosen(p).included :: c.section == y.section ==> x.tier < c.tier
    ensures Compile(s, r).Ok? && Before(Compile(s, r).value.prompt, x.encoded, y.encoded)
  {
    TiersInOrder(p.frame.header, Chosen(p).included, x, y);
  }
}
