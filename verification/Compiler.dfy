/**
 The context compiler: candidates from identity, task, memory, history and artifacts; the
 mandatory ones first, then as many of the others as the budgets let in.
 */
module Compiler {
  import opened Wrappers
  import opened Text
  import opened Ordering
  import opened Rendering
  import opened Context
  import Summary

  // In these three, encoded is the JSON text that goes into the prompt.
  datatype Document = Document(name: string, encoded: string, sha: string)
  datatype Memory = Memory(id: string, confidence: real, encoded: string, sha: string)
  datatype Artifact = Artifact(id: string, relevance: int, encoded: string, sha: string)

  /** JSON text, digests and fixed wording, which this model takes as given. */
  datatype Encoding = Encoding(task: string -> string, message: Summary.Message -> string,
                               summary: Summary.Proposal -> string, digest: string -> string,
                               header: string -> string, titles: Titles)

  datatype Titles = Titles(identity: string, task: string, curated: string, heartbeat: string, memory: string,
                           summary: string, history: string, artifact: string)

  datatype Request = Request(task: string, profile: string, identity: seq<Document>, curated: Option<Document>,
                             heartbeat: Option<Document>, memories: seq<Memory>, history: seq<Summary.Message>,
                             resumed: bool, prior: Option<Summary.Proposal>, artifacts: seq<Artifact>)

  datatype Settings = Settings(profiles: map<string, Profile>, budget: Budget, encoding: Encoding)

  datatype Failure = UnknownProfile | EmptyTask | TaskTooLong | NothingToSummarize | IdentityTooLong | MandatoryTooLong

  datatype Source = Source(name: string, sha: string, included: bool, reason: Option<Reason>)

  // seal: what the context fingerprint is a digest of.
  datatype Seal = Seal(profile: string, sources: seq<(string, string, bool)>, task: string)

  datatype Output = Output(prompt: string, included: seq<string>, omitted: seq<string>, sources: seq<Source>,
                           seal: Seal, proposal: Option<Summary.Proposal>)

  // ---------------------------------------------------------------- candidates

  function Map<A, B>(f: A -> B, s: seq<A>): (r: seq<B>)
    ensures |r| == |s| && forall i :: 0 <= i < |s| ==> r[i] == f(s[i])
  {
    if s == [] then [] else Map(f, s[..|s| - 1]) + [f(s[|s| - 1])]
  }

  function IdentityCandidates(e: Encoding, docs: seq<Document>): (r: seq<Candidate>)
    ensures |r| == |docs|
    ensures forall i :: 0 <= i < |docs| ==>
      r[i] == Candidate(docs[i].name, "identity", 0, 1000 - i, docs[i].encoded,
                        e.titles.identity, [i as real], docs[i].sha, true)
  {
    if docs == [] then []
    else
      var n := |docs| - 1;
      IdentityCandidates(e, docs[..n]) +
      [Candidate(docs[n].name, "identity", 0, 1000 - n, docs[n].encoded,
                 e.titles.identity, [n as real], docs[n].sha, true)]
  }

  function TaskCandidate(e: Encoding, text: string): Candidate {
    Candidate("current_task", "task", 1, 1000, e.task(text), e.titles.task, [], e.digest(text), true)
  }

  function CuratedCandidates(e: Encoding, curated: Option<Document>): seq<Candidate> {
    match curated
    case None => []
    case Some(d) =>
      [Candidate("MEMORY.md", "curated_memory", 3, 800, d.encoded, e.titles.curated, [0.0], d.sha, false)]
  }

  function HeartbeatCandidates(e: Encoding, profile: string, heartbeat: Option<Document>): seq<Candidate> {
    if profile == "heartbeat" && heartbeat.Some?
    then [Candidate("HEARTBEAT.md", "operational", 4, 900, heartbeat.value.encoded, e.titles.heartbeat, [],
                    heartbeat.value.sha, false)]
    else []
  }

  /** Toward zero. */
  function Truncate(x: real): int {
    if x >= 0.0 then x.Floor else -(-x).Floor
  }

  function MemoryCandidate(e: Encoding, m: Memory): Candidate {
    Candidate("memory:" + m.id, "retrieved_memory", 3, 500 + Truncate(m.confidence * 100.0), m.encoded,
              e.titles.memory, [-m.confidence] + Codes(m.id), m.sha, false)
  }

  function Decimal(n: int): string {
    if n < 0 then "-" + Digits(-n) else Digits(n)
  }

  function SummaryCandidates(e: Encoding, s: Option<Summary.Proposal>): seq<Candidate> {
    match s
    case None => []
    case Some(p) =>
      [Candidate("summary:v" + Decimal(p.version), "conversation_summary", 2, 850, e.summary(p),
                 e.titles.summary, [0.0], e.digest(p.content), false)]
  }

  function MessageCandidates(e: Encoding, ms: seq<Summary.Message>): (r: seq<Candidate>)
    ensures |r| == |ms|
    ensures forall i :: 0 <= i < |ms| ==>
      r[i] == Candidate("message:" + ms[i].id, "history", 2, 700 + i, e.message(ms[i]),
                        e.titles.history, [i as real], e.digest(ms[i].content), false)
  {
    if ms == [] then []
    else
      var n := |ms| - 1;
      MessageCandidates(e, ms[..n]) +
      [Candidate("message:" + ms[n].id, "history", 2, 700 + n, e.message(ms[n]),
                 e.titles.history, [n as real], e.digest(ms[n].content), false)]
  }

  function ArtifactCandidate(e: Encoding, a: Artifact): Candidate {
    Candidate("artifact:" + a.id, "artifact", 5, a.relevance, a.encoded, e.titles.artifact,
              [-a.relevance as real] + Codes(a.id), a.sha, false)
  }

  function MemoryCandidates(e: Encoding, ms: seq<Memory>): seq<Candidate> {
    Map((m: Memory) => MemoryCandidate(e, m), ms)
  }

  function ArtifactCandidates(e: Encoding, xs: seq<Artifact>): seq<Candidate> {
    Map((a: Artifact) => ArtifactCandidate(e, a), xs)
  }

  /** Summary and history offered; neither when the backend still holds the conversation. */
  function Conversation(r: Request, p: Profile): Result<Summary.Compiled, Summary.Error> {
    if r.resumed then Ok(Summary.Compiled(None, false, []))
    else Summary.Compact(r.history, r.prior, p.compactionThreshold, p.recentTurns)
  }

  function Mandatory(e: Encoding, r: Request): seq<Candidate> {
    IdentityCandidates(e, r.identity) + [TaskCandidate(e, Strip(r.task))]
  }

  function Early(e: Encoding, r: Request): seq<Candidate> {
    CuratedCandidates(e, r.curated) + HeartbeatCandidates(e, r.profile, r.heartbeat) + MemoryCandidates(e, r.memories)
  }

  function Optional(e: Encoding, r: Request, c: Summary.Compiled): seq<Candidate> {
    Early(e, r) + SummaryCandidates(e, c.summary) + MessageCandidates(e, c.history)
      + ArtifactCandidates(e, r.artifacts)
  }

  function MandatoryKey(c: Candidate): Key {
    [c.tier as real] + c.sortKey + Codes(c.name)
  }

  function OptionalKey(c: Candidate): Key {
    [c.tier as real] + [-c.priority as real] + c.sortKey + Codes(c.name)
  }

  // ---------------------------------------------------------------- compilation

  function Least(a: int, b: int): int {
    if a < b then a else b
  }

  function FrameOf(s: Settings, profile: string): Frame
    requires profile in s.profiles
  {
    var p := s.profiles[profile];
    Frame(s.encoding.header(profile), p, Least(p.totalCharacters, s.budget.totalCharacters))
  }

  function IdentityLength(cs: seq<Candidate>): nat {
    if cs == [] then 0
    else
      var last := cs[|cs| - 1];
      IdentityLength(cs[..|cs| - 1]) + if last.category == "identity" then |last.encoded| else 0
  }

  function TaskFailure(s: Settings, profile: string, task: string): Option<Failure> {
    if profile !in s.profiles then Some(UnknownProfile)
    else if Strip(task) == "" then Some(EmptyTask)
    else if |Strip(task)| > Least(s.budget.taskCharacters, s.profiles[profile].taskTokens * 3) then Some(TaskTooLong)
    else None
  }

  function MandatoryFailure(s: Settings, f: Frame, mandatory: seq<Candidate>): Option<Failure> {
    if IdentityLength(mandatory) > s.budget.identityCharacters then Some(IdentityTooLong)
    else if |Render(f.header, mandatory)| > f.characters
      || EstimateTokens(Render(f.header, mandatory)) > f.profile.totalTokens
    then Some(MandatoryTooLong)
    else None
  }

  function IncludedSources(cs: seq<Candidate>): seq<Source> {
    Map((c: Candidate) => Source(c.name, c.sha, true, None), cs)
  }

  function ExcludedSources(es: seq<Excluded>): seq<Source> {
    Map((e: Excluded) => Source(e.candidate.name, e.candidate.sha, false, Some(e.reason)), es)
  }

  // What a compilation chooses from: both lists sorted.
  datatype Plan = Plan(frame: Frame, mandatory: seq<Candidate>, optional: seq<Candidate>)

  function PlanOf(e: Encoding, r: Request, f: Frame, c: Summary.Compiled): Plan {
    Plan(f, Sort(Mandatory(e, r), MandatoryKey), Sort(Optional(e, r, c), OptionalKey))
  }

  function Chosen(p: Plan): Selection {
    Greedy(BudgetRule(p.frame), p.mandatory, p.optional)
  }

  function Report(p: Plan, chosen: Selection, profile: string, digest: string,
    proposal: Option<Summary.Proposal>): Output {
    var sources := IncludedSources(chosen.included) + ExcludedSources(chosen.excluded);
    Output(Render(p.frame.header, chosen.included), Names(chosen.included), Omitted(p.optional, chosen.included),
      sources,
           Seal(profile, Map((x: Source) => (x.name, x.sha, x.included), sources), digest), proposal)
  }

  /** The plan of a request, or why it has none. */
  function Prepare(s: Settings, r: Request): Result<Plan, Failure> {
    if TaskFailure(s, r.profile, r.task).Some? then Err(TaskFailure(s, r.profile, r.task).value)
    else
      match Conversation(r, s.profiles[r.profile])
      case Err(_) => Err(NothingToSummarize)
      case Ok(c) => Admit(s, PlanOf(s.encoding, r, FrameOf(s, r.profile), c))
  }

  function Admit(s: Settings, p: Plan): Result<Plan, Failure> {
    match MandatoryFailure(s, p.frame, p.mandatory)
    case Some(x) => Err(x)
    case None => Ok(p)
  }

  function Proposed(s: Settings, r: Request): Option<Summary.Proposal>
    requires r.profile in s.profiles && Conversation(r, s.profiles[r.profile]).Ok?
  {
    var c := Conversation(r, s.profiles[r.profile]).value;
    if c.proposed then c.summary else None
  }

  function Compile(s: Settings, r: Request): Result<Output, Failure> {
    match Prepare(s, r)
    case Err(x) => Err(x)
    case Ok(p) => Ok(Report(p, Chosen(p), r.profile, s.encoding.digest(Strip(r.task)), Proposed(s, r)))
  }

  // ---------------------------------------------------------------- the loops

  lemma GroupOneMore(cs: seq<Candidate>, i: int)
    requires 0 <= i < |cs|
    ensures Group(cs[..i + 1]) == Put(Group(cs[..i]), cs[i])
  {
    assert cs[..i + 1][..i] == cs[..i];
  }

  lemma AppendIsPut(g: Groups, c: Candidate)
    ensures c.section !in g.items ==>
      var begun := g.items[c.section := []];
      begun[c.section := begun[c.section] + [c.encoded]] == Put(g, c).items
  {
    assert [] + [c.encoded] == [c.encoded];
  }

  /** Groups sorted items by section, sections in order of first appearance. */
  method GroupBySection(sorted: seq<Candidate>) returns (order: seq<string>, grouped: map<string, seq<string>>)
    ensures Groups(order, grouped) == Group(sorted)
  {
    order, grouped := [], map[];
    var i := 0;
    while i < |sorted|
      invariant 0 <= i <= |sorted|
      invariant Groups(order, grouped) == Group(sorted[..i])
    {
      var item := sorted[i];
      GroupOneMore(sorted, i);
      AppendIsPut(Groups(order, grouped), item);
      if item.section !in grouped {
        grouped := grouped[item.section := []];
        order := order + [item.section];
      }
      grouped := grouped[item.section := grouped[item.section] + [item.encoded]];
      i := i + 1;
    }
    assert sorted[..i] == sorted;
  }

  lemma BlocksOneMore(order: seq<string>, items: map<string, seq<string>>, k: int)
    requires 0 <= k < |order| && forall t <- order :: t in items
    ensures Blocks(order[..k + 1], items) == Blocks(order[..k], items) + Block(order[k], items[order[k]])
  {
    assert order[..k + 1][..k] == order[..k];
  }

  method WriteSections(order: seq<string>, grouped: map<string, seq<string>>) returns (text: string)
    requires forall t <- order :: t in grouped
    ensures text == Blocks(order, grouped)
  {
    text := "";
    var k := 0;
    while k < |order|
      invariant 0 <= k <= |order|
      invariant text == Blocks(order[..k], grouped)
    {
      BlocksOneMore(order, grouped, k);
      text := text + Block(order[k], grouped[order[k]]);
      k := k + 1;
    }
    assert order[..k] == order;
  }

  method RenderPrompt(header: string, candidates: seq<Candidate>) returns (prompt: string)
    ensures prompt == Render(header, candidates)
  {
    GroupOk(Sort(candidates, RenderKey));
    var order, grouped := GroupBySection(Sort(candidates, RenderKey));
    var sections := WriteSections(order, grouped);
    prompt := header + sections;
  }

  /** Why an item cannot join: its category cap, the character ceiling or the token budget,
      checked in that order, stands against it. */
  method Judge(f: Frame, included: seq<Candidate>, item: Candidate) returns (reason: Option<Reason>)
    ensures reason == Refusal(f, included, item)
  {
    var trial := RenderPrompt(f.header, included + [item]);
    var tokens := CategoryTokens(included, item.category) + EstimateTokens(item.encoded);
    reason := None;
    if tokens > CategoryCap(f.profile, item.category) {
      reason := Some(CategoryBudget);
    } else if |trial| > f.characters {
      reason := Some(CharacterBudget);
    } else if EstimateTokens(trial) > f.profile.totalTokens {
      reason := Some(TokenBudget);
    }
  }

  /** The loop over optional items. */
  method Select(f: Frame, mandatory: seq<Candidate>, optional: seq<Candidate>) returns (s: Selection)
    ensures s == Greedy(BudgetRule(f), mandatory, optional)
  {
    ghost var rule := BudgetRule(f);
    var included, excluded: seq<Excluded> := mandatory, [];
    var i := 0;
    while i < |optional|
      invariant 0 <= i <= |optional|
      invariant Selection(included, excluded) == Greedy(rule, mandatory, optional[..i])
    {
      var item := optional[i];
      var reason := Judge(f, included, item);
      GreedyOneMore(rule, mandatory, optional, i);
      RuleIsRefusal(f, rule, included, item);
      if reason.Some? {
        excluded := excluded + [Excluded(item, reason.value)];
      } else {
        included := included + [item];
      }
      i := i + 1;
    }
    assert optional[..i] == optional;
    s := Selection(included, excluded);
  }

  lemma RuleIsRefusal(f: Frame, rule: Rule, included: seq<Candidate>, item: Candidate)
    requires rule == BudgetRule(f)
    ensures rule(included, item) == Refusal(f, included, item)
  {
  }

  lemma GreedyOneMore(rule: Rule, start: seq<Candidate>, optional: seq<Candidate>, i: int)
    requires 0 <= i < |optional|
    ensures Greedy(rule, start, optional[..i + 1]) == Consider(rule, Greedy(rule, start, optional[..i]), optional[i])
  {
    assert optional[..i + 1][..i] == optional[..i];
  }

  /** Compilation: the checks in order, then the selection loop and the rendering loops. */
  method CompileContext(s: Settings, r: Request) returns (result: Result<Output, Failure>)
    ensures result == Compile(s, r)
  {
    if TaskFailure(s, r.profile, r.task).Some? {
      return Err(TaskFailure(s, r.profile, r.task).value);
    }
    var f := FrameOf(s, r.profile);
    if Conversation(r, f.profile).Err? {
      return Err(NothingToSummarize);
    }
    var p := PlanOf(s.encoding, r, f, Conversation(r, f.profile).value);
    if MandatoryFailure(s, f, p.mandatory).Some? {
      return Err(MandatoryFailure(s, f, p.mandatory).value);
    }
    var chosen := Select(f, p.mandatory, p.optional);
    var prompt := RenderPrompt(f.header, chosen.included);
    var report := Report(p, chosen, r.profile, s.encoding.digest(Strip(r.task)), Proposed(s, r));
    result := Ok(report.(prompt := prompt));
  }

  // ---------------------------------------------------------------- what a compiled prompt keeps

  lemma PreparedFits(s: Settings, r: Request, p: Plan)
    requires Prepare(s, r) == Ok(p)
    ensures Fits(p.frame, p.mandatory) && r.profile in s.profiles && p.frame.profile == s.profiles[r.profile]
    ensures p.frame.characters <= s.budget.totalCharacters
            && p.frame.characters <= s.profiles[r.profile].totalCharacters
    ensures p.frame.header == s.encoding.header(r.profile)
  {
  }

  lemma PreparedMembers(s: Settings, r: Request, p: Plan)
    requires Prepare(s, r) == Ok(p)
    ensures r.profile in s.profiles && Conversation(r, s.profiles[r.profile]).Ok?
    ensures p == PlanOf(s.encoding, r, FrameOf(s, r.profile), Conversation(r, s.profiles[r.profile]).value)
    ensures multiset(p.mandatory) == multiset(Mandatory(s.encoding, r))
    ensures multiset(p.optional) == multiset(Optional(s.encoding, r, Conversation(r, s.profiles[r.profile]).value))
  {
  }

  /** Whether what must be in the prompt is acceptable on its own. */
  predicate MandatoryAccepted(s: Settings, task: string, profile: string, identity: seq<Document>) {
    var r := Request(task, profile, identity, None, None, [], [], true, None, []);
    && TaskFailure(s, r.profile, r.task).None?
    && MandatoryFailure(s, FrameOf(s, profile), Sort(Mandatory(s.encoding, r), MandatoryKey)).None?
  }

  /** Optional material never makes a compilation fail: apart from a history that cannot be
      summarized, success depends only on the task, the profile and the identity documents. */
  lemma OptionalNeverFails(s: Settings, r: Request)
    ensures Compile(s, r).Ok? <==>
            MandatoryAccepted(s, r.task, r.profile, r.identity) && Conversation(r, s.profiles[r.profile]).Ok?
  {
    var bare := Request(r.task, r.profile, r.identity, None, None, [], [], true, None, []);
    assert Mandatory(s.encoding, bare) == Mandatory(s.encoding, r);
  }

  /** A history cannot be summarized exactly when it is over the threshold and the profile
      keeps none, or no fewer, of its turns. */
  lemma SummaryFailsIff(r: Request, p: Profile)
    ensures Conversation(r, p).Err? <==>
            !r.resumed && |r.history| > p.compactionThreshold && (p.recentTurns == 0 || |r.history| <= p.recentTurns)
  {
  }

  /** Its text is in the prompt, and it is listed as included and among the sources. */
  ghost predicate InOutput(o: Output, c: Candidate) {
    Contains(o.prompt, c.encoded) && c.name in o.included && Source(c.name, c.sha, true, None) in o.sources
  }

  lemma {:induction false} NamesAt(cs: seq<Candidate>, i: int)
    requires 0 <= i < |cs|
    ensures |Names(cs)| == |cs| && Names(cs)[i] == cs[i].name
  {
    if i < |cs| - 1 {
      NamesAt(cs[..|cs| - 1], i);
    } else if i > 0 {
      NamesAt(cs[..|cs| - 1], 0);
    }
  }

  lemma StartReported(p: Plan, profile: string, digest: string, proposal: Option<Summary.Proposal>, c: Candidate)
    requires c in p.mandatory
    ensures InOutput(Report(p, Chosen(p), profile, digest, proposal), c)
  {
    var chosen := Chosen(p);
    GreedyPartitions(BudgetRule(p.frame), p.mandatory, p.optional);
    var i :| 0 <= i < |p.mandatory| && p.mandatory[i] == c;
    assert chosen.included[i] == c;
    NamesAt(chosen.included, i);
    RenderContains(p.frame.header, chosen.included, c);
    assert IncludedSources(chosen.included)[i] == Source(c.name, c.sha, true, None);
  }

  /** Whatever else competes for room, the prompt stays within both budgets and every identity
      document and the task are in it. */
  lemma CompiledPromptFits(s: Settings, r: Request)
    requires Compile(s, r).Ok?
    ensures var o := Compile(s, r).value;
            && |o.prompt| <= s.budget.totalCharacters
            && |o.prompt| <= s.profiles[r.profile].totalCharacters
            && EstimateTokens(o.prompt) <= s.profiles[r.profile].totalTokens
            && forall c <- Mandatory(s.encoding, r) :: InOutput(o, c)
  {
    var p := Prepare(s, r).value;
    PreparedFits(s, r, p);
    PreparedMembers(s, r, p);
    GreedyFits(p.frame, p.mandatory, p.optional);
    forall c <- Mandatory(s.encoding, r)
      ensures InOutput(Compile(s, r).value, c)
    {
      assert c in multiset(p.mandatory);
      StartReported(p, r.profile, s.encoding.digest(Strip(r.task)), Proposed(s, r), c);
    }
  }

  lemma {:induction false} NoTokens(cs: seq<Candidate>, category: string)
    requires forall c <- cs :: c.category != category
    ensures CategoryTokens(cs, category) == 0
  {
    if cs != [] {
      NoTokens(cs[..|cs| - 1], category);
    }
  }

  lemma MandatoryCategories(e: Encoding, r: Request, c: Candidate)
    requires c in multiset(Mandatory(e, r))
    ensures c.mandatory && (c.category == "identity" || c.category == "task")
  {
  }

  /** The estimate of each category that holds optional material stays within its own cap. */
  lemma CompiledCategoriesFit(s: Settings, r: Request, p: Plan, category: string)
    requires Prepare(s, r) == Ok(p) && category != "identity" && category != "task"
    requires CategoryCap(p.frame.profile, category) >= 0
    ensures CategoryTokens(Chosen(p).included, category) <= CategoryCap(p.frame.profile, category)
  {
    PreparedMembers(s, r, p);
    forall c <- p.mandatory
      ensures c.category != category
    {
      assert c in multiset(p.mandatory);
      MandatoryCategories(s.encoding, r, c);
    }
    NoTokens(p.mandatory, category);
    GreedyCaps(p.frame, p.mandatory, p.optional, category);
  }

  /** No excluded candidate could be added to the prompt that was returned. */
  lemma CompiledIsMaximal(s: Settings, r: Request, p: Plan, x: Excluded)
    requires Prepare(s, r) == Ok(p) && x in Chosen(p).excluded
    ensures Compile(s, r).value.prompt == Render(p.frame.header, Chosen(p).included)
    ensures var cs := Chosen(p).included + [x.candidate];
            || CategoryTokens(cs, x.candidate.category) > CategoryCap(p.frame.profile, x.candidate.category)
            || |Render(p.frame.header, cs)| > p.frame.characters
            || EstimateTokens(Render(p.frame.header, cs)) > p.frame.profile.totalTokens
  {
    GreedyMaximal(p.frame, p.mandatory, p.optional);
  }

  // ---------------------------------------------------------------- order of memories and artifacts

  ghost predicate Apart(cs: seq<Candidate>) {
    forall i, j :: 0 <= i < j < |cs| ==> OptionalKey(cs[i]) != OptionalKey(cs[j])
  }

  predicate DistinctIds(r: Request) {
    && (forall i, j :: 0 <= i < j < |r.memories| ==> r.memories[i].id != r.memories[j].id)
    && (forall i, j :: 0 <= i < j < |r.artifacts| ==> r.artifacts[i].id != r.artifacts[j].id)
  }

  lemma KeyEnds(c: Candidate, d: Candidate)
    requires OptionalKey(c) == OptionalKey(d)
    ensures c.tier == d.tier && c.priority == d.priority && c.sortKey + Codes(c.name) == d.sortKey + Codes(d.name)
  {
    assert OptionalKey(c)[0] == OptionalKey(d)[0] && OptionalKey(c)[1] == OptionalKey(d)[1];
    assert c.sortKey + Codes(c.name) == OptionalKey(c)[2..];
    assert d.sortKey + Codes(d.name) == OptionalKey(d)[2..];
  }

  lemma LabelledKeys(c: Candidate, d: Candidate, x: real, y: real, id: string, id': string)
    requires c.sortKey == [x] + Codes(id) && d.sortKey == [y] + Codes(id') && id != id'
    ensures OptionalKey(c) != OptionalKey(d)
  {
    if OptionalKey(c) == OptionalKey(d) {
      KeyEnds(c, d);
      var a, b := Codes(id) + Codes(c.name), Codes(id') + Codes(d.name);
      assert a == (c.sortKey + Codes(c.name))[1..] && b == (d.sortKey + Codes(d.name))[1..];
      CodesPrefixFree(id, id', Codes(c.name), Codes(d.name));
    }
  }

  lemma JoinApart(a: seq<Candidate>, b: seq<Candidate>)
    requires Apart(a) && Apart(b)
    requires forall x, y :: x in a && y in b ==> OptionalKey(x) != OptionalKey(y)
    ensures Apart(a + b)
  {
  }

  /** Where one candidate's tier, priority or first sort key differs, so does the key. */
  lemma DifferentStart(x: Candidate, y: Candidate)
    requires x.tier != y.tier || x.priority != y.priority
             || (x.sortKey != [] && y.sortKey != [] && x.sortKey[0] != y.sortKey[0])
    ensures OptionalKey(x) != OptionalKey(y)
  {
    var a, b := x.sortKey + Codes(x.name), y.sortKey + Codes(y.name);
    assert x.sortKey != [] ==> a[0] == x.sortKey[0];
    assert y.sortKey != [] ==> b[0] == y.sortKey[0];
    if OptionalKey(x) == OptionalKey(y) {
      KeyEnds(x, y);
    }
  }

  lemma MemoriesApart(e: Encoding, r: Request)
    requires DistinctIds(r)
    ensures Apart(MemoryCandidates(e, r.memories)) && Apart(ArtifactCandidates(e, r.artifacts))
  {
    var ms, xs := MemoryCandidates(e, r.memories), ArtifactCandidates(e, r.artifacts);
    forall i, j | 0 <= i < j < |ms|
      ensures OptionalKey(ms[i]) != OptionalKey(ms[j])
    {
      LabelledKeys(ms[i], ms[j], -r.memories[i].confidence, -r.memories[j].confidence, r.memories[i].id,
        r.memories[j].id);
    }
    forall i, j | 0 <= i < j < |xs|
      ensures OptionalKey(xs[i]) != OptionalKey(xs[j])
    {
      LabelledKeys(xs[i], xs[j], -r.artifacts[i].relevance as real, -r.artifacts[j].relevance as real,
                   r.artifacts[i].id, r.artifacts[j].id);
    }
  }

  lemma ConversationApart(e: Encoding, c: Summary.Compiled)
    ensures Apart(SummaryCandidates(e, c.summary) + MessageCandidates(e, c.history))
  {
    var cs, ms := SummaryCandidates(e, c.summary), MessageCandidates(e, c.history);
    forall i, j | 0 <= i < j < |ms|
      ensures OptionalKey(ms[i]) != OptionalKey(ms[j])
    {
      DifferentStart(ms[i], ms[j]);
    }
    forall x, y | x in cs && y in ms
      ensures OptionalKey(x) != OptionalKey(y)
    {
      DifferentStart(x, y);
    }
    JoinApart(cs, ms);
  }

  ghost predicate Differ(x: Candidate, y: Candidate) {
    x.tier != y.tier || x.priority != y.priority
    || (x.sortKey != [] && y.sortKey != [] && x.sortKey[0] != y.sortKey[0])
  }

  lemma JoinDiffering(a: seq<Candidate>, b: seq<Candidate>)
    requires Apart(a) && Apart(b)
    requires forall x, y :: x in a && y in b ==> Differ(x, y)
    ensures Apart(a + b)
  {
    forall x, y | x in a && y in b
      ensures OptionalKey(x) != OptionalKey(y)
    {
      DifferentStart(x, y);
    }
    JoinApart(a, b);
  }

  lemma ZeroMemory(e: Encoding, d: Document, m: Memory)
    ensures Differ(CuratedCandidates(e, Some(d))[0], MemoryCandidate(e, m))
  {
  }

  lemma MemoryTierApart(e: Encoding, r: Request)
    requires DistinctIds(r)
    ensures Apart(Early(e, r))
  {
    var curated, heartbeat := CuratedCandidates(e, r.curated), HeartbeatCandidates(e, r.profile, r.heartbeat);
    var memories := MemoryCandidates(e, r.memories);
    MemoriesApart(e, r);
    JoinDiffering(curated, heartbeat);
    forall x, y | x in curated + heartbeat && y in memories
      ensures Differ(x, y)
    {
      var i :| 0 <= i < |memories| && memories[i] == y;
      if x in curated {
        ZeroMemory(e, r.curated.value, r.memories[i]);
      }
    }
    JoinDiffering(curated + heartbeat, memories);
  }

  ghost predicate InTiers(cs: seq<Candidate>, least: int, most: int) {
    forall c <- cs :: least <= c.tier <= most
  }

  lemma TiersOf(e: Encoding, r: Request, c: Summary.Compiled)
    ensures InTiers(Early(e, r), 3, 4)
    ensures InTiers(SummaryCandidates(e, c.summary) + MessageCandidates(e, c.history), 2, 2)
    ensures InTiers(ArtifactCandidates(e, r.artifacts), 5, 5)
  {
  }

  lemma OptionalApart(e: Encoding, r: Request, c: Summary.Compiled)
    requires DistinctIds(r)
    ensures Apart(Optional(e, r, c))
  {
    var early := Early(e, r);
    var conversation := SummaryCandidates(e, c.summary) + MessageCandidates(e, c.history);
    var artifacts := ArtifactCandidates(e, r.artifacts);
    MemoryTierApart(e, r);
    ConversationApart(e, c);
    MemoriesApart(e, r);
    TiersOf(e, r, c);
    TiersJoin(early, conversation, artifacts);
    JoinsAssociate(early, SummaryCandidates(e, c.summary), MessageCandidates(e, c.history), artifacts);
  }

  lemma JoinsAssociate(a: seq<Candidate>, b: seq<Candidate>, c: seq<Candidate>, d: seq<Candidate>)
    ensures a + b + c + d == a + (b + c) + d
  {
  }

  lemma TiersJoin(early: seq<Candidate>, conversation: seq<Candidate>, artifacts: seq<Candidate>)
    requires Apart(early) && Apart(conversation) && Apart(artifacts)
    requires InTiers(early, 3, 4) && InTiers(conversation, 2, 2) && InTiers(artifacts, 5, 5)
    ensures Apart(early + conversation + artifacts)
  {
    JoinDiffering(early, conversation);
    JoinDiffering(early + conversation, artifacts);
  }

  lemma {:induction false} MapJoins<A, B>(f: A -> B, a: seq<A>, b: seq<A>)
    ensures Map(f, a + b) == Map(f, a) + Map(f, b)
  {
  }

  lemma WithoutOne<A>(b: seq<A>, x: A) returns (before: seq<A>, behind: seq<A>)
    requires x in multiset(b)
    ensures b == before + ([x] + behind)
  {
    var i :| 0 <= i < |b| && b[i] == x;
    before, behind := b[..i], b[i + 1..];
  }

  lemma {:induction false} MapPermuted<A, B>(f: A -> B, a: seq<A>, b: seq<A>)
    requires multiset(a) == multiset(b)
    ensures multiset(Map(f, a)) == multiset(Map(f, b))
    decreases |a|
  {
    if a == [] {
      assert |b| == |multiset(b)| == 0;
    } else {
      var init, last := a[..|a| - 1], a[|a| - 1];
      assert a == init + [last];
      var before, behind := WithoutOne(b, last);
      CountMoved(before, last, behind);
      assert multiset(init) == multiset(a) - multiset{last};
      assert multiset(before + behind) == multiset(b) - multiset{last};
      MapPermuted(f, init, before + behind);
      MapMove(f, before, last, behind);
    }
  }

  lemma MapMove<A, B>(f: A -> B, before: seq<A>, x: A, behind: seq<A>)
    ensures multiset(Map(f, before + ([x] + behind))) == multiset(Map(f, before + behind)) + multiset{f(x)}
  {
    MapJoins(f, before, [x] + behind);
    MapJoins(f, [x], behind);
    MapJoins(f, before, behind);
    CountMoved(Map(f, before), f(x), Map(f, behind));
  }

  lemma CountMoved<B>(a: seq<B>, x: B, c: seq<B>)
    ensures multiset(a + ([x] + c)) == multiset(a + c) + multiset{x}
  {
  }

  lemma OptionalPermuted(e: Encoding, r: Request, shuffled: Request, c: Summary.Compiled)
    requires shuffled == r.(memories := shuffled.memories, artifacts := shuffled.artifacts)
    requires multiset(shuffled.memories) == multiset(r.memories)
    requires multiset(shuffled.artifacts) == multiset(r.artifacts)
    ensures multiset(Optional(e, r, c)) == multiset(Optional(e, shuffled, c))
  {
    MapPermuted((m: Memory) => MemoryCandidate(e, m), r.memories, shuffled.memories);
    MapPermuted((a: Artifact) => ArtifactCandidate(e, a), r.artifacts, shuffled.artifacts);
  }

  lemma PlanOrderIndependent(e: Encoding, r: Request, shuffled: Request, f: Frame, c: Summary.Compiled)
    requires shuffled == r.(memories := shuffled.memories, artifacts := shuffled.artifacts)
    requires multiset(shuffled.memories) == multiset(r.memories)
    requires multiset(shuffled.artifacts) == multiset(r.artifacts)
    requires DistinctIds(r)
    ensures PlanOf(e, shuffled, f, c) == PlanOf(e, r, f, c)
  {
    OptionalPermuted(e, r, shuffled, c);
    OptionalApart(e, r, c);
    SortOrderIndependent(Optional(e, r, c), Optional(e, shuffled, c), OptionalKey);
  }

  /** Giving the memories or the artifacts in another order changes nothing in the output:
      not the prompt, the lists, the sources or what is fingerprinted. */
  lemma CompileOrderIndependent(s: Settings, r: Request, shuffled: Request)
    requires shuffled == r.(memories := shuffled.memories, artifacts := shuffled.artifacts)
    requires multiset(shuffled.memories) == multiset(r.memories)
    requires multiset(shuffled.artifacts) == multiset(r.artifacts)
    requires DistinctIds(r)
    ensures Compile(s, shuffled) == Compile(s, r)
  {
    PrepareOrderIndependent(s, r, shuffled);
    ReportsAlike(s, r, shuffled);
  }

  lemma PrepareOrderIndependent(s: Settings, r: Request, shuffled: Request)
    requires shuffled == r.(memories := shuffled.memories, artifacts := shuffled.artifacts)
    requires multiset(shuffled.memories) == multiset(r.memories)
    requires multiset(shuffled.artifacts) == multiset(r.artifacts)
    requires DistinctIds(r)
    ensures Prepare(s, shuffled) == Prepare(s, r)
  {
    if TaskFailure(s, r.profile, r.task).None? && Conversation(r, s.profiles[r.profile]).Ok? {
      var f, c := FrameOf(s, r.profile), Conversation(r, s.profiles[r.profile]).value;
      PlanOrderIndependent(s.encoding, r, shuffled, f, c);
      PreparesAlike(s, r, shuffled, f, c, PlanOf(s.encoding, r, f, c));
    } else {
      PrepareFails(s, r, shuffled);
    }
  }

  lemma PreparesAlike(s: Settings, r: Request, other: Request, f: Frame, c: Summary.Compiled, p: Plan)
    requires other == r.(memories := other.memories, artifacts := other.artifacts)
    requires TaskFailure(s, r.profile, r.task).None? && Conversation(r, s.profiles[r.profile]) == Ok(c)
    requires f == FrameOf(s, r.profile) && p == PlanOf(s.encoding, r, f, c) && p == PlanOf(s.encoding, other, f, c)
    ensures Prepare(s, other) == Prepare(s, r)
  {
    PrepareAdmits(s, r, f, c, p);
    PrepareAdmits(s, other, f, c, p);
  }

  lemma PrepareAdmits(s: Settings, r: Request, f: Frame, c: Summary.Compiled, p: Plan)
    requires TaskFailure(s, r.profile, r.task).None? && Conversation(r, s.profiles[r.profile]) == Ok(c)
    requires f == FrameOf(s, r.profile) && p == PlanOf(s.encoding, r, f, c)
    ensures Prepare(s, r) == Admit(s, p)
  {
  }

  lemma PrepareFails(s: Settings, r: Request, other: Request)
    requires other == r.(memories := other.memories, artifacts := other.artifacts)
    requires TaskFailure(s, r.profile, r.task).Some? || Conversation(r, s.profiles[r.profile]).Err?
    ensures Prepare(s, other) == Prepare(s, r)
  {
  }

  lemma ReportsAlike(s: Settings, r: Request, other: Request)
    requires Prepare(s, other) == Prepare(s, r)
    requires other.profile == r.profile && other.task == r.task && other.history == r.history
    requires other.prior == r.prior && other.resumed == r.resumed
    ensures Compile(s, other) == Compile(s, r)
  {
    if Prepare(s, r).Ok? {
      assert Proposed(s, other) == Proposed(s, r);
    }
  }

  // ---------------------------------------------------------------- included and omitted

  lemma TwiceCounted(cs: seq<Candidate>, i: int, j: int)
    requires 0 <= i < j < |cs| && cs[i] == cs[j]
    ensures multiset(cs)[cs[i]] >= 2
  {
    assert cs == cs[..i] + [cs[i]] + cs[i + 1..j] + [cs[j]] + cs[j + 1..];
  }

  lemma {:induction false} OnceCounted(cs: seq<Candidate>, x: Candidate)
    requires Different(cs)
    ensures multiset(cs)[x] <= 1
  {
    if cs != [] {
      var init, last := cs[..|cs| - 1], cs[|cs| - 1];
      OnceCounted(init, x);
      assert cs == init + [last];
      if x == last {
        assert x !in init;
      }
    }
  }

  lemma SortDifferent(cs: seq<Candidate>)
    requires Different(cs)
    ensures Different(Sort(cs, OptionalKey))
  {
    var r := Sort(cs, OptionalKey);
    forall i, j | 0 <= i < j < |r|
      ensures r[i] != r[j]
    {
      if r[i] == r[j] {
        TwiceCounted(r, i, j);
        OnceCounted(cs, r[i]);
      }
    }
  }

  lemma PreparedDifferent(s: Settings, r: Request, p: Plan)
    requires Prepare(s, r) == Ok(p) && DistinctIds(r)
    ensures Different(p.optional) && forall x <- p.mandatory :: x !in p.optional
  {
    PreparedMembers(s, r, p);
    var e, c := s.encoding, Conversation(r, s.profiles[r.profile]).value;
    OptionalApart(e, r, c);
    assert Different(Optional(e, r, c));
    SortDifferent(Optional(e, r, c));
    forall x <- p.mandatory
      ensures x !in p.optional
    {
      assert x in multiset(p.mandatory);
      MandatoryCategories(e, r, x);
      OptionalCategories(e, r, c);
      assert x in multiset(p.optional) <==> x in p.optional;
      assert x in multiset(Optional(e, r, c)) <==> x in Optional(e, r, c);
    }
  }

  ghost predicate NoneMandatory(cs: seq<Candidate>) {
    forall c <- cs :: !c.mandatory
  }

  lemma NoneMandatoryJoins(a: seq<Candidate>, b: seq<Candidate>)
    requires NoneMandatory(a) && NoneMandatory(b)
    ensures NoneMandatory(a + b)
  {
  }

  lemma OptionalCategories(e: Encoding, r: Request, c: Summary.Compiled)
    ensures NoneMandatory(Optional(e, r, c))
  {
    var curated, heartbeat := CuratedCandidates(e, r.curated), HeartbeatCandidates(e, r.profile, r.heartbeat);
    var memories, artifacts := MemoryCandidates(e, r.memories), ArtifactCandidates(e, r.artifacts);
    var summary, messages := SummaryCandidates(e, c.summary), MessageCandidates(e, c.history);
    NoneMandatoryJoins(curated, heartbeat);
    NoneMandatoryJoins(curated + heartbeat, memories);
    NoneMandatoryJoins(Early(e, r), summary);
    NoneMandatoryJoins(Early(e, r) + summary, messages);
    NoneMandatoryJoins(Early(e, r) + summary + messages, artifacts);
  }

  /** Included and excluded candidates together are all candidates, each once; and with
      distinct ids the omitted list names exactly the excluded ones, in order. */
  lemma CompiledPartitions(s: Settings, r: Request, p: Plan)
    requires Prepare(s, r) == Ok(p)
    ensures All(Chosen(p)) == multiset(Mandatory(s.encoding, r))
                              + multiset(Optional(s.encoding, r, Conversation(r, s.profiles[r.profile]).value))
    ensures DistinctIds(r) ==> Omitted(p.optional, Chosen(p).included) == Names(Candidates(Chosen(p).excluded))
  {
    PreparedMembers(s, r, p);
    GreedyPartitions(BudgetRule(p.frame), p.mandatory, p.optional);
    if DistinctIds(r) {
      PreparedDifferent(s, r, p);
      OmittedAreExcluded(BudgetRule(p.frame), p.mandatory, p.optional);
    }
  }
}
