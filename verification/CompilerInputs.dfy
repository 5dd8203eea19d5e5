/**
 When a compilation fails, and with which error; and what of a request it considers.
 */
module CompilerInputs {
  import opened Wrappers
  import opened Text
  import opened Ordering
  import opened Rendering
  import opened Context
  import opened Compiler
  import Summary

  // ---------------------------------------------------------------- failures

  function TotalLength(docs: seq<Document>): nat {
    if docs == [] then 0 else TotalLength(docs[..|docs| - 1]) + |docs[|docs| - 1].encoded|
  }

  lemma {:induction false} InsertLength(cs: seq<Candidate>, x: Candidate, key: Candidate -> Key)
    ensures IdentityLength(Insert(cs, x, key)) == IdentityLength(cs + [x])
  {
    assert (cs + [x])[..|cs|] == cs;
    if cs != [] {
      var init, last := cs[..|cs| - 1], cs[|cs| - 1];
      InsertUnfolds(cs, x, key);
      if !Leq(key(last), key(x)) {
        InsertLength(init, x, key);
        assert (init + [x])[..|init|] == init;
        assert (Insert(init, x, key) + [last])[..|Insert(init, x, key)|] == Insert(init, x, key);
      }
    }
  }

  lemma {:induction false} SortLength(cs: seq<Candidate>, key: Candidate -> Key)
    ensures IdentityLength(Sort(cs, key)) == IdentityLength(cs)
  {
    if cs != [] {
      var init, last := cs[..|cs| - 1], cs[|cs| - 1];
      SortLength(init, key);
      InsertLength(Sort(init, key), last, key);
      assert (Sort(init, key) + [last])[..|init|] == Sort(init, key);
    }
  }

  lemma {:induction false} DocumentsLength(e: Encoding, docs: seq<Document>)
    ensures IdentityLength(IdentityCandidates(e, docs)) == TotalLength(docs)
  {
    if docs != [] {
      var n := |docs| - 1;
      DocumentsLength(e, docs[..n]);
      assert IdentityCandidates(e, docs)[..n] == IdentityCandidates(e, docs[..n]);
    }
  }

  lemma MandatoryLength(e: Encoding, r: Request)
    ensures IdentityLength(Sort(Mandatory(e, r), MandatoryKey)) == TotalLength(r.identity)
  {
    SortLength(Mandatory(e, r), MandatoryKey);
    DocumentsLength(e, r.identity);
    var docs := IdentityCandidates(e, r.identity);
    assert Mandatory(e, r)[..|docs|] == docs;
  }

  /** The identity documents and the task alone do not fit the budgets of the profile. */
  predicate Overfull(s: Settings, r: Request)
    requires r.profile in s.profiles
  {
    var p := s.profiles[r.profile];
    var alone := Render(s.encoding.header(r.profile), Mandatory(s.encoding, r));
    |alone| > p.totalCharacters || |alone| > s.budget.totalCharacters || EstimateTokens(alone) > p.totalTokens
  }

  lemma SortedAlone(header: string, cs: seq<Candidate>)
    ensures |Render(header, Sort(cs, MandatoryKey))| == |Render(header, cs)|
    ensures Bytes(Render(header, Sort(cs, MandatoryKey))) == Bytes(Render(header, cs))
  {
    OneCountsCharacters(Render(header, Sort(cs, MandatoryKey)));
    OneCountsCharacters(Render(header, cs));
    RenderWeight(One, header, Sort(cs, MandatoryKey));
    RenderWeight(One, header, cs);
    SortCost(One, cs, MandatoryKey);
    RenderWeight(CharBytes, header, Sort(cs, MandatoryKey));
    RenderWeight(CharBytes, header, cs);
    SortCost(CharBytes, cs, MandatoryKey);
  }

  /** What is wrong with a request, checked in this order. */
  ghost predicate Wrong(s: Settings, r: Request, x: Failure) {
    match x
    case UnknownProfile => r.profile !in s.profiles
    case EmptyTask => r.profile in s.profiles && Strip(r.task) == ""
    case TaskTooLong =>
      && r.profile in s.profiles && Strip(r.task) != ""
      && (|Strip(r.task)| > s.budget.taskCharacters || |Strip(r.task)| > 3 * s.profiles[r.profile].taskTokens)
    case NothingToSummarize => TaskPasses(s, r) && Conversation(r, s.profiles[r.profile]).Err?
    case IdentityTooLong =>
      Summarizable(s, r) && TotalLength(r.identity) > s.budget.identityCharacters
    case MandatoryTooLong =>
      Summarizable(s, r) && TotalLength(r.identity) <= s.budget.identityCharacters && Overfull(s, r)
  }

  /** The profile is known, and the task is there and within its limits. */
  predicate TaskPasses(s: Settings, r: Request) {
    && r.profile in s.profiles && Strip(r.task) != "" && |Strip(r.task)| <= s.budget.taskCharacters
    && |Strip(r.task)| <= 3 * s.profiles[r.profile].taskTokens
  }

  predicate Summarizable(s: Settings, r: Request) {
    TaskPasses(s, r) && Conversation(r, s.profiles[r.profile]).Ok?
  }

  lemma TaskFailureIs(s: Settings, r: Request)
    ensures match TaskFailure(s, r.profile, r.task)
            case Some(x) => !TaskPasses(s, r) && Wrong(s, r, x)
            case None => TaskPasses(s, r)
  {
  }

  lemma MandatoryFailureIs(s: Settings, r: Request, f: Frame, mandatory: seq<Candidate>)
    requires Summarizable(s, r) && f == FrameOf(s, r.profile)
    requires mandatory == Sort(Mandatory(s.encoding, r), MandatoryKey)
    ensures MandatoryFailure(s, f, mandatory) ==
            if TotalLength(r.identity) > s.budget.identityCharacters then Some(IdentityTooLong)
            else if Overfull(s, r) then Some(MandatoryTooLong) else None
  {
    MandatoryLength(s.encoding, r);
    OverfullIs(s, r, f, mandatory);
  }

  lemma OverfullIs(s: Settings, r: Request, f: Frame, mandatory: seq<Candidate>)
    requires r.profile in s.profiles && f == FrameOf(s, r.profile)
    requires mandatory == Sort(Mandatory(s.encoding, r), MandatoryKey)
    ensures Overfull(s, r) <==>
            |Render(f.header, mandatory)| > f.characters
            || EstimateTokens(Render(f.header, mandatory)) > f.profile.totalTokens
  {
    SortedAlone(f.header, Mandatory(s.encoding, r));
  }

  lemma PrepareFails(s: Settings, r: Request)
    requires Summarizable(s, r)
    ensures var f := FrameOf(s, r.profile);
            var failure := MandatoryFailure(s, f, Sort(Mandatory(s.encoding, r), MandatoryKey));
            && (Prepare(s, r).Ok? <==> failure.None?) && (failure.Some? ==> Prepare(s, r) == Err(failure.value))
  {
    TaskFailureIs(s, r);
  }

  /** A compilation fails with the first thing that is wrong with its request, and otherwise goes
      through. */
  lemma FailureOutcome(s: Settings, r: Request)
    ensures Compile(s, r).Err? ==> Wrong(s, r, Compile(s, r).error)
    ensures Compile(s, r).Ok? <==>
            Summarizable(s, r) && TotalLength(r.identity) <= s.budget.identityCharacters && !Overfull(s, r)
  {
    TaskFailureIs(s, r);
    if Summarizable(s, r) {
      MandatoryFailureIs(s, r, FrameOf(s, r.profile), Sort(Mandatory(s.encoding, r), MandatoryKey));
      PrepareFails(s, r);
    }
  }

  // ---------------------------------------------------------------- what is considered

  /** It is in the prompt or among what is left out. */
  ghost predicate Considered(p: Plan, c: Candidate) {
    c in Chosen(p).included || c in Candidates(Chosen(p).excluded)
  }

  lemma AllConsidered(s: Settings, r: Request, p: Plan, c: Candidate)
    requires Prepare(s, r) == Ok(p)
    ensures r.profile in s.profiles && Conversation(r, s.profiles[r.profile]).Ok?
    ensures Considered(p, c) <==>
            c in Mandatory(s.encoding, r) || c in Optional(s.encoding, r, Conversation(r, s.profiles[r.profile]).value)
  {
    PreparedMembers(s, r, p);
    CompiledPartitions(s, r, p);
    SameMembers(Chosen(p).included, Candidates(Chosen(p).excluded), Mandatory(s.encoding, r),
                Optional(s.encoding, r, Conversation(r, s.profiles[r.profile]).value), c);
  }

  lemma SameMembers<T>(a: seq<T>, b: seq<T>, m: seq<T>, o: seq<T>, c: T)
    requires multiset(a) + multiset(b) == multiset(m) + multiset(o)
    ensures c in a || c in b <==> c in m || c in o
  {
    assert c in multiset(a) + multiset(b) <==> c in multiset(a) || c in multiset(b);
    assert c in multiset(m) + multiset(o) <==> c in multiset(m) || c in multiset(o);
  }

  /** Every identity document and the task are in the prompt and listed. */
  lemma IdentityInPrompt(s: Settings, r: Request, d: Document)
    requires Compile(s, r).Ok? && d in r.identity
    ensures var o := Compile(s, r).value;
            && Contains(o.prompt, d.encoded) && Contains(o.prompt, s.encoding.task(Strip(r.task)))
            && d.name in o.included && "current_task" in o.included
            && Source(d.name, d.sha, true, None) in o.sources
  {
    CompiledPromptFits(s, r);
    var i :| 0 <= i < |r.identity| && r.identity[i] == d;
    var cs := IdentityCandidates(s.encoding, r.identity);
    assert cs[i] in Mandatory(s.encoding, r);
    assert Mandatory(s.encoding, r)[|cs|] == TaskCandidate(s.encoding, Strip(r.task));
    assert TaskCandidate(s.encoding, Strip(r.task)) in Mandatory(s.encoding, r);
  }

  lemma {:induction false} SortedSorts<T>(s: seq<T>, key: T -> Key)
    requires Sorted(s, key)
    ensures Sort(s, key) == s
  {
    if s != [] {
      var n := |s| - 1;
      SortedInit(s, key, n);
      SortedSorts(s[..n], key);
      InsertLast(s[..n], s[n], key);
      SortOneMore(s, key, n);
      LastOff(s, n);
    }
  }

  lemma LastOff<T>(s: seq<T>, n: int)
    requires n == |s| - 1 >= 0
    ensures s == s[..n] + [s[n]]
  {
  }

  lemma {:induction false} SortOneMore<T>(s: seq<T>, key: T -> Key, n: int)
    requires n == |s| - 1 >= 0
    ensures Sort(s, key) == Insert(Sort(s[..n], key), s[n], key)
  {
  }

  lemma {:induction false} SortedInit<T>(s: seq<T>, key: T -> Key, n: int)
    requires Sorted(s, key) && n == |s| - 1 >= 0
    ensures Sorted(s[..n], key) && (n > 0 ==> Leq(key(s[n - 1]), key(s[n])))
  {
  }

  lemma {:induction false} InsertLast<T>(s: seq<T>, x: T, key: T -> Key)
    requires s != [] ==> Leq(key(s[|s| - 1]), key(x))
    ensures Insert(s, x, key) == s + [x]
  {
  }

  lemma MandatorySorted(e: Encoding, r: Request)
    ensures Sorted(Mandatory(e, r), MandatoryKey)
  {
    var cs := Mandatory(e, r);
    forall i, j | 0 <= i <= j < |cs|
      ensures Leq(MandatoryKey(cs[i]), MandatoryKey(cs[j]))
    {
      if i == j {
        LeqRefl(MandatoryKey(cs[i]));
      } else {
        MandatoryInOrder(e, r, i, j);
      }
    }
  }

  lemma MandatoryInOrder(e: Encoding, r: Request, i: int, j: int)
    requires 0 <= i < j < |Mandatory(e, r)|
    ensures Leq(MandatoryKey(Mandatory(e, r)[i]), MandatoryKey(Mandatory(e, r)[j]))
  {
    var x, y := Mandatory(e, r)[i], Mandatory(e, r)[j];
    var a, b := MandatoryKey(x), MandatoryKey(y);
    assert x.sortKey == [i as real] && x.tier == 0;
    assert a[0] == 0.0 && b[0] == y.tier as real;
    if j < |r.identity| {
      assert y.sortKey == [j as real] && y.tier == 0;
      assert a[1..][0] == i as real && b[1..][0] == j as real;
    }
  }

  /** The identity documents come first in what is included, in their order, and the task next. */
  lemma MandatoryFirst(s: Settings, r: Request, p: Plan)
    requires Prepare(s, r) == Ok(p)
    ensures Compile(s, r).Ok?
    ensures var o, n := Compile(s, r).value, |r.identity|;
            && |o.included| > n && o.included[n] == "current_task"
            && forall i :: 0 <= i < n ==> o.included[i] == r.identity[i].name
  {
    PreparedMembers(s, r, p);
    MandatorySorted(s.encoding, r);
    SortedSorts(Mandatory(s.encoding, r), MandatoryKey);
    GreedyPartitions(BudgetRule(p.frame), p.mandatory, p.optional);
    StartNames(Mandatory(s.encoding, r), Chosen(p).included);
    MandatoryNames(s.encoding, r);
  }

  lemma StartNames(start: seq<Candidate>, cs: seq<Candidate>)
    requires start <= cs
    ensures |Names(cs)| >= |start| && forall i :: 0 <= i < |start| ==> Names(cs)[i] == start[i].name
  {
    forall i | 0 <= i < |start|
      ensures |Names(cs)| >= |start| && Names(cs)[i] == start[i].name
    {
      NamesAt(cs, i);
    }
  }

  lemma MandatoryNames(e: Encoding, r: Request)
    ensures var cs, n := Mandatory(e, r), |r.identity|;
            |cs| == n + 1 && cs[n].name == "current_task" && forall i :: 0 <= i < n ==> cs[i].name == r.identity[i].name
  {
  }

  /** A candidate of this kind and name, with this text. */
  predicate Piece(c: Candidate, name: string, category: string, encoded: string, sha: string) {
    c.name == name && c.category == category && c.encoded == encoded && c.sha == sha && !c.mandatory
  }

  ghost predicate Offered(p: Plan, name: string, category: string, encoded: string, sha: string) {
    exists c :: Considered(p, c) && Piece(c, name, category, encoded, sha)
  }

  lemma OneOffered(s: Settings, r: Request, p: Plan, c: Candidate)
    requires Prepare(s, r) == Ok(p) && r.profile in s.profiles && Conversation(r, s.profiles[r.profile]).Ok?
    requires c in Optional(s.encoding, r, Conversation(r, s.profiles[r.profile]).value) && !c.mandatory
    ensures Offered(p, c.name, c.category, c.encoded, c.sha)
  {
    AllConsidered(s, r, p, c);
    assert Piece(c, c.name, c.category, c.encoded, c.sha);
  }

  /** Every memory competes. */
  lemma MemoryOffered(s: Settings, r: Request, p: Plan, m: Memory)
    requires Prepare(s, r) == Ok(p) && m in r.memories
    ensures Offered(p, "memory:" + m.id, "retrieved_memory", m.encoded, m.sha)
  {
    PreparedMembers(s, r, p);
    var i :| 0 <= i < |r.memories| && r.memories[i] == m;
    var x := MemoryCandidates(s.encoding, r.memories)[i];
    InEarly(s.encoding, r, Conversation(r, s.profiles[r.profile]).value, x);
    OneOffered(s, r, p, x);
  }

  lemma InEarly(e: Encoding, r: Request, c: Summary.Compiled, x: Candidate)
    requires || x in CuratedCandidates(e, r.curated) || x in HeartbeatCandidates(e, r.profile, r.heartbeat)
             || x in MemoryCandidates(e, r.memories)
    ensures x in Optional(e, r, c)
  {
    assert x in Early(e, r);
  }

  /** And every artifact. */
  lemma ArtifactOffered(s: Settings, r: Request, p: Plan, a: Artifact)
    requires Prepare(s, r) == Ok(p) && a in r.artifacts
    ensures Offered(p, "artifact:" + a.id, "artifact", a.encoded, a.sha)
  {
    PreparedMembers(s, r, p);
    var i :| 0 <= i < |r.artifacts| && r.artifacts[i] == a;
    var x := ArtifactCandidates(s.encoding, r.artifacts)[i];
    assert x in Optional(s.encoding, r, Conversation(r, s.profiles[r.profile]).value);
    OneOffered(s, r, p, x);
  }

  /** As do the curated memory, and under the heartbeat profile the operational notes. */
  lemma NotesOffered(s: Settings, r: Request, p: Plan)
    requires Prepare(s, r) == Ok(p)
    ensures r.curated.Some? ==>
              Offered(p, "MEMORY.md", "curated_memory", r.curated.value.encoded, r.curated.value.sha)
    ensures r.heartbeat.Some? && r.profile == "heartbeat" ==>
              Offered(p, "HEARTBEAT.md", "operational", r.heartbeat.value.encoded, r.heartbeat.value.sha)
  {
    PreparedMembers(s, r, p);
    var e, c := s.encoding, Conversation(r, s.profiles[r.profile]).value;
    if r.curated.Some? {
      InEarly(e, r, c, CuratedCandidates(e, r.curated)[0]);
      OneOffered(s, r, p, CuratedCandidates(e, r.curated)[0]);
    }
    if r.heartbeat.Some? && r.profile == "heartbeat" {
      InEarly(e, r, c, HeartbeatCandidates(e, r.profile, r.heartbeat)[0]);
      OneOffered(s, r, p, HeartbeatCandidates(e, r.profile, r.heartbeat)[0]);
    }
  }

  /** So do the conversation's summary and each message that is not folded into it; neither when
      the backend still holds the conversation. */
  lemma ConversationOffered(s: Settings, r: Request, p: Plan)
    requires Prepare(s, r) == Ok(p)
    ensures r.profile in s.profiles && Conversation(r, s.profiles[r.profile]).Ok?
    ensures var c := Conversation(r, s.profiles[r.profile]).value; var e := s.encoding;
            && (forall m <- c.history ::
                  Offered(p, "message:" + m.id, "history", e.message(m), e.digest(m.content)))
            && (c.summary.Some? ==>
                  Offered(p, "summary:v" + Decimal(c.summary.value.version), "conversation_summary",
                          e.summary(c.summary.value), e.digest(c.summary.value.content)))
            && (r.resumed ==> c.history == [] && c.summary.None?)
  {
    PreparedMembers(s, r, p);
    var e, c := s.encoding, Conversation(r, s.profiles[r.profile]).value;
    var cs := Optional(e, r, c);
    forall m <- c.history
      ensures Offered(p, "message:" + m.id, "history", e.message(m), e.digest(m.content))
    {
      var i :| 0 <= i < |c.history| && c.history[i] == m;
      var x := MessageCandidates(e, c.history)[i];
      assert x in cs;
      OneOffered(s, r, p, x);
    }
    if c.summary.Some? {
      OneOffered(s, r, p, SummaryCandidates(e, c.summary)[0]);
    }
  }

  /** And nothing else: what is considered is as many pieces as these. */
  lemma NothingElse(s: Settings, r: Request, p: Plan)
    requires Prepare(s, r) == Ok(p)
    ensures r.profile in s.profiles && Conversation(r, s.profiles[r.profile]).Ok?
    ensures var c := Conversation(r, s.profiles[r.profile]).value;
            |Chosen(p).included| + |Chosen(p).excluded| ==
            |r.identity| + 1 + |r.memories| + |r.artifacts| + |c.history|
            + (if r.curated.Some? then 1 else 0) + (if c.summary.Some? then 1 else 0)
            + (if r.heartbeat.Some? && r.profile == "heartbeat" then 1 else 0)
  {
    PreparedMembers(s, r, p);
    CompiledPartitions(s, r, p);
    var m, o := Mandatory(s.encoding, r), Optional(s.encoding, r, Conversation(r, s.profiles[r.profile]).value);
    assert |multiset(m)| == |m| && |multiset(o)| == |o|;
    assert |All(Chosen(p))| == |Chosen(p).included| + |Chosen(p).excluded|;
  }

  /** A report lists what is included and then what is left out, with its reason, and the
      fingerprint's input has name, digest and inclusion of every source in order. */
  ghost predicate Reported(chosen: Selection, o: Output) {
    var n := |chosen.included|;
    && |o.sources| == n + |chosen.excluded| && |o.seal.sources| == |o.sources|
    && (forall i :: 0 <= i < n ==>
          o.sources[i] == Source(chosen.included[i].name, chosen.included[i].sha, true, None))
    && (forall i :: n <= i < |o.sources| ==>
          var x := chosen.excluded[i - n];
          o.sources[i] == Source(x.candidate.name, x.candidate.sha, false, Some(x.reason)))
    && forall i :: 0 <= i < |o.sources| ==>
         o.seal.sources[i] == (o.sources[i].name, o.sources[i].sha, o.sources[i].included)
  }

  lemma ReportReports(p: Plan, chosen: Selection, profile: string, digest: string, proposal: Option<Summary.Proposal>)
    ensures Reported(chosen, Report(p, chosen, profile, digest, proposal))
  {
    var o := Report(p, chosen, profile, digest, proposal);
    var kept, left := IncludedSources(chosen.included), ExcludedSources(chosen.excluded);
    assert o.sources == kept + left;
    SourcesListed(chosen, kept, left);
    SealLists(o.sources, o.seal.sources);
  }

  lemma SourcesListed(chosen: Selection, kept: seq<Source>, left: seq<Source>)
    requires kept == IncludedSources(chosen.included) && left == ExcludedSources(chosen.excluded)
    ensures var n := |chosen.included|; var sources := kept + left;
            && |kept| == n && |left| == |chosen.excluded|
            && (forall i :: 0 <= i < n ==>
                  sources[i] == Source(chosen.included[i].name, chosen.included[i].sha, true, None))
            && forall i :: n <= i < |sources| ==>
                 var x := chosen.excluded[i - n];
                 sources[i] == Source(x.candidate.name, x.candidate.sha, false, Some(x.reason))
  {
  }

  lemma SealLists(sources: seq<Source>, listed: seq<(string, string, bool)>)
    requires listed == Map((x: Source) => (x.name, x.sha, x.included), sources)
    ensures |listed| == |sources|
    ensures forall i :: 0 <= i < |sources| ==> listed[i] == (sources[i].name, sources[i].sha, sources[i].included)
  {
  }

  lemma SourcesOutcome(s: Settings, r: Request, p: Plan)
    requires Prepare(s, r) == Ok(p)
    ensures Compile(s, r).Ok?
    ensures var o := Compile(s, r).value;
            && Reported(Chosen(p), o)
            && o.seal.profile == r.profile && o.seal.task == s.encoding.digest(Strip(r.task))
  {
    PreparedMembers(s, r, p);
    ReportReports(p, Chosen(p), r.profile, s.encoding.digest(Strip(r.task)), Proposed(s, r));
  }
}
