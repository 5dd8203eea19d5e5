/**
 Greedy selection of optional context under a category cap, a character ceiling and a token
 budget, after the mandatory part has been placed.
 */
module Context {
  import opened Wrappers
  import opened Rendering

  datatype Profile = Profile(totalTokens: int, totalCharacters: int, identityTokens: int, taskTokens: int,
                             conversationTokens: int, memoryTokens: int, operationalTokens: int,
                             compactionThreshold: nat, recentTurns: nat)

  datatype Budget = Budget(totalCharacters: int, identityCharacters: int, taskCharacters: int)

  datatype Reason = CategoryBudget | CharacterBudget | TokenBudget

  datatype Excluded = Excluded(candidate: Candidate, reason: Reason)

  // What one compilation works within: the fixed heading and the ceilings.
  datatype Frame = Frame(header: string, profile: Profile, characters: int)

  function CategoryCap(p: Profile, category: string): int {
    if category == "identity" then p.identityTokens
    else if category == "task" then p.taskTokens
    else if category == "history" || category == "conversation_summary" then p.conversationTokens
    else if category == "curated_memory" || category == "retrieved_memory" then p.memoryTokens
    else p.operationalTokens
  }

  function CategoryTokens(cs: seq<Candidate>, category: string): nat {
    if cs == [] then 0
    else
      var last := cs[|cs| - 1];
      CategoryTokens(cs[..|cs| - 1], category) + if last.category == category then EstimateTokens(last.encoded) else 0
  }

  /** Why a candidate cannot join the included ones, if it cannot. */
  function Refusal(f: Frame, included: seq<Candidate>, c: Candidate): Option<Reason> {
    var trial := Render(f.header, included + [c]);
    if CategoryTokens(included, c.category) + EstimateTokens(c.encoded) > CategoryCap(f.profile, c.category)
    then Some(CategoryBudget)
    else if |trial| > f.characters then Some(CharacterBudget)
    else if EstimateTokens(trial) > f.profile.totalTokens then Some(TokenBudget)
    else None
  }

  /** A rule says of a candidate why it cannot join those already in, if it cannot. */
  type Rule = (seq<Candidate>, Candidate) -> Option<Reason>

  function BudgetRule(f: Frame): Rule {
    (cs, c) => Refusal(f, cs, c)
  }

  datatype Selection = Selection(included: seq<Candidate>, excluded: seq<Excluded>)

  function Consider(rule: Rule, s: Selection, c: Candidate): Selection {
    match rule(s.included, c)
    case Some(reason) => s.(excluded := s.excluded + [Excluded(c, reason)])
    case None => s.(included := s.included + [c])
  }

  function Greedy(rule: Rule, start: seq<Candidate>, optional: seq<Candidate>): Selection {
    if optional == [] then Selection(start, [])
    else Consider(rule, Greedy(rule, start, optional[..|optional| - 1]), optional[|optional| - 1])
  }

  // ---------------------------------------------------------------- what greedy selection gives

  ghost predicate Fits(f: Frame, cs: seq<Candidate>) {
    |Render(f.header, cs)| <= f.characters && EstimateTokens(Render(f.header, cs)) <= f.profile.totalTokens
  }

  /** The prompt built from the selection stays within both ceilings. */
  lemma {:induction false} GreedyFits(f: Frame, start: seq<Candidate>, optional: seq<Candidate>)
    requires Fits(f, start)
    ensures Fits(f, Greedy(BudgetRule(f), start, optional).included)
  {
    if optional != [] {
      GreedyFits(f, start, optional[..|optional| - 1]);
    }
  }

  lemma CategoryAppend(cs: seq<Candidate>, c: Candidate, category: string)
    ensures CategoryTokens(cs + [c], category) ==
            CategoryTokens(cs, category) + if c.category == category then EstimateTokens(c.encoded) else 0
  {
    assert (cs + [c])[..|cs|] == cs;
  }

  /** A rule that refuses whatever would take a category over its cap. */
  ghost predicate Capping(rule: Rule, category: string, cap: int) {
    forall cs, c :: rule(cs, c).None? && c.category == category ==>
      CategoryTokens(cs, category) + EstimateTokens(c.encoded) <= cap
  }

  lemma {:induction false} CappedGreedy(rule: Rule, start: seq<Candidate>, optional: seq<Candidate>,
    category: string, cap: int)
    requires CategoryTokens(start, category) <= cap && Capping(rule, category, cap)
    ensures CategoryTokens(Greedy(rule, start, optional).included, category) <= cap
  {
    if optional != [] {
      var init, c := optional[..|optional| - 1], optional[|optional| - 1];
      CappedGreedy(rule, start, init, category, cap);
      CategoryAppend(Greedy(rule, start, init).included, c, category);
    }
  }

  /** A category's share stays within its cap if it started there. */
  lemma GreedyCaps(f: Frame, start: seq<Candidate>, optional: seq<Candidate>, category: string)
    requires CategoryTokens(start, category) <= CategoryCap(f.profile, category)
    ensures CategoryTokens(Greedy(BudgetRule(f), start, optional).included, category)
            <= CategoryCap(f.profile, category)
  {
    var rule, cap := BudgetRule(f), CategoryCap(f.profile, category);
    assert Capping(rule, category, cap) by {
      forall cs, c | rule(cs, c).None? && c.category == category
        ensures CategoryTokens(cs, category) + EstimateTokens(c.encoded) <= cap
      {
        assert Refusal(f, cs, c).None?;
      }
    }
    CappedGreedy(rule, start, optional, category, cap);
  }

  function Candidates(es: seq<Excluded>): (cs: seq<Candidate>)
    ensures |cs| == |es| && forall i :: 0 <= i < |es| ==> cs[i] == es[i].candidate
  {
    if es == [] then [] else Candidates(es[..|es| - 1]) + [es[|es| - 1].candidate]
  }

  function All(s: Selection): multiset<Candidate> {
    multiset(s.included) + multiset(Candidates(s.excluded))
  }

  lemma ConsiderPartitions(rule: Rule, s: Selection, c: Candidate)
    ensures s.included <= Consider(rule, s, c).included
    ensures All(Consider(rule, s, c)) == All(s) + multiset{c}
  {
    if rule(s.included, c).Some? {
      var es := s.excluded + [Excluded(c, rule(s.included, c).value)];
      assert es[..|s.excluded|] == s.excluded;
      assert Candidates(es) == Candidates(s.excluded) + [c];
    }
  }

  lemma CountedWithLast(cs: seq<Candidate>)
    requires cs != []
    ensures multiset(cs) == multiset(cs[..|cs| - 1]) + multiset{cs[|cs| - 1]}
  {
    assert cs == cs[..|cs| - 1] + [cs[|cs| - 1]];
  }

  /** Every candidate ends up included or excluded, once; the start is kept in front. */
  lemma {:induction false} GreedyPartitions(rule: Rule, start: seq<Candidate>, optional: seq<Candidate>)
    ensures start <= Greedy(rule, start, optional).included
    ensures All(Greedy(rule, start, optional)) == multiset(start) + multiset(optional)
  {
    if optional != [] {
      var init, c := optional[..|optional| - 1], optional[|optional| - 1];
      GreedyPartitions(rule, start, init);
      ConsiderPartitions(rule, Greedy(rule, start, init), c);
      CountedWithLast(optional);
    }
  }

  lemma {:induction false} CategoryWithMore(cs: seq<Candidate>, more: seq<Candidate>, category: string)
    ensures CategoryTokens(cs + more, category) >= CategoryTokens(cs, category)
  {
    if more == [] {
      assert cs + more == cs;
    } else {
      assert (cs + more)[..|cs + more| - 1] == cs + more[..|more| - 1];
      CategoryWithMore(cs, more[..|more| - 1], category);
    }
  }

  /** A candidate refused beside some stays refused beside more. */
  lemma RefusedBesideMore(f: Frame, cs: seq<Candidate>, more: seq<Candidate>, c: Candidate)
    requires Refusal(f, cs, c).Some?
    ensures Refusal(f, cs + more, c).Some?
  {
    CategoryWithMore(cs, more, c.category);
    RenderWithMore(f.header, cs, more, c);
  }

  ghost predicate Maximal(rule: Rule, s: Selection) {
    forall e <- s.excluded :: rule(s.included, e.candidate).Some?
  }

  ghost predicate Monotone(rule: Rule) {
    forall cs, more, c :: rule(cs, c).Some? ==> rule(cs + more, c).Some?
  }

  lemma BudgetsMonotone(f: Frame)
    ensures Monotone(BudgetRule(f))
  {
    forall cs, more, c | BudgetRule(f)(cs, c).Some?
      ensures BudgetRule(f)(cs + more, c).Some?
    {
      RefusedBesideMore(f, cs, more, c);
    }
  }

  lemma ConsiderMaximal(rule: Rule, s: Selection, c: Candidate)
    requires Monotone(rule) && Maximal(rule, s)
    ensures Maximal(rule, Consider(rule, s, c))
  {
    var next := Consider(rule, s, c);
    forall e <- next.excluded
      ensures rule(next.included, e.candidate).Some?
    {
      if rule(s.included, c).None? {
        assert rule(s.included, e.candidate).Some?;
      }
    }
  }

  lemma {:induction false} MonotoneGreedyMaximal(rule: Rule, start: seq<Candidate>, optional: seq<Candidate>)
    requires Monotone(rule)
    ensures Maximal(rule, Greedy(rule, start, optional))
  {
    if optional != [] {
      MonotoneGreedyMaximal(rule, start, optional[..|optional| - 1]);
      ConsiderMaximal(rule, Greedy(rule, start, optional[..|optional| - 1]), optional[|optional| - 1]);
    }
  }

  /** Greedy maximality: nothing excluded could still be added to the final selection without
      breaking its category cap, the character ceiling or the token budget. */
  lemma GreedyMaximal(f: Frame, start: seq<Candidate>, optional: seq<Candidate>)
    ensures var s := Greedy(BudgetRule(f), start, optional);
            forall e <- s.excluded ::
              var cs := s.included + [e.candidate];
              || CategoryTokens(cs, e.candidate.category) > CategoryCap(f.profile, e.candidate.category)
              || |Render(f.header, cs)| > f.characters
              || EstimateTokens(Render(f.header, cs)) > f.profile.totalTokens
  {
    var rule := BudgetRule(f);
    BudgetsMonotone(f);
    MonotoneGreedyMaximal(rule, start, optional);
    var s := Greedy(rule, start, optional);
    forall e <- s.excluded
      ensures Refusal(f, s.included, e.candidate).Some?
      ensures CategoryTokens(s.included + [e.candidate], e.candidate.category) ==
              CategoryTokens(s.included, e.candidate.category) + EstimateTokens(e.candidate.encoded)
    {
      assert rule(s.included, e.candidate).Some?;
      CategoryAppend(s.included, e.candidate, e.candidate.category);
    }
  }

  // ---------------------------------------------------------------- the omitted list

  function Omitted(optional: seq<Candidate>, included: seq<Candidate>): seq<string> {
    if optional == [] then []
    else
      var c := optional[|optional| - 1];
      Omitted(optional[..|optional| - 1], included) + if c in included then [] else [c.name]
  }

  function Names(cs: seq<Candidate>): seq<string> {
    if cs == [] then [] else Names(cs[..|cs| - 1]) + [cs[|cs| - 1].name]
  }

  ghost predicate Different(cs: seq<Candidate>) {
    forall i, j :: 0 <= i < j < |cs| ==> cs[i] != cs[j]
  }

  lemma {:induction false} OmittedIgnores(optional: seq<Candidate>, included: seq<Candidate>, x: Candidate)
    requires x !in optional
    ensures Omitted(optional, included + [x]) == Omitted(optional, included)
  {
    if optional != [] {
      OmittedIgnores(optional[..|optional| - 1], included, x);
    }
  }

  lemma {:induction false} GreedyMembers(rule: Rule, start: seq<Candidate>, optional: seq<Candidate>, x: Candidate)
    requires x in Greedy(rule, start, optional).included
    ensures x in start || x in optional
  {
    if optional != [] {
      var init := optional[..|optional| - 1];
      if x in Greedy(rule, start, init).included {
        GreedyMembers(rule, start, init, x);
      }
    }
  }

  /** When no two candidates are the same, the omitted names are those of the excluded ones. */
  lemma {:induction false} OmittedAreExcluded(rule: Rule, start: seq<Candidate>, optional: seq<Candidate>)
    requires Different(optional) && forall x <- start :: x !in optional
    ensures var s := Greedy(rule, start, optional);
            Omitted(optional, s.included) == Names(Candidates(s.excluded))
  {
    if optional != [] {
      var init, c := optional[..|optional| - 1], optional[|optional| - 1];
      OmittedAreExcluded(rule, start, init);
      var before := Greedy(rule, start, init);
      assert c !in init;
      if rule(before.included, c).Some? {
        var e := Excluded(c, rule(before.included, c).value);
        assert (before.excluded + [e])[..|before.excluded|] == before.excluded;
        var cs := Candidates(before.excluded + [e]);
        assert cs[..|cs| - 1] == Candidates(before.excluded);
        if c in before.included {
          GreedyMembers(rule, start, init, c);
        }
      } else {
        OmittedIgnores(init, before.included, c);
      }
    }
  }
}
