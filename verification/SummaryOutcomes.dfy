/**
 What a summary's text is made of, and which messages a compaction folds in.
 */
module SummaryOutcomes {
  import opened Wrappers
  import opened Text
  import opened Summary

  // ---------------------------------------------------------------- lines

  predicate Clean(word: string) {
    word != "" && forall i :: 0 <= i < |word| ==> !Space(word[i])
  }

  function Joined(words: seq<string>): string {
    if words == [] then "" else words[0] + Joined(words[1..])
  }

  function Unspaced(s: string): string {
    if s == "" then "" else (if Space(s[0]) then "" else [s[0]]) + Unspaced(s[1..])
  }

  lemma {:induction false} JoinedMore(a: seq<string>, b: seq<string>)
    ensures Joined(a + b) == Joined(a) + Joined(b)
  {
    if a == [] {
      assert a + b == b;
    } else {
      assert (a + b)[1..] == a[1..] + b;
      JoinedMore(a[1..], b);
    }
  }

  lemma {:induction false} WordsClean(s: string, word: string)
    requires forall i :: 0 <= i < |word| ==> !Space(word[i])
    ensures forall w <- Words(s, word) :: Clean(w)
    decreases |s|
  {
    if s != "" {
      if Space(s[0]) {
        WordsClean(s[1..], "");
      } else {
        WordsClean(s[1..], word + [s[0]]);
      }
    }
  }

  lemma WordCut(done: seq<string>, rest: seq<string>, word: string)
    requires done == if word == "" then [] else [word]
    ensures Joined(done + rest) == word + Joined(rest)
  {
    JoinedMore(done, rest);
  }

  lemma {:induction false} WordsJoined(s: string, word: string)
    ensures Joined(Words(s, word)) == word + Unspaced(s)
    decreases |s|
  {
    var done := if word == "" then [] else [word];
    if s == "" {
      WordCut(done, [], word);
      assert done + [] == done && word + "" == word;
    } else if Space(s[0]) {
      WordsJoined(s[1..], "");
      WordCut(done, Words(s[1..], ""), word);
      assert "" + Unspaced(s[1..]) == Unspaced(s);
    } else {
      WordsJoined(s[1..], word + [s[0]]);
      assert word + [s[0]] + Unspaced(s[1..]) == word + ([s[0]] + Unspaced(s[1..]));
    }
  }

  /** Words of a text: what is left of it without white space, cut where the white space was. */
  lemma WordsOutcome(s: string)
    ensures Joined(Words(s, "")) == Unspaced(s)
    ensures forall w <- Words(s, "") :: Clean(w)
  {
    WordsJoined(s, "");
    WordsClean(s, "");
  }

  /** A message's line: its role and its words with single spaces between, cut to a hundred and
      sixty characters with three dots at the end. */
  lemma LineOutcome(m: Message)
    ensures var text := JoinWith(" ", Words(m.content, ""));
            Line(m) == m.role + ": " + (if |text| <= 160 then text else text[..157] + "...")
  {
  }

  // ---------------------------------------------------------------- the text

  lemma {:induction false} LinesAre(messages: seq<Message>)
    ensures |Lines(messages)| == |messages|
    ensures forall i :: 0 <= i < |messages| ==> Lines(messages)[i] == Line(messages[i])
  {
    if messages != [] {
      LinesAre(messages[..|messages| - 1]);
    }
  }

  /** What stands before the messages' lines: the earlier summary's text, and how many messages are
      passed over. */
  function Opening(prior: Option<Proposal>, n: nat): seq<string> {
    (if prior.Some? then [prior.value.content] else [])
    + if n > 80 then ["[" + Digits(n - 80) + " earlier messages retained in raw storage]"] else []
  }

  /** The parts of a summary's text, one a line: the opening, and the line of each of the newest
      eighty messages, oldest first. */
  ghost predicate Parts(messages: seq<Message>, prior: Option<Proposal>, parts: seq<string>) {
    var opening := Opening(prior, |messages|);
    var n := if |messages| > 80 then 80 else |messages|;
    && |parts| == |opening| + n && opening <= parts
    && forall k :: |opening| <= k < |parts| ==> parts[k] == Line(messages[|messages| - |parts| + k])
  }

  lemma PartsAre(messages: seq<Message>, prior: Option<Proposal>)
    ensures Parts(messages, prior, Opening(prior, |messages|) + Lines(Recent(messages)))
  {
    var recent := Recent(messages);
    LinesAre(recent);
    assert forall k :: 0 <= k < |recent| ==> recent[k] == messages[|messages| - |recent| + k];
  }

  /** A text of over sixteen thousand characters is cut to its last 15,950 after a notice. */
  function Cut(text: string): string {
    if |text| <= 16000 then text
    else "[older summary compacted; raw messages retained]\n" + text[|text| - 15950..]
  }

  /** A summary's text is its parts, cut if it is too long; and it counts and names what it adds to
      the earlier one. */
  lemma SummaryOutcome(messages: seq<Message>, version: int, prior: Option<Proposal>) returns (parts: seq<string>)
    requires messages != []
    ensures Parts(messages, prior, parts)
    ensures Summarize(messages, version, prior).Ok?
    ensures var s := Summarize(messages, version, prior).value;
            && s.content == Cut(JoinWith("\n", parts))
            && s.version == version && s.conversation == messages[0].conversation
            && s.lastId == messages[|messages| - 1].id
            && s.firstId == (if prior.Some? then prior.value.firstId else messages[0].id)
            && s.count == (if prior.Some? then prior.value.count else 0) + |messages|
  {
    parts := Opening(prior, |messages|) + Lines(Recent(messages));
    PartsAre(messages, prior);
    assert Heading(prior, messages) == Opening(prior, |messages|);
    CutIs(parts);
  }

  lemma CutIs(parts: seq<string>)
    ensures Content(parts) == Cut(JoinWith("\n", parts))
  {
  }

  /** So a text that was not cut begins with the earlier summary's. */
  lemma EarlierTextKept(messages: seq<Message>, version: int, prior: Proposal) returns (rest: string)
    requires messages != [] && |Summarize(messages, version, Some(prior)).value.content| < 15999
    ensures Summarize(messages, version, Some(prior)).value.content == prior.content + "\n" + rest
  {
    var parts := SummaryOutcome(messages, version, Some(prior));
    rest := JoinWith("\n", parts[1..]);
    assert parts == [prior.content] + parts[1..];
    JoinStarts("\n", prior.content, parts[1..]);
    NotCut(JoinWith("\n", parts));
  }

  lemma NotCut(text: string)
    requires |Cut(text)| < 15999
    ensures Cut(text) == text
  {
  }

  lemma {:induction false} JoinStarts(separator: string, first: string, rest: seq<string>)
    requires rest != []
    ensures JoinWith(separator, [first] + rest) == first + separator + JoinWith(separator, rest)
  {
    var all := [first] + rest;
    if |rest| > 1 {
      JoinStarts(separator, first, rest[..|rest| - 1]);
      assert all[..|all| - 1] == [first] + rest[..|rest| - 1];
    } else {
      assert all[..1] == [first];
    }
  }

  // ---------------------------------------------------------------- which messages

  /** A history over the threshold is folded into the next version of the summary but for its newest
      turns, which are offered; at or under it all of it is offered beside the summary as it is. */
  lemma CompactOutcome(history: seq<Message>, prior: Option<Proposal>, threshold: nat, recent: nat)
    requires 0 < recent < |history|
    ensures var older, newer := history[..|history| - recent], history[|history| - recent..];
            var version := if prior.Some? then prior.value.version + 1 else 1;
            Compact(history, prior, threshold, recent) ==
            if |history| > threshold then Ok(Compiled(Some(Summarize(older, version, prior).value), true, newer))
            else Ok(Compiled(prior, false, history))
  {
  }

  lemma NewestAre<T>(s: seq<T>, limit: nat, keep: nat)
    requires limit > 0
    ensures var n := if |s| > limit then limit else |s|;
            && LastOf(s, limit) == s[|s| - n..]
            && AllBut(LastOf(s, limit), keep) == if keep == 0 || keep >= n then [] else s[|s| - n..|s| - keep]
  {
    var n := if |s| > limit then limit else |s|;
    assert LastOf(s, limit) == s[|s| - n..];
    if keep < n {
      assert s[|s| - n..][..n - keep] == s[|s| - n..|s| - keep];
    }
  }

  /** On request the newest ten thousand messages but for the last few are folded in, and all but
      the last when they are no more than the few; fewer than two are refused, and nothing can be
      kept of none. */
  lemma RequestOutcome(log: seq<Message>, prior: Option<Proposal>, keep: nat) returns (folded: seq<Message>)
    ensures var n := if |log| > 10000 then 10000 else |log|;
            var kept := if n <= keep then 1 else keep;
            folded == if n < 2 || kept == 0 then [] else log[|log| - n..|log| - kept]
    ensures CompactOnRequest(log, prior, keep) ==
            if |log| < 2 then Err(TooFewMessages)
            else Summarize(folded, if prior.Some? then prior.value.version + 1 else 1, prior)
  {
    var n := if |log| > HistoryLimit then HistoryLimit else |log|;
    if n >= 2 {
      RequestedIs(log, keep, n);
      folded := Requested(log, keep);
      RequestFolds(log, prior, keep, folded);
    } else {
      folded := [];
    }
  }

  lemma RequestFolds(log: seq<Message>, prior: Option<Proposal>, keep: nat, folded: seq<Message>)
    requires folded == Requested(log, keep) && |log| >= 2
    ensures CompactOnRequest(log, prior, keep) ==
            Summarize(folded, if prior.Some? then prior.value.version + 1 else 1, prior)
  {
  }

  lemma RequestedIs(log: seq<Message>, keep: nat, n: nat)
    requires n == (if |log| > HistoryLimit then HistoryLimit else |log|) && n >= 2
    ensures var kept := if n <= keep then 1 else keep;
            Requested(log, keep) == if kept == 0 then [] else log[|log| - n..|log| - kept]
  {
    NewestAre(log, HistoryLimit, if n <= keep then 1 else keep);
  }

  /** The messages of one list not tied to a run, in their order. */
  lemma {:induction false} OthersAre(log: seq<Message>, run: string)
    ensures forall m :: m in Others(log, run) <==> m in log && m.run != Some(run)
    ensures multiset(Others(log, run)) <= multiset(log)
  {
    if log != [] {
      var init, last := log[..|log| - 1], log[|log| - 1];
      OthersAre(init, run);
      assert log == init + [last];
    }
  }

  /** What a compilation for a run starts from: the messages after the last one the summary stands
      for, without the run's own, no more than ten thousand of them. */
  lemma HistoryOutcome(log: seq<Message>, prior: Option<Proposal>, run: string)
    requires Distinct(log) && Covers(log, prior)
    ensures var rest := log[Covered(prior)..];
            && History(log, prior, run).Ok?
            && var h := History(log, prior, run).value;
               && |h| == (if |Others(rest, run)| > 10000 then 10000 else |Others(rest, run)|)
               && h <= Others(rest, run)
               && forall m <- h :: m in rest && m.run != Some(run)
  {
    PendingAfterCovered(log, prior);
    OthersAre(log[Covered(prior)..], run);
  }
}
