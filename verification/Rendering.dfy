/**
 The prompt as text: JSON arrays under one heading per section, and how its length grows.
 Lengths are taken by any positive weight per character, so that one argument serves for
 characters and for UTF-8 bytes.
 */
module Rendering {
  import opened Ordering

  type Weighing = char -> nat

  function Weight(w: Weighing, s: string): nat {
    if s == "" then 0 else w(s[0]) + Weight(w, s[1..])
  }

  ghost predicate Positive(w: Weighing) {
    forall c :: w(c) >= 1
  }

  lemma {:induction false} WeightJoins(w: Weighing, s: string, t: string)
    ensures Weight(w, s + t) == Weight(w, s) + Weight(w, t)
  {
    if s == "" {
      assert s + t == t;
    } else {
      assert (s + t)[1..] == s[1..] + t;
      WeightJoins(w, s[1..], t);
    }
  }

  const One: Weighing := c => 1

  /** Section 3 of RFC 3629. */
  function CharBytes(c: char): nat {
    if c as int < 0x80 then 1 else if c as int < 0x800 then 2 else if c as int < 0x10000 then 3 else 4
  }

  function Bytes(s: string): nat {
    Weight(CharBytes, s)
  }

  lemma {:induction false} OneCountsCharacters(s: string)
    ensures Weight(One, s) == |s|
  {
    if s != "" {
      OneCountsCharacters(s[1..]);
    }
  }

  /** A third of the bytes, rounded up. */
  function EstimateTokens(s: string): nat {
    (Bytes(s) + 2) / 3
  }

  // ---------------------------------------------------------------- sections

  // encoded is the candidate's content as JSON.
  datatype Candidate = Candidate(name: string, category: string, tier: int, priority: int, encoded: string,
                                 section: string, sortKey: Key, sha: string, mandatory: bool)

  function RenderKey(c: Candidate): Key {
    [c.tier as real] + Codes(c.section) + c.sortKey + Codes(c.name)
  }

  function Join(items: seq<string>): string {
    if items == [] then "" else if |items| == 1 then items[0]
    else Join(items[..|items| - 1]) + "," + items[|items| - 1]
  }

  function JsonArray(items: seq<string>): string {
    "[" + Join(items) + "]"
  }

  function Block(title: string, items: seq<string>): string {
    "\n\n## " + title + "\n```json\n" + JsonArray(items) + "\n```"
  }

  // order: the titles as first met; items: what goes under each.
  datatype Groups = Groups(order: seq<string>, items: map<string, seq<string>>)

  const NoGroups := Groups([], map[])

  function Put(g: Groups, c: Candidate): Groups {
    if c.section in g.items then g.(items := g.items[c.section := g.items[c.section] + [c.encoded]])
    else Groups(g.order + [c.section], g.items[c.section := [c.encoded]])
  }

  function Group(cs: seq<Candidate>): Groups {
    if cs == [] then NoGroups else Put(Group(cs[..|cs| - 1]), cs[|cs| - 1])
  }

  function Blocks(order: seq<string>, items: map<string, seq<string>>): string
    requires forall t <- order :: t in items
  {
    if order == [] then ""
    else Blocks(order[..|order| - 1], items) + Block(order[|order| - 1], items[order[|order| - 1]])
  }

  ghost predicate GroupsOk(g: Groups) {
    && (forall t :: t in g.order <==> t in g.items)
    && (forall i, j :: 0 <= i < j < |g.order| ==> g.order[i] != g.order[j])
    && (forall t <- g.items :: g.items[t] != [])
  }

  lemma {:induction false} GroupOk(cs: seq<Candidate>)
    ensures GroupsOk(Group(cs))
    ensures forall t :: t in Group(cs).items <==> HasSection(cs, t)
  {
    if cs != [] {
      var init, last := cs[..|cs| - 1], cs[|cs| - 1];
      GroupOk(init);
      assert cs == init + [last];
    }
  }

  function Body(g: Groups): string
    requires GroupsOk(g)
  {
    Blocks(g.order, g.items)
  }

  function RenderSections(cs: seq<Candidate>): string {
    GroupOk(Sort(cs, RenderKey));
    Body(Group(Sort(cs, RenderKey)))
  }

  function Render(header: string, cs: seq<Candidate>): string {
    header + RenderSections(cs)
  }

  // ---------------------------------------------------------------- what an item adds

  predicate HasSection(cs: seq<Candidate>, title: string) {
    exists c <- cs :: c.section == title
  }

  function Added(w: Weighing, c: Candidate, present: bool): nat {
    if present then Weight(w, ",") + Weight(w, c.encoded) else Weight(w, Block(c.section, [c.encoded]))
  }

  function Cost(w: Weighing, cs: seq<Candidate>): nat {
    if cs == [] then 0
    else
      var init, last := cs[..|cs| - 1], cs[|cs| - 1];
      Cost(w, init) + Added(w, last, HasSection(init, last.section))
  }

  lemma WeightOfBlock(w: Weighing, title: string, items: seq<string>)
    ensures Weight(w, Block(title, items)) == Weight(w, Block(title, [])) + Weight(w, Join(items))
  {
    var head := "\n\n## " + title + "\n```json\n";
    WeightJoins(w, head + JsonArray(items), "\n```");
    WeightJoins(w, head, JsonArray(items));
    WeightJoins(w, "[" + Join(items), "]");
    WeightJoins(w, "[", Join(items));
    WeightJoins(w, head + JsonArray([]), "\n```");
    WeightJoins(w, head, JsonArray([]));
    WeightJoins(w, "[" + Join([]), "]");
    WeightJoins(w, "[", Join([]));
  }

  /** One more item in a section costs a comma and the item. */
  lemma BlockGrows(w: Weighing, title: string, items: seq<string>, x: string)
    requires items != []
    ensures Weight(w, Block(title, items + [x])) == Weight(w, Block(title, items)) + Weight(w, ",") + Weight(w, x)
  {
    WeightOfBlock(w, title, items);
    WeightOfBlock(w, title, items + [x]);
    assert (items + [x])[..|items|] == items;
    WeightJoins(w, Join(items) + ",", x);
    WeightJoins(w, Join(items), ",");
  }

  lemma {:induction false} BlocksUnchanged(order: seq<string>, items: map<string, seq<string>>, t: string,
    v: seq<string>)
    requires forall x <- order :: x in items
    requires t !in order
    ensures Blocks(order, items[t := v]) == Blocks(order, items)
  {
    if order != [] {
      BlocksUnchanged(order[..|order| - 1], items, t, v);
    }
  }

  lemma {:induction false} BlocksGrow(w: Weighing, order: seq<string>, items: map<string, seq<string>>, t: string,
    x: string)
    requires forall y <- order :: y in items
    requires forall i, j :: 0 <= i < j < |order| ==> order[i] != order[j]
    requires t in order && items[t] != []
    ensures Weight(w, Blocks(order, items[t := items[t] + [x]])) ==
            Weight(w, Blocks(order, items)) + Weight(w, ",") + Weight(w, x)
  {
    var init, last := order[..|order| - 1], order[|order| - 1];
    var items' := items[t := items[t] + [x]];
    WeightJoins(w, Blocks(init, items'), Block(last, items'[last]));
    WeightJoins(w, Blocks(init, items), Block(last, items[last]));
    if last == t {
      BlocksUnchanged(init, items, t, items[t] + [x]);
      BlockGrows(w, t, items[t], x);
    } else {
      BlocksGrow(w, init, items, t, x);
    }
  }

  lemma PutCost(w: Weighing, g: Groups, c: Candidate)
    requires GroupsOk(g) && GroupsOk(Put(g, c))
    ensures Weight(w, Body(Put(g, c))) == Weight(w, Body(g)) + Added(w, c, c.section in g.items)
  {
    if c.section in g.items {
      BlocksGrow(w, g.order, g.items, c.section, c.encoded);
    } else {
      var items' := g.items[c.section := [c.encoded]];
      BlocksUnchanged(g.order, g.items, c.section, [c.encoded]);
      assert (g.order + [c.section])[..|g.order|] == g.order;
      WeightJoins(w, Blocks(g.order, items'), Block(c.section, [c.encoded]));
    }
  }

  lemma {:induction false} GroupCost(w: Weighing, cs: seq<Candidate>)
    requires GroupsOk(Group(cs))
    ensures Weight(w, Body(Group(cs))) == Cost(w, cs)
  {
    if cs != [] {
      var init, last := cs[..|cs| - 1], cs[|cs| - 1];
      GroupOk(init);
      GroupCost(w, init);
      PutCost(w, Group(init), last);
    }
  }

  // ---------------------------------------------------------------- order does not matter

  lemma HasSectionAppend(cs: seq<Candidate>, x: Candidate, title: string)
    ensures HasSection(cs + [x], title) <==> HasSection(cs, title) || x.section == title
  {
    assert forall c <- cs :: c in cs + [x];
    assert x in cs + [x];
  }

  lemma CostAppend(w: Weighing, cs: seq<Candidate>, x: Candidate)
    ensures Cost(w, cs + [x]) == Cost(w, cs) + Added(w, x, HasSection(cs, x.section))
  {
    assert (cs + [x])[..|cs|] == cs;
  }

  lemma AddedEither(w: Weighing, x: Candidate, y: Candidate)
    requires x.section == y.section
    ensures Added(w, x, false) + Added(w, y, true) == Added(w, y, false) + Added(w, x, true)
  {
    WeightOfBlock(w, x.section, [x.encoded]);
    WeightOfBlock(w, y.section, [y.encoded]);
  }

  lemma CostSwap(w: Weighing, cs: seq<Candidate>, x: Candidate, y: Candidate)
    ensures Cost(w, cs + [x] + [y]) == Cost(w, cs + [y] + [x])
  {
    CostAppend(w, cs + [x], y);
    CostAppend(w, cs, x);
    CostAppend(w, cs + [y], x);
    CostAppend(w, cs, y);
    HasSectionAppend(cs, x, y.section);
    HasSectionAppend(cs, y, x.section);
    if x.section == y.section {
      AddedEither(w, x, y);
    }
  }

  lemma SameSections(a: seq<Candidate>, b: seq<Candidate>, title: string)
    requires multiset(a) == multiset(b)
    ensures HasSection(a, title) <==> HasSection(b, title)
  {
    if HasSection(a, title) {
      var c :| c in a && c.section == title;
      assert c in multiset(b);
    }
    if HasSection(b, title) {
      var c :| c in b && c.section == title;
      assert c in multiset(a);
    }
  }

  lemma MoveLast(w: Weighing, init: seq<Candidate>, moved: seq<Candidate>, x: Candidate, last: Candidate)
    requires multiset(moved) == multiset(init) + multiset{x} && Cost(w, moved) == Cost(w, init + [x])
    ensures Cost(w, moved + [last]) == Cost(w, init + [last] + [x])
  {
    CostAppend(w, moved, last);
    CostAppend(w, init + [x], last);
    assert multiset(init + [x]) == multiset(init) + multiset{x};
    SameSections(moved, init + [x], last.section);
    CostSwap(w, init, x, last);
  }

  lemma {:induction false} InsertCost(w: Weighing, cs: seq<Candidate>, x: Candidate, key: Candidate -> Key)
    ensures Cost(w, Insert(cs, x, key)) == Cost(w, cs + [x])
  {
    if cs == [] {
      assert cs + [x] == [x];
    } else {
      var init, last := cs[..|cs| - 1], cs[|cs| - 1];
      InsertUnfolds(cs, x, key);
      if !Leq(key(last), key(x)) {
        InsertCost(w, init, x, key);
        MoveLast(w, init, Insert(init, x, key), x, last);
      }
    }
  }

  lemma InsertUnfolds(cs: seq<Candidate>, x: Candidate, key: Candidate -> Key)
    requires cs != []
    ensures var init, last := cs[..|cs| - 1], cs[|cs| - 1];
            && cs == init + [last]
            && Insert(cs, x, key) == if Leq(key(last), key(x)) then cs + [x] else Insert(init, x, key) + [last]
  {
  }

  lemma {:induction false} SortCost(w: Weighing, cs: seq<Candidate>, key: Candidate -> Key)
    ensures Cost(w, Sort(cs, key)) == Cost(w, cs)
  {
    if cs != [] {
      var init, last := cs[..|cs| - 1], cs[|cs| - 1];
      SortCost(w, init, key);
      InsertCost(w, Sort(init, key), last, key);
      CostAppend(w, Sort(init, key), last);
      SameSections(Sort(init, key), init, last.section);
    }
  }

  /** The length of the rendered prompt, by any weight, from its candidates in any order. */
  lemma RenderWeight(w: Weighing, header: string, cs: seq<Candidate>)
    ensures Weight(w, Render(header, cs)) == Weight(w, header) + Cost(w, cs)
  {
    WeightJoins(w, header, RenderSections(cs));
    GroupOk(Sort(cs, RenderKey));
    GroupCost(w, Sort(cs, RenderKey));
    SortCost(w, cs, RenderKey);
  }

  // ---------------------------------------------------------------- every item is in the text

  ghost predicate Contains(s: string, x: string) {
    exists a, b :: s == a + x + b
  }

  lemma ContainsWithin(a: string, s: string, b: string, x: string)
    requires Contains(s, x)
    ensures Contains(a + s + b, x)
  {
    var c, d :| s == c + x + d;
    assert a + s + b == (a + c) + x + (d + b);
  }

  lemma {:induction false} JoinContains(items: seq<string>, x: string)
    requires x in items
    ensures Contains(Join(items), x)
  {
    var last := items[|items| - 1];
    if |items| == 1 {
      assert Join(items) == "" + x + "";
    } else if x == last {
      assert Join(items) == (Join(items[..|items| - 1]) + ",") + x + "";
    } else {
      JoinContains(items[..|items| - 1], x);
      ContainsWithin("", Join(items[..|items| - 1]), "," + last, x);
      assert Join(items) == "" + Join(items[..|items| - 1]) + ("," + last);
    }
  }

  lemma BlockContains(title: string, items: seq<string>, x: string)
    requires x in items
    ensures Contains(Block(title, items), x)
  {
    JoinContains(items, x);
    var head := "\n\n## " + title + "\n```json\n";
    ContainsWithin(head + "[", Join(items), "]" + "\n```", x);
    assert Block(title, items) == (head + "[") + Join(items) + ("]" + "\n```");
  }

  lemma {:induction false} BlocksContain(order: seq<string>, items: map<string, seq<string>>, t: string, x: string)
    requires (forall y <- order :: y in items) && t in order && x in items[t]
    ensures Contains(Blocks(order, items), x)
  {
    var init, last := order[..|order| - 1], order[|order| - 1];
    var block := Block(last, items[last]);
    if t == last {
      BlockContains(last, items[last], x);
      ContainsWithin(Blocks(init, items), block, "", x);
      assert Blocks(order, items) == Blocks(init, items) + block + "";
    } else {
      BlocksContain(init, items, t, x);
      ContainsWithin("", Blocks(init, items), block, x);
      assert Blocks(order, items) == "" + Blocks(init, items) + block;
    }
  }

  lemma {:induction false} GroupHolds(cs: seq<Candidate>, c: Candidate)
    requires c in cs
    ensures c.section in Group(cs).items && c.encoded in Group(cs).items[c.section]
  {
    if c in cs[..|cs| - 1] {
      GroupHolds(cs[..|cs| - 1], c);
    }
  }

  /** The prompt contains every candidate's JSON text. */
  lemma RenderContains(header: string, cs: seq<Candidate>, c: Candidate)
    requires c in cs
    ensures Contains(Render(header, cs), c.encoded)
  {
    var sorted := Sort(cs, RenderKey);
    assert c in multiset(sorted);
    GroupHolds(sorted, c);
    GroupOk(sorted);
    var g := Group(sorted);
    BlocksContain(g.order, g.items, c.section, c.encoded);
    ContainsWithin(header, RenderSections(cs), "", c.encoded);
    assert Render(header, cs) == header + RenderSections(cs) + "";
  }

  // ---------------------------------------------------------------- growth

  lemma AddedPositive(w: Weighing, c: Candidate, present: bool)
    requires Positive(w)
    ensures Added(w, c, present) > 0
  {
    WeightJoins(w, "\n\n## " + c.section + "\n```json\n" + JsonArray([c.encoded]), "\n```");
    assert Weight(w, ",") == w(',') + Weight(w, "");
    assert Weight(w, "\n```") >= w('\n');
  }

  /** Adding any candidate, to a section already there or a new one, makes the prompt
      strictly longer in characters and in bytes. */
  lemma RenderGrows(header: string, cs: seq<Candidate>, x: Candidate)
    ensures |Render(header, cs + [x])| > |Render(header, cs)|
    ensures Bytes(Render(header, cs + [x])) > Bytes(Render(header, cs))
  {
    OneCountsCharacters(Render(header, cs + [x]));
    OneCountsCharacters(Render(header, cs));
    RenderWeight(One, header, cs + [x]);
    RenderWeight(One, header, cs);
    CostAppend(One, cs, x);
    AddedPositive(One, x, HasSection(cs, x.section));
    RenderWeight(CharBytes, header, cs + [x]);
    RenderWeight(CharBytes, header, cs);
    CostAppend(CharBytes, cs, x);
    AddedPositive(CharBytes, x, HasSection(cs, x.section));
  }

  lemma {:induction false} CostWithMore(w: Weighing, cs: seq<Candidate>, more: seq<Candidate>, x: Candidate)
    ensures Cost(w, cs + more + [x]) >= Cost(w, cs + [x])
  {
    if more == [] {
      assert cs + more == cs;
    } else {
      var init, last := more[..|more| - 1], more[|more| - 1];
      assert cs + more == cs + init + [last];
      CostSwap(w, cs + init, last, x);
      CostAppend(w, cs + init + [x], last);
      CostWithMore(w, cs, init, x);
    }
  }

  /** What did not fit beside fewer candidates does not fit beside more. */
  lemma RenderWithMore(header: string, cs: seq<Candidate>, more: seq<Candidate>, x: Candidate)
    ensures |Render(header, cs + more + [x])| >= |Render(header, cs + [x])|
    ensures Bytes(Render(header, cs + more + [x])) >= Bytes(Render(header, cs + [x]))
  {
    OneCountsCharacters(Render(header, cs + more + [x]));
    OneCountsCharacters(Render(header, cs + [x]));
    RenderWeight(One, header, cs + more + [x]);
    RenderWeight(One, header, cs + [x]);
    CostWithMore(One, cs, more, x);
    RenderWeight(CharBytes, header, cs + more + [x]);
    RenderWeight(CharBytes, header, cs + [x]);
    CostWithMore(CharBytes, cs, more, x);
  }
}
