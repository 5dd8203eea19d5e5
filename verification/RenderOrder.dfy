/**
 Where items stand in the rendered prompt: sections of lower tiers first, and each section's
 items in the order of their sort keys.
 */
module RenderOrder {
  import opened Text
  import opened Ordering
  import opened Rendering

  ghost predicate Before(s: string, x: string, y: string) {
    exists a, m, z :: s == a + x + m + y + z
  }

  lemma BeforeWithin(a: string, s: string, b: string, x: string, y: string)
    requires Before(s, x, y)
    ensures Before(a + s + b, x, y)
  {
    var c, m, z :| s == c + x + m + y + z;
    assert a + s + b == (a + c) + x + m + y + (z + b);
  }

  lemma ContainsBefore(s: string, t: string, x: string, y: string)
    requires Contains(s, x) && Contains(t, y)
    ensures Before(s + t, x, y)
  {
    var a, b :| s == a + x + b;
    var c, d :| t == c + y + d;
    assert s + t == a + x + (b + c) + y + d;
  }

  // ---------------------------------------------------------------- within a section

  lemma {:induction false} JoinBefore(items: seq<string>, k: int, l: int)
    requires 0 <= k < l < |items|
    ensures Before(Join(items), items[k], items[l])
  {
    var init, last := items[..|items| - 1], items[|items| - 1];
    if l == |items| - 1 {
      JoinContains(init, items[k]);
      assert "," + last == "," + last + "";
      assert Contains("," + last, last);
      ContainsBefore(Join(init), "," + last, items[k], last);
      assert Join(items) == Join(init) + ("," + last);
    } else {
      JoinBefore(init, k, l);
      BeforeWithin("", Join(init), "," + last, items[k], items[l]);
      assert Join(items) == "" + Join(init) + ("," + last);
    }
  }

  lemma BlockBefore(title: string, items: seq<string>, k: int, l: int)
    requires 0 <= k < l < |items|
    ensures Before(Block(title, items), items[k], items[l])
  {
    JoinBefore(items, k, l);
    var head := "\n\n## " + title + "\n```json\n";
    BeforeWithin(head + "[", Join(items), "]" + "\n```", items[k], items[l]);
    assert Block(title, items) == (head + "[") + Join(items) + ("]" + "\n```");
  }

  lemma {:induction false} BlocksBefore(order: seq<string>, items: map<string, seq<string>>, t: string, k: int, l: int)
    requires (forall y <- order :: y in items) && t in order && 0 <= k < l < |items[t]|
    ensures Before(Blocks(order, items), items[t][k], items[t][l])
  {
    var init, last := order[..|order| - 1], order[|order| - 1];
    var block := Block(last, items[last]);
    if t == last {
      BlockBefore(last, items[last], k, l);
      BeforeWithin(Blocks(init, items), block, "", items[t][k], items[t][l]);
      assert Blocks(order, items) == Blocks(init, items) + block + "";
    } else {
      BlocksBefore(init, items, t, k, l);
      BeforeWithin("", Blocks(init, items), block, items[t][k], items[t][l]);
      assert Blocks(order, items) == "" + Blocks(init, items) + block;
    }
  }

  /** A section lists its items in the order in which they are grouped. */
  lemma {:induction false} ItemsInOrder(cs: seq<Candidate>, i: int, j: int) returns (k: int, l: int)
    requires 0 <= i < j < |cs| && cs[i].section == cs[j].section
    ensures cs[i].section in Group(cs).items
    ensures var xs := Group(cs).items[cs[i].section];
            0 <= k < l < |xs| && xs[k] == cs[i].encoded && xs[l] == cs[j].encoded
  {
    var init, last := cs[..|cs| - 1], cs[|cs| - 1];
    var t := cs[i].section;
    if j == |cs| - 1 {
      assert init[i] == cs[i];
      GroupHolds(init, cs[i]);
      var xs := Group(init).items[t];
      k :| 0 <= k < |xs| && xs[k] == cs[i].encoded;
      l := |xs|;
    } else {
      k, l := ItemsInOrder(init, i, j);
    }
  }

  /** A section's text: its title, and its items' JSON texts in one array with commas between. */
  lemma BlockText(title: string, items: seq<string>)
    ensures Block(title, items) == "\n\n## " + title + "\n```json\n[" + JoinWith(",", items) + "]\n```"
  {
    JoinIsJoinWith(items);
    var head := "\n\n## " + title + "\n```json\n";
    assert head + ("[" + Join(items) + "]") + "\n```" == head + "[" + Join(items) + ("]" + "\n```");
    assert head + "[" == "\n\n## " + title + "\n```json\n[";
  }

  lemma {:induction false} JoinIsJoinWith(items: seq<string>)
    ensures Join(items) == JoinWith(",", items)
  {
    if |items| > 1 {
      JoinIsJoinWith(items[..|items| - 1]);
    }
  }

  // ---------------------------------------------------------------- between sections

  lemma {:induction false} OrderGrows(cs: seq<Candidate>, n: nat)
    requires n <= |cs|
    ensures Group(cs[..n]).order <= Group(cs).order
  {
    if n == |cs| {
      assert cs[..n] == cs;
    } else {
      OrderGrows(cs[..|cs| - 1], n);
      assert cs[..|cs| - 1][..n] == cs[..n];
    }
  }

  lemma {:induction false} BlocksApart(order: seq<string>, items: map<string, seq<string>>, k: int, l: int, x: string,
                                       y: string)
    requires (forall t <- order :: t in items) && 0 <= k < l < |order|
    requires x in items[order[k]] && y in items[order[l]]
    ensures Before(Blocks(order, items), x, y)
  {
    var init, last := order[..|order| - 1], order[|order| - 1];
    var block := Block(last, items[last]);
    if l == |order| - 1 {
      BlocksContain(init, items, order[k], x);
      BlockContains(last, items[last], y);
      ContainsBefore(Blocks(init, items), block, x, y);
    } else {
      BlocksApart(init, items, k, l, x, y);
      BeforeWithin("", Blocks(init, items), block, x, y);
      assert Blocks(order, items) == "" + Blocks(init, items) + block;
    }
  }

  lemma SectionsInOrder(cs: seq<Candidate>, i: int, j: int) returns (k: int, l: int)
    requires 0 <= i < j < |cs| && forall n :: 0 <= n <= i ==> cs[n].section != cs[j].section
    ensures var order := Group(cs).order;
            0 <= k < l < |order| && order[k] == cs[i].section && order[l] == cs[j].section
  {
    var first := cs[..i + 1];
    GroupOk(first);
    GroupOk(cs);
    OrderGrows(cs, i + 1);
    assert cs[i] in first && cs[j] in cs;
    var early, order := Group(first).order, Group(cs).order;
    assert !HasSection(first, cs[j].section);
    assert cs[i].section in early && cs[j].section in order;
    assert forall n :: 0 <= n < |early| ==> order[n] == early[n] && early[n] in early;
    k :| 0 <= k < |early| && early[k] == cs[i].section;
    l :| 0 <= l < |order| && order[l] == cs[j].section;
  }

  // ---------------------------------------------------------------- the whole prompt

  ghost predicate KeyBelow(x: Candidate, y: Candidate) {
    !Leq(RenderKey(y), RenderKey(x))
  }

  /** An item whose key is below those of another's section, or below it in its own, comes first. */
  lemma KeyOrdered(header: string, cs: seq<Candidate>, x: Candidate, y: Candidate)
    requires x in cs && y in cs && KeyBelow(x, y)
    requires x.section == y.section || forall c <- cs :: c.section == y.section ==> KeyBelow(x, c)
    ensures Before(Render(header, cs), x.encoded, y.encoded)
  {
    var sorted := Sort(cs, RenderKey);
    SortSorted(cs, RenderKey);
    assert x in multiset(sorted) && y in multiset(sorted);
    var i :| 0 <= i < |sorted| && sorted[i] == x;
    var j :| 0 <= j < |sorted| && sorted[j] == y;
    assert i < j;
    GroupOk(sorted);
    var g := Group(sorted);
    if x.section == y.section {
      var k, l := ItemsInOrder(sorted, i, j);
      BlocksBefore(g.order, g.items, x.section, k, l);
    } else {
      forall n | 0 <= n <= i
        ensures sorted[n].section != y.section
      {
        assert sorted[n] in multiset(sorted) && sorted[n] in cs;
        assert Leq(RenderKey(sorted[n]), RenderKey(x));
      }
      var k, l := SectionsInOrder(sorted, i, j);
      GroupHolds(sorted, x);
      GroupHolds(sorted, y);
      BlocksApart(g.order, g.items, k, l, x.encoded, y.encoded);
    }
    BeforeWithin(header, RenderSections(cs), "", x.encoded, y.encoded);
    assert Render(header, cs) == header + RenderSections(cs) + "";
  }

  /** Items of a lower tier stand before a section all of whose items are of higher tiers. */
  lemma TiersInOrder(header: string, cs: seq<Candidate>, x: Candidate, y: Candidate)
    requires x in cs && y in cs && forall c <- cs :: c.section == y.section ==> x.tier < c.tier
    ensures Before(Render(header, cs), x.encoded, y.encoded)
  {
    forall c <- cs | c.section == y.section
      ensures KeyBelow(x, c)
    {
      assert RenderKey(x)[0] == x.tier as real && RenderKey(c)[0] == c.tier as real;
    }
    KeyOrdered(header, cs, x, y);
  }

  lemma {:induction false} SameStart(a: Key, b: Key, c: Key)
    requires !Leq(b, c)
    ensures !Leq(a + b, a + c)
  {
    if a != [] {
      assert (a + b)[1..] == a[1..] + b && (a + c)[1..] == a[1..] + c;
      SameStart(a[1..], b, c);
    } else {
      assert a + b == b && a + c == c;
    }
  }

  /** Within a section, of one tier, the lower sort key comes first. */
  lemma ItemsByKey(header: string, cs: seq<Candidate>, x: Candidate, y: Candidate)
    requires x in cs && y in cs && x.section == y.section && x.tier == y.tier
    requires x.sortKey != [] && y.sortKey != [] && x.sortKey[0] < y.sortKey[0]
    ensures Before(Render(header, cs), x.encoded, y.encoded)
  {
    var start := [x.tier as real] + Codes(x.section);
    var a, b := x.sortKey + Codes(x.name), y.sortKey + Codes(y.name);
    assert a[0] == x.sortKey[0] && b[0] == y.sortKey[0];
    SameStart(start, b, a);
    assert RenderKey(x) == start + a && RenderKey(y) == start + b;
    KeyOrdered(header, cs, x, y);
  }
}
