/**
 Sort keys as tuples compared left to right, and a stable insertion sort by key.
 */
module Ordering {

  type Key = seq<real>

  /** Tuple comparison: the first difference decides, and a prefix comes first. */
  predicate Leq(a: Key, b: Key) {
    a == [] || (b != [] && (a[0] < b[0] || (a[0] == b[0] && Leq(a[1..], b[1..]))))
  }

  lemma {:induction false} LeqRefl(a: Key)
    ensures Leq(a, a)
  {
    if a != [] {
      LeqRefl(a[1..]);
    }
  }

  lemma {:induction false} LeqTotal(a: Key, b: Key)
    ensures Leq(a, b) || Leq(b, a)
  {
    if a != [] && b != [] && a[0] == b[0] {
      LeqTotal(a[1..], b[1..]);
    }
  }

  lemma {:induction false} LeqAntisymmetric(a: Key, b: Key)
    requires Leq(a, b) && Leq(b, a)
    ensures a == b
  {
    if a != [] {
      LeqAntisymmetric(a[1..], b[1..]);
      assert a == [a[0]] + a[1..] && b == [b[0]] + b[1..];
    }
  }

  lemma {:induction false} LeqTransitive(a: Key, b: Key, c: Key)
    requires Leq(a, b) && Leq(b, c)
    ensures Leq(a, c)
  {
    if a != [] && a[0] == b[0] == c[0] {
      LeqTransitive(a[1..], b[1..], c[1..]);
    }
  }

  /** A string inside a tuple: its code points, then an end mark below all of them. */
  function Codes(s: string): Key {
    if s == "" then [-1.0] else [s[0] as int as real] + Codes(s[1..])
  }

  /** No string's encoding begins another's. */
  lemma {:induction false} CodesPrefixFree(s: string, t: string, x: Key, y: Key)
    requires Codes(s) + x == Codes(t) + y
    ensures s == t && x == y
  {
    var a, b := Codes(s) + x, Codes(t) + y;
    assert a[0] == b[0];
    if s == "" || t == "" {
      assert s == t == "";
      assert x == a[1..] && y == b[1..];
    } else {
      assert a[1..] == Codes(s[1..]) + x && b[1..] == Codes(t[1..]) + y;
      CodesPrefixFree(s[1..], t[1..], x, y);
      assert s == [s[0]] + s[1..] && t == [t[0]] + t[1..];
    }
  }

  /** After everything that is not greater: equal keys keep their order. */
  function Insert<T>(s: seq<T>, x: T, key: T -> Key): (r: seq<T>)
    ensures multiset(r) == multiset(s) + multiset{x} && |r| == |s| + 1
  {
    if s == [] then [x]
    else
      var n := |s| - 1;
      assert s == s[..n] + [s[n]];
      if Leq(key(s[n]), key(x)) then s + [x] else Insert(s[..n], x, key) + [s[n]]
  }

  function Sort<T>(s: seq<T>, key: T -> Key): (r: seq<T>)
    ensures multiset(r) == multiset(s) && |r| == |s|
  {
    if s == [] then []
    else
      var n := |s| - 1;
      assert s == s[..n] + [s[n]];
      Insert(Sort(s[..n], key), s[n], key)
  }

  ghost predicate Sorted<T>(s: seq<T>, key: T -> Key) {
    forall i, j :: 0 <= i <= j < |s| ==> Leq(key(s[i]), key(s[j]))
  }

  lemma {:induction false} InsertSorted<T>(s: seq<T>, x: T, key: T -> Key)
    requires Sorted(s, key)
    ensures Sorted(Insert(s, x, key), key)
  {
    if s == [] {
      SortedWithLast(s, x, key);
      assert s + [x] == [x];
    } else {
      var n := |s| - 1;
      if Leq(key(s[n]), key(x)) {
        forall i | 0 <= i < |s|
          ensures Leq(key(s[i]), key(x))
        {
          LeqTransitive(key(s[i]), key(s[n]), key(x));
        }
        SortedWithLast(s, x, key);
      } else {
        LeqTotal(key(s[n]), key(x));
        InsertSorted(s[..n], x, key);
        var r := Insert(s[..n], x, key);
        forall i | 0 <= i < |r|
          ensures Leq(key(r[i]), key(s[n]))
        {
          assert r[i] in multiset(r);
          assert r[i] in s[..n] || r[i] == x;
        }
        SortedWithLast(r, s[n], key);
      }
    }
  }

  lemma SortedWithLast<T>(r: seq<T>, last: T, key: T -> Key)
    requires Sorted(r, key) && forall i :: 0 <= i < |r| ==> Leq(key(r[i]), key(last))
    ensures Sorted(r + [last], key)
  {
    LeqRefl(key(last));
  }

  lemma {:induction false} SortSorted<T>(s: seq<T>, key: T -> Key)
    ensures Sorted(Sort(s, key), key)
  {
    if s != [] {
      SortSorted(s[..|s| - 1], key);
      InsertSorted(Sort(s[..|s| - 1], key), s[|s| - 1], key);
    }
  }

  /** Different items have different keys. */
  ghost predicate Tells<T>(a: seq<T>, key: T -> Key) {
    forall x, y :: x in a && y in a && key(x) == key(y) ==> x == y
  }

  lemma TellsTail<T>(a: seq<T>, key: T -> Key)
    requires Tells(a, key) && a != []
    ensures Tells(a[1..], key)
  {
    assert forall x :: x in a[1..] ==> x in a;
  }

  lemma LeastFirst<T>(a: seq<T>, x: T, key: T -> Key)
    requires Sorted(a, key) && x in a
    ensures Leq(key(a[0]), key(x))
  {
  }

  lemma HeadOff<T>(a: seq<T>)
    requires a != []
    ensures multiset(a[1..]) == multiset(a) - multiset{a[0]}
  {
    assert a == [a[0]] + a[1..];
  }

  lemma SameLength<T>(a: seq<T>, b: seq<T>)
    requires multiset(a) == multiset(b)
    ensures |a| == |b|
  {
    assert |multiset(a)| == |multiset(b)|;
  }

  lemma SameTails<T>(a: seq<T>, b: seq<T>)
    requires a != [] && b != [] && a[0] == b[0] && multiset(a) == multiset(b)
    ensures multiset(a[1..]) == multiset(b[1..])
  {
    HeadOff(a);
    HeadOff(b);
  }

  lemma SameFromTails<T>(a: seq<T>, b: seq<T>)
    requires a != [] && b != [] && a[0] == b[0] && a[1..] == b[1..]
    ensures a == b
  {
    assert a == [a[0]] + a[1..] && b == [b[0]] + b[1..];
  }

  lemma SameFirst<T>(a: seq<T>, b: seq<T>, key: T -> Key)
    requires a != [] && b != [] && multiset(a) == multiset(b)
    requires Sorted(a, key) && Sorted(b, key) && Tells(a, key)
    ensures a[0] == b[0]
  {
    assert b[0] in multiset(a) && a[0] in multiset(b);
    LeastFirst(a, b[0], key);
    LeastFirst(b, a[0], key);
    LeqAntisymmetric(key(a[0]), key(b[0]));
  }

  lemma SortedTail<T>(a: seq<T>, key: T -> Key)
    requires a != [] && Sorted(a, key)
    ensures Sorted(a[1..], key)
  {
  }

  /** When the key tells the members apart there is only one sorted order. */
  lemma {:induction false} SortedUnique<T>(a: seq<T>, b: seq<T>, key: T -> Key)
    requires Sorted(a, key) && Sorted(b, key) && multiset(a) == multiset(b)
    requires Tells(a, key)
    ensures a == b
  {
    SameLength(a, b);
    if a != [] {
      SameFirst(a, b, key);
      SameTails(a, b);
      TellsTail(a, key);
      SortedTail(a, key);
      SortedTail(b, key);
      SortedUnique(a[1..], b[1..], key);
      SameFromTails(a, b);
    }
  }

  lemma SortOrderIndependent<T>(a: seq<T>, b: seq<T>, key: T -> Key)
    requires multiset(a) == multiset(b)
    requires Tells(a, key)
    ensures Sort(a, key) == Sort(b, key)
  {
    SortSorted(a, key);
    SortSorted(b, key);
    forall x | x in Sort(a, key)
      ensures x in a
    {
      assert x in multiset(Sort(a, key));
    }
    SortedUnique(Sort(a, key), Sort(b, key), key);
  }
}
