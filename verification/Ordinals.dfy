/** The journal's gap check: sort the numbers of a group and require the i-th to be i + 1. */
module Ordinals {

  predicate Ascending(s: seq<nat>) {
    forall i, j | 0 <= i < j < |s| :: s[i] <= s[j]
  }

  predicate Distinct(s: seq<nat>) {
    forall i, j | 0 <= i < j < |s| :: s[i] != s[j]
  }

  function Insert(s: seq<nat>, x: nat): seq<nat> {
    if s == [] || x <= s[0] then [x] + s else [s[0]] + Insert(s[1..], x)
  }

  function Sort(s: seq<nat>): (r: seq<nat>) {
    if s == [] then [] else Insert(Sort(s[..|s| - 1]), s[|s| - 1])
  }

  lemma {:induction false} InsertContents(s: seq<nat>, x: nat)
    ensures multiset(Insert(s, x)) == multiset(s) + multiset{x}
    ensures forall y :: y in Insert(s, x) <==> y == x || y in s
  {
    if !(s == [] || x <= s[0]) {
      InsertContents(s[1..], x);
      assert s == [s[0]] + s[1..];
    }
  }

  lemma Cons(h: nat, rest: seq<nat>)
    requires Ascending(rest) && forall y | y in rest :: h <= y
    ensures Ascending([h] + rest)
  {
    forall i, j | 0 <= i < j < |[h] + rest| ensures ([h] + rest)[i] <= ([h] + rest)[j] {
      assert rest[j - 1] in rest;
    }
  }

  lemma {:induction false} InsertAscending(s: seq<nat>, x: nat)
    requires Ascending(s)
    ensures Ascending(Insert(s, x))
  {
    if s == [] || x <= s[0] {
      Cons(x, s);
    } else {
      InsertAscending(s[1..], x);
      InsertContents(s[1..], x);
      Cons(s[0], Insert(s[1..], x));
    }
  }

  lemma {:induction false} SortSorts(s: seq<nat>)
    ensures Ascending(Sort(s)) && multiset(Sort(s)) == multiset(s) && |Sort(s)| == |s|
  {
    if s != [] {
      SortSorts(s[..|s| - 1]);
      InsertAscending(Sort(s[..|s| - 1]), s[|s| - 1]);
      InsertContents(Sort(s[..|s| - 1]), s[|s| - 1]);
      assert s == s[..|s| - 1] + [s[|s| - 1]];
      assert |Sort(s)| == |multiset(Sort(s))| && |s| == |multiset(s)|;
    }
  }

  /** Sorted, the numbers read 1, 2, 3 and so on. */
  predicate Numbered(s: seq<nat>) {
    |Sort(s)| == |s| && forall i | 0 <= i < |s| :: Sort(s)[i] == i + 1
  }

  lemma {:induction false} DistinctByCount(s: seq<nat>)
    ensures Distinct(s) <==> forall x | x in s :: multiset(s)[x] == 1
  {
    if s != [] {
      var front, last := s[..|s| - 1], s[|s| - 1];
      assert s == front + [last];
      DistinctByCount(front);
      assert forall x | x in front :: x in multiset(front);
      if Distinct(s) {
        assert last !in front;
      } else if Distinct(front) {
        assert last in front;
        assert multiset(s)[last] >= 2;
      } else {
        var x :| x in front && multiset(front)[x] != 1;
        assert multiset(s)[x] >= multiset(front)[x];
      }
    }
  }

  lemma SortDistinct(s: seq<nat>)
    ensures Distinct(s) <==> Distinct(Sort(s))
    ensures forall x :: x in s <==> x in Sort(s)
  {
    SortSorts(s);
    DistinctByCount(s);
    DistinctByCount(Sort(s));
    assert forall x :: x in s <==> x in multiset(s);
    assert forall x :: x in Sort(s) <==> x in multiset(Sort(s));
  }

  lemma {:induction false} AtLeast(p: seq<nat>, i: nat)
    requires Ascending(p) && Distinct(p) && (forall x | x in p :: x >= 1) && i < |p|
    ensures p[i] >= i + 1
  {
    assert p[i] in p;
    if i > 0 {
      AtLeast(p, i - 1);
    }
  }

  lemma {:induction false} AtMost(p: seq<nat>, i: nat)
    requires Ascending(p) && Distinct(p) && (forall x | x in p :: x <= |p|) && i < |p|
    ensures p[i] <= i + 1
    decreases |p| - i
  {
    assert p[i] in p;
    if i + 1 < |p| {
      AtMost(p, i + 1);
    }
  }

  /** The gap check accepts exactly the groups that are distinct and lie between 1 and their size. */
  lemma NumberedIsBounded(s: seq<nat>)
    ensures Numbered(s) <==> Distinct(s) && forall x | x in s :: 1 <= x <= |s|
  {
    SortSorts(s);
    SortDistinct(s);
    if Distinct(s) && forall x | x in s :: 1 <= x <= |s| {
      forall i | 0 <= i < |s| ensures Sort(s)[i] == i + 1 {
        AtLeast(Sort(s), i);
        AtMost(Sort(s), i);
      }
    }
  }

  predicate Closed(s: seq<nat>) {
    forall x, y: nat | x in s && 1 <= y < x :: y in s
  }

  lemma {:induction false} ClosedHasNoGap(p: seq<nat>, i: nat)
    requires Ascending(p) && Distinct(p) && (forall x | x in p :: x >= 1) && Closed(p) && i < |p|
    ensures p[i] == i + 1
    decreases i
  {
    forall k | 0 <= k < i ensures p[k] == k + 1 {
      ClosedHasNoGap(p, k);
    }
    AtLeast(p, i);
    assert p[i] in p;
    assert p[i] == i + 1 || (i + 1) in p;
  }

  /** Equally, the groups that are distinct, positive and closed downward. */
  lemma NumberedIsClosed(s: seq<nat>)
    ensures Numbered(s) <==> Distinct(s) && (forall x | x in s :: x >= 1) && Closed(s)
  {
    SortSorts(s);
    SortDistinct(s);
    if Numbered(s) {
      forall x, y: nat | x in s && 1 <= y < x ensures y in s {
        assert Sort(s)[y - 1] == y;
      }
    } else if Distinct(s) && (forall x | x in s :: x >= 1) && Closed(s) {
      assert Closed(Sort(s));
      forall i | 0 <= i < |s| ensures Sort(s)[i] == i + 1 {
        ClosedHasNoGap(Sort(s), i);
      }
    }
  }

  lemma DistinctAppend(s: seq<nat>, x: nat)
    ensures Distinct(s + [x]) <==> Distinct(s) && x !in s
  {
    var r := s + [x];
    assert r[|s|] == x && forall i | 0 <= i < |s| :: r[i] == s[i];
    if Distinct(r) {
      forall i, j | 0 <= i < j < |s| ensures s[i] != s[j] {
        assert r[i] != r[j];
      }
      assert forall i | 0 <= i < |s| :: r[i] != r[|s|];
    }
  }
}
