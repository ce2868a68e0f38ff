/** Facts about piles of cards that the bookkeeping relies on: flattening a table of
    rows, replacing one row, and splitting a row by membership. */
module Piles {
  import opened Cards

  predicate NoDup(s: seq<Card>) {
    forall i, j :: 0 <= i < j < |s| ==> s[i] != s[j]
  }

  predicate Perm(a: seq<Card>, b: seq<Card>) {
    multiset(a) == multiset(b)
  }

  function Flatten(ss: seq<seq<Card>>): seq<Card> {
    if ss == [] then [] else Flatten(ss[..|ss| - 1]) + ss[|ss| - 1]
  }

  function Keep(s: seq<Card>, cut: seq<Card>): (r: seq<Card>)
    ensures forall x :: x in r <==> x in s && x !in cut
  {
    if s == [] then []
    else Keep(s[..|s| - 1], cut) + (if s[|s| - 1] in cut then [] else [s[|s| - 1]])
  }

  function Take(s: seq<Card>, cut: seq<Card>): (r: seq<Card>)
    ensures forall x :: x in r <==> x in s && x in cut
  {
    if s == [] then []
    else Take(s[..|s| - 1], cut) + (if s[|s| - 1] in cut then [s[|s| - 1]] else [])
  }

  lemma {:induction false} NoDupCount(s: seq<Card>, x: Card)
    requires NoDup(s)
    ensures multiset(s)[x] == if x in s then 1 else 0
  {
    if s != [] {
      var r, y := s[..|s| - 1], s[|s| - 1];
      assert s == r + [y];
      NoDupCount(r, x);
    }
  }

  lemma CountTwice(s: seq<Card>, i: nat, j: nat)
    requires i < j < |s| && s[i] == s[j]
    ensures multiset(s)[s[i]] >= 2
  {
    assert s == s[..j] + s[j..];
    assert s[i] in s[..j] && s[j] in s[j..];
  }

  lemma NoDupFromCount(s: seq<Card>)
    requires forall x :: multiset(s)[x] <= 1
    ensures NoDup(s)
  {
    forall i, j | 0 <= i < j < |s| ensures s[i] != s[j] {
      if s[i] == s[j] { CountTwice(s, i, j); }
    }
  }

  lemma {:induction false} FlattenUpdate(ss: seq<seq<Card>>, i: nat, row: seq<Card>)
    requires i < |ss|
    ensures multiset(Flatten(ss[i := row])) + multiset(ss[i]) == multiset(Flatten(ss)) + multiset(row)
  {
    var n := |ss| - 1;
    if i == n {
      assert ss[i := row][..n] == ss[..n];
    } else {
      FlattenUpdate(ss[..n], i, row);
      assert ss[i := row][..n] == ss[..n][i := row];
      var before, after := Flatten(ss[..n]), Flatten(ss[..n][i := row]);
      assert Flatten(ss[i := row]) == after + ss[n] && Flatten(ss) == before + ss[n];
      assert multiset(after) + multiset(ss[i]) == multiset(before) + multiset(row);
      forall x: Card
        ensures (multiset(after + ss[n]) + multiset(ss[i]))[x] == (multiset(before + ss[n]) + multiset(row))[x]
      {
        assert (multiset(after) + multiset(ss[i]))[x] == (multiset(before) + multiset(row))[x];
      }
    }
  }

  lemma FlattenAppend(ss: seq<seq<Card>>, row: seq<Card>)
    ensures Flatten(ss + [row]) == Flatten(ss) + row
  {
    assert (ss + [row])[..|ss|] == ss;
  }

  lemma {:induction false} FlattenHas(ss: seq<seq<Card>>, i: nat, x: Card)
    requires i < |ss|
    ensures multiset(Flatten(ss))[x] >= multiset(ss[i])[x]
  {
    if i < |ss| - 1 { FlattenHas(ss[..|ss| - 1], i, x); }
  }

  lemma {:induction false} FlattenHasTwo(ss: seq<seq<Card>>, i: nat, j: nat, x: Card)
    requires i < j < |ss|
    ensures multiset(Flatten(ss))[x] >= multiset(ss[i])[x] + multiset(ss[j])[x]
  {
    if j < |ss| - 1 { FlattenHasTwo(ss[..|ss| - 1], i, j, x); } else { FlattenHas(ss[..|ss| - 1], i, x); }
  }

  lemma {:induction false} FlattenFind(ss: seq<seq<Card>>, x: Card) returns (i: nat)
    requires x in Flatten(ss)
    ensures i < |ss| && x in ss[i]
  {
    var n := |ss| - 1;
    if x in ss[n] { i := n; } else { i := FlattenFind(ss[..n], x); }
  }

  lemma {:induction false} Split(s: seq<Card>, cut: seq<Card>)
    ensures multiset(Keep(s, cut)) + multiset(Take(s, cut)) == multiset(s)
    ensures |Keep(s, cut)| + |Take(s, cut)| == |s|
  {
    if s != [] {
      var r, y := s[..|s| - 1], s[|s| - 1];
      Split(r, cut);
      assert s == r + [y];
      assert multiset(s) == multiset(r) + multiset{y};
      if y in cut {
        assert Take(s, cut) == Take(r, cut) + [y] && Keep(s, cut) == Keep(r, cut);
      } else {
        assert Keep(s, cut) == Keep(r, cut) + [y] && Take(s, cut) == Take(r, cut);
      }
    }
  }

  /** In a duplicate-free row, the part taken out has one element per distinct entry of the cut. */
  lemma TakeSize(s: seq<Card>, cut: seq<Card>)
    requires NoDup(s) && forall x :: x in cut ==> x in s
    ensures NoDup(Take(s, cut))
    ensures |Take(s, cut)| == |set x | x in cut|
  {
    Split(s, cut);
    forall x ensures multiset(Take(s, cut))[x] <= 1 {
      NoDupCount(s, x);
      assert multiset(s)[x] == multiset(Keep(s, cut))[x] + multiset(Take(s, cut))[x];
    }
    NoDupFromCount(Take(s, cut));
    NoDupSize(Take(s, cut));
    assert (set x | x in Take(s, cut)) == (set x | x in cut);
  }

  lemma {:induction false} NoDupSize(s: seq<Card>)
    requires NoDup(s)
    ensures |set x | x in s| == |s|
  {
    if s != [] {
      var r := s[..|s| - 1];
      NoDupSize(r);
      assert (set x | x in s) == (set x | x in r) + {s[|s| - 1]};
    }
  }

  lemma {:induction false} TakeNone(s: seq<Card>, x: Card)
    requires x !in s
    ensures Take(s, [x]) == []
  {
    if s != [] {
      TakeNone(s[..|s| - 1], x);
      assert s[|s| - 1] !in [x];
    }
  }

  lemma {:induction false} TakeOne(s: seq<Card>, x: Card)
    requires NoDup(s) && x in s
    ensures Take(s, [x]) == [x]
    ensures |Keep(s, [x])| == |s| - 1
  {
    Split(s, [x]);
    var r, y := s[..|s| - 1], s[|s| - 1];
    assert s == r + [y];
    if y == x {
      assert x !in r;
      TakeNone(r, x);
    } else {
      TakeOne(r, x);
    }
  }

  lemma {:induction false} PermSize(a: seq<Card>, b: seq<Card>)
    requires Perm(a, b)
    ensures |a| == |b|
    ensures forall x :: x in a <==> x in b
  {
    assert |multiset(a)| == |multiset(b)|;
    forall x ensures x in a <==> x in b {
      assert x in a <==> x in multiset(a);
      assert x in b <==> x in multiset(b);
    }
  }
}
