/** All twenty scoring cards are accounted for: in a pile of points, in a hand, in the kitty or on
    the table. */
module Points {
  import opened Cards
  import opened Piles
  import opened Decks
  import opened State
  import opened Rules
  import opened Scoring
  import opened Invariants
  import opened Conservation
  import opened Steps

  function Pile(declarer: int, discards: seq<Card>, won: seq<Trick>, s: int): seq<Card> {
    (if s == declarer then PointCards(discards) else []) + Captured(won, s)
  }

  /** The piles of points the log and the discards imply. */
  function PilesOf(n: nat, declarer: int, discards: seq<Card>, won: seq<Trick>): seq<seq<Card>> {
    seq(n, s => Pile(declarer, discards, won, s))
  }

  function PointPiles(players: seq<Player>): seq<seq<Card>> {
    seq(|players|, s requires 0 <= s < |players| => players[s].points)
  }

  function TotalPoints(players: seq<Player>): nat {
    if players == [] then 0 else TotalPoints(players[..|players| - 1]) + |players[|players| - 1].points|
  }

  lemma {:induction false} TotalIsFlat(players: seq<Player>)
    ensures TotalPoints(players) == |Flatten(PointPiles(players))|
  {
    if players != [] {
      TotalIsFlat(players[..|players| - 1]);
      assert PointPiles(players)[..|players| - 1] == PointPiles(players[..|players| - 1]);
    }
  }

  lemma {:induction false} TeamWithinTotal(players: seq<Player>, declarer: int, fs: int)
    ensures TeamPoints(players, declarer, fs) <= TotalPoints(players)
  {
    if players != [] { TeamWithinTotal(players[..|players| - 1], declarer, fs); }
  }

  lemma PilesAreImplied(players: seq<Player>, declarer: int, discards: seq<Card>, won: seq<Trick>)
    requires Accounted(players, declarer, discards, won)
    ensures PointPiles(players) == PilesOf(|players|, declarer, discards, won)
  {
  }

  lemma {:induction false} EmptyPiles(n: nat)
    ensures Flatten(PilesOf(n, -1, [], [])) == []
  {
    if n > 0 {
      assert PilesOf(n, -1, [], [])[..n - 1] == PilesOf(n - 1, -1, [], []);
      EmptyPiles(n - 1);
    }
  }

  lemma NothingWon(n: nat, declarer: int, discards: seq<Card>)
    requires (0 <= declarer < n) || discards == []
    ensures multiset(Flatten(PilesOf(n, declarer, discards, []))) == multiset(PointCards(discards))
  {
    hide PointCards, Flatten;
    var e, own := PilesOf(n, -1, [], []), PointCards(discards);
    EmptyPiles(n);
    NoPoints();
    if 0 <= declarer < n {
      FlattenUpdate(e, declarer, own);
      forall s | 0 <= s < n ensures PilesOf(n, declarer, discards, [])[s] == e[declarer := own][s] {
        assert Captured([], s) == [];
      }
      assert PilesOf(n, declarer, discards, []) == e[declarer := own];
      var none: seq<Card> := [];
      assert e[declarer] == none && Flatten(e) == none && multiset(none) == multiset{};
      HandGrows(multiset{}, multiset(Flatten(e[declarer := own])), multiset{}, multiset(own));
      assert multiset{} + multiset(own) == multiset(own);
    } else {
      assert PilesOf(n, declarer, discards, []) == e;
    }
  }

  /** Seat by seat, the piles hold exactly the scoring cards of the won tricks and of the discards. */
  lemma {:induction false} WonAndDiscarded(n: nat, declarer: int, discards: seq<Card>, won: seq<Trick>)
    requires (0 <= declarer < n) || discards == []
    requires forall j :: 0 <= j < |won| ==> 0 <= won[j].winner < n
    ensures multiset(Flatten(PilesOf(n, declarer, discards, won)))
            == multiset(PointCards(discards)) + multiset(PointCards(Flatten(LogRows(won))))
  {
    hide PointCards, CardsIn, Captured;
    if won == [] {
      assert LogRows(won) == [];
      NoPoints();
      NothingWon(n, declarer, discards);
    } else {
      var last := |won| - 1;
      var before, w, row := PilesOf(n, declarer, discards, won[..last]), won[last].winner, CardsIn(won[last]);
      WonAndDiscarded(n, declarer, discards, won[..last]);
      var after := before[w := before[w] + PointCards(row)];
      FlattenUpdate(before, w, before[w] + PointCards(row));
      HandGrows(multiset(Flatten(before)), multiset(Flatten(after)), multiset(before[w]), multiset(PointCards(row)));
      PilesGrow(n, declarer, discards, won);
      assert LogRows(won)[..last] == LogRows(won[..last]);
      PointsConcat(Flatten(LogRows(won[..last])), row);
    }
  }

  lemma PilesGrow(n: nat, declarer: int, discards: seq<Card>, won: seq<Trick>)
    requires won != [] && 0 <= won[|won| - 1].winner < n
    ensures var last := |won| - 1;
            var before := PilesOf(n, declarer, discards, won[..last]);
            PilesOf(n, declarer, discards, won)
            == before[won[last].winner := before[won[last].winner] + PointCards(CardsIn(won[last]))]
  {
    var last := |won| - 1;
    var before := PilesOf(n, declarer, discards, won[..last]);
    var w := won[last].winner;
    var after := before[w := before[w] + PointCards(CardsIn(won[last]))];
    forall s | 0 <= s < n ensures PilesOf(n, declarer, discards, won)[s] == after[s] {
      assert Captured(won, s) == Captured(won[..last], s) + (if w == s then PointCards(CardsIn(won[last])) else []);
    }
  }

  /** The twenty scoring cards, by place. */
  lemma TwentyByPlace(n: int, players: seq<Player>, kitty: seq<Card>, tricks: seq<Trick>, discards: seq<Card>)
    requires Conserved(n, players, kitty, tricks, discards)
    ensures |PointCards(Flatten(Hands(players)))| + |PointCards(kitty)| + |PointCards(Flatten(LogRows(tricks)))|
            + |PointCards(discards)| == 20
  {
    hide Deck;
    DeckSize(n);
    PointsPerm(AllCards(players, kitty, tricks, discards), Deck(n));
    PointsConcat(Flatten(Hands(players)), kitty);
    PointsConcat(Flatten(Hands(players)) + kitty, Flatten(LogRows(tricks)));
    PointsConcat(Flatten(Hands(players)) + kitty + Flatten(LogRows(tricks)), discards);
  }

  lemma LogPrefix(tricks: seq<Trick>, done: nat)
    requires done <= |tricks| <= done + 1
    ensures Flatten(LogRows(tricks)) == Flatten(LogRows(tricks[..done]))
            + (if done < |tricks| then CardsIn(tricks[done]) else [])
  {
    if done < |tricks| {
      assert LogRows(tricks)[..done] == LogRows(tricks[..done]);
    } else {
      assert tricks[..done] == tricks;
    }
  }

  lemma PilesCount(players: seq<Player>, declarer: int, discards: seq<Card>, won: seq<Trick>)
    requires Accounted(players, declarer, discards, won) && ((0 <= declarer < |players|) || discards == [])
    requires forall j :: 0 <= j < |won| ==> 0 <= won[j].winner < |players|
    ensures TotalPoints(players) == |PointCards(discards)| + |PointCards(Flatten(LogRows(won)))|
  {
    hide PointCards, Flatten, PilesOf, PointPiles, LogRows, TotalPoints;
    PilesAreImplied(players, declarer, discards, won);
    WonAndDiscarded(|players|, declarer, discards, won);
    TotalIsFlat(players);
    SizeOfSum(Flatten(PointPiles(players)), PointCards(discards), PointCards(Flatten(LogRows(won))));
  }

  lemma SizeOfSum(a: seq<Card>, b: seq<Card>, c: seq<Card>)
    requires multiset(a) == multiset(b) + multiset(c)
    ensures |a| == |b| + |c|
  {
    assert |multiset(a)| == |multiset(b)| + |multiset(c)|;
  }

  /** Points in the piles, in hand, in the kitty and on the table always make twenty. */
  lemma PointsMakeTwenty(n: int, players: seq<Player>, kitty: seq<Card>, tricks: seq<Trick>, declarer: int,
      discards: seq<Card>, done: nat)
    requires done <= |tricks| <= done + 1 && ((0 <= declarer < |players|) || discards == [])
    requires Conserved(n, players, kitty, tricks, discards) && Accounted(players, declarer, discards, tricks[..done])
    requires forall j :: 0 <= j < done ==> 0 <= tricks[j].winner < |players|
    ensures TotalPoints(players) + |PointCards(Flatten(Hands(players)))| + |PointCards(kitty)|
            + (if done < |tricks| then |PointCards(CardsIn(tricks[done]))| else 0) == 20
  {
    hide Conserved, Deck, PointCards, Flatten, TotalPoints, Accounted, LogRows;
    TwentyByPlace(n, players, kitty, tricks, discards);
    PilesCount(players, declarer, discards, tricks[..done]);
    LogPrefix(tricks, done);
    assert Flatten(LogRows(tricks[..done])) + [] == Flatten(LogRows(tricks[..done]));
    if done < |tricks| { PointsConcat(Flatten(LogRows(tricks[..done])), CardsIn(tricks[done])); }
  }
}
