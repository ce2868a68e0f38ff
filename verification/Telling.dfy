/** Every operation of a run leads to the table that the story tells. */
module Telling {
  import opened Cards
  import opened Piles
  import opened Decks
  import opened Wrappers
  import opened State
  import opened Rules
  import opened Engine
  import opened Auction
  import opened Invariants
  import opened Steps
  import opened Runs
  import opened Story

  lemma SamePlace(players: seq<Player>, guests: seq<Guest>, id: string)
    requires |players| == |guests| && forall i :: 0 <= i < |players| ==> players[i].id == guests[i].id
    ensures Place(guests, id) == SeatOf(players, id)
  {
  }

  lemma PlaceOf(players: seq<Player>, guests: seq<Guest>, p: int, id: string)
    requires Seated(players) && |players| == |guests|
    requires forall i :: 0 <= i < |players| ==> players[i].id == guests[i].id
    requires 0 <= p < |players| && id == players[p].id
    ensures Place(guests, id) == p
  {
    SamePlace(players, guests, id);
    SameSeat(players, id, p);
  }

  lemma LaidShows(s: Tale, card: Turn, s1: Tale)
    requires s1.tricks == Laid(s.N(), s.tricks, card)
    ensures forall seat, c :: Showed(s1, seat, c) <==> Showed(s, seat, c) || (seat == card.seat && c == card.card)
  {
    var last := |s.tricks| - 1;
    var k0 := if s.tricks == [] || |s.tricks[last]| == s.N() then |s.tricks| else last;
    var i0 := |s1.tricks[k0]| - 1;
    assert s1.tricks[k0][i0] == card;
    forall seat, c ensures Showed(s1, seat, c) <==> Showed(s, seat, c) || (seat == card.seat && c == card.card) {
      if Showed(s, seat, c) {
        var k, i :| 0 <= k < |s.tricks| && 0 <= i < |s.tricks[k]| && s.tricks[k][i].seat == seat
            && s.tricks[k][i].card == c;
        assert s1.tricks[k][i] == s.tricks[k][i];
      }
      if Showed(s1, seat, c) {
        var k, i :| 0 <= k < |s1.tricks| && 0 <= i < |s1.tricks[k]| && s1.tricks[k][i].seat == seat
            && s1.tricks[k][i].card == c;
        if !(k == k0 && i == i0) { assert s.tricks[k][i] == s1.tricks[k][i]; }
      }
    }
  }

  /** A fresh deal, as the story and the engine tell it. */
  ghost predicate FreshFits(g: GameState, s: Tale) {
    && SeatsFit(g, s) && |s.guests| == s.N()
    && g.bids == [] && g.currentBid.None? && g.passed == {} && g.contract.None? && g.declarer == -1
    && g.partnerCard.None? && !g.noFriend && g.tricks == [] && g.votes == {} && g.scores == map[]
    && g.dealer == s.rounds % s.N() && s.rounds >= 0 && |g.history| == s.rounds
  }

  lemma FreshTold(g: GameState, s: Tale, deck: seq<Card>, turn: int)
    requires FreshFits(g, s) && IsDeal(s.N(), deck)
    ensures |g.players| <= g.N() && Told(Start(g, deck).(turn := turn), Dealt(s, deck, turn))
  {
    hide Deck;
    DeckSize(s.N());
    PermSize(deck, Deck(s.N()));
    var g1, s1 := Start(g, deck).(turn := turn), Dealt(s, deck, turn);
    assert s1.N() == s.N() && g1.N() == g.N();
    forall seat, c | 0 <= seat < |g1.players|
      ensures c in g1.players[seat].hand <==> Drew(s1, seat, c) && !Threw(s1, seat, c) && !Showed(s1, seat, c)
    {
      assert g1.players[seat].hand == HandFrom(deck, seat);
    }
  }

  // ----- the auction

  lemma SeatsKept(g: GameState, s: Tale, g1: GameState, s1: Tale)
    requires SeatsFit(g, s) && g1.config == g.config && s1.cfg == s.cfg && s1.guests == s.guests
    requires g1.version == g.version + 1 && s1.moves == s.moves + 1 && |g1.players| == |g.players|
    requires forall i :: 0 <= i < |g.players| ==>
               g1.players[i] == g.players[i].(hand := g1.players[i].hand, points := g1.players[i].points)
    ensures SeatsFit(g1, s1)
  {
  }

  lemma StandingLast(bids: seq<Bid>, b: Bid)
    ensures HighBid(bids + [b]) == if b.points > 0 then Some(b) else HighBid(bids)
  {
    assert (bids + [b])[..|bids|] == bids;
  }

  lemma TurnNext(n: int, passed: set<int>, p: int)
    requires InRange(n, passed) && 0 <= p < n && |passed| < n
    ensures NextUp(n, passed, p, Advance(n, passed, p))
  {
    AdvanceStops(n, passed, p);
  }

  /** The kitty goes to the declarer once the auction is over. */
  lemma HandsAwarded(g: GameState, s: Tale, s1: Tale, p: int)
    requires AuctionFits(g, s) && HandsFit(g.players, s) && !g.status.Waiting? && |g.players| == s.N()
             && 0 <= p < |g.players|
    requires Orderly(s) && !Awarded(s) && Awarded(s1) && Declarer(s1) == p
    requires s1.cfg == s.cfg && s1.deck == s.deck && s1.tricks == s.tricks && s1.discards.None?
    ensures HandsFit(SetHand(g.players, p, HandOf(g.players, p) + g.kitty), s1)
  {
    var after := SetHand(g.players, p, HandOf(g.players, p) + g.kitty);
    forall seat, c | 0 <= seat < |after|
      ensures c in after[seat].hand <==> Drew(s1, seat, c) && !Threw(s1, seat, c) && !Showed(s1, seat, c)
    {
      assert c in g.players[seat].hand <==> Drew(s, seat, c) && !Threw(s, seat, c) && !Showed(s, seat, c);
    }
  }

  lemma HandsAlike(players: seq<Player>, s: Tale, s1: Tale)
    requires HandsFit(players, s) && Awarded(s1) == Awarded(s) && (Awarded(s) ==> Declarer(s1) == Declarer(s))
    requires s1.cfg == s.cfg && s1.deck == s.deck && s1.tricks == s.tricks && s1.discards == s.discards
             && (!Awarded(s) ==> s.discards.None?)
    ensures HandsFit(players, s1)
  {
    forall seat, c | 0 <= seat < |players|
      ensures c in players[seat].hand <==> Drew(s1, seat, c) && !Threw(s1, seat, c) && !Showed(s1, seat, c)
    {
      assert c in players[seat].hand <==> Drew(s, seat, c) && !Threw(s, seat, c) && !Showed(s, seat, c);
    }
  }

  /** A bid or pass that ends the auction. */
  lemma AwardTold(g: GameState, s: Tale, g1: GameState, s1: Tale)
    requires g.status.Bidding? && |g.players| == g.N() && 0 <= g1.declarer < g.N()
    requires g1.currentBid.Some? && g1.currentBid == HighBid(s1.bids) && g1.bids == s1.bids && g1.passed == s1.passed
    requires g1 == g.(currentBid := g1.currentBid, declarer := g1.declarer, bids := g1.bids, passed := g1.passed,
             turn := g1.turn)
    requires s1 == s.(bids := s1.bids, passed := s1.passed, moves := s.moves + 1)
    requires Told(g, s) && Awarded(s1) && Declarer(s1) == g1.declarer
    ensures Told(Award(g1).(version := g.version + 1), s1)
  {
    hide Drew, Threw, Showed, HandsFit, TrickFits, NextUp, Place, SeatsFit, Declarer;
    SameTable(g, s);
    SeatsKept(g, s, Award(g1).(version := g.version + 1), s1);
    HandsAwarded(g, s, s1, g1.declarer);
  }

  /** A bid or pass that does not. */
  lemma CallTurns(g: GameState, s: Tale, g1: GameState, s1: Tale)
    requires g.status.Bidding? && |g.players| == g.N() && s1.bids != []
    requires g1.currentBid == HighBid(s1.bids) && g1.bids == s1.bids && g1.passed == s1.passed
    requires g1 == g.(currentBid := g1.currentBid, declarer := g1.declarer, bids := g1.bids, passed := g1.passed,
                      turn := g1.turn,
                      version := g.version + 1)
    requires s1 == s.(bids := s1.bids, passed := s1.passed, moves := s.moves + 1)
    requires Told(g, s) && !Awarded(s1) && Declarer(s1) == g1.declarer
    requires NextUp(s1.N(), s1.passed, Place(s1.guests, s1.bids[|s1.bids| - 1].playerID), g1.turn)
    ensures Told(g1, s1)
  {
    hide Drew, Threw, Showed, HandsFit, TrickFits, NextUp, Place, SeatsFit;
    SameTable(g, s);
    SeatsKept(g, s, g1, s1);
    HandsAlike(g.players, s, s1);
  }

  lemma BidTold(g: GameState, s: Tale, id: string, p: int, points: int, suit: Suit, noTrump: bool, deck: seq<Card>)
    requires g.status.Bidding? && |g.players| == g.N() && Seated(g.players) && 0 <= p < g.N() && p == g.turn
    requires g.players[p].id == id && 0 < points <= 10 && InRange(g.N(), g.passed) && |g.passed| < g.N()
    requires Told(g, s)
    ensures Told(ApplyBid(g, id, p, points, suit, noTrump).(version := g.version + 1),
                 Tell(s, MoveOp(id, BidMove(points, suit, noTrump), deck)))
  {
    hide Drew, Threw, Showed, HandsFit, TrickFits, NextUp, Place, SeatsFit, Orderly, Advance, Award;
    var s1 := Tell(s, MoveOp(id, BidMove(points, suit, noTrump), deck));
    var b := Bid(id, points, suit, noTrump);
    SameTable(g, s);
    PlaceOf(g.players, s.guests, p, id);
    StandingLast(s.bids, b);
    var g1 := g.(currentBid := Some(b), declarer := p, bids := g.bids + [b]);
    if Awarded(s1) {
      AwardTold(g, s, g1, s1);
    } else {
      TurnNext(g.N(), g.passed, p);
      CallTurns(g, s, g1.(turn := Advance(g.N(), g.passed, g.turn), version := g.version + 1), s1);
    }
  }

  lemma SameTable(g: GameState, s: Tale)
    requires SeatsFit(g, s)
    ensures |g.players| == |s.guests| && g.N() == s.N()
    ensures forall i :: 0 <= i < |g.players| ==> g.players[i].id == s.guests[i].id
  {
  }

  lemma PassTold(g: GameState, s: Tale, id: string, p: int, deck: seq<Card>)
    requires g.status.Bidding? && |g.players| == g.N() && Seated(g.players) && 0 <= p < g.N() && p == g.turn
             && g.players[p].id == id
    requires InRange(g.N(), g.passed) && p !in g.passed && |g.passed| < g.N()
             && (|g.passed| == g.N() - 1 ==> g.currentBid.None?)
    requires IsDeal(g.N(), deck) && (g.currentBid.Some? ==> 0 <= g.declarer < g.N())
    requires Told(g, s)
    ensures Told(ApplyPass(g, id, p, deck).(version := g.version + 1), Tell(s, MoveOp(id, PassMove, deck)))
  {
    hide HandsFit, NextUp, Place, SeatsFit, Redeal, Dealt, IsDeal, TurnFits, TricksFit, FriendFits, Orderly, Advance,
         Award;
    var s1 := Tell(s, MoveOp(id, PassMove, deck));
    var b := Bid(id, 0, Blank, false);
    SameTable(g, s);
    PlaceOf(g.players, s.guests, p, id);
    StandingLast(s.bids, b);
    var g1 := g.(passed := g.passed + {p}, bids := g.bids + [b], turn := Advance(g.N(), g.passed + {p}, g.turn));
    if |s.passed + {p}| == s.N() {
      RedealTold(g, s, g1, deck);
    } else if Awarded(s1) {
      AwardTold(g, s, g1, s1);
    } else {
      TurnNext(g.N(), g.passed + {p}, p);
      CallTurns(g, s, g1.(version := g.version + 1), s1);
    }
  }

  lemma RedealTold(g: GameState, s: Tale, g1: GameState, deck: seq<Card>)
    requires g.status.Bidding? && |g.players| == g.N() && IsDeal(g.N(), deck)
    requires g1 == g.(passed := g1.passed, bids := g1.bids, turn := g1.turn)
    requires Told(g, s)
    ensures |g1.players| <= g1.N() && Told(Redeal(g1, deck).(version := g.version + 1),
            Dealt(s.(moves := s.moves + 1), deck, 0))
  {
    hide Drew, Threw, Showed, HandsFit, TrickFits, NextUp, Place, SeatsFit, Start, IsDeal;
    SameTable(g, s);
    var base := g1.(bids := [], currentBid := None, contract := None, declarer := -1, passed := {}, partnerCard := None,
                    partnerSeat := -1, noFriend := false, trump := Blank, tricks := []);
    var t := s.(moves := s.moves + 1);
    SeatsKept(g, s, base.(version := g.version + 1), t);
    FreshTold(base.(version := g.version + 1), t, deck, 0);
    StartVersion(base, deck, g.version + 1);
  }

  lemma StartVersion(g: GameState, deck: seq<Card>, version: int)
    requires |g.players| <= g.N()
    ensures Start(g.(version := version), deck) == Start(g, deck).(version := version)
    ensures Start(g, deck).turn == 0
  {
  }

  // ----- exchange, call and cards

  lemma DiscardTold(g: GameState, s: Tale, id: string, p: int, cards: seq<Card>, deck: seq<Card>)
    requires g.status.Exchanging? && |g.players| == g.N() && p == g.declarer && 0 <= p < g.N() && |cards| == 3
             && g.turn == g.declarer
    requires Told(g, s)
    ensures Told(ApplyDiscard(g, p, cards).(version := g.version + 1), Tell(s, MoveOp(id, DiscardMove(cards), deck)))
  {
    hide Drew, Showed, HandsFit, TrickFits, NextUp, Place, SeatsFit, Keep, Take, PointCards;
    var g1, s1 := ApplyDiscard(g, p, cards).(version := g.version + 1), Tell(s, MoveOp(id, DiscardMove(cards), deck));
    SameTable(g, s);
    SeatsKept(g, s, g1, s1);
    HandsDiscarded(g.players, g1.players, s, s1, p, cards);
  }

  lemma HandsDiscarded(players: seq<Player>, after: seq<Player>, s: Tale, s1: Tale, p: int, cards: seq<Card>)
    requires HandsFit(players, s) && s.discards.None? && Declarer(s) == p && 0 <= p < |players| == |after|
    requires s1 == s.(discards := Some(cards), moves := s1.moves)
    requires forall i :: 0 <= i < |after| ==> after[i].hand == if i == p then Keep(players[p].hand, cards)
             else players[i].hand
    ensures HandsFit(after, s1)
  {
    forall seat, c | 0 <= seat < |after|
      ensures c in after[seat].hand <==> Drew(s1, seat, c) && !Threw(s1, seat, c) && !Showed(s1, seat, c)
    {
      assert c in players[seat].hand <==> Drew(s, seat, c) && !Threw(s, seat, c) && !Showed(s, seat, c);
    }
  }

  lemma CallTold(g: GameState, s: Tale, id: string, friend: Option<Card>, alone: bool, deck: seq<Card>)
    requires g.status.Calling? && |g.players| == g.N() && friend.Some? == !alone && g.tricks == []
    requires Told(g, s)
    ensures Told(ApplyCall(g, friend, alone).(version := g.version + 1),
            Tell(s, MoveOp(id, CallPartnerMove(friend, alone), deck)))
  {
    hide Drew, Showed, HandsFit, TrickFits, NextUp, Place, SeatsFit;
    var g1, s1 := ApplyCall(g, friend, alone).(version := g.version + 1),
        Tell(s, MoveOp(id, CallPartnerMove(friend, alone), deck));
    SameTable(g, s);
    SeatsKept(g, s, g1, s1);
    HandsSame(g.players, s, s1);
  }

  lemma HandsSame(players: seq<Player>, s: Tale, s1: Tale)
    requires HandsFit(players, s) && s1 == s.(call := s1.call, votes := s1.votes, moves := s1.moves)
    ensures HandsFit(players, s1)
  {
    forall seat, c | 0 <= seat < |players|
      ensures c in players[seat].hand <==> Drew(s1, seat, c) && !Threw(s1, seat, c) && !Showed(s1, seat, c)
    {
      assert c in players[seat].hand <==> Drew(s, seat, c) && !Threw(s, seat, c) && !Showed(s, seat, c);
    }
  }

  lemma SameCaller(trump: Suit, c: Card)
    ensures IsJokerCaller(trump, c) <==> JokerCaller(trump, c)
  {
  }

  /** The card is on the last trick, which is closed and followed by the next one, or by the end, once it is full. */
  lemma PlayFrame(g: GameState, id: string, p: int, card: Card, callJoker: bool, called: Suit)
    requires g.tricks != [] && |g.tricks| <= 10
    ensures var g1 := ApplyPlay(g, id, p, card, callJoker, called);
            var k := |g.tricks| - 1;
            var full := |g.tricks[k].cards| + 1 == g.N();
            && g1 == g.(players := g1.players, tricks := g1.tricks, turn := g1.turn, partnerSeat := g1.partnerSeat,
               status := g1.status,
                        scores := g1.scores, totals := g1.totals, history := g1.history)
            && |g1.tricks| == |g.tricks| + (if full && k < 9 then 1 else 0)
            && (forall j :: 0 <= j < k ==> g1.tricks[j] == g.tricks[j])
            && g1.tricks[k]
               == Extend(g.trump, g.tricks[k], Played(id, p, card), callJoker, called).(winner := g1.tricks[k].winner)
            && (full && k < 9 ==> g1.tricks[k + 1] == NEWTRICK)
            && g1.status == (if full && k == 9 then Finished else g.status)
            && |g1.history| == |g.history| + (if full && k == 9 then 1 else 0)
            && (!(full && k == 9) ==> g1.scores == g.scores)
  {
    hide FriendSeat, ScoreLedger, RoundPayouts, PointCards, WinnerSeat, Extend, Reveals, AddLedger, Keep, SetHand,
         AddPoints;
  }

  lemma PlayPlayers(g: GameState, id: string, p: int, card: Card, callJoker: bool, called: Suit)
    requires g.tricks != []
    ensures var g1 := ApplyPlay(g, id, p, card, callJoker, called);
            && |g1.players| == |g.players|
            && forall i :: 0 <= i < |g.players| ==>
                 && g1.players[i] == g.players[i].(hand := g1.players[i].hand, points := g1.players[i].points)
                 && g1.players[i].hand == if i == p then Keep(g.players[i].hand, [card]) else g.players[i].hand
  {
    hide FriendSeat, FinishRound, PointCards, WinnerSeat, Extend, Reveals, Keep, AddPoints, SetHand;
    var g0 := PlaceCard(g, id, p, card, callJoker, called);
    var full := |g0.tricks[|g0.tricks| - 1].cards| == g.N();
    HandPlaced(g.players, p, Keep(HandOf(g.players, p), [card]));
    if full {
      var w := WinnerSeat(g0.trump, |g0.tricks|, g0.tricks[|g0.tricks| - 1]);
      PointsGiven(g0.players, w, PointCards(CardsIn(g0.tricks[|g0.tricks| - 1])));
      FinishPlayers(CloseTrick(g0));
    }
  }

  lemma HandPlaced(players: seq<Player>, p: int, hand: seq<Card>)
    ensures var after := SetHand(players, p, hand);
            forall i :: 0 <= i < |players| ==> after[i] == if i == p then players[i].(hand := hand) else players[i]
  {
  }

  lemma PointsGiven(players: seq<Player>, w: int, points: seq<Card>)
    ensures var after := AddPoints(players, w, points);
            |after| == |players|
            && forall i :: 0 <= i < |players| ==> after[i] == players[i].(points := after[i].points)
  {
  }

  lemma FinishPlayers(g: GameState)
    ensures FinishRound(g).players == g.players
  {
    hide FriendSeat, ScoreLedger, RoundPayouts, AddLedger;
  }

  lemma TrickLaid(guests: seq<Guest>, trump: Suit, t: Trick, laid: seq<Turn>, p: int, card: Card, callJoker: bool,
      called: Suit, winner: int)
    requires 0 <= p < |guests|
    requires if laid == [] then t.cards == [] && !t.jokerCalled else TrickFits(guests, trump, t, laid)
    ensures TrickFits(guests, trump,
                      Extend(trump, t, Played(guests[p].id, p, card), callJoker, called).(winner := winner),
                      laid + [Turn(p, card, callJoker, called)])
  {
    SameCaller(trump, card);
  }

  lemma TricksLaid(g: GameState, s: Tale, id: string, p: int, card: Card, callJoker: bool, called: Suit)
    requires g.status.Playing? && 0 <= p < |g.players| == g.N() && g.players[p].id == id
    requires 0 < |g.tricks| <= 10 && |g.tricks[|g.tricks| - 1].cards| < g.N()
    requires Told(g, s)
    ensures var g1 := ApplyPlay(g, id, p, card, callJoker, called);
            var s1 := s.(tricks := Laid(s.N(), s.tricks, Turn(p, card, callJoker, called)));
            && |s1.tricks| == |g.tricks| && TricksFit(g1, s1)
               && |s1.tricks[|g.tricks| - 1]| == |g.tricks[|g.tricks| - 1].cards| + 1
            && (OpenTrick(s1) <==> |g.tricks[|g.tricks| - 1].cards| + 1 < g.N())
            && forall k :: 0 <= k < |s1.tricks| ==> 0 < |s1.tricks[k]| <= s1.N()
  {
    hide HandsFit, AuctionFits, TurnFits, FriendFits, RoundFits, TrickFits, Extend, ApplyPlay;
    SameTable(g, s);
    PlayFrame(g, id, p, card, callJoker, called);
    var g1 := ApplyPlay(g, id, p, card, callJoker, called);
    var s1 := s.(tricks := Laid(s.N(), s.tricks, Turn(p, card, callJoker, called)));
    var k := |g.tricks| - 1;
    var laid := if OpenTrick(s) then s.tricks[k] else [];
    if OpenTrick(s) { CardsLaid(s.guests, g.trump, g.tricks[k], laid); }
    TrickLaid(s.guests, g.trump, g.tricks[k], laid, p, card, callJoker, called, g1.tricks[k].winner);
    assert laid + [Turn(p, card, callJoker, called)] == s1.tricks[k];
    forall j | 0 <= j < |s1.tricks| ensures TrickFits(s1.guests, g1.trump, g1.tricks[j], s1.tricks[j]) {
      if j < k { assert s1.tricks[j] == s.tricks[j]; }
    }
  }

  lemma TricksVersion(g: GameState, s: Tale, version: int, moves: int)
    ensures TricksFit(g.(version := version), s.(moves := moves)) == TricksFit(g, s)
    ensures OpenTrick(s.(moves := moves)) == OpenTrick(s)
  {
  }

  lemma CardsLaid(guests: seq<Guest>, trump: Suit, t: Trick, laid: seq<Turn>)
    requires TrickFits(guests, trump, t, laid)
    ensures |t.cards| == |laid| > 0
  {
  }

  lemma HandsLaid(players: seq<Player>, after: seq<Player>, s: Tale, s1: Tale, p: int, card: Turn)
    requires HandsFit(players, s) && 0 <= p < |players| == |after| && card.seat == p
    requires s1 == s.(tricks := Laid(s.N(), s.tricks, card), moves := s1.moves)
    requires forall i :: 0 <= i < |after| ==> after[i].hand == if i == p then Keep(players[i].hand, [card.card])
             else players[i].hand
    ensures HandsFit(after, s1)
  {
    hide Showed, Laid;
    LaidShows(s, card, s1);
    forall seat, c | 0 <= seat < |after|
      ensures c in after[seat].hand <==> Drew(s1, seat, c) && !Threw(s1, seat, c) && !Showed(s1, seat, c)
    {
      assert c in players[seat].hand <==> Drew(s, seat, c) && !Threw(s, seat, c) && !Showed(s, seat, c);
    }
  }

  lemma PlayTold(g: GameState, s: Tale, id: string, p: int, card: Card, callJoker: bool, called: Suit, deck: seq<Card>)
    requires g.status.Playing? && 0 <= p < |g.players| == g.N() && g.players[p].id == id && Seated(g.players)
    requires 0 < |g.tricks| <= 10 && |g.tricks[|g.tricks| - 1].cards| < g.N()
    requires Told(g, s)
    ensures Told(ApplyPlay(g, id, p, card, callJoker, called).(version := g.version + 1),
                 Tell(s, MoveOp(id, PlayCardMove(card, callJoker, called), deck)))
  {
    hide Drew, Threw, Showed, HandsFit, TricksFit, NextUp, Place, SeatsFit, ApplyPlay, Laid, Extend, OpenTrick;
    var g1 := ApplyPlay(g, id, p, card, callJoker, called);
    var s1 := Tell(s, MoveOp(id, PlayCardMove(card, callJoker, called), deck));
    SameTable(g, s);
    PlaceOf(g.players, s.guests, p, id);
    PlayFrame(g, id, p, card, callJoker, called);
    PlayPlayers(g, id, p, card, callJoker, called);
    TricksLaid(g, s, id, p, card, callJoker, called);
    TricksVersion(g1, s1.(moves := s.moves), g.version + 1, s1.moves);
    SeatsKept(g, s, g1.(version := g.version + 1), s1);
    HandsLaid(g.players, g1.players, s, s1, p, Turn(p, card, callJoker, called));
  }

  // ----- between rounds, and joining

  /** A vote or a configuration leaves the round as it is told. */
  lemma RestTold(g: GameState, s: Tale, g1: GameState, s1: Tale)
    requires g1 == g.(votes := g1.votes, version := g1.version, config := g.config)
             && s1 == s.(votes := s1.votes, moves := s1.moves)
    ensures AuctionFits(g, s) ==> AuctionFits(g1, s1)
    ensures TurnFits(g, s) ==> TurnFits(g1, s1)
    ensures FriendFits(g, s) ==> FriendFits(g1, s1)
    ensures TricksFit(g, s) ==> TricksFit(g1, s1)
    ensures PhaseOf(s1) == PhaseOf(s)
  {
    hide NextUp, TrickFits;
  }

  lemma VoteTold(g: GameState, s: Tale, id: string, p: int, deck: seq<Card>)
    requires g.status.Finished? && 0 <= p < |g.players| == g.N() && g.players[p].id == id && Seated(g.players)
             && IsDeal(g.N(), deck)
    requires g.config.numPlayers == g.N()
    requires Told(g, s)
    ensures Told(ApplyPlayAgain(g, p, deck).(version := g.version + 1), Tell(s, MoveOp(id, PlayAgainMove, deck)))
  {
    hide HandsFit, Place, SeatsFit, NextRound, IsDeal, AuctionFits, TurnFits, FriendFits, TricksFit, PhaseOf, Dealt;
    SameTable(g, s);
    PlaceOf(g.players, s.guests, p, id);
    var g1, s1 := g.(votes := g.votes + {p}), Tell(s, MoveOp(id, PlayAgainMove, deck));
    if |g1.votes| == g.N() {
      NextTold(g1, s, deck);
    } else {
      SeatsKept(g, s, g1.(version := g.version + 1), s1);
      RestTold(g, s, g1.(version := g.version + 1), s1);
      HandsSame(g.players, s, s1);
    }
  }

  lemma NextTold(g: GameState, s: Tale, deck: seq<Card>)
    requires g.status.Finished? && |g.players| == g.N() && IsDeal(g.N(), deck) && g.config.numPlayers == g.N()
    requires Told(g.(votes := s.votes), s)
    ensures |g.players| <= g.N()
    ensures Told(NextRound(g, deck).(version := g.version + 1),
                 Dealt(s.(moves := s.moves + 1), deck, (s.rounds + 1) % s.N()).(rounds := s.rounds + 1))
  {
    hide Drew, Threw, Showed, HandsFit, TrickFits, NextUp, Place, SeatsFit, Start, IsDeal, Orderly, AuctionFits,
         TurnFits, TricksFit;
    SameTable(g.(votes := s.votes), s);
    var base := Cleared(g);
    var t := s.(moves := s.moves + 1, rounds := s.rounds + 1);
    SeatsKept(g.(votes := s.votes), s, base.(version := g.version + 1), t);
    DealerMoves(s.rounds, s.N());
    FreshTold(base.(version := g.version + 1), t, deck, base.dealer);
    StartVersion(base, deck, g.version + 1);
  }

  lemma DealerMoves(rounds: int, n: int)
    requires n == 4 || n == 5
    ensures 0 <= rounds % n < n && Rot(n, rounds % n, 1) == (rounds + 1) % n
  {
  }

  lemma ConfigTold(g: GameState, s: Tale, id: string, size: Option<int>, deck: seq<Card>)
    requires g.status.Finished? && |g.players| == g.N() && !Resizes(g, ChangeConfigMove(size))
    requires Told(g, s)
    ensures Told(ApplyChangeConfig(g, size).(version := g.version + 1),
            Tell(s, MoveOp(id, ChangeConfigMove(size), deck)))
  {
    hide HandsFit, Place, SeatsFit, AuctionFits, TurnFits, FriendFits, TricksFit, PhaseOf;
    var g1, s1 := ApplyChangeConfig(g, size).(version := g.version + 1),
        Tell(s, MoveOp(id, ChangeConfigMove(size), deck));
    SameTable(g, s);
    SeatsKept(g, s, g1, s1);
    RestTold(g, s, g1, s1);
    HandsSame(g.players, s, s1);
  }

  lemma SamePlaces(guests: seq<Guest>, after: seq<Guest>, id: string)
    requires |guests| == |after| && forall i :: 0 <= i < |guests| ==> after[i].id == guests[i].id
    ensures Place(after, id) == Place(guests, id)
  {
  }

  /** A seated player comes back under a new name; nothing else changes. */
  lemma RejoinTold(g: GameState, s: Tale, p: int, name: string)
    requires 0 <= p < |g.players| && Seated(g.players)
    requires Told(g, s)
    ensures |s.guests| == |g.players|
    ensures Told(g.(players := g.players[p := g.players[p].(name := name, connected := true)],
                    version := g.version + 1),
                 s.(guests := s.guests[p := Guest(g.players[p].id, name)], moves := s.moves + 1))
  {
    hide NextUp, Showed, TrickFits, HighBid;
    var g1 := g.(players := g.players[p := g.players[p].(name := name, connected := true)], version := g.version + 1);
    var s1 := s.(guests := s.guests[p := Guest(g.players[p].id, name)], moves := s.moves + 1);
    RejoinPlaces(s, s1);
    RejoinHands(g.players, g1.players, s, s1);
    RejoinTricks(g, g1, s, s1);
  }

  lemma RejoinPlaces(s: Tale, s1: Tale)
    requires s1 == s.(guests := s1.guests, moves := s1.moves) && |s1.guests| == |s.guests|
    requires forall i :: 0 <= i < |s.guests| ==> s1.guests[i].id == s.guests[i].id
    ensures forall id :: Place(s1.guests, id) == Place(s.guests, id)
    ensures Awarded(s1) == Awarded(s) && Declarer(s1) == Declarer(s) && PhaseOf(s1) == PhaseOf(s)
  {
    hide Place;
    forall id ensures Place(s1.guests, id) == Place(s.guests, id) { SamePlaces(s.guests, s1.guests, id); }
  }

  lemma RejoinHands(players: seq<Player>, after: seq<Player>, s: Tale, s1: Tale)
    requires HandsFit(players, s) && Awarded(s1) == Awarded(s) && Declarer(s1) == Declarer(s)
    requires s1 == s.(guests := s1.guests, moves := s1.moves)
    requires |after| == |players| && forall i :: 0 <= i < |players| ==> after[i].hand == players[i].hand
    ensures HandsFit(after, s1)
  {
    hide Awarded, Declarer;
    forall seat, c | 0 <= seat < |after|
      ensures c in after[seat].hand <==> Drew(s1, seat, c) && !Threw(s1, seat, c) && !Showed(s1, seat, c)
    {
      assert c in players[seat].hand <==> Drew(s, seat, c) && !Threw(s, seat, c) && !Showed(s, seat, c);
    }
  }

  lemma RejoinTricks(g: GameState, g1: GameState, s: Tale, s1: Tale)
    requires TricksFit(g, s) && g1.tricks == g.tricks && g1.trump == g.trump && g1.status == g.status
    requires s1 == s.(guests := s1.guests, moves := s1.moves) && |s1.guests| == |s.guests|
    requires forall i :: 0 <= i < |s.guests| ==> s1.guests[i].id == s.guests[i].id
    ensures TricksFit(g1, s1)
  {
  }

  lemma NewcomerTold(g: GameState, s: Tale, id: string, name: string, deck: seq<Card>)
    requires g.status.Waiting? && SeatOf(g.players, id) < 0 && |g.players| < g.N() && IsDeal(g.N(), deck)
             && Seated(g.players)
    requires g.bids == [] && g.tricks == [] && g.passed == {}
    requires Told(g, s)
    ensures Told(Join(g, id, name, deck), Tell(s, JoinOp(id, name, deck)))
  {
    hide NextUp, TrickFits, IsDeal, Start;
    SameTable(g, s);
    SamePlace(g.players, s.guests, id);
    var player := NewPlayer(id, name, |g.players|);
    var g1 := g.(players := g.players + [player], version := g.version + 1);
    var s1 := s.(guests := s.guests + [Guest(id, name)], moves := s.moves + 1);
    if |g1.players| == g.N() {
      FreshTold(g1, s1, deck, 0);
      StartVersion(g1, deck, g1.version);
    } else {
      NewHands(g.players, player, s, s1);
    }
  }

  lemma NewHands(players: seq<Player>, player: Player, s: Tale, s1: Tale)
    requires HandsFit(players, s) && player.hand == [] && s.deck == s1.deck == []
    requires HandsFit(players, s)
    ensures HandsFit(players + [player], s1)
  {
    forall seat, c | 0 <= seat < |players| + 1
      ensures c in (players + [player])[seat].hand <==> Drew(s1, seat, c) && !Threw(s1, seat, c) && !Showed(s1, seat, c)
    {
      if seat < |players| {
        assert c in players[seat].hand <==> Drew(s, seat, c) && !Threw(s, seat, c) && !Showed(s, seat, c);
      }
    }
  }

  // ----- every run

  lemma BeginningTold(id: string, cfg: Config)
    requires Playable(cfg)
    ensures Told(NewGame(id, cfg), Beginning(cfg))
  {
  }

  /** What the moves of each phase may assume. */
  lemma PhaseFacts(t: Table)
    requires Inv(t)
    ensures var g := t.g;
            && |g.players| <= g.N() && (!g.status.Waiting? ==> |g.players| == g.N()) && Seated(g.players)
            && g.config.numPlayers == g.N()
            && (g.status.Bidding? ==> InRange(g.N(), g.passed) && g.turn !in g.passed && |g.passed| < g.N()
                                      && (|g.passed| == g.N() - 1 ==> g.currentBid.None?)
                                      && (g.currentBid.Some? ==> 0 <= g.declarer < g.N()))
            && (g.status.Exchanging? ==> g.turn == g.declarer) && (g.status.Calling? ==> g.tricks == [])
            && (g.status.Playing? ==> 0 < |g.tricks| <= 10 && |g.tricks[|g.tricks| - 1].cards| < g.N())
            && (g.status.Waiting? ==> g.bids == [] && g.tricks == [] && g.passed == {})
  {
    hide Conserved, Books, BidLog, Accounted, HandSizes, LateHands, Placement, NoRevoke, RenouncersOut,
         RevealedRightly, RotationLog, LeadLog, WinnerLog, TenEach, FriendSeat, Seated;
    InvParts(t);
    if t.g.status.Bidding? {
      var opener :| Rotation(t.g.N(), opener, t.g.turn, t.g.declarer, t.g.passed, t.g.currentBid.Some?);
      LastSeatMayBid(t.g.N(), opener, t.g.turn, t.g.declarer, t.g.passed, t.g.currentBid.Some?);
    }
  }

  lemma MoveTold(t: Table, s: Tale, id: string, m: Move, deck: seq<Card>)
    requires MoveOk(t, id, m, deck)
    requires Inv(t) && Told(t.g, s)
    ensures Told(Apply(t.g, id, m, deck), Tell(s, MoveOp(id, m, deck)))
  {
    hide Inv, Told, Tell, ApplyBid, ApplyPass, ApplyDiscard, ApplyCall, ApplyPlay, ApplyPlayAgain, ApplyChangeConfig,
         ValidateMove, ValidatePlay, IsDeal, Resizes, Seated;
    var g, p := t.g, SeatOf(t.g.players, id);
    PhaseFacts(t);
    AcceptedMove(g, id, m);
    match m
    case BidMove(points, suit, noTrump) =>
      BidBounds(g, id, points, suit, noTrump);
      BidTold(g, s, id, p, points, suit, noTrump, deck);
    case PassMove => PassTold(g, s, id, p, deck);
    case DiscardMove(cards) => DiscardTold(g, s, id, p, cards, deck);
    case CallPartnerMove(friend, alone) => CallTold(g, s, id, friend, alone, deck);
    case PlayCardMove(card, callJoker, calledSuit) => PlayTold(g, s, id, p, card, callJoker, calledSuit, deck);
    case PlayAgainMove => VoteTold(g, s, id, p, deck);
    case ChangeConfigMove(size) => ConfigTold(g, s, id, size, deck);
  }

  lemma BidBounds(g: GameState, id: string, points: int, suit: Suit, noTrump: bool)
    requires Indexable(g) && ValidateBid(g, id, points, suit, noTrump).Accept?
    ensures 0 < points <= 10
  {
  }

  lemma JoinTold(t: Table, s: Tale, id: string, name: string, deck: seq<Card>)
    requires CanJoin(t.g, id) && IsDeal(t.g.N(), deck)
    requires Inv(t) && Told(t.g, s)
    ensures Told(Join(t.g, id, name, deck), Tell(s, JoinOp(id, name, deck)))
  {
    hide Inv, Told, IsDeal, Seated, Start;
    PhaseFacts(t);
    var p := SeatOf(t.g.players, id);
    ToldSeats(t.g, s);
    SamePlace(t.g.players, s.guests, id);
    if p >= 0 { RejoinTold(t.g, s, p, name); } else { NewcomerTold(t.g, s, id, name, deck); }
  }

  lemma ToldSeats(g: GameState, s: Tale)
    requires Told(g, s)
    ensures |g.players| == |s.guests| && g.N() == s.N()
    ensures forall i :: 0 <= i < |g.players| ==> g.players[i].id == s.guests[i].id
  {
  }

  /** Every table of every run is the one that the story of its operations tells. */
  lemma {:induction false} StoryHolds(r: Run, at: nat)
    requires Legal(r) && at <= |r.ops|
    ensures Told(r.tables[at].g, TaleOf(r.cfg, r.ops[..at]))
  {
    hide Inv, Told, Tell, Moved, Join, MoveOk, CanJoin, IsDeal, Apply;
    if at == 0 {
      BeginningTold(r.id, r.cfg);
    } else {
      StoryHolds(r, at - 1);
      LegalStep(r, at - 1);
      assert r.ops[..at][..at - 1] == r.ops[..at - 1];
      var t, s := r.tables[at - 1], TaleOf(r.cfg, r.ops[..at - 1]);
      match r.ops[at - 1]
      case JoinOp(id, name, deck) => JoinTold(t, s, id, name, deck);
      case MoveOp(id, m, deck) => MoveTold(t, s, id, m, deck); MovedGame(t, id, m, deck);
    }
  }

  lemma MovedGame(t: Table, id: string, m: Move, deck: seq<Card>)
    requires MoveOk(t, id, m, deck)
    ensures Indexable(t.g) && ValidateMove(t.g, id, m).Accept? && |t.g.players| <= t.g.N()
    ensures Moved(t, id, m, deck).g == Apply(t.g, id, m, deck)
  {
    hide ValidateMove, Apply, Resizes;
  }

  // ----- the steps of a round, for what follows from them

  /** A card played in a run: where it comes from, and what it makes of the table. */
  lemma PlayedGame(t: Table, id: string, m: Move, deck: seq<Card>)
    requires MoveOk(t, id, m, deck) && m.PlayCardMove?
    requires Inv(t)
    ensures var g, p := t.g, SeatOf(t.g.players, id);
            && g.status.Playing? && 0 <= p < |g.players| == g.N() && p == g.turn && g.players[p].id == id
            && 0 < |g.tricks| <= 10 && |g.tricks[|g.tricks| - 1].cards| < g.N()
            && Moved(t, id, m, deck).g
               == ApplyPlay(g, id, p, m.card, m.callJoker, m.calledSuit).(version := g.version + 1)
  {
    hide Inv, ValidateMove, ApplyBid, ApplyPass, ApplyDiscard, ApplyCall, ApplyPlay, ApplyPlayAgain,
         ApplyChangeConfig, Moved, Seated, IsDeal, Resizes, SeatOf;
    BaseOf(t);
    PhaseFacts(t);
    AcceptedMove(t.g, id, m);
    MovedGame(t, id, m, deck);
  }

  /** The other moves after the call: votes and configurations at the end. */
  lemma FinishedGame(t: Table, id: string, m: Move, deck: seq<Card>)
    requires MoveOk(t, id, m, deck) && (t.g.status.Playing? || t.g.status.Finished?) && !m.PlayCardMove?
    requires Inv(t)
    ensures var g, p := t.g, SeatOf(t.g.players, id);
            && g.status.Finished? && 0 <= p < |g.players| == g.N() && (m.PlayAgainMove? || m.ChangeConfigMove?)
            && Moved(t, id, m, deck).g
               == (if m.PlayAgainMove? then ApplyPlayAgain(g, p, deck) else ApplyChangeConfig(g, m.size))
                                          .(version := g.version + 1)
  {
    hide Inv, ValidateMove, ApplyBid, ApplyPass, ApplyDiscard, ApplyCall, ApplyPlay, ApplyPlayAgain,
         ApplyChangeConfig, Moved, Seated, IsDeal, Resizes, SeatOf;
    BaseOf(t);
    PhaseFacts(t);
    AcceptedMove(t.g, id, m);
    MovedGame(t, id, m, deck);
  }

  /** Once the table is full only seated players join, and only their names change. */
  lemma RejoinedGame(t: Table, id: string, name: string, deck: seq<Card>)
    requires CanJoin(t.g, id) && !t.g.status.Waiting?
    requires Inv(t)
    ensures var g, p := t.g, SeatOf(t.g.players, id);
            && 0 <= p < |g.players| == g.N()
            && Join(g, id, name, deck) ==
               g.(players := g.players[p := g.players[p].(name := name, connected := true)], version := g.version + 1)
  {
    hide Inv, Seated, Start;
    PhaseFacts(t);
  }
}
