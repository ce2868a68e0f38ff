/** Every accepted move keeps the invariant. */
module Steps {
  import opened Cards
  import opened Piles
  import opened Decks
  import opened Wrappers
  import opened State
  import opened Rules
  import opened Scoring
  import opened Engine
  import opened Auction
  import opened Invariants
  import opened Conservation
  import opened Play
  import opened Ownership
  import opened Tricks
  import opened BookKeeping

  lemma InvIndexable(t: Table)
    requires Inv(t)
    ensures Indexable(t.g)
  {
    hide Conserved, Books, BidLog, Accounted, TenEach, HandSizes, LeadLog, WinnerLog, Placement, NoRevoke,
         RenouncersOut, LateHands, RevealedRightly;
    InvParts(t);
    if t.g.status.Bidding? {
      var opener :| Rotation(t.g.N(), opener, t.g.turn, t.g.declarer, t.g.passed, t.g.currentBid.Some?);
    }
    if t.g.status.Playing? {
      assert InRotation(IdList(t.g.players), Leader(t.g.declarer, t.g.tricks, |t.g.tricks| - 1),
             t.g.tricks[|t.g.tricks| - 1]);
    }
  }

  lemma SameSeat(players: seq<Player>, id: string, s: int)
    requires Seated(players) && 0 <= s < |players| && players[s].id == id
    ensures SeatOf(players, id) == s
  {
  }

  lemma SameIds(players: seq<Player>, after: seq<Player>)
    requires |players| == |after| && forall i :: 0 <= i < |players| ==>
             after[i].id == players[i].id && after[i].seat == players[i].seat
    ensures IdList(after) == IdList(players)
    ensures Seated(players) ==> Seated(after)
  {
  }

  // ----- reading one entry of a log

  lemma LogAt(ids: seq<string>, declarer: int, trump: Suit, tricks: seq<Trick>, j: int)
    requires RotationLog(ids, declarer, tricks) && LeadLog(trump, tricks) && 0 <= j < |tricks|
    ensures InRotation(ids, Leader(declarer, tricks, j), tricks[j]) && LeadDeclared(trump, j + 1, tricks[j])
  {
  }

  lemma WonAt(n: int, trump: Suit, tricks: seq<Trick>, done: int, j: int)
    requires WinnerLog(n, trump, tricks, done) && 0 <= j < done <= |tricks|
    ensures Resolved(n, trump, j + 1, tricks[j])
  {
  }

  lemma IdCount(players: seq<Player>)
    ensures |IdList(players)| == |players|
  {
  }

  lemma LateAt(trump: Suit, players: seq<Player>, s: int)
    requires LateHands(trump, players) && 0 <= s < |players|
    ensures LateHand(trump, players[s].hand)
  {
  }

  lemma SizeAt(players: seq<Player>, declarer: int, d: int, tricks: seq<Trick>, s: int)
    requires HandSizes(players, declarer, d, tricks) && 0 <= s < |players| && tricks != []
    requires !SeatIn(tricks[|tricks| - 1], s)
    ensures |players[s].hand| == (if s == declarer then 13 - d else 10) - (|tricks| - 1)
  {
  }

  lemma AcceptedIsHeld(trump: Suit, k: int, t: Trick, hand: seq<Card>, card: Card, callJoker: bool, calledSuit: Suit)
    requires PlayVerdict(trump, k, t, hand, card, callJoker, calledSuit).Accept?
    ensures card in hand
    ensures Out(trump, t, hand, card)
  {
    if t.cards != [] && card.suit != t.leadSuit && !IsSpecial(trump, card) {
      RenounceMeansOut(trump, k, t, hand, card, callJoker, calledSuit);
    }
  }

  // ----- auction

  lemma DealKeeps(g: GameState, deck: seq<Card>, opener: int, turn: int)
    requires BaseInv(g) && |g.players| == g.N() && IsDeal(g.N(), deck) && 0 <= opener < g.N() && turn == opener
    requires Books(IdList(g.players), g.totals, g.history)
    requires g.bids == [] && g.currentBid.None? && g.contract.None? && g.declarer == -1 && g.passed == {}
             && g.tricks == [] && g.votes == {}
    requires NoFriendYet(g)
    ensures Inv(Table(Start(g, deck).(turn := turn), []))
  {
    hide Conserved, Deck, Books;
    var n := g.N();
    DeckSize(n);
    PermSize(deck, Deck(n));
    DealConserves(n, g.players, deck);
    SameIds(g.players, DealTo(g.players, deck));
    assert Accounted(DealTo(g.players, deck), -1, [], []);
    var g1 := Start(g, deck).(turn := turn);
    assert Rotation(g1.N(), opener, g1.turn, g1.declarer, g1.passed, g1.currentBid.Some?);
  }

  lemma AwardKeeps(t: Table, g1: GameState)
    requires Inv(t) && t.g.status.Bidding?
    requires g1 == t.g.(currentBid := g1.currentBid, declarer := g1.declarer, bids := g1.bids, passed := g1.passed,
             turn := g1.turn)
    requires g1.currentBid.Some? && HeldBy(g1, g1.currentBid.value)
             && BidLog(g1.bids, g1.currentBid, g1.config.MinBid())
    ensures Inv(Table(Award(g1), []))
  {
    hide Conserved, Deck, Books, BidLog;
    InvParts(t);
    var g, s := t.g, g1.declarer;
    var after := SetHand(g.players, s, g.players[s].hand + g.kitty);
    AwardConserves(g.N(), g.players, g.kitty, s);
    SameIds(g.players, after);
    assert Accounted(after, s, [], []) by {
      forall u | 0 <= u < |after| ensures after[u].points == (if u == s then PointCards([]) else []) + Captured([], u) {
        assert g.players[u].points == (if u == g.declarer then PointCards([]) else []) + Captured([], u);
      }
    }
    assert HandSizes(after, s, 0, []);
  }

  lemma BidKeeps(t: Table, id: string, p: int, points: int, suit: Suit, noTrump: bool)
    requires Indexable(t.g) && t.g.status.Bidding? && p == t.g.turn && 0 <= p < |t.g.players| && t.g.players[p].id == id
    requires ValidateBid(t.g, id, points, suit, noTrump).Accept?
    requires Inv(t)
    ensures Inv(Table(ApplyBid(t.g, id, p, points, suit, noTrump), []))
  {
    hide Conserved, Deck, Books, BidLog, Accounted, TenEach, Award, Rotating, Advance, Seated;
    InvParts(t);
    var g := t.g;
    var b := Bid(id, points, suit, noTrump);
    var g1 := g.(currentBid := Some(b), declarer := p, bids := g.bids + [b]);
    BidLogged(g.bids, g.currentBid, g.config.MinBid(), b);
    if points == 10 || |g.passed| == g.N() - 1 {
      AwardKeeps(t, g1);
    } else {
      PointsIdle(g.players, g.declarer, p);
      BidAdvances(g, g1);
    }
  }

  lemma BidAdvances(g: GameState, g1: GameState)
    requires Rotating(g) && g.N() >= 2 && |g.passed| != g.N() - 1
    requires g1 == g.(currentBid := g1.currentBid, declarer := g.turn, bids := g1.bids) && g1.currentBid.Some?
    ensures Rotating(g1.(turn := Advance(g.N(), g.passed, g.turn)))
  {
    hide Advance;
    var n := g.N();
    var opener :| Rotation(n, opener, g.turn, g.declarer, g.passed, g.currentBid.Some?);
    BidRotates(n, opener, g.turn, g.declarer, g.passed, g.currentBid.Some?);
    var g2 := g1.(turn := Advance(n, g.passed, g.turn));
    assert Rotation(g2.N(), opener, g2.turn, g2.declarer, g2.passed, g2.currentBid.Some?);
  }

  lemma PointsIdle(players: seq<Player>, declarer: int, other: int)
    requires Accounted(players, declarer, [], [])
    ensures Accounted(players, other, [], [])
  {
    forall u | 0 <= u < |players| ensures players[u].points == (if u == other then PointCards([]) else [])
           + Captured([], u) {
      assert players[u].points == (if u == declarer then PointCards([]) else []) + Captured([], u);
    }
  }

  lemma PassKeeps(t: Table, id: string, p: int, deck: seq<Card>)
    requires Indexable(t.g) && t.g.status.Bidding? && p == t.g.turn && 0 <= p < |t.g.players| <= t.g.N()
             && t.g.players[p].id == id
    requires IsDeal(t.g.N(), deck)
    requires Inv(t)
    ensures Inv(Table(ApplyPass(t.g, id, p, deck), []))
  {
    hide Conserved, Deck, Books, BidLog, Accounted, TenEach;
    InvParts(t);
    var g, n := t.g, t.g.N();
    var passed := g.passed + {p};
    var opener :| Rotation(n, opener, g.turn, g.declarer, g.passed, g.currentBid.Some?);
    LastSeatMayBid(n, opener, g.turn, g.declarer, g.passed, g.currentBid.Some?);
    PassLogged(g.bids, g.currentBid, g.config.MinBid(), Bid(id, 0, Blank, false));
    var g1 := g.(passed := passed, bids := g.bids + [Bid(id, 0, Blank, false)], turn := Advance(n, passed, g.turn));
    if |passed| == n - 1 && g.currentBid.Some? {
      AwardKeeps(t, g1);
    } else if |passed| == n {
      var g2 := g1.(bids := [], currentBid := None, contract := None, declarer := -1, passed := {}, partnerCard := None,
                    partnerSeat := -1, noFriend := false, trump := Blank, tricks := []);
      DealKeeps(g2, deck, 0, 0);
      assert Start(g2, deck) == Start(g2, deck).(turn := 0);
    } else {
      PassRotates(n, opener, g.turn, g.declarer, g.passed, g.currentBid.Some?);
      assert Rotation(g1.N(), opener, g1.turn, g1.declarer, g1.passed, g1.currentBid.Some?);
      assert BiddingInv(Table(g1, []));
    }
  }

  // ----- exchange and call

  lemma DiscardKeeps(t: Table, id: string, p: int, cards: seq<Card>)
    requires Indexable(t.g) && t.g.status.Exchanging? && p == t.g.declarer && 0 <= p < |t.g.players|
    requires ValidateDiscard(t.g, id, p, cards).Accept?
    requires Inv(t)
    ensures Inv(Table(ApplyDiscard(t.g, p, cards), Take(t.g.players[p].hand, cards)))
    ensures |Take(t.g.players[p].hand, cards)| == |set c | c in cards|
  {
    hide Conserved, Deck, Books, BidLog, Keep, Take, PointCards, HandSizes, Accounted, AddPoints, SetHand, Seated,
         IdList;
    InvParts(t);
    var g := t.g;
    var hand := g.players[p].hand;
    HandNoDup(g.N(), g.players, [], [], [], p);
    assert forall c :: c in cards ==> c in hand;
    TakeSize(hand, cards);
    ThreeNames(cards);
    DiscardConserves(g.N(), g.players, p, cards);
    DiscardSlices(g.N(), g.players, p, cards);
  }

  lemma DiscardSlices(n: int, players: seq<Player>, p: int, cards: seq<Card>)
    requires 0 <= p < |players| && HandSizes(players, p, 0, []) && Accounted(players, p, [], [])
    requires Conserved(n, SetHand(players, p, Keep(players[p].hand, cards)), [], [], Take(players[p].hand, cards))
    ensures var hand := players[p].hand;
            var after := AddPoints(SetHand(players, p, Keep(hand, cards)), p, PointCards(Take(hand, cards)));
            && HandSizes(after, p, |Take(hand, cards)|, []) && Accounted(after, p, Take(hand, cards), [])
            && Conserved(n, after, [], [], Take(hand, cards))
            && IdList(after) == IdList(players) && (Seated(players) ==> Seated(after)) && |after| == |players|
            && after[p].id == players[p].id
  {
    hide Conserved, Deck, Keep, Take;
    var hand := players[p].hand;
    var mid := SetHand(players, p, Keep(hand, cards));
    var after := AddPoints(mid, p, PointCards(Take(hand, cards)));
    Split(hand, cards);
    NoPoints();
    RecordsConserve(n, mid, after, [], [], [], Take(hand, cards));
    SameIds(players, after);
    forall s | 0 <= s < |after|
      ensures after[s].points == (if s == p then PointCards(Take(hand, cards)) else []) + Captured([], s)
    {
      assert players[s].points == (if s == p then PointCards([]) else []) + Captured([], s);
    }
  }

  lemma NoPoints()
    ensures PointCards([]) == []
  {
  }

  lemma ThreeNames(cards: seq<Card>)
    requires |cards| == 3
    ensures 1 <= |set c | c in cards| <= 3
  {
    var s := set c | c in cards;
    assert s == {cards[0]} + {cards[1]} + {cards[2]};
  }

  lemma CallKeeps(t: Table, id: string, friend: Option<Card>, alone: bool)
    requires Indexable(t.g) && t.g.status.Calling? && ValidateCall(t.g, id, friend, alone).Accept?
    requires Inv(t)
    ensures Inv(Table(ApplyCall(t.g, friend, alone), t.discards))
  {
    hide Conserved, Deck, Books, BidLog, Accounted, HandSizes, LateHands, TrickLog, Placement, NoRevoke,
         RenouncersOut, RevealedRightly, FriendSeat, Seated;
    InvParts(t);
    var g, g1 := t.g, ApplyCall(t.g, friend, alone);
    assert g.tricks + [NEWTRICK] == [NEWTRICK] && [NEWTRICK][..0] == [];
    OpenConserves(g.N(), g.players, [], g.tricks, t.discards);
    IdAt(g.players, g.declarer);
    FirstTrick(IdList(g.players), g.players, g.declarer, |t.discards|, g.trump, g1.partnerSeat, Friend(g1));
  }

  lemma FirstTrick(ids: seq<string>, players: seq<Player>, declarer: int, d: int, trump: Suit, partnerSeat: int,
      fs: int)
    requires HandSizes(players, declarer, d, []) && 0 <= d <= 3 && 0 <= declarer < |ids| && partnerSeat == -1
    ensures HandSizes(players, declarer, d, [NEWTRICK]) && LateHands(trump, players)
    ensures TrickLog(ids, declarer, trump, [NEWTRICK], 0) && Placement(declarer, d, trump, [NEWTRICK])
    ensures NoRevoke(trump, [NEWTRICK]) && RenouncersOut(trump, players, [NEWTRICK])
            && RevealedRightly(partnerSeat, fs, [])
  {
    assert forall s :: !SeatIn(NEWTRICK, s);
  }

  // ----- play

  lemma PlaceKeeps(t: Table, id: string, p: int, card: Card, callJoker: bool, calledSuit: Suit)
    requires Indexable(t.g) && t.g.status.Playing? && p == t.g.turn && 0 <= p < |t.g.players| && t.g.players[p].id == id
    requires ValidatePlay(t.g, id, p, card, callJoker, calledSuit).Accept?
    requires Inv(t)
    ensures var t1 := Table(PlaceCard(t.g, id, p, card, callJoker, calledSuit), t.discards);
            && RoundInv(t1, |t.g.tricks| - 1) && Conserved(t.g.N(), t1.g.players, [], t1.g.tricks, t.discards)
            && Friend(t1.g) == Friend(t.g) && IdList(t1.g.players) == IdList(t.g.players) && Seated(t1.g.players)
  {
    hide Conserved, Deck, Books, BidLog, Keep, RotationLog, LeadLog, WinnerLog, HandSizes, Placement, NoRevoke,
         RenouncersOut, LateHands, RevealedRightly, FriendSeat, LateHand, PlayVerdict, Accounted, Extend, Extends,
         LeadDeclared, FromDeck, Seated, IdList, InRotation, SetHand, SeatIn, Out;
    InvParts(t);
    var g, last := t.g, |t.g.tricks| - 1;
    var tr, hand := g.tricks[last], g.players[p].hand;
    var play := Played(id, p, card);
    var t1 := Extend(g.trump, tr, play, callJoker, calledSuit);
    var log, after := g.tricks[last := t1], SetHand(g.players, p, Keep(hand, [card]));
    var ids, leader := IdList(g.players), Leader(g.declarer, g.tricks, last);
    AcceptedIsHeld(g.trump, last + 1, tr, hand, card, callJoker, calledSuit);
    HandFromDeck(g.N(), g.players, g.tricks, t.discards, p);
    LogAt(ids, g.declarer, g.trump, g.tricks, last);
    LeadKept(g.N(), g.trump, last + 1, tr, hand, play, callJoker, calledSuit);
    IdAt(g.players, p);
    ExtendsBy(tr, play, t1);
    PlayConserves(g.N(), g.players, g.tricks, t.discards, p, card, t1);
    HandOnly(g.players, p, Keep(hand, [card]), g.declarer, t.discards, g.tricks[..last]);
    LeadLogKept(g.trump, g.tricks, t1);
    WinnerLogKept(|ids|, g.trump, g.tricks, t1);
    RotationLogKept(ids, g.declarer, g.tricks, play, t1);
    TurnNotIn(ids, leader, tr, p);
    SizesKept(g.players, g.declarer, |t.discards|, g.tricks, play, t1);
    LateKept(g.N(), g.trump, g.players, p, last + 1, tr, card, callJoker, calledSuit);
    LateAt(g.trump, g.players, p);
    SizeAt(g.players, g.declarer, |t.discards|, g.tricks, p);
    PlacementKept(g.trump, g.declarer, |t.discards|, g.tricks, hand, play, t1, callJoker, calledSuit);
    RenouncersKept(g.trump, g.players, g.tricks, play, t1);
    RevokeKept(g.trump, g.players, g.tricks, play, t1);
    FriendPlays(g, t.discards, play, t1);
    assert log[..last] == g.tricks[..last];
  }

  lemma HandFromDeck(n: int, players: seq<Player>, tricks: seq<Trick>, discards: seq<Card>, s: int)
    requires Conserved(n, players, [], tricks, discards) && 0 <= s < |players|
    ensures FromDeck(n, players[s].hand) && NoDup(players[s].hand)
    ensures forall c :: c in players[s].hand ==> InDeck(n, c)
  {
    HandNoDup(n, players, [], tricks, discards, s);
  }

  lemma IdAt(players: seq<Player>, s: int)
    requires 0 <= s < |players|
    ensures |IdList(players)| == |players| && IdList(players)[s] == players[s].id
  {
  }

  lemma ExtendsBy(t: Trick, play: Played, t1: Trick)
    requires Extends(t, play, t1)
    ensures CardsIn(t1) == CardsIn(t) + [play.card] && |t1.cards| == |t.cards| + 1
  {
  }

  /** Replacing a hand leaves names, seats and points. */
  lemma HandOnly(players: seq<Player>, s: int, hand: seq<Card>, declarer: int, discards: seq<Card>, won: seq<Trick>)
    requires 0 <= s < |players|
    ensures var after := SetHand(players, s, hand);
            && |after| == |players| && IdList(after) == IdList(players) && (Seated(players) ==> Seated(after))
            && (Accounted(players, declarer, discards, won) ==> Accounted(after, declarer, discards, won))
            && (forall u :: 0 <= u < |players| ==> after[u].id == players[u].id)
  {
    SameIds(players, SetHand(players, s, hand));
  }

  lemma TurnRotates(ids: seq<string>, leader: int, t: Trick)
    requires InRotation(ids, leader, t) && |t.cards| + 1 < |ids|
    ensures Rot(|ids|, Rot(|ids|, leader, |t.cards|), 1) == Rot(|ids|, leader, |t.cards| + 1)
  {
  }

  lemma TurnNotIn(ids: seq<string>, leader: int, t: Trick, p: int)
    requires InRotation(ids, leader, t) && |t.cards| < |ids| && p == Rot(|ids|, leader, |t.cards|)
    ensures !SeatIn(t, p) && 0 <= p < |ids|
  {
    SeatInRotation(ids, leader, t, p);
    RotOnto(|ids|, leader, p);
  }

  lemma FriendPlays(g: GameState, discards: seq<Card>, play: Played, t1: Trick)
    requires g.tricks != [] && Conserved(g.N(), g.players, [], g.tricks, discards) && 0 <= play.seat < |g.players|
    requires play.card in g.players[play.seat].hand && Extends(g.tricks[|g.tricks| - 1], play, t1)
    requires var after, log := SetHand(g.players, play.seat, Keep(g.players[play.seat].hand, [play.card])),
             g.tricks[|g.tricks| - 1 := t1];
             && Conserved(g.N(), after, [], log, discards)
             && RotationLog(IdList(g.players), g.declarer, g.tricks) && RotationLog(IdList(g.players), g.declarer, log)
    ensures var after, log := SetHand(g.players, play.seat, Keep(g.players[play.seat].hand, [play.card])),
            g.tricks[|g.tricks| - 1 := t1];
            FriendSeat(after, log, g.noFriend, g.partnerCard) == Friend(g)
  {
    var after, log := SetHand(g.players, play.seat, Keep(g.players[play.seat].hand, [play.card])),
        g.tricks[|g.tricks| - 1 := t1];
    LogSeatsOf(IdList(g.players), g.declarer, g.tricks);
    LogSeatsOf(IdList(g.players), g.declarer, log);
    if !g.noFriend && g.partnerCard.Some? {
      PlayKeepsOwners(g.players, g.tricks, play, t1, g.partnerCard.value);
      SameOwner(g.N(), g.players, g.tricks, discards, after, log, g.partnerCard.value);
    }
  }

  lemma CloseKeeps(t: Table, g1: GameState)
    requires t.g.tricks != [] && t.g.players != [] && |t.g.tricks[|t.g.tricks| - 1].cards| == |t.g.players|
    requires g1 == CloseTrick(t.g)
    requires BaseInv(t.g) && |t.g.players| == t.g.N() && RoundInv(t, |t.g.tricks| - 1)
    requires Conserved(t.g.N(), t.g.players, [], t.g.tricks, t.discards)
    ensures RoundInv(Table(g1, t.discards), |t.g.tricks|) && Conserved(t.g.N(), g1.players, [], g1.tricks, t.discards)
    ensures Friend(g1) == Friend(t.g) && 0 <= g1.turn < |t.g.players|
    ensures IdList(g1.players) == IdList(t.g.players) && Seated(g1.players)
  {
    hide Conserved, Deck, Books, BidLog, RotationLog, LeadLog, WinnerLog, HandSizes, Placement, NoRevoke,
         RenouncersOut, LateHands, FriendSeat, Accounted, Seated, IdList, InRotation, AddPoints, Reveals, Defended,
         LeadDeclared, WinnerSeat, PointCards;
    var g, last := t.g, |t.g.tricks| - 1;
    var tr, ids := g.tricks[last], IdList(g.players);
    IdAt(g.players, 0);
    LogAt(ids, g.declarer, g.trump, g.tricks, last);
    WinnerSeated(ids, Leader(g.declarer, g.tricks, last), g.trump, last + 1, tr);
    var w := WinnerSeat(g.trump, |g.tricks|, tr);
    var closed := g.tricks[last := tr.(winner := w)];
    var after := AddPoints(g.players, w, PointCards(CardsIn(tr)));
    LogClosed(ids, g.declarer, g.trump, g.tricks, closed, w);
    PointsOnly(g.players, w, PointCards(CardsIn(tr)));
    RecordsConserve(g.N(), g.players, after, [], g.tricks, closed, t.discards);
    FriendCloses(g, t.discards, after, closed);
    FriendOnlyHands(g.players, after, closed, g.noFriend, g.partnerCard);
    CardsOnly(g.trump, g.players, after, g.declarer, |t.discards|, g.tricks, closed, w);
    RevokeClosed(g.trump, g.players, after, g.tricks, closed, w);
    AccountClosed(g.players, g.declarer, t.discards, g.tricks, closed, w);
    assert closed[..|closed|] == closed;
    DefendedClosed(g.tricks, closed, w, Friend(g));
  }

  lemma PointsOnly(players: seq<Player>, s: int, points: seq<Card>)
    requires 0 <= s < |players|
    ensures var after := AddPoints(players, s, points);
            && |after| == |players| && IdList(after) == IdList(players) && (Seated(players) ==> Seated(after))
            && (forall u :: 0 <= u < |players| ==> after[u].id == players[u].id && after[u].hand == players[u].hand)
  {
    SameIds(players, AddPoints(players, s, points));
  }

  /** What looks at hands and played cards alone does not notice a recorded winner. */
  lemma CardsOnly(trump: Suit, players: seq<Player>, after: seq<Player>, declarer: int, d: int, tricks: seq<Trick>,
      closed: seq<Trick>, w: int)
    requires |after| == |players| && forall u :: 0 <= u < |players| ==> after[u].hand == players[u].hand
    requires Closes(tricks, closed, w)
    requires HandSizes(players, declarer, d, tricks) && LateHands(trump, players)
             && Placement(declarer, d, trump, tricks)
    ensures HandSizes(after, declarer, d, closed) && LateHands(trump, after) && Placement(declarer, d, trump, closed)
  {
    forall s | 0 <= s < |after| ensures LateHand(trump, after[s].hand) { LateAt(trump, players, s); }
    var t, t1 := tricks[|tricks| - 1], closed[|closed| - 1];
    assert forall s :: SeatIn(t1, s) == SeatIn(t, s);
  }

  lemma FriendOnlyHands(players: seq<Player>, after: seq<Player>, tricks: seq<Trick>, noFriend: bool,
      partner: Option<Card>)
    requires |players| == |after| && forall s :: 0 <= s < |players| ==> after[s].hand == players[s].hand
    ensures FriendSeat(players, tricks, noFriend, partner) == FriendSeat(after, tricks, noFriend, partner)
  {
    if partner.Some? { SameHandSeat(players, after, partner.value); }
  }

  lemma {:induction false} SameHandSeat(players: seq<Player>, after: seq<Player>, c: Card)
    requires |players| == |after| && forall s :: 0 <= s < |players| ==> after[s].hand == players[s].hand
    ensures HandSeat(players, c) == HandSeat(after, c)
  {
    if players != [] { SameHandSeat(players[..|players| - 1], after[..|players| - 1], c); }
  }

  lemma FriendCloses(g: GameState, discards: seq<Card>, after: seq<Player>, closed: seq<Trick>)
    requires |after| == |g.players| && forall s :: 0 <= s < |after| ==> after[s].hand == g.players[s].hand
    requires |closed| == |g.tricks| && forall j :: 0 <= j < |closed| ==> closed[j].cards == g.tricks[j].cards
    requires Conserved(g.N(), g.players, [], g.tricks, discards) && Conserved(g.N(), after, [], closed, discards)
    requires RotationLog(IdList(g.players), g.declarer, g.tricks)
    ensures FriendSeat(after, closed, g.noFriend, g.partnerCard) == Friend(g)
    ensures -1 <= Friend(g) < |g.players|
  {
    LogSeatsOf(IdList(g.players), g.declarer, g.tricks);
    assert LogSeats(|g.players|, closed);
    if !g.noFriend && g.partnerCard.Some? {
      SameLogSameOwners(g.players, after, g.tricks, closed, g.partnerCard.value);
      SameOwner(g.N(), g.players, g.tricks, discards, after, closed, g.partnerCard.value);
      LocateOwner(g.N(), g.players, [], g.tricks, discards, g.partnerCard.value);
    }
  }

  lemma FriendOpens(g: GameState, discards: seq<Card>)
    requires Conserved(g.N(), g.players, [], g.tricks, discards) && RotationLog(IdList(g.players), g.declarer, g.tricks)
    ensures FriendSeat(g.players, g.tricks + [NEWTRICK], g.noFriend, g.partnerCard) == Friend(g)
    ensures -1 <= Friend(g) < |g.players|
    ensures Conserved(g.N(), g.players, [], g.tricks + [NEWTRICK], discards)
  {
    hide Conserved, RotationLog, HandSeat, LogSeat;
    OpenConserves(g.N(), g.players, [], g.tricks, discards);
    IdCount(g.players);
    LogSeatsOf(IdList(g.players), g.declarer, g.tricks);
    var open := g.tricks + [NEWTRICK];
    assert LogSeats(|g.players|, open);
    if !g.noFriend && g.partnerCard.Some? {
      SameLogSameOwners(g.players, g.players, g.tricks, open, g.partnerCard.value);
      SameOwner(g.N(), g.players, g.tricks, discards, g.players, open, g.partnerCard.value);
      LocateOwner(g.N(), g.players, [], g.tricks, discards, g.partnerCard.value);
    }
  }

  lemma OpenKeeps(t: Table)
    requires BaseInv(t.g) && t.g.status.Playing? && |t.g.players| == t.g.N() && t.g.tricks != [] && |t.g.tricks| < 10
    requires RoundInv(t, |t.g.tricks|) && Conserved(t.g.N(), t.g.players, [], t.g.tricks, t.discards)
    requires Books(IdList(t.g.players), t.g.totals, t.g.history)
    requires t.g.turn == t.g.tricks[|t.g.tricks| - 1].winner && 0 <= t.g.turn < |t.g.players|
    ensures Inv(Table(t.g.(tricks := t.g.tricks + [NEWTRICK]), t.discards))
  {
    hide Conserved, Deck, Books, BidLog, RotationLog, LeadLog, WinnerLog, HandSizes, Placement, NoRevoke,
         RenouncersOut, LateHands, FriendSeat, Accounted, Seated, IdList, InRotation, LeadDeclared, RevealedRightly,
         Resolved;
    var g, ids, last := t.g, IdList(t.g.players), |t.g.tricks| - 1;
    var open := g.tricks + [NEWTRICK];
    IdAt(g.players, 0);
    FriendOpens(g, t.discards);
    LogOpenedKept(ids, g.declarer, g.trump, g.tricks);
    RevokeOpened(g.trump, g.players, g.tricks);
    FullAt(ids, g.declarer, g.trump, g.tricks, last);
    SizesOpened(ids, g.players, g.declarer, |t.discards|, g.tricks);
    assert g.tricks[..|g.tricks|] == g.tricks && open[..|g.tricks|] == g.tricks;
    PlacementOpened(g.declarer, |t.discards|, g.trump, g.tricks);
  }

  lemma FullAt(ids: seq<string>, declarer: int, trump: Suit, tricks: seq<Trick>, j: int)
    requires TrickLog(ids, declarer, trump, tricks, |tricks|) && 0 <= j < |tricks|
    ensures |tricks[j].cards| == |ids| && InRotation(ids, Leader(declarer, tricks, j), tricks[j])
  {
    WonAt(|ids|, trump, tricks, |tricks|, j);
  }

  lemma PlacementOpened(declarer: int, d: int, trump: Suit, tricks: seq<Trick>)
    requires Placement(declarer, d, trump, tricks)
    ensures Placement(declarer, d, trump, tricks + [NEWTRICK])
  {
  }

  lemma FinishKeeps(t: Table)
    requires BaseInv(t.g) && t.g.status.Playing? && |t.g.players| == t.g.N() && |t.g.tricks| == 10
    requires RoundInv(t, 10) && Conserved(t.g.N(), t.g.players, [], t.g.tricks, t.discards)
    requires Books(IdList(t.g.players), t.g.totals, t.g.history)
    ensures Inv(Table(FinishRound(t.g), t.discards))
  {
    hide Conserved, Deck, Books, BidLog, RotationLog, LeadLog, WinnerLog, HandSizes, Placement, NoRevoke,
         RenouncersOut, LateHands, FriendSeat, Accounted, IdList, RevealedRightly, ScoreLedger, RoundPayouts,
         AddLedger, Sum;
    var g := t.g;
    FriendOpens(g, t.discards);
    var round := ScoreLedger(g.players, RoundPayouts(g), g.declarer, Friend(g));
    RoundCancels(g);
    BooksKept(IdList(g.players), g.totals, g.history, round);
    PayoutsIgnorePhase(g, FinishRound(g));
  }

  lemma PayoutsIgnorePhase(g: GameState, g1: GameState)
    requires g1 == g.(status := g1.status, scores := g1.scores, totals := g1.totals, history := g1.history)
    ensures RoundPayouts(g1) == RoundPayouts(g) && Friend(g1) == Friend(g)
  {
  }

  lemma PlayKeeps(t: Table, id: string, p: int, card: Card, callJoker: bool, calledSuit: Suit)
    requires Indexable(t.g) && t.g.status.Playing? && p == t.g.turn && 0 <= p < |t.g.players| && t.g.players[p].id == id
    requires ValidatePlay(t.g, id, p, card, callJoker, calledSuit).Accept?
    requires Inv(t)
    ensures Inv(Table(ApplyPlay(t.g, id, p, card, callJoker, calledSuit), t.discards))
  {
    hide Conserved, Deck, Books, BidLog, RotationLog, LeadLog, WinnerLog, NoRevoke, RenouncersOut, FriendSeat,
         Accounted, RevealedRightly, HandSizes, LateHands, Placement, PlayVerdict, Seated, IdList, InRotation,
         LeadDeclared, Extend, FinishRound, SetHand, WinnerSeat, Reveals;
    InvParts(t);
    var g, last := t.g, |t.g.tricks| - 1;
    PlaceKeeps(t, id, p, card, callJoker, calledSuit);
    var t1 := Table(PlaceCard(g, id, p, card, callJoker, calledSuit), t.discards);
    if |t1.g.tricks[last].cards| == g.N() {
      CloseKeeps(t1, CloseTrick(t1.g));
      var t2 := Table(CloseTrick(t1.g), t.discards);
      if |t2.g.tricks| == 10 { FinishKeeps(t2); } else { OpenKeeps(t2); }
    } else {
      assert Leader(g.declarer, t1.g.tricks, last) == Leader(g.declarer, g.tricks, last);
      LogAt(IdList(g.players), g.declarer, g.trump, g.tricks, last);
      IdAt(g.players, p);
      TurnNotIn(IdList(g.players), Leader(g.declarer, g.tricks, last), g.tricks[last], p);
      TurnRotates(IdList(g.players), Leader(g.declarer, g.tricks, last), g.tricks[last]);
    }
  }

  // ----- between rounds

  lemma PlayAgainKeeps(t: Table, p: int, deck: seq<Card>)
    requires t.g.status.Finished? && 0 <= p < |t.g.players| <= t.g.N() && IsDeal(t.g.N(), deck)
    requires Inv(t)
    ensures var g1 := ApplyPlayAgain(t.g, p, deck); Inv(Table(g1, if g1.status.Bidding? then [] else t.discards))
  {
    hide Conserved, Deck, Books, BidLog, Accounted, HandSizes, TrickLog, Placement, NoRevoke, RenouncersOut,
         LateHands, RevealedRightly, FriendSeat, ScoreLedger, TeamPoints, Opponents, PayoutOf;
    InvParts(t);
    var g := t.g;
    var votes := g.votes + {p};
    PassedBound(g.N(), votes);
    if |votes| == g.config.numPlayers {
      var dealer := Rot(g.config.numPlayers, g.dealer, 1);
      var g1 := g.(votes := {}, tricks := [], bids := [], currentBid := None, contract := None, declarer := -1,
                   partnerCard := None, partnerSeat := -1, passed := {}, scores := map[], noFriend := false,
                   dealer := dealer, players := ClearPoints(g.players), status := Bidding);
      SameIds(g.players, ClearPoints(g.players));
      DealKeeps(g1, deck, dealer, dealer);
      assert NextRound(g.(votes := votes), deck) == Start(g1, deck).(turn := dealer);
    }
  }

  // ----- the step

  /** The discard pile after a move: set by the discard, gone with a new deal. */
  function NextDiscards(t: Table, id: string, m: Move, after: GameState): seq<Card> {
    if m.DiscardMove? then Take(HandOf(t.g.players, SeatOf(t.g.players, id)), m.cards)
    else if after.status.Bidding? then []
    else t.discards
  }

  function Moved(t: Table, id: string, m: Move, deck: seq<Card>): Table
    requires Indexable(t.g) && ValidateMove(t.g, id, m).Accept? && |t.g.players| <= t.g.N()
  {
    var after := Apply(t.g, id, m, deck);
    Table(after, NextDiscards(t, id, m, after))
  }

  /** A change of configuration that would change the number of seats. */
  predicate Resizes(g: GameState, m: Move) {
    m.ChangeConfigMove? && m.size.Some? && (m.size.value == 4 || m.size.value == 5)
        && m.size.value != g.config.numPlayers
  }

  ghost predicate MoveOk(t: Table, id: string, m: Move, deck: seq<Card>) {
    Indexable(t.g) && ValidateMove(t.g, id, m).Accept? && |t.g.players| <= t.g.N() && IsDeal(t.g.N(), deck)
        && !Resizes(t.g, m)
  }

  lemma Reversion(t: Table, version: int)
    requires Inv(t) && version >= 1
    ensures Inv(Table(t.g.(version := version), t.discards))
  {
    hide Conserved, Deck, Books, BidLog, Accounted, ScoreLedger, HandSizes, TenEach, Rotation, FriendSeat, TrickLog,
         Placement, NoRevoke, RenouncersOut, LateHands, RevealedRightly, TeamPoints, Opponents, PayoutOf, Seated;
    InvParts(t);
    var g, g1 := t.g, t.g.(version := version);
    if g.status.Bidding? {
      var opener :| Rotation(g.N(), opener, g.turn, g.declarer, g.passed, g.currentBid.Some?);
      assert Rotation(g1.N(), opener, g1.turn, g1.declarer, g1.passed, g1.currentBid.Some?);
    }
  }

  /** Which phase a move belongs to, and from which seat it comes. */
  predicate Fits(g: GameState, id: string, p: int, m: Move)
    requires Indexable(g) && 0 <= p < |g.players|
  {
    match m
    case BidMove(points, suit, noTrump) => g.status.Bidding? && p == g.turn
        && ValidateBid(g, id, points, suit, noTrump).Accept?
    case PassMove => g.status.Bidding? && p == g.turn
    case DiscardMove(cards) => g.status.Exchanging? && p == g.declarer && ValidateDiscard(g, id, p, cards).Accept?
    case CallPartnerMove(friend, alone) => g.status.Calling? && p == g.declarer
        && ValidateCall(g, id, friend, alone).Accept?
    case PlayCardMove(card, callJoker, calledSuit) =>
      g.status.Playing? && p == g.turn && ValidatePlay(g, id, p, card, callJoker, calledSuit).Accept?
    case PlayAgainMove => g.status.Finished?
    case ChangeConfigMove(_) => g.status.Finished?
  }

  /** An accepted move comes from the seat whose turn it is. */
  lemma AcceptedMove(g: GameState, id: string, m: Move)
    requires Indexable(g) && Seated(g.players) && ValidateMove(g, id, m).Accept?
    ensures var p := SeatOf(g.players, id); 0 <= p < |g.players| && g.players[p].id == id && Fits(g, id, p, m)
  {
    hide PlayVerdict;
    if g.status.Bidding? || g.status.Playing? { if g.players[g.turn].id == id { SameSeat(g.players, id, g.turn); } }
    if g.status.Exchanging? || g.status.Calling? {
      if g.players[g.declarer].id == id { SameSeat(g.players, id, g.declarer); }
    }
  }

  /** Every accepted move leads from a good table to a good table. */
  lemma MoveKeepsInv(t: Table, id: string, m: Move, deck: seq<Card>)
    requires Inv(t) && MoveOk(t, id, m, deck)
    ensures Inv(Moved(t, id, m, deck))
  {
    hide Conserved, Deck, Books, PhaseInv, Seated, ApplyBid, ApplyPass, ApplyDiscard, ApplyCall, ApplyPlay,
         ApplyPlayAgain, ApplyChangeConfig, Take, ValidateMove, ValidateBid, ValidateDiscard, ValidateCall,
         ValidatePlay, SeatOf, Perm, Resizes, Inv;
    var g, p, v := t.g, SeatOf(t.g.players, id), t.g.version + 1;
    BaseOf(t);
    AcceptedMove(g, id, m);
    match m
    case BidMove(points, suit, noTrump) =>
      BidKeeps(t, id, p, points, suit, noTrump);
      NoDiscardsYet(t);
      Reversion(Table(ApplyBid(g, id, p, points, suit, noTrump), []), v);
    case PassMove =>
      PassKeeps(t, id, p, deck);
      NoDiscardsYet(t);
      Reversion(Table(ApplyPass(g, id, p, deck), []), v);
    case DiscardMove(cards) =>
      DiscardKeeps(t, id, p, cards);
      Reversion(Table(ApplyDiscard(g, p, cards), Take(g.players[p].hand, cards)), v);
    case CallPartnerMove(friend, alone) =>
      CallKeeps(t, id, friend, alone);
      CallPhase(g, friend, alone);
      Reversion(Table(ApplyCall(g, friend, alone), t.discards), v);
    case PlayCardMove(card, callJoker, calledSuit) =>
      PlayKeeps(t, id, p, card, callJoker, calledSuit);
      PlayPhase(g, id, p, card, callJoker, calledSuit);
      Reversion(Table(ApplyPlay(g, id, p, card, callJoker, calledSuit), t.discards), v);
    case PlayAgainMove =>
      PlayAgainKeeps(t, p, deck);
      var g1 := ApplyPlayAgain(g, p, deck);
      Reversion(Table(g1, if g1.status.Bidding? then [] else t.discards), v);
    case ChangeConfigMove(size) =>
      ConfigKeeps(t, m);
      Reversion(Table(ApplyChangeConfig(g, size), t.discards), v);
  }

  lemma BaseOf(t: Table)
    requires Inv(t)
    ensures BaseInv(t.g) && Seated(t.g.players)
  {
    InvParts(t);
  }

  lemma NoDiscardsYet(t: Table)
    requires Inv(t) && t.g.status.Bidding?
    ensures t.discards == []
  {
    InvParts(t);
  }

  lemma CallPhase(g: GameState, friend: Option<Card>, alone: bool)
    ensures ApplyCall(g, friend, alone).status.Playing?
  {
  }

  lemma PlayPhase(g: GameState, id: string, p: int, card: Card, callJoker: bool, calledSuit: Suit)
    requires Indexable(g) && 0 <= p < |g.players| && ValidatePlay(g, id, p, card, callJoker, calledSuit).Accept?
    ensures g.tricks != [] && !ApplyPlay(g, id, p, card, callJoker, calledSuit).status.Bidding?
  {
  }

  lemma ConfigKeeps(t: Table, m: Move)
    requires Inv(t) && t.g.status.Finished? && m.ChangeConfigMove? && !Resizes(t.g, m)
    ensures Inv(Table(ApplyChangeConfig(t.g, m.size), t.discards)) && ApplyChangeConfig(t.g, m.size).status.Finished?
  {
    hide Conserved, Deck, Books, BidLog, Accounted, HandSizes, TrickLog, Placement, NoRevoke, RenouncersOut,
         LateHands, RevealedRightly, FriendSeat, ScoreLedger, TeamPoints, Opponents, PayoutOf, Seated;
    InvParts(t);
    var g1 := ApplyChangeConfig(t.g, m.size);
    assert g1 == t.g.(votes := g1.votes);
  }

  /** Changing the configuration keeps the invariant exactly when it keeps the number of seats. */
  lemma ResizeExact(t: Table, size: Option<int>)
    requires t.g.status.Finished?
    requires Inv(t)
    ensures Inv(Table(ApplyChangeConfig(t.g, size), t.discards)) <==> !Resizes(t.g, ChangeConfigMove(size))
  {
    InvParts(t);
    if Resizes(t.g, ChangeConfigMove(size)) {
      BaseOf(t);
      Unseated(t, size);
    } else {
      ConfigKeeps(t, ChangeConfigMove(size));
    }
  }

  lemma Unseated(t: Table, size: Option<int>)
    requires BaseInv(t.g) && t.g.status.Finished? && Resizes(t.g, ChangeConfigMove(size))
    ensures !Inv(Table(ApplyChangeConfig(t.g, size), t.discards))
  {
    hide PhaseInv, Conserved, Books;
    var t1 := Table(ApplyChangeConfig(t.g, size), t.discards);
    if Inv(t1) { InvParts(t1); }
  }

  /** An accepted move leads to a good table exactly when it does not change the number of seats. */
  lemma MoveExact(t: Table, id: string, m: Move, deck: seq<Card>)
    requires Indexable(t.g) && ValidateMove(t.g, id, m).Accept? && |t.g.players| <= t.g.N() && IsDeal(t.g.N(), deck)
    requires Inv(t)
    ensures Inv(Moved(t, id, m, deck)) <==> !Resizes(t.g, m)
  {
    hide Inv, ValidateMove, IsDeal, Resizes, Moved;
    if Resizes(t.g, m) { Resized(t, id, m, deck); } else { MoveKeepsInv(t, id, m, deck); }
  }

  lemma Resized(t: Table, id: string, m: Move, deck: seq<Card>)
    requires Indexable(t.g) && ValidateMove(t.g, id, m).Accept? && |t.g.players| <= t.g.N() && Resizes(t.g, m)
    requires Inv(t)
    ensures !Inv(Moved(t, id, m, deck))
  {
    hide Inv, ValidateMove, PhaseInv, Conserved, Books, Seated;
    BaseOf(t);
    AcceptedMove(t.g, id, m);
    var t1 := Moved(t, id, m, deck);
    if Inv(t1) { InvParts(t1); }
  }

  // ----- joining

  /** Joining, and rejoining, lead from a good table to a good table. */
  lemma JoinKeepsInv(t: Table, id: string, name: string, deck: seq<Card>)
    requires Inv(t) && CanJoin(t.g, id) && IsDeal(t.g.N(), deck)
    ensures Inv(Table(Join(t.g, id, name, deck), t.discards))
  {
    hide Inv, Perm, Start;
    var g := t.g;
    var p := SeatOf(g.players, id);
    BaseOf(t);
    if p >= 0 {
      RenameKeeps(t, p, name);
      Reversion(Table(g.(players := g.players[p := g.players[p].(name := name, connected := true)]), t.discards),
          g.version + 1);
    } else {
      SeatKeeps(t, id, name, deck);
    }
  }

  lemma SeatKeeps(t: Table, id: string, name: string, deck: seq<Card>)
    requires Inv(t) && SeatOf(t.g.players, id) < 0 && |t.g.players| < t.g.N() && IsDeal(t.g.N(), deck)
    ensures Inv(Table(Join(t.g, id, name, deck), t.discards))
  {
    hide Conserved, Deck, Books, BiddingInv, ExchangingInv, CallingInv, PlayingInv, FinishedInv, Start, Perm;
    InvParts(t);
    var g := t.g;
    var g1 := g.(players := g.players + [NewPlayer(id, name, |g.players|)], version := g.version + 1);
    assert Seated(g1.players);
    if |g1.players| == g.N() {
      EmptyBooks(IdList(g1.players));
      DealKeeps(g1.(status := Bidding), deck, 0, 0);
      StartTwice(g1, deck);
    }
  }

  lemma StartTwice(g: GameState, deck: seq<Card>)
    requires |g.players| <= g.N()
    ensures Start(g, deck) == Start(g.(status := Bidding), deck).(turn := 0)
  {
  }

  lemma RenameKeeps(t: Table, p: int, name: string)
    requires Inv(t) && 0 <= p < |t.g.players|
    ensures Inv(Table(t.g.(players := t.g.players[p := t.g.players[p].(name := name, connected := true)]), t.discards))
  {
    hide Conserved, Deck, Books, BidLog, Rotation, TrickLog, NoRevoke, Placement, FriendSeat, RevealedRightly,
         HandSizes, Accounted, RenouncersOut, LateHands, ScoreLedger, TeamPoints, Opponents, PayoutOf, TenEach,
         Seated, IdList;
    InvParts(t);
    var g := t.g;
    var after := g.players[p := g.players[p].(name := name, connected := true)];
    var g1 := g.(players := after);
    RenameSlices(g, after);
    if !g.status.Waiting? { RecordsConserve(g.N(), g.players, after, g.kitty, g.tricks, g.tricks, t.discards); }
    FriendOnlyHands(g.players, after, g.tricks, g.noFriend, g.partnerCard);
    if g.status.Bidding? {
      var opener :| Rotation(g.N(), opener, g.turn, g.declarer, g.passed, g.currentBid.Some?);
      assert Rotation(g1.N(), opener, g1.turn, g1.declarer, g1.passed, g1.currentBid.Some?);
    }
    if g.status.Finished? {
      RenameScores(g.players, after, RoundPayouts(g), g.declarer, Friend(g));
      RenameTeam(g.players, after, g.declarer, Friend(g));
    }
  }

  lemma RenameSlices(g: GameState, after: seq<Player>)
    requires |after| == |g.players|
    requires forall s :: 0 <= s < |after| ==>
               after[s] == g.players[s].(name := after[s].name, connected := after[s].connected)
    ensures IdList(after) == IdList(g.players) && (Seated(g.players) ==> Seated(after))
    ensures TenEach(g.players) ==> TenEach(after)
    ensures LateHands(g.trump, g.players) ==> LateHands(g.trump, after)
    ensures RenouncersOut(g.trump, g.players, g.tricks) ==> RenouncersOut(g.trump, after, g.tricks)
    ensures forall d :: HandSizes(g.players, g.declarer, d, g.tricks) ==> HandSizes(after, g.declarer, d, g.tricks)
    ensures forall d, won :: Accounted(g.players, g.declarer, d, won) ==> Accounted(after, g.declarer, d, won)
  {
    SameIds(g.players, after);
    assert forall s :: HandOf(after, s) == HandOf(g.players, s);
    if LateHands(g.trump, g.players) {
      forall s | 0 <= s < |after| ensures LateHand(g.trump, after[s].hand) { LateAt(g.trump, g.players, s); }
    }
  }

  lemma {:induction false} RenameScores(players: seq<Player>, after: seq<Player>, y: Payout, declarer: int, fs: int)
    requires |players| == |after| && forall i :: 0 <= i < |players| ==> after[i].id == players[i].id
    ensures ScoreLedger(after, y, declarer, fs) == ScoreLedger(players, y, declarer, fs)
  {
    if players != [] { RenameScores(players[..|players| - 1], after[..|players| - 1], y, declarer, fs); }
  }

  lemma {:induction false} RenameTeam(players: seq<Player>, after: seq<Player>, declarer: int, fs: int)
    requires |players| == |after| && forall i :: 0 <= i < |players| ==> after[i].points == players[i].points
    ensures TeamPoints(after, declarer, fs) == TeamPoints(players, declarer, fs)
  {
    if players != [] { RenameTeam(players[..|players| - 1], after[..|players| - 1], declarer, fs); }
  }
}
