/** Rounds in which the promises about points and the suit owed fail. */
module Shortfall {
  import opened Cards
  import opened Piles
  import opened Decks
  import opened Wrappers
  import opened State
  import opened Rules
  import opened Engine
  import opened Invariants
  import opened Play
  import opened Steps
  import opened Runs
  import opened Progress
  import opened Conservation
  import opened Points
  import opened Rounds
  import opened Outcomes
  import opened Finishing
  import opened LastTrick
  import opened Staging
  import opened Winner

  // ----- scoring cards that stay in hand

  /** If a declarer with surplus cards is left with nothing but scoring cards, every finish of the round counts
      fewer than twenty. */
  lemma AllPointsLeft(u: Run, i: nat, j: nat)
    requires Legal(u) && i <= j <= |u.ops| && OneRound(u, i, j) && u.tables[j].g.status.Finished?
    requires |u.tables[i].discards| < 3
    requires forall c :: c in HandOf(u.tables[i].g.players, u.tables[i].g.declarer) ==> c.IsPoint()
    ensures TotalPoints(u.tables[j].g.players) < 20
  {
    hide Inv, PointCards;
    var t := u.tables[j];
    RoundLeaves(u, i, j);
    ReachableInv(u, j);
    DeclarerSeat(t);
    HandsPlayedOut(t, t.g.declarer);
    AllTwentyAtFinish(u, j);
    var hand := t.g.players[t.g.declarer].hand;
    assert hand[0] in HandOf(t.g.players, t.g.declarer);
    PointsMember(hand, hand[0]);
  }

  lemma DeclarerSeat(t: Table)
    requires t.g.status.Finished? && Inv(t)
    ensures 0 <= t.g.declarer < |t.g.players|
  {
    FinishFacts(t);
  }

  ghost function ManyPoints(): seq<Card> {
    [Card(Clubs, Ace), Card(Clubs, King), Card(Clubs, Queen), Card(Clubs, Jack), Card(Clubs, Ten),
     Card(Diamonds, Ace), Card(Diamonds, King), Card(Diamonds, Queen), Card(Diamonds, Jack), Card(Diamonds, Ten)]
  }

  ghost function MorePoints(): seq<Card> { [Card(Hearts, Ace), Card(Hearts, King), Card(Hearts, Queen)] }

  ghost function OtherPoints(n: int): seq<Card> {
    if n == 4 then [Card(Spades, Ace), Card(Spades, King), Card(Spades, Queen)]
    else [Card(Spades, Ace), Card(Spades, King), Card(Spades, Queen), Card(Spades, Jack)]
  }

  lemma PointsStack(n: int)
    requires n == 4 || n == 5
    ensures Stackable(n, ManyPoints(), OtherPoints(n), MorePoints())
    ensures forall c :: c in ManyPoints() + MorePoints() ==> c.IsPoint()
  {
  }

  // ----- an exchange of one's choice

  /** The opener, who has just bought the contract, discards three cards of the hand. */
  lemma DiscardThree(r: Run, cards: seq<Card>) returns (u: Run)
    requires Legal(r) && r.tables[|r.ops|].g.status.Exchanging? && |cards| == 3
    requires forall c :: c in cards ==> c in HandOf(r.tables[|r.ops|].g.players, r.tables[|r.ops|].g.declarer)
    ensures Legal(u) && Continues(r, u) && |u.ops| == |r.ops| + 1
    ensures var t, t1 := r.tables[|r.ops|], u.tables[|u.ops|];
            && t1.g.status.Calling? && t1.g.declarer == t.g.declarer && |t1.discards| == |set c | c in cards|
            && t1.g.trump == t.g.trump && t1.g.config == t.g.config && |t1.g.players| == |t.g.players| == t.g.N()
            && HandOf(t1.g.players, t.g.declarer) == Keep(HandOf(t.g.players, t.g.declarer), cards)
            && |HandOf(t1.g.players, t.g.declarer)| == 13 - |t1.discards|
            && (forall s :: s != t.g.declarer ==> HandOf(t1.g.players, s) == HandOf(t.g.players, s))
  {
    hide Inv, ValidateMove, Resizes, Continues, Moved, OpOk, After;
    var t := r.tables[|r.ops|];
    ReachableInv(r, |r.ops|);
    InvIndexable(t);
    BaseOf(t);
    var who, deck := t.g.players[t.g.declarer].id, Deck(t.g.N());
    DiscardAllowed(t.g, cards);
    u := MoveOn(r, who, DiscardMove(cards));
    MoveOp1(t, who, DiscardMove(cards), deck);
    Exchange(t, who, cards, deck);
    ExchangeExact(r, |r.ops|, who, cards, deck);
  }

  lemma DiscardAllowed(g: GameState, cards: seq<Card>)
    requires Indexable(g) && g.status.Exchanging? && Seated(g.players) && |cards| == 3
    requires forall c :: c in cards ==> c in HandOf(g.players, g.declarer)
    ensures ValidateMove(g, g.players[g.declarer].id, DiscardMove(cards)).Accept? && !Resizes(g, DiscardMove(cards))
  {
    SeatOfPlayer(g.players, g.declarer);
    assert cards[0] in cards && cards[1] in cards && cards[2] in cards;
  }

  lemma MoveOp1(t: Table, who: string, m: Move, deck: seq<Card>)
    requires Indexable(t.g) && ValidateMove(t.g, who, m).Accept? && |t.g.players| <= t.g.N() && !Resizes(t.g, m)
             && deck == Deck(t.g.N())
    ensures OpOk(t, MoveOp(who, m, deck)) && After(t, MoveOp(who, m, deck)) == Moved(t, who, m, deck)
  {
    hide ValidateMove, Resizes, Moved;
    MoveIsOk(t, who, m, deck);
  }

  // ----- fewer than twenty points

  ghost predicate EndsWith(r: Run, id: string, cfg: Config, d: int) {
    Legal(r) && r.id == id && r.cfg == cfg && r.tables[|r.ops|].g.status.Finished? && |r.tables[|r.ops|].discards| == d
  }

  /** Dealt all the scoring cards of two suits and three more, a declarer who repeats a discard keeps some. */
  lemma ShortRound(id: string, cfg: Config, d: int) returns (u: Run)
    requires Playable(cfg) && (d == 1 || d == 2)
    ensures EndsWith(u, id, cfg, d) && TotalPoints(u.tables[|u.ops|].g.players) < 20
  {
    hide Inv, Stackable, Continues, ManyPoints, MorePoints, OtherPoints;
    var n := cfg.Seats();
    PointsStack(n);
    var hand, kitty := ManyPoints(), MorePoints();
    var r := BuyContract(id, cfg, Spades, hand, OtherPoints(n), kitty);
    var g := r.tables[|r.ops|].g;
    assert HandOf(g.players, 0) == hand + kitty;
    PointsApart();
    var cards := Repeated(hand + kitty, 0, 1, d);
    var v := DiscardThree(r, cards);
    var t := v.tables[|v.ops|];
    u := FinishDeal(v);
    Prefixed(v, u);
    RoundLeaves(u, |v.ops|, |u.ops|);
    AllPointsLeft(u, |v.ops|, |u.ops|);
    Prefixed(r, v);
  }

  lemma PointsApart()
    ensures |ManyPoints()| == 10 && ManyPoints()[0] != ManyPoints()[1]
  {
  }

  lemma Prefixed(v: Run, u: Run)
    requires Continues(v, u)
    ensures u.id == v.id && u.cfg == v.cfg && |v.ops| <= |u.ops|
    ensures Legal(v) && Legal(u) ==> u.tables[|v.ops|] == v.tables[|v.ops|]
  {
  }

  /** All rounds that end with d different discards count twenty points exactly when d is three. */
  lemma TwentyExactly(id: string, cfg: Config, d: int)
    requires Playable(cfg) && 1 <= d <= 3
    ensures (forall r :: EndsWith(r, id, cfg, d) ==> TotalPoints(r.tables[|r.ops|].g.players) == 20) <==> d == 3
  {
    if d == 3 {
      forall r | EndsWith(r, id, cfg, d) ensures TotalPoints(r.tables[|r.ops|].g.players)
             == 20 { AllTwentyAtFinish(r, |r.ops|); }
    } else {
      var u := ShortRound(id, cfg, d);
    }
  }

  // ----- specials in the last trick

  ghost predicate RoundWith(r: Run, id: string, cfg: Config, d: int) {
    Legal(r) && r.id == id && r.cfg == cfg && InRound(r.tables[|r.ops|].g.status) && |r.tables[|r.ops|].discards| == d
  }

  predicate MightyInLast(g: GameState) {
    |g.tricks| == 10 && exists i :: 0 <= i < |g.tricks[9].cards| && IsMighty(g.trump, g.tricks[9].cards[i].card)
  }

  /** The declarer discards, repeating a card, goes alone and saves a special for the last trick. */
  lemma SaveFrom(r: Run, cards: seq<Card>, keep: Card, x: Card) returns (u: Run)
    requires Legal(r) && r.tables[|r.ops|].g.status.Exchanging? && |cards| == 3 && |set c | c in cards| < 3
    requires forall c :: c in cards ==> c in HandOf(r.tables[|r.ops|].g.players, r.tables[|r.ops|].g.declarer)
    requires var g := r.tables[|r.ops|].g; Savable(g.trump, Keep(HandOf(g.players, g.declarer), cards), keep, x)
    ensures RoundWith(u, r.id, r.cfg, |set c | c in cards|)
    ensures InLast(u.tables[|u.ops|].g, keep) && u.tables[|u.ops|].g.trump == r.tables[|r.ops|].g.trump
  {
    hide Inv, Savable, InLast, Continues, OneRound, Keep;
    var v := DiscardThree(r, cards);
    u := CallAndSave(v, keep, x);
    Prefixed(r, v);
    Prefixed(v, u);
    RoundLeaves(u, |v.ops|, |u.ops|);
    ReachableInv(u, |u.ops|);
    LastTricks(u.tables[|u.ops|].g, keep);
    LastStatus(u, |v.ops|, |u.ops|);
    CallingHasNoTricks(u.tables[|u.ops|]);
  }

  lemma LastTricks(g: GameState, c: Card)
    requires InLast(g, c)
    ensures |g.tricks| == 10
  {
  }

  lemma LastStatus(u: Run, i: int, j: int)
    requires OneRound(u, i, j)
    ensures Discarded(u.tables[j].g.status)
  {
  }

  ghost function JokerHand(): seq<Card> {
    [JOKER, Card(Clubs, King), Card(Clubs, Queen), Card(Clubs, Jack), Card(Clubs, Ten),
     Card(Diamonds, Ace), Card(Diamonds, King), Card(Diamonds, Queen), Card(Diamonds, Jack), Card(Diamonds, Ten)]
  }

  lemma JokerStack(n: int)
    requires n == 4 || n == 5
    ensures Stackable(n, JokerHand(), OtherPoints(n), MorePoints())
  {
  }

  /** A legal run, with one or two different discards, in which the Joker is played in trick 10. */
  lemma JokerReached(id: string, cfg: Config, d: int) returns (u: Run)
    requires Playable(cfg) && (d == 1 || d == 2)
    ensures RoundWith(u, id, cfg, d) && InLast(u.tables[|u.ops|].g, JOKER)
  {
    hide Inv, Stackable, MorePoints, OtherPoints, JokerHand, InLast, RoundWith;
    var n := cfg.Seats();
    JokerStack(n);
    var hand := JokerHand() + MorePoints();
    var r := BuyContract(id, cfg, Spades, JokerHand(), OtherPoints(n), MorePoints());
    assert HandOf(r.tables[|r.ops|].g.players, 0) == hand;
    JokersApart();
    var cards := Repeated(hand, 1, 2, d);
    JokerCards(hand, cards);
    u := SaveFrom(r, cards, JOKER, JOKER);
  }

  /** One card three times, or one twice and another once. */
  lemma Repeated(hand: seq<Card>, i: nat, j: nat, d: int) returns (cards: seq<Card>)
    requires i < |hand| && j < |hand| && hand[i] != hand[j] && (d == 1 || d == 2)
    ensures |cards| == 3 && |set c | c in cards| == d
    ensures forall c :: c in cards ==> c in hand && (c == hand[i] || c == hand[j])
    ensures hand[i] in cards
  {
    cards := if d == 1 then [hand[i], hand[i], hand[i]] else [hand[i], hand[i], hand[j]];
    assert (set c | c in cards) == if d == 1 then {hand[i]} else {hand[i], hand[j]};
    assert cards[0] == hand[i];
  }

  lemma JokersApart()
    ensures |JokerHand()| == 10 && JokerHand()[1] != JokerHand()[2]
  {
  }

  lemma JokerCards(hand: seq<Card>, cards: seq<Card>)
    requires hand == JokerHand() + MorePoints() && forall c :: c in cards ==> c == hand[1] || c == hand[2]
    ensures Savable(Spades, Keep(hand, cards), JOKER, JOKER)
  {
    assert hand[0] == JOKER && hand[1] != JOKER && hand[2] != JOKER;
  }

  ghost function Spades10(): seq<Card> {
    [Card(Spades, Ace), Card(Spades, King), Card(Spades, Queen), Card(Spades, Jack), Card(Spades, Ten),
     Card(Spades, Nine), Card(Spades, Eight), Card(Spades, Seven), Card(Spades, Six), Card(Spades, Five)]
  }

  ghost function SpadeKitty(n: int): seq<Card> {
    if n == 4 then [Card(Spades, Three), Card(Clubs, King), Card(Clubs, Queen)]
    else [Card(Spades, Three), Card(Spades, Four), Card(Spades, Two)]
  }

  lemma SpadeStack(n: int)
    requires n == 4 || n == 5
    ensures Stackable(n, Spades10(), LowFirsts(n), SpadeKitty(n))
  {
  }

  lemma SpadeCards(n: int, hand: seq<Card>, cards: seq<Card>)
    requires hand == Spades10() + SpadeKitty(n) && hand[11] in cards
    requires forall c :: c in cards ==> c == hand[11] || c == hand[12]
    ensures Savable(Hearts, Keep(hand, cards), Card(Spades, Ace), hand[12])
  {
    hide Keep;
    assert hand[0] == Card(Spades, Ace) && hand[11] != hand[0] && hand[12] != hand[0];
    var kept := Keep(hand, cards);
    forall c | c in kept ensures c.suit == Spades || c == hand[12] {
      var i :| 0 <= i < |hand| && hand[i] == c;
    }
    KeepIsPart(hand, cards);
  }

  lemma KeepIsPart(hand: seq<Card>, cards: seq<Card>)
    ensures forall c :: c in Keep(hand, cards) <==> c in hand && c !in cards
  {
  }

  /** A legal run, with one or two different discards, in which the Mighty is played in trick 10. */
  lemma MightyReached(id: string, cfg: Config, d: int) returns (u: Run)
    requires Playable(cfg) && (d == 1 || d == 2)
    ensures RoundWith(u, id, cfg, d) && MightyInLast(u.tables[|u.ops|].g)
  {
    hide Inv, Stackable, Spades10, SpadeKitty, LowFirsts, RoundWith;
    var n := cfg.Seats();
    SpadeStack(n);
    var hand := Spades10() + SpadeKitty(n);
    var r := BuyContract(id, cfg, Hearts, Spades10(), LowFirsts(n), SpadeKitty(n));
    assert HandOf(r.tables[|r.ops|].g.players, 0) == hand;
    SpadesApart(n);
    var cards := Repeated(hand, 11, 12, d);
    SpadeCards(n, hand, cards);
    u := SaveFrom(r, cards, Card(Spades, Ace), hand[12]);
  }

  lemma SpadesApart(n: int)
    ensures |Spades10()| == 10 && |SpadeKitty(n)| == 3 && SpadeKitty(n)[1] != SpadeKitty(n)[2]
  {
  }

  /** All rounds with d different discards keep the Mighty, and the Joker, out of trick 10 exactly when d is three. */
  lemma SpecialsExactly(id: string, cfg: Config, d: int)
    requires Playable(cfg) && 1 <= d <= 3
    ensures (forall r :: RoundWith(r, id, cfg, d) ==> !MightyInLast(r.tables[|r.ops|].g)) <==> d == 3
    ensures (forall r :: RoundWith(r, id, cfg, d) ==> !InLast(r.tables[|r.ops|].g, JOKER)) <==> d == 3
  {
    if d == 3 {
      forall r | RoundWith(r, id, cfg, d)
        ensures !MightyInLast(r.tables[|r.ops|].g) && !InLast(r.tables[|r.ops|].g, JOKER)
      {
        NoSpecialLast(r);
      }
    } else {
      var u := MightyReached(id, cfg, d);
      var v := JokerReached(id, cfg, d);
    }
  }

  lemma NoSpecialLast(r: Run)
    requires Legal(r) && InRound(r.tables[|r.ops|].g.status) && |r.tables[|r.ops|].discards| == 3
    ensures !SpecialInLast(r.tables[|r.ops|].g)
    ensures !MightyInLast(r.tables[|r.ops|].g) && !InLast(r.tables[|r.ops|].g, JOKER)
  {
    var g := r.tables[|r.ops|].g;
    if |g.tricks| == 10 {
      forall i | 0 <= i < |g.tricks[9].cards| ensures !IsSpecial(g.trump, g.tricks[9].cards[i].card) {
        SpecialsPlaced(r, |r.ops|, 9, i);
      }
    }
  }

  // ----- a low lead

  ghost function Clubs10(): seq<Card> {
    [Card(Clubs, Three), Card(Clubs, Ace), Card(Clubs, King), Card(Clubs, Queen), Card(Clubs, Jack),
     Card(Clubs, Ten), Card(Clubs, Nine), Card(Clubs, Eight), Card(Clubs, Seven), Card(Clubs, Six)]
  }

  ghost function ClubKitty(n: int): seq<Card> {
    if n == 4 then [Card(Clubs, Five), Card(Spades, King), Card(Spades, Queen)]
    else [Card(Clubs, Five), Card(Clubs, Four), Card(Clubs, Two)]
  }

  ghost function LowFirsts(n: int): seq<Card> {
    if n == 4 then [Card(Diamonds, Ace), Card(Diamonds, King), Card(Diamonds, Queen)]
    else [Card(Diamonds, Ace), Card(Diamonds, King), Card(Diamonds, Queen), Card(Diamonds, Jack)]
  }

  lemma ClubStack(n: int)
    requires n == 4 || n == 5
    ensures Stackable(n, Clubs10(), LowFirsts(n), ClubKitty(n))
  {
  }

  lemma AllClubs(n: int)
    requires n == 4 || n == 5
    ensures forall c :: InDeck(n, c) && c.suit == Clubs ==> c in Clubs10() + ClubKitty(n)
  {
    hide Clubs10, ClubKitty;
    forall c | InDeck(n, c) && c.suit == Clubs ensures c in Clubs10() + ClubKitty(n) { ClubListed(n, c.rank); }
  }

  lemma ClubListed(n: int, r: Rank)
    requires (n == 4 || n == 5) && InDeck(n, Card(Clubs, r))
    ensures Card(Clubs, r) in Clubs10() + ClubKitty(n)
  {
    var all := Clubs10() + ClubKitty(n);
    assert all[0] == Card(Clubs, Three) && all[1] == Card(Clubs, Ace) && all[2] == Card(Clubs, King)
           && all[3] == Card(Clubs, Queen);
    assert all[4] == Card(Clubs, Jack) && all[5] == Card(Clubs, Ten) && all[6] == Card(Clubs, Nine)
           && all[7] == Card(Clubs, Eight);
    assert all[8] == Card(Clubs, Seven) && all[9] == Card(Clubs, Six) && all[10] == Card(Clubs, Five);
    assert n == 5 ==> all[11] == Card(Clubs, Four) && all[12] == Card(Clubs, Two);
  }

  /** The low trick after k cards: every later seat holds its card of it, and no club but the opener's. */
  ghost predicate LowState(t: Table, n: int, k: int) {
    && (n == 4 || n == 5) && 0 <= k < n && t.g.status.Playing? && t.g.N() == n == |t.g.players| && t.g.trump == Hearts
    && t.g.declarer == 0 && t.g.turn == k && |t.g.tricks| == 1 && |t.discards| == 3 && LowCards(t.g.tricks[0], k)
    && forall s :: k <= s < n ==> LowHand(t.g.players[s].hand, s)
  }

  ghost predicate LowCards(t: Trick, k: int) {
    && |t.cards| == k <= 5 && !t.jokerCalled && (k > 0 ==> t.leadSuit == Clubs)
    && forall i :: 0 <= i < k ==> t.cards[i].card == LOWLEAD[i] && t.cards[i].seat == i
  }

  ghost predicate LowHand(hand: seq<Card>, s: int) {
    0 <= s < 5 && LOWLEAD[s] in hand && (s > 0 ==> !HasSuit(hand, Clubs))
  }

  ghost predicate LowDone(g: GameState, n: int) {
    g.trump == Hearts && |g.tricks| == 2 && LowTrick(n, g.tricks[0]) && g.tricks[0].winner == 1
  }

  lemma LowAllowed(k: int, t: Trick, hand: seq<Card>)
    requires LowCards(t, k) && LowHand(hand, k) && |hand| == 10
    ensures PlayVerdict(Hearts, 1, t, hand, LOWLEAD[k], false, Blank).Accept?
  {
    assert !IsSpecial(Hearts, LOWLEAD[k]) && LOWLEAD[k].suit != Hearts;
  }

  lemma LowPlayed(t: Table, n: int, k: int, id: string)
    requires LowState(t, n, k)
    ensures var g1 := ApplyPlay(t.g, id, k, LOWLEAD[k], false, Blank).(version := t.g.version + 1);
            !g1.status.Bidding? && if k + 1 < n then LowState(Table(g1, t.discards), n, k + 1) else LowDone(g1, n)
  {
    hide FriendSeat, PointCards, Reveals, Keep, HasSuit, WinnerSeat;
    var g1 := PlaceCard(t.g, id, k, LOWLEAD[k], false, Blank);
    var tr := g1.tricks[0];
    LowExtends(t.g.trump, t.g.tricks[0], id, k);
    if k + 1 == n { LowLeadLoses(n, tr); }
  }

  lemma LowExtends(trump: Suit, t: Trick, id: string, k: int)
    requires LowCards(t, k) && 0 <= k < 5
    ensures LowCards(Extend(trump, t, Played(id, k, LOWLEAD[k]), false, Blank), k + 1)
  {
  }

  lemma {:induction false} PlayLow(r: Run, n: int, k: int) returns (u: Run)
    requires Legal(r) && LowState(r.tables[|r.ops|], n, k)
    ensures Legal(u) && Continues(r, u) && LowDone(u.tables[|u.ops|].g, n)
    decreases n - k
  {
    hide Inv, Continues, ValidateMove, Resizes, Moved, MoveOk, LowHand, LowCards, PlayVerdict, ApplyPlay, LowDone,
         LowState, Deck;
    var t := r.tables[|r.ops|];
    LowFacts(t, n, k);
    ReachableInv(r, |r.ops|);
    InvIndexable(t);
    BaseOf(t);
    HandCount(r, |r.ops|, k);
    NotYetIn(t.g.tricks[0], k);
    LowAllowed(k, t.g.tricks[0], t.g.players[k].hand);
    var who, m := t.g.players[k].id, PlayCardMove(LOWLEAD[k], false, Blank);
    AcceptOnTurn(t.g, m);
    PlaysNeverResize(t.g, m);
    var v := MoveOn(r, who, m);
    MoveIsOk(t, who, m, Deck(n));
    MovedPlay(t, who, m, Deck(n));
    SeatOfPlayer(t.g.players, k);
    LowPlayed(t, n, k, who);
    if k + 1 < n { u := PlayLow(v, n, k + 1); } else { u := v; }
    GoesOn(r, v, u);
  }

  lemma LowFacts(t: Table, n: int, k: int)
    requires LowState(t, n, k)
    ensures 0 <= k < n == t.g.N() && t.g.status.Playing? && |t.g.players| == n && t.g.trump == Hearts
            && t.g.declarer == 0
    ensures t.g.turn == k && |t.g.tricks| == 1 && |t.discards| == 3 && LowCards(t.g.tricks[0], k)
            && LowHand(t.g.players[k].hand, k)
    ensures InDeal(t.g.status)
  {
  }

  lemma NotYetIn(t: Trick, k: int)
    requires LowCards(t, k)
    ensures !SeatIn(t, k)
  {
  }

  lemma PlaysNeverResize(g: GameState, m: Move)
    requires m.PlayCardMove?
    ensures !Resizes(g, m)
  {
  }

  /** A legal run with a complete trick in which the only card of the suit owed loses to an off-suit ace. */
  lemma LowLeadReached(id: string, cfg: Config) returns (u: Run)
    requires Playable(cfg)
    ensures Legal(u) && u.id == id && u.cfg == cfg
    ensures var g := u.tables[|u.ops|].g;
            && g.trump == Hearts && |g.tricks| == 2 && LowTrick(cfg.Seats(), g.tricks[0])
            && HighestOf(g.tricks[0].leadSuit, g.tricks[0], 0) && g.tricks[0].cards[0].seat == 0
               && g.tricks[0].winner == 1
  {
    hide Inv, Stackable, Continues, ClubKitty, LowFirsts, Clubs10, LowState;
    var n := cfg.Seats();
    ClubStack(n);
    var hand, kitty := Clubs10(), ClubKitty(n);
    var r := BuyContract(id, cfg, Hearts, hand, LowFirsts(n), kitty);
    var cards := HighClubs(hand, kitty);
    assert HandOf(r.tables[|r.ops|].g.players, 0) == hand + kitty;
    var v := DiscardThree(r, cards);
    var w := CallAlone(v);
    ReachableInv(r, |r.ops|);
    InTheDeck(r.tables[|r.ops|]);
    LowStarts(r.tables[|r.ops|], v.tables[|v.ops|], w.tables[|w.ops|], n, cards);
    u := PlayLow(w, n, 0);
    LowLeadLoses(n, u.tables[|u.ops|].g.tricks[0]);
    Prefixed(r, v);
    Prefixed(v, w);
    Prefixed(w, u);
  }

  lemma HighClubs(hand: seq<Card>, kitty: seq<Card>) returns (cards: seq<Card>)
    requires hand == Clubs10()
    ensures cards == [Card(Clubs, Ace), Card(Clubs, King), Card(Clubs, Queen)] && |set c | c in cards| == 3
    ensures forall c :: c in cards ==> c in hand + kitty
  {
    cards := [Card(Clubs, Ace), Card(Clubs, King), Card(Clubs, Queen)];
    assert hand[1] == cards[0] && hand[2] == cards[1] && hand[3] == cards[2];
    assert (set c | c in cards) == {cards[0], cards[1], cards[2]};
  }

  lemma ThreeHeld()
    ensures Card(Clubs, Three) in Clubs10()
  {
    assert Clubs10()[0] == Card(Clubs, Three);
  }

  lemma NoClubs(n: int, hand: seq<Card>)
    requires forall c :: InDeck(n, c) && c.suit == Clubs ==> c in Clubs10() + ClubKitty(n)
    requires forall c :: c in hand ==> InDeck(n, c) && c !in Clubs10() && c !in ClubKitty(n)
    ensures !HasSuit(hand, Clubs)
  {
    hide InDeck, Clubs10, ClubKitty;
  }

  lemma InTheDeck(t: Table)
    requires t.g.status.Exchanging? && Inv(t)
    ensures forall s, c :: 0 <= s < |t.g.players| && c in t.g.players[s].hand ==> InDeck(t.g.N(), c)
  {
    hide Conserved, Books, PhaseInv, InDeck;
    InvParts(t);
    forall s, c | 0 <= s < |t.g.players| && c in t.g.players[s].hand ensures InDeck(t.g.N(), c) {
      OneHolder(t.g.N(), t.g.players, t.g.kitty, t.g.tricks, t.discards, s, c);
    }
  }

  lemma LowStarts(t: Table, t1: Table, t2: Table, n: int, cards: seq<Card>)
    requires (n == 4 || n == 5) && Bought(t.g, n, Hearts, Clubs10(), LowFirsts(n), ClubKitty(n)) && |t1.discards| == 3
    requires cards == [Card(Clubs, Ace), Card(Clubs, King), Card(Clubs, Queen)]
    requires t1.g.trump == t.g.trump && t1.g.config == t.g.config && |t1.g.players| == |t.g.players|
             && t1.g.declarer == t.g.declarer
    requires HandOf(t1.g.players, 0) == Keep(HandOf(t.g.players, 0), cards)
    requires forall s :: s != 0 ==> HandOf(t1.g.players, s) == HandOf(t.g.players, s)
    requires t1.g.tricks == [] && t2.g == ApplyCall(t1.g, None, true).(version := t1.g.version + 1)
             && t2.discards == t1.discards
    requires forall s, c :: 0 <= s < n && c in t.g.players[s].hand ==> InDeck(n, c)
    ensures LowState(t2, n, 0)
  {
    hide Clubs10, ClubKitty, Keep, InDeck;
    AllClubs(n);
    ThreeHeld();
    forall s | 0 <= s < n ensures LowHand(t2.g.players[s].hand, s) {
      assert t2.g.players[s].hand == HandOf(t1.g.players, s);
      if s > 0 {
        assert t.g.players[s].hand[0] == LOWLEAD[s];
        NoClubs(n, t.g.players[s].hand);
      }
    }
  }
}
