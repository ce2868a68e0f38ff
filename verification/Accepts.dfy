/** Exactly which moves are accepted, in terms of the cards, the bids and the hands of a reachable table. */
module Accepts {
  import opened Cards
  import opened Wrappers
  import opened State
  import opened Rules
  import opened Invariants
  import opened Play
  import opened Steps
  import opened Runs
  import opened Rounds
  import Progress
  import opened Story

  ghost predicate OnTurn(g: GameState, id: string) { 0 <= g.turn < |g.players| && g.players[g.turn].id == id }

  ghost predicate IsDeclarer(g: GameState, id: string) { 0 <= g.declarer < |g.players|
      && g.players[g.declarer].id == id }

  ghost predicate IsSeated(g: GameState, id: string) { exists i :: 0 <= i < |g.players| && g.players[i].id == id }

  // ----- the cards

  /** The Ace of Spades, or the Ace of Diamonds when Spades is trump. */
  function Mighty(trump: Suit): Card { Card(if trump == Spades then Diamonds else Spades, Ace) }

  predicate Special(trump: Suit, c: Card) { c == Mighty(trump) || c == JOKER }

  /** Whether a hand may play this card to trick k. */
  ghost predicate MayPlay(trump: Suit, k: int, t: Trick, hand: seq<Card>, card: Card, callJoker: bool, called: Suit) {
    && card in hand
    && (|hand| == 3 && Mighty(trump) in hand && JOKER in hand ==> Special(trump, card))
    && (|hand| == 2 && (Mighty(trump) in hand || JOKER in hand) ==> Special(trump, card))
    && (t.jokerCalled && JOKER in hand ==> Special(trump, card))
    && (if t.cards == [] then MayLead(trump, k, hand, card, callJoker, called)
       else MayFollow(trump, k, t.leadSuit, hand, card, called))
  }

  ghost predicate MayLead(trump: Suit, k: int, hand: seq<Card>, card: Card, callJoker: bool, called: Suit) {
    && (k == 1 ==> !Special(trump, card) && (card.suit == trump ==> forall c :: c in hand ==>
       c.suit == trump || Special(trump, c)))
    && (if card == JOKER then called in {Spades, Diamonds, Hearts, Clubs} else called == Blank)
    && (callJoker ==> JokerCaller(trump, card) && k != 1 && k != 10)
  }

  ghost predicate MayFollow(trump: Suit, k: int, owed: Suit, hand: seq<Card>, card: Card, called: Suit) {
    && called == Blank
    && (k == 1 ==> card != JOKER && (card == Mighty(trump) ==>
       card.suit == owed && forall c :: c in hand && c.suit == owed ==> c == card))
    && (card.suit == owed || Special(trump, card) || forall c :: c in hand ==> c.suit != owed)
  }

  lemma SpecialCards(n: int, trump: Suit, hand: seq<Card>)
    requires FromDeck(n, hand)
    ensures forall c :: c in hand ==> (IsSpecial(trump, c) <==> Special(trump, c)) && (c.rank == Joker <==> c == JOKER)
    ensures forall c :: IsMighty(trump, c) <==> c == Mighty(trump)
    ensures forall c :: IsJokerCaller(trump, c) <==> JokerCaller(trump, c)
    ensures HasMighty(trump, hand) <==> Mighty(trump) in hand
    ensures HasJoker(hand) <==> JOKER in hand
    ensures HasOrdinary(trump, hand) <==> exists c :: c in hand && c.suit != trump && !Special(trump, c)
  {
    forall c | c in hand ensures c.rank == Joker <==> c == JOKER { DeckCard(n, c); }
    if HasOrdinary(trump, hand) {
      var i :| 0 <= i < |hand| && hand[i].suit != trump && !IsSpecial(trump, hand[i]);
      assert hand[i] in hand;
    }
    if HasJoker(hand) {
      var i :| 0 <= i < |hand| && hand[i].rank == Joker;
      assert hand[i] in hand;
    }
  }

  lemma {:induction false} SuitCountMore(hand: seq<Card>, suit: Suit, i: int)
    requires 0 <= i < |hand| && hand[i].suit == suit
    ensures SuitCount(hand, suit) >= 1
    ensures (exists j :: 0 <= j < |hand| && j != i && hand[j].suit == suit) ==> SuitCount(hand, suit) >= 2
  {
    var last := |hand| - 1;
    if i < last {
      SuitCountMore(hand[..last], suit, i);
    } else if j :| 0 <= j < last && hand[j].suit == suit {
      SuitCountMore(hand[..last], suit, j);
    }
  }

  lemma OnlyOne(n: int, hand: seq<Card>, card: Card)
    requires FromDeck(n, hand) && card in hand
    ensures SuitCount(hand, card.suit) <= 1 <==> forall c :: c in hand && c.suit == card.suit ==> c == card
  {
    var i :| 0 <= i < |hand| && hand[i] == card;
    SuitCountMore(hand, card.suit, i);
    if forall c :: c in hand && c.suit == card.suit ==> c == card {
      forall j | 0 <= j < |hand| && hand[j].suit == card.suit ensures hand[j] == card { assert hand[j] in hand; }
      Progress.SuitCountOne(hand, card.suit, card);
    }
  }

  lemma LeadExactly(n: int, trump: Suit, k: int, hand: seq<Card>, card: Card, callJoker: bool, called: Suit)
    requires FromDeck(n, hand) && card in hand
    ensures LeadVerdict(trump, k, hand, card, callJoker, called).Accept? <==>
            MayLead(trump, k, hand, card, callJoker, called)
  {
    hide FromDeck, IsSpecial, Special, IsMighty, IsJokerCaller, HasMighty, HasJoker, HasOrdinary, JokerCaller, Mighty;
    SpecialCards(n, trump, hand);
  }

  lemma FollowExactly(n: int, trump: Suit, k: int, t: Trick, hand: seq<Card>, card: Card, called: Suit)
    requires FromDeck(n, hand) && card in hand
    ensures FollowVerdict(trump, k, t, hand, card, called).Accept? <==>
            MayFollow(trump, k, t.leadSuit, hand, card, called)
  {
    hide FromDeck, IsSpecial, Special, IsMighty, IsJokerCaller, HasMighty, HasJoker, HasOrdinary, SuitCount, Mighty;
    SpecialCards(n, trump, hand);
    OnlyOne(n, hand, card);
  }

  lemma VerdictExactly(n: int, trump: Suit, k: int, t: Trick, hand: seq<Card>, card: Card, callJoker: bool,
      called: Suit)
    requires FromDeck(n, hand)
    ensures PlayVerdict(trump, k, t, hand, card, callJoker, called).Accept?
            <==> MayPlay(trump, k, t, hand, card, callJoker, called)
  {
    hide FromDeck, IsSpecial, IsMighty, IsJokerCaller, HasMighty, HasJoker, LeadVerdict, FollowVerdict, MayLead,
         MayFollow, Mighty, Special;
    SpecialCards(n, trump, hand);
    if card in hand {
      LeadExactly(n, trump, k, hand, card, callJoker, called);
      FollowExactly(n, trump, k, t, hand, card, called);
    }
  }

  lemma TurnHand(t: Table)
    requires t.g.status.Playing? && Inv(t)
    ensures Indexable(t.g) && t.g.tricks != [] && Seated(t.g.players) && FromDeck(t.g.N(), t.g.players[t.g.turn].hand)
  {
    hide Inv, Seated, FromDeck, RoundInv, Conserved;
    InvIndexable(t);
    RoundOf(t);
    HandFromDeck(t.g.N(), t.g.players, t.g.tricks, t.discards, t.g.turn);
  }

  /** A card is accepted exactly from the player on turn and as the rules of the cards allow. */
  lemma CardsAccepted(r: Run, at: nat, id: string, card: Card, callJoker: bool, called: Suit)
    requires Legal(r) && at <= |r.ops| && r.tables[at].g.status.Playing?
    ensures var g := r.tables[at].g;
            && Indexable(g) && g.tricks != []
            && (ValidateMove(g, id, PlayCardMove(card, callJoker, called)).Accept? <==>
                  OnTurn(g, id) && MayPlay(g.trump, |g.tricks|, g.tricks[|g.tricks| - 1], g.players[g.turn].hand, card,
                      callJoker, called))
  {
    hide Inv, PlayVerdict, MayPlay, Seated, FromDeck;
    var t := r.tables[at];
    var g := t.g;
    ReachableInv(r, at);
    TurnHand(t);
    if OnTurn(g, id) { SameSeat(g.players, id, g.turn); }
    VerdictExactly(g.N(), g.trump, |g.tricks|, g.tricks[|g.tricks| - 1], g.players[g.turn].hand, card, callJoker,
        called);
  }

  // ----- the other moves

  /** A bid is accepted exactly from the player on turn, from the least bid up to ten, in a suit or in none, if it is
      above every bid of the auction. */
  lemma BidsAccepted(r: Run, at: nat, id: string, points: int, suit: Suit, noTrump: bool)
    requires Legal(r) && at <= |r.ops|
    ensures var g := r.tables[at].g;
            && Indexable(g)
            && (ValidateMove(g, id, BidMove(points, suit, noTrump)).Accept? <==>
                  && g.status.Bidding? && OnTurn(g, id) && (if |g.players| == 4 then 4 else 3) <= points <= 10
                  && (if noTrump then suit == NoSuit else suit in {Spades, Diamonds, Hearts, Clubs})
                  && forall i :: 0 <= i < |g.bids| ==> g.bids[i].points < points)
  {
    hide Inv, Seated, Conserved, Books, Rotating, Accounted, TenEach;
    var t := r.tables[at];
    var g := t.g;
    ReachableInv(r, at);
    InvIndexable(t);
    InvParts(t);
    if g.status.Bidding? { SameSeat(g.players, g.players[g.turn].id, g.turn); }
  }

  lemma PassesAccepted(r: Run, at: nat, id: string)
    requires Legal(r) && at <= |r.ops|
    ensures var g := r.tables[at].g;
            && Indexable(g)
            && (ValidateMove(g, id, PassMove).Accept? <==> g.status.Bidding? && OnTurn(g, id))
  {
    hide Inv, Seated, Conserved, Books, PhaseInv;
    var t := r.tables[at];
    ReachableInv(r, at);
    InvIndexable(t);
    InvParts(t);
  }

  /** Any three cards that the declarer holds may be named, even the same one twice. */
  lemma DiscardsAccepted(r: Run, at: nat, id: string, cards: seq<Card>)
    requires Legal(r) && at <= |r.ops|
    ensures var g := r.tables[at].g;
            && Indexable(g)
            && (ValidateMove(g, id, DiscardMove(cards)).Accept? <==>
                  && g.status.Exchanging? && IsDeclarer(g, id) && |cards| == 3
                  && forall c :: c in cards ==> c in g.players[g.declarer].hand)
  {
    hide Inv, Seated, Conserved, Books, PhaseInv;
    var t := r.tables[at];
    ReachableInv(r, at);
    InvIndexable(t);
    InvParts(t);
    if IsDeclarer(t.g, id) { SameSeat(t.g.players, id, t.g.declarer); }
    assert |cards| == 3 ==> cards[0] in cards && cards[1] in cards && cards[2] in cards;
  }

  /** The declarer calls nobody, a card of the pack by name, or the Joker, which four players may have excluded. */
  lemma CallsAccepted(r: Run, at: nat, id: string, friend: Option<Card>, alone: bool)
    requires Legal(r) && at <= |r.ops|
    ensures var g := r.tables[at].g;
            && Indexable(g)
            && (ValidateMove(g, id, CallPartnerMove(friend, alone)).Accept? <==>
                  && g.status.Calling? && IsDeclarer(g, id) && (alone <==> friend.None?)
                  && (friend.Some? ==>
                        || (friend == Some(JOKER) && (|g.players| == 5 || g.config.allowJokerPartner))
                        || (friend.value.suit in {Spades, Diamonds, Hearts, Clubs}
                           && friend.value.rank !in {Joker, OtherRank})))
  {
    hide Inv, Seated, Conserved, Books, PhaseInv;
    var t := r.tables[at];
    ReachableInv(r, at);
    InvIndexable(t);
    InvParts(t);
  }

  /** Votes and configurations are accepted exactly from the players of a finished round. */
  lemma FinishedAccepted(r: Run, at: nat, id: string, m: Move)
    requires Legal(r) && at <= |r.ops| && (m.PlayAgainMove? || m.ChangeConfigMove?)
    ensures var g := r.tables[at].g;
            Indexable(g) && (ValidateMove(g, id, m).Accept? <==> g.status.Finished? && IsSeated(g, id))
  {
    hide Inv;
    var t := r.tables[at];
    ReachableInv(r, at);
    InvIndexable(t);
  }

  /** No card is accepted in another phase. */
  lemma OnlyWhilePlaying(r: Run, at: nat, id: string, card: Card, callJoker: bool, called: Suit)
    requires Legal(r) && at <= |r.ops| && !r.tables[at].g.status.Playing?
    ensures Indexable(r.tables[at].g) && ValidateMove(r.tables[at].g, id, PlayCardMove(card, callJoker, called)).Reject?
  {
    hide Inv;
    ReachableInv(r, at);
    InvIndexable(r.tables[at]);
  }
}
