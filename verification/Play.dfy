/** One card of trick play, slice by slice: what putting it on the table keeps. */
module Play {
  import opened Cards
  import opened Piles
  import opened Decks
  import opened State
  import opened Rules
  import opened Engine
  import opened Invariants

  lemma SeatOfPlayer(players: seq<Player>, s: int)
    requires Seated(players) && 0 <= s < |players|
    ensures SeatOf(players, players[s].id) == s
  {
  }

  lemma RotOnto(n: int, leader: int, s: int)
    requires 0 <= leader < n && 0 <= s < n
    ensures 0 <= Offset(n, leader, s) < n && Rot(n, leader, Offset(n, leader, s)) == s
    ensures forall i :: 0 <= i < n && Rot(n, leader, i) == s ==> i == Offset(n, leader, s)
  {
  }

  /** A seat is in a trick exactly when its turn of the rotation has come. */
  lemma SeatInRotation(ids: seq<string>, leader: int, t: Trick, s: int)
    requires InRotation(ids, leader, t) && 0 <= s < |ids|
    ensures SeatIn(t, s) <==> Offset(|ids|, leader, s) < |t.cards|
  {
    RotOnto(|ids|, leader, s);
    var d := Offset(|ids|, leader, s);
    if d < |t.cards| { assert t.cards[d].seat == s; }
  }

  /** `t1` is the trick `t` after one more card. */
  ghost predicate Extends(t: Trick, play: Played, t1: Trick) {
    && t1.cards == t.cards + [play] && t1.winner == t.winner
    && (t.cards != [] ==> t1.leadSuit == t.leadSuit && t1.jokerCalled == t.jokerCalled)
  }

  ghost predicate FromDeck(n: int, hand: seq<Card>) { NoDup(hand) && forall c :: c in hand ==> InDeck(n, c) }

  lemma DeckCard(n: int, c: Card)
    requires InDeck(n, c)
    ensures c.rank == Joker <==> c == JOKER
    ensures c.rank != Joker ==> c.suit.Real()
  {
  }

  // ----- the log

  /** An accepted first card fixes a real suit to follow, and calls the joker only where it may. */
  lemma LeadKept(n: int, trump: Suit, k: int, t: Trick, hand: seq<Card>, play: Played, callJoker: bool,
      calledSuit: Suit)
    requires PlayVerdict(trump, k, t, hand, play.card, callJoker, calledSuit).Accept? && InDeck(n, play.card)
    requires LeadDeclared(trump, k, t)
    ensures LeadDeclared(trump, k, Extend(trump, t, play, callJoker, calledSuit))
    ensures Extends(t, play, Extend(trump, t, play, callJoker, calledSuit))
  {
    DeckCard(n, play.card);
  }

  lemma LeadLogKept(trump: Suit, tricks: seq<Trick>, t1: Trick)
    requires tricks != [] && LeadLog(trump, tricks) && LeadDeclared(trump, |tricks|, t1)
    ensures LeadLog(trump, tricks[|tricks| - 1 := t1])
  {
  }

  lemma WinnerLogKept(n: int, trump: Suit, tricks: seq<Trick>, t1: Trick)
    requires tricks != [] && WinnerLog(n, trump, tricks, |tricks| - 1)
    ensures WinnerLog(n, trump, tricks[|tricks| - 1 := t1], |tricks| - 1)
  {
  }

  lemma RotationLogKept(ids: seq<string>, declarer: int, tricks: seq<Trick>, play: Played, t1: Trick)
    requires tricks != [] && RotationLog(ids, declarer, tricks)
    requires var last := |tricks| - 1;
             && |tricks[last].cards| < |ids| && Extends(tricks[last], play, t1)
             && play.seat == Rot(|ids|, Leader(declarer, tricks, last), |tricks[last].cards|)
             && 0 <= play.seat < |ids| && play.playerID == ids[play.seat]
    ensures RotationLog(ids, declarer, tricks[|tricks| - 1 := t1])
  {
    var last := |tricks| - 1;
    var log := tricks[last := t1];
    assert InRotation(ids, Leader(declarer, tricks, last), tricks[last]);
    RotationKept(ids, Leader(declarer, tricks, last), tricks[last], play, t1);
    forall j | 0 <= j < |log| ensures InRotation(ids, Leader(declarer, log, j), log[j]) {
      assert Leader(declarer, log, j) == Leader(declarer, tricks, j);
      if j < last { assert InRotation(ids, Leader(declarer, tricks, j), tricks[j]); }
    }
  }

  lemma RotationKept(ids: seq<string>, leader: int, t: Trick, play: Played, t1: Trick)
    requires InRotation(ids, leader, t) && Extends(t, play, t1) && |t.cards| < |ids|
    requires play.seat == Rot(|ids|, leader, |t.cards|) && 0 <= play.seat < |ids| && play.playerID == ids[play.seat]
    ensures InRotation(ids, leader, t1)
  {
    forall i | 0 <= i < |t1.cards|
      ensures t1.cards[i].seat == Rot(|ids|, leader, i) && t1.cards[i].playerID == ids[t1.cards[i].seat]
    {
      if i < |t.cards| { assert t1.cards[i] == t.cards[i]; }
    }
  }

  // ----- hands

  lemma SizesKept(players: seq<Player>, declarer: int, d: int, tricks: seq<Trick>, play: Played, t1: Trick)
    requires tricks != [] && HandSizes(players, declarer, d, tricks) && 0 <= play.seat < |players|
    requires NoDup(players[play.seat].hand) && play.card in players[play.seat].hand
    requires Extends(tricks[|tricks| - 1], play, t1) && !SeatIn(tricks[|tricks| - 1], play.seat)
    ensures HandSizes(SetHand(players, play.seat, Keep(players[play.seat].hand, [play.card])), declarer, d,
            tricks[|tricks| - 1 := t1])
  {
    var last := |tricks| - 1;
    var t := tricks[last];
    TakeOne(players[play.seat].hand, play.card);
    forall u ensures SeatIn(t1, u) <==> (SeatIn(t, u) || u == play.seat) {
      assert t1.cards[|t.cards|] == play;
      if SeatIn(t, u) {
        var i :| 0 <= i < |t.cards| && t.cards[i].seat == u;
        assert t1.cards[i].seat == u;
      }
    }
  }

  lemma LateKept(n: int, trump: Suit, players: seq<Player>, s: int, k: int, t: Trick, card: Card, callJoker: bool,
      calledSuit: Suit)
    requires 0 <= s < |players| && LateHands(trump, players) && FromDeck(n, players[s].hand)
    requires PlayVerdict(trump, k, t, players[s].hand, card, callJoker, calledSuit).Accept?
    ensures LateHands(trump, SetHand(players, s, Keep(players[s].hand, [card])))
  {
    assert LateHand(trump, players[s].hand);
    LateHandKept(n, trump, players[s].hand, card);
  }

  /** After a play that the late-game rules accept, one card left is no special, and two are not both. */
  lemma LateHandKept(n: int, trump: Suit, hand: seq<Card>, card: Card)
    requires FromDeck(n, hand) && card in hand && LateHand(trump, hand)
    requires |hand| == 3 && HasMighty(trump, hand) && HasJoker(hand) ==> IsSpecial(trump, card)
    requires |hand| == 2 && (HasMighty(trump, hand) || HasJoker(hand)) ==> IsSpecial(trump, card)
    ensures LateHand(trump, Keep(hand, [card]))
  {
    var kept := Keep(hand, [card]);
    TakeOne(hand, card);
    HasBack(trump, hand, kept);
    if |hand| == 3 || |hand| == 2 {
      if HasMighty(trump, kept) {
        var i :| 0 <= i < |kept| && IsMighty(trump, kept[i]);
        assert kept[i] in kept;
        assert !IsMighty(trump, card);
      }
      if HasJoker(kept) {
        var i :| 0 <= i < |kept| && kept[i].rank == Joker;
        assert kept[i] in kept && InDeck(n, kept[i]) && InDeck(n, card);
        assert card.rank != Joker;
      }
    }
  }

  lemma HasBack(trump: Suit, hand: seq<Card>, kept: seq<Card>)
    requires forall c :: c in kept ==> c in hand
    ensures HasMighty(trump, kept) ==> HasMighty(trump, hand)
    ensures HasJoker(kept) ==> HasJoker(hand)
    ensures forall s :: HasSuit(kept, s) ==> HasSuit(hand, s)
  {
    if HasMighty(trump, kept) {
      var i :| 0 <= i < |kept| && IsMighty(trump, kept[i]);
      assert kept[i] in kept;
      var k :| 0 <= k < |hand| && hand[k] == kept[i];
    }
    if HasJoker(kept) {
      var i :| 0 <= i < |kept| && kept[i].rank == Joker;
      assert kept[i] in kept;
      var k :| 0 <= k < |hand| && hand[k] == kept[i];
    }
    forall s | HasSuit(kept, s) ensures HasSuit(hand, s) {
      var i :| 0 <= i < |kept| && kept[i].suit == s;
      assert kept[i] in kept;
      var k :| 0 <= k < |hand| && hand[k] == kept[i];
    }
  }

  lemma PlacementKept(trump: Suit, declarer: int, d: int, tricks: seq<Trick>, hand: seq<Card>, play: Played, t1: Trick,
                      callJoker: bool, calledSuit: Suit)
    requires tricks != [] && Placement(declarer, d, trump, tricks) && d <= 3
    requires PlayVerdict(trump, |tricks|, tricks[|tricks| - 1], hand, play.card, callJoker, calledSuit).Accept?
    requires Extends(tricks[|tricks| - 1], play, t1) && LateHand(trump, hand)
    requires |hand| == (if play.seat == declarer then 13 - d else 10) - (|tricks| - 1)
    ensures Placement(declarer, d, trump, tricks[|tricks| - 1 := t1])
  {
    var k :| 0 <= k < |hand| && hand[k] == play.card;
    if |tricks| == 10 && IsSpecial(trump, play.card) {
      assert HasMighty(trump, hand) || HasJoker(hand);
    }
  }

  // ----- following suit

  /** What acceptance says about a card that does not follow. */
  lemma RenounceMeansOut(trump: Suit, k: int, t: Trick, hand: seq<Card>, card: Card, callJoker: bool, calledSuit: Suit)
    requires PlayVerdict(trump, k, t, hand, card, callJoker, calledSuit).Accept?
    requires t.cards != [] && card.suit != t.leadSuit && !IsSpecial(trump, card)
    ensures !HasSuit(hand, t.leadSuit)
  {
  }

  ghost predicate Out(trump: Suit, t: Trick, hand: seq<Card>, card: Card) {
    t.cards != [] && card.suit != t.leadSuit && !IsSpecial(trump, card) ==> !HasSuit(hand, t.leadSuit)
  }

  lemma RenouncersKept(trump: Suit, players: seq<Player>, tricks: seq<Trick>, play: Played, t1: Trick)
    requires tricks != [] && 0 <= play.seat < |players| && RenouncersOut(trump, players, tricks)
    requires Extends(tricks[|tricks| - 1], play, t1)
    requires Out(trump, tricks[|tricks| - 1], players[play.seat].hand, play.card)
    ensures RenouncersOut(trump, SetHand(players, play.seat, Keep(players[play.seat].hand, [play.card])),
            tricks[|tricks| - 1 := t1])
  {
    var last := |tricks| - 1;
    var hand, log := players[play.seat].hand, tricks[last := t1];
    HasBack(trump, hand, Keep(hand, [play.card]));
    forall j, i | 0 <= j < |log| && Renounces(trump, log[j], i)
      ensures !HasSuit(HandOf(players, log[j].cards[i].seat), log[j].leadSuit)
    {
      if j < last || i < |tricks[last].cards| { assert Renounces(trump, tricks[j], i); }
    }
  }

  lemma RevokeKept(trump: Suit, players: seq<Player>, tricks: seq<Trick>, play: Played, t1: Trick)
    requires tricks != [] && 0 <= play.seat < |players| && RenouncersOut(trump, players, tricks)
             && NoRevoke(trump, tricks)
    requires Extends(tricks[|tricks| - 1], play, t1) && play.card in players[play.seat].hand
    ensures NoRevoke(trump, tricks[|tricks| - 1 := t1])
  {
    var last := |tricks| - 1;
    var hand, log := players[play.seat].hand, tricks[last := t1];
    var at :| 0 <= at < |hand| && hand[at] == play.card;
    forall j, i | 0 <= j < |log| && Renounces(trump, log[j], i)
      ensures NoneLater(log, j, log[j].cards[i].seat, log[j].leadSuit)
    {
      if j < last {
        assert Renounces(trump, tricks[j], i);
        var who, suit := tricks[j].cards[i].seat, tricks[j].leadSuit;
        assert NoneLater(tricks, j, who, suit) && !HasSuit(HandOf(players, who), suit);
        forall m, k | 0 <= j < m < |log| && 0 <= k < |log[m].cards| && log[m].cards[k].seat == who
          ensures log[m].cards[k].card.suit != suit
        {
          if m < last || k < |tricks[last].cards| { assert tricks[m].cards[k] == log[m].cards[k]; }
        }
      }
    }
  }
}
