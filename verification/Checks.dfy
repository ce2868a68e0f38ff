/** The checks on a card, by loops over the hand (internal/game/rules.go). */
module Checks {
  import opened Cards
  import opened State
  import opened Rules

  /** The hand holds this very card. */
  method HoldsCard(hand: seq<Card>, c: Card) returns (held: bool)
    ensures held == (c in hand)
  {
    held := false;
    var i := 0;
    while i < |hand| && !held
      invariant 0 <= i <= |hand|
      invariant held <==> exists j :: 0 <= j < i && hand[j] == c
    {
      held := hand[i] == c;
      i := i + 1;
    }
  }

  /** The hand holds the Joker. */
  method HoldsJoker(hand: seq<Card>) returns (held: bool)
    ensures held == HasJoker(hand)
  {
    held := false;
    var i := 0;
    while i < |hand| && !held
      invariant 0 <= i <= |hand|
      invariant held <==> exists j :: 0 <= j < i && hand[j].rank == Joker
    {
      held := hand[i].rank == Joker;
      i := i + 1;
    }
  }

  /** The hand holds a card of the suit. */
  method HoldsSuit(hand: seq<Card>, suit: Suit) returns (held: bool)
    ensures held == HasSuit(hand, suit)
  {
    held := false;
    var i := 0;
    while i < |hand| && !held
      invariant 0 <= i <= |hand|
      invariant held <==> exists j :: 0 <= j < i && hand[j].suit == suit
    {
      held := hand[i].suit == suit;
      i := i + 1;
    }
  }

  /** The hand holds the Mighty. */
  method HoldsMighty(trump: Suit, hand: seq<Card>) returns (held: bool)
    ensures held == HasMighty(trump, hand)
  {
    held := false;
    var i := 0;
    while i < |hand| && !held
      invariant 0 <= i <= |hand|
      invariant held <==> exists j :: 0 <= j < i && IsMighty(trump, hand[j])
    {
      held := IsMighty(trump, hand[i]);
      i := i + 1;
    }
  }

  /** The hand holds a card that is neither trump nor a special. */
  method HoldsOrdinary(trump: Suit, hand: seq<Card>) returns (held: bool)
    ensures held == HasOrdinary(trump, hand)
  {
    held := false;
    var i := 0;
    while i < |hand| && !held
      invariant 0 <= i <= |hand|
      invariant held <==> exists j :: 0 <= j < i && hand[j].suit != trump && !IsSpecial(trump, hand[j])
    {
      held := hand[i].suit != trump && !IsSpecial(trump, hand[i]);
      i := i + 1;
    }
  }

  method CountSuit(hand: seq<Card>, suit: Suit) returns (count: int)
    ensures count == SuitCount(hand, suit)
  {
    count := 0;
    for i := 0 to |hand|
      invariant count == SuitCount(hand[..i], suit)
    {
      assert hand[..i + 1][..i] == hand[..i];
      if hand[i].suit == suit { count := count + 1; }
    }
    assert hand[..|hand|] == hand;
  }

  /** The late-game rules, then a called joker, then leading or following. */
  method CheckCard(trump: Suit, k: int, t: Trick, hand: seq<Card>, card: Card, callJoker: bool, calledSuit: Suit)
    returns (v: Verdict)
    ensures v == PlayVerdict(trump, k, t, hand, card, callJoker, calledSuit)
  {
    hide LeadVerdict, FollowVerdict, HasMighty, HasJoker, IsSpecial;
    var held := HoldsCard(hand, card);
    if !held { return Reject(NotHeld); }
    var mighty := HoldsMighty(trump, hand);
    var joker := HoldsJoker(hand);
    var special := IsSpecial(trump, card);
    if |hand| == 3 && mighty && joker && !special { return Reject(MustPlaySpecial); }
    if |hand| == 2 && (mighty || joker) && !special { return Reject(MustPlaySpecial); }
    if t.jokerCalled && joker && !special { return Reject(JokerWasCalled); }
    if t.cards == [] {
      v := CheckLead(trump, k, hand, card, callJoker, calledSuit);
    } else {
      v := CheckFollow(trump, k, t, hand, card, calledSuit);
    }
  }

  method CheckLead(trump: Suit, k: int, hand: seq<Card>, card: Card, callJoker: bool, calledSuit: Suit)
    returns (v: Verdict)
    ensures v == LeadVerdict(trump, k, hand, card, callJoker, calledSuit)
  {
    hide HasOrdinary, IsMighty, IsJokerCaller;
    if k == 1 {
      if IsSpecial(trump, card) { return Reject(BadFirstTrick); }
      if card.suit == trump {
        var ordinary := HoldsOrdinary(trump, hand);
        if ordinary { return Reject(BadFirstTrick); }
      }
    }
    if card.rank == Joker {
      if !calledSuit.Real() { return Reject(BadCalledSuit); }
    } else if calledSuit != Blank {
      return Reject(BadCalledSuit);
    }
    if callJoker && (!IsJokerCaller(trump, card) || k == 1 || k == 10) { return Reject(BadJokerCall); }
    v := Accept;
  }

  method CheckFollow(trump: Suit, k: int, t: Trick, hand: seq<Card>, card: Card, calledSuit: Suit) returns (v: Verdict)
    ensures v == FollowVerdict(trump, k, t, hand, card, calledSuit)
  {
    hide SuitCount, HasSuit, IsMighty;
    if calledSuit != Blank { return Reject(BadCalledSuit); }
    if k == 1 && card.rank == Joker { return Reject(BadFirstTrick); }
    if k == 1 && IsMighty(trump, card) {
      var owed := CountSuit(hand, t.leadSuit);
      if t.leadSuit != card.suit || owed > 1 { return Reject(BadFirstTrick); }
    }
    if card.suit != t.leadSuit && !IsSpecial(trump, card) {
      var holds := HoldsSuit(hand, t.leadSuit);
      if holds { return Reject(MustFollow); }
    }
    v := Accept;
  }
}
