/** Who wins a trick: the running maximum over card power, told as the rules of the game tell it
    (ResolveTrick and CalculatePower in internal/game/rules.go). */
module Winner {
  import opened Cards
  import opened State
  import opened Rules
  import opened Decks

  /** The running maximum finds the first card of greatest power. */
  lemma {:induction false} BestIsGreatest(trump: Suit, k: int, t: Trick, m: nat)
    requires 0 < m <= |t.cards|
    ensures var b := BestIndex(trump, k, t, m);
            && (forall i :: 0 <= i < m ==> Power(trump, k, t, t.cards[i].card) <= Power(trump, k, t, t.cards[b].card))
            && (forall i :: 0 <= i < b ==> Power(trump, k, t, t.cards[i].card) < Power(trump, k, t, t.cards[b].card))
  {
    hide Power;
    if m > 1 { BestIsGreatest(trump, k, t, m - 1); }
  }

  predicate OfDeck(n: int, t: Trick) {
    && (forall i :: 0 <= i < |t.cards| ==> InDeck(n, t.cards[i].card))
    && (forall i, j :: 0 <= i < j < |t.cards| ==> t.cards[i].card != t.cards[j].card)
  }

  /** The Joker has its power: not in the first or last trick, not called, and no Mighty about. */
  predicate LiveJoker(trump: Suit, k: int, t: Trick) {
    && k != 1 && k != 10 && !t.jokerCalled && !MightyIn(trump, t)
    && exists i :: 0 <= i < |t.cards| && t.cards[i].card.rank == Joker
  }

  predicate Trumps(trump: Suit, c: Card) { c.suit == trump && c.rank != Joker }

  predicate TrumpIn(trump: Suit, t: Trick) { exists i :: 0 <= i < |t.cards| && Trumps(trump, t.cards[i].card) }

  predicate HighestOf(suit: Suit, t: Trick, w: int) {
    && 0 <= w < |t.cards| && t.cards[w].card.suit == suit && t.cards[w].card.rank != Joker
    && forall i :: 0 <= i < |t.cards| && t.cards[i].card.suit == suit && t.cards[i].card.rank != Joker ==>
         t.cards[i].card.rank.Value() <= t.cards[w].card.rank.Value()
  }

  /** Some card of the suit owed is not overtaken by an off-suit card: ten more than its rank beats every
      off-suit rank, or ties with one played later. */
  ghost predicate LeadHolds(t: Trick) { exists i :: LeadHoldsAt(t, i) }

  predicate LeadHoldsAt(t: Trick, i: int) {
    && 0 <= i < |t.cards| && t.cards[i].card.suit == t.leadSuit && t.cards[i].card.rank != Joker
    && forall j :: 0 <= j < |t.cards| && t.cards[j].card.suit != t.leadSuit && t.cards[j].card.rank != Joker ==>
         var mine, theirs := 10 + t.cards[i].card.rank.Value(), t.cards[j].card.rank.Value();
         theirs < mine || (theirs == mine && i < j)
  }

  /** The highest card off the suit owed, and the earliest of equals. */
  predicate HighestOff(t: Trick, w: int) {
    && 0 <= w < |t.cards| && t.cards[w].card.suit != t.leadSuit && t.cards[w].card.rank != Joker
    && forall i :: 0 <= i < |t.cards| && t.cards[i].card.suit != t.leadSuit && t.cards[i].card.rank != Joker ==>
         t.cards[i].card.rank.Value() < t.cards[w].card.rank.Value()
         || (t.cards[i].card.rank.Value() == t.cards[w].card.rank.Value() && w <= i)
  }

  ghost predicate Wins(trump: Suit, k: int, t: Trick, w: int) {
    0 <= w < |t.cards| && w == BestIndex(trump, k, t, |t.cards|)
  }

  lemma MightyTier(trump: Suit, k: int, t: Trick, w: int)
    requires Wins(trump, k, t, w) && MightyIn(trump, t)
    ensures IsMighty(trump, t.cards[w].card)
  {
    BestIsGreatest(trump, k, t, |t.cards|);
    var i :| 0 <= i < |t.cards| && IsMighty(trump, t.cards[i].card);
    assert Power(trump, k, t, t.cards[i].card) == 1000;
  }

  lemma JokerTier(trump: Suit, k: int, t: Trick, w: int)
    requires Wins(trump, k, t, w) && LiveJoker(trump, k, t)
    ensures t.cards[w].card.rank == Joker
  {
    BestIsGreatest(trump, k, t, |t.cards|);
    var i :| 0 <= i < |t.cards| && t.cards[i].card.rank == Joker;
    assert Power(trump, k, t, t.cards[i].card) == 500;
    assert !IsMighty(trump, t.cards[w].card);
  }

  lemma PowerBelowTrump(trump: Suit, k: int, t: Trick, i: int)
    requires !MightyIn(trump, t) && !LiveJoker(trump, k, t) && 0 <= i < |t.cards|
    ensures var c := t.cards[i].card;
            Power(trump, k, t, c) == if Trumps(trump, c) then 100 + c.rank.Value() else PlainPower(t, c)
    ensures PlainPower(t, t.cards[i].card) <= 24
  {
    assert !IsMighty(trump, t.cards[i].card);
  }

  lemma TrumpTier(trump: Suit, k: int, t: Trick, w: int)
    requires Wins(trump, k, t, w) && !MightyIn(trump, t) && !LiveJoker(trump, k, t) && TrumpIn(trump, t)
    ensures HighestOf(trump, t, w)
  {
    hide Power, PlainPower;
    BestIsGreatest(trump, k, t, |t.cards|);
    var i :| 0 <= i < |t.cards| && Trumps(trump, t.cards[i].card);
    PowerBelowTrump(trump, k, t, i);
    PowerBelowTrump(trump, k, t, w);
    forall j | 0 <= j < |t.cards| && Trumps(trump, t.cards[j].card)
      ensures t.cards[j].card.rank.Value() <= t.cards[w].card.rank.Value()
    {
      PowerBelowTrump(trump, k, t, j);
    }
  }

  /** The Mighty wins; else a live Joker; else the highest trump. */
  lemma UpperTiers(trump: Suit, k: int, t: Trick, w: int)
    requires Wins(trump, k, t, w)
    ensures MightyIn(trump, t) ==> IsMighty(trump, t.cards[w].card)
    ensures LiveJoker(trump, k, t) ==> t.cards[w].card.rank == Joker
    ensures !MightyIn(trump, t) && !LiveJoker(trump, k, t) && TrumpIn(trump, t) ==> HighestOf(trump, t, w)
  {
    hide BestIndex, Power, IsMighty, HighestOf;
    if MightyIn(trump, t) { MightyTier(trump, k, t, w); }
    else if LiveJoker(trump, k, t) { JokerTier(trump, k, t, w); }
    else if TrumpIn(trump, t) { TrumpTier(trump, k, t, w); }
  }

  ghost predicate PlainTrick(trump: Suit, k: int, t: Trick) {
    !MightyIn(trump, t) && !LiveJoker(trump, k, t) && !TrumpIn(trump, t)
  }

  /** With neither, the highest card of the suit owed wins exactly when no off-suit card overtakes it. */
  lemma LeadTier(n: int, trump: Suit, k: int, t: Trick, w: int)
    requires OfDeck(n, t) && Wins(trump, k, t, w) && PlainTrick(trump, k, t) && t.leadSuit.Real()
    ensures t.cards[w].card.suit == t.leadSuit <==> LeadHolds(t)
    ensures LeadHolds(t) ==> HighestOf(t.leadSuit, t, w)
    ensures !LeadHolds(t) && |t.cards| > 1 ==> HighestOff(t, w)
  {
    hide Power, BestIndex;
    BestIsGreatest(trump, k, t, |t.cards|);
    forall i | 0 <= i < |t.cards| ensures Power(trump, k, t, t.cards[i].card) == PlainPower(t, t.cards[i].card) {
      PowerBelowTrump(trump, k, t, i);
    }
    assert InDeck(n, t.cards[w].card);
    if t.cards[w].card.suit == t.leadSuit {
      forall j | 0 <= j < |t.cards| && t.cards[j].card.suit != t.leadSuit && t.cards[j].card.rank != Joker
        ensures var mine, theirs := 10 + t.cards[w].card.rank.Value(), t.cards[j].card.rank.Value();
                theirs < mine || (theirs == mine && w < j)
      {
        assert PlainPower(t, t.cards[j].card) == t.cards[j].card.rank.Value();
      }
      assert LeadHoldsAt(t, w);
    }
    if LeadHolds(t) {
      var i :| LeadHoldsAt(t, i);
      LeadWins(n, t, i, w);
    } else if |t.cards| > 1 {
      OffWins(n, t, w);
    }
  }

  lemma OffWins(n: int, t: Trick, w: int)
    requires OfDeck(n, t) && |t.cards| > 1 && 0 <= w < |t.cards| && t.cards[w].card.suit != t.leadSuit
             && t.leadSuit.Real()
    requires forall j :: 0 <= j < |t.cards| ==> PlainPower(t, t.cards[j].card) <= PlainPower(t, t.cards[w].card)
    requires forall j :: 0 <= j < w ==> PlainPower(t, t.cards[j].card) < PlainPower(t, t.cards[w].card)
    ensures HighestOff(t, w)
  {
    var other := if w == 0 then 1 else 0;
    assert InDeck(n, t.cards[w].card) && InDeck(n, t.cards[other].card) && t.cards[w].card != t.cards[other].card;
    assert PlainPower(t, t.cards[other].card) <= PlainPower(t, t.cards[w].card);
    forall j | 0 <= j < |t.cards| && t.cards[j].card.suit != t.leadSuit && t.cards[j].card.rank != Joker
      ensures t.cards[j].card.rank.Value() <= t.cards[w].card.rank.Value()
      ensures j < w ==> t.cards[j].card.rank.Value() < t.cards[w].card.rank.Value()
    {
      assert PlainPower(t, t.cards[j].card) <= PlainPower(t, t.cards[w].card);
    }
  }

  function PlainPower(t: Trick, c: Card): int {
    if c.rank == Joker then 0 else if c.suit == t.leadSuit then 10 + c.rank.Value() else c.rank.Value()
  }

  lemma LeadWins(n: int, t: Trick, i: int, w: int)
    requires OfDeck(n, t) && LeadHoldsAt(t, i) && 0 <= w < |t.cards| && t.leadSuit.Real()
    requires forall j :: 0 <= j < |t.cards| ==> PlainPower(t, t.cards[j].card) <= PlainPower(t, t.cards[w].card)
    requires forall j :: 0 <= j < w ==> PlainPower(t, t.cards[j].card) < PlainPower(t, t.cards[w].card)
    ensures HighestOf(t.leadSuit, t, w)
  {
    assert InDeck(n, t.cards[w].card) && InDeck(n, t.cards[i].card);
    assert PlainPower(t, t.cards[i].card) <= PlainPower(t, t.cards[w].card);
    forall j | 0 <= j < |t.cards| && t.cards[j].card.suit == t.leadSuit && t.cards[j].card.rank != Joker
      ensures t.cards[j].card.rank.Value() <= t.cards[w].card.rank.Value()
    {
      assert PlainPower(t, t.cards[j].card) <= PlainPower(t, t.cards[w].card);
    }
  }

  /** A five or better of the suit owed is never overtaken. */
  lemma FiveHolds(n: int, t: Trick, i: int)
    requires OfDeck(n, t) && 0 <= i < |t.cards| && t.cards[i].card.suit == t.leadSuit
             && t.cards[i].card.rank.Value() >= 5
    ensures LeadHolds(t)
  {
    assert LeadHoldsAt(t, i);
  }

  /** A three led, and off-suit cards from the ace down: one from each of four or five seats. */
  const LOWLEAD :=
    [Card(Clubs, Three), Card(Diamonds, Ace), Card(Diamonds, King), Card(Diamonds, Queen), Card(Diamonds, Jack)]

  ghost predicate LowTrick(n: int, t: Trick) {
    && (n == 4 || n == 5) && |t.cards| == n && t.leadSuit == Clubs
    && forall i :: 0 <= i < n ==> t.cards[i].card == LOWLEAD[i] && t.cards[i].seat == i
  }

  /** The overlap is real in both games: a complete trick led with a three goes to the off-suit ace, although
      the three is the highest, and only, card of the suit owed. */
  lemma LowLeadLoses(n: int, t: Trick)
    requires LowTrick(n, t)
    ensures OfDeck(n, t) && PlainTrick(Hearts, 1, t) && HighestOf(Clubs, t, 0) && !LeadHolds(t)
    ensures WinnerSeat(Hearts, 1, t) == 1
  {
    hide Power, BestIndex;
    var w := BestIndex(Hearts, 1, t, n);
    assert t.cards[1].card == Card(Diamonds, Ace) && t.cards[0].card == Card(Clubs, Three);
    forall i ensures !LeadHoldsAt(t, i) {
      assert !(t.cards[1].card.rank.Value() < 10 + t.cards[0].card.rank.Value());
    }
    LeadTier(n, Hearts, 1, t, w);
  }
}
