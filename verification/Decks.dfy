/** Building and dealing the deck (internal/game/card.go). */
module Decks {
  import opened Cards
  import opened Piles

  const SUITS := [Spades, Diamonds, Hearts, Clubs]
  const RANKS := [Ace, King, Queen, Jack, Ten, Nine, Eight, Seven, Six, Five, Four, Three, Two]

  /** The cards a four-player game removes. */
  predicate Removed(n: int, s: Suit, r: Rank) {
    n == 4 && (r == Two || r == Four || (r == Three && (s == Hearts || s == Diamonds)))
  }

  /** Which cards an n-player deck holds, independently of how it is built. */
  predicate InDeck(n: int, c: Card) {
    c == JOKER || (c.suit.Real() && c.rank.Plain() && !Removed(n, c.suit, c.rank))
  }

  function Row(n: int, s: Suit, ranks: seq<Rank>): seq<Card> {
    if ranks == [] then []
    else Row(n, s, ranks[..|ranks| - 1])
         + (if Removed(n, s, ranks[|ranks| - 1]) then [] else [Card(s, ranks[|ranks| - 1])])
  }

  function Rows(n: int, suits: seq<Suit>): seq<Card> {
    if suits == [] then [] else Rows(n, suits[..|suits| - 1]) + Row(n, suits[|suits| - 1], RANKS)
  }

  function Deck(n: int): seq<Card> {
    Rows(n, SUITS) + [JOKER]
  }

  function PointCards(s: seq<Card>): seq<Card> {
    if s == [] then []
    else PointCards(s[..|s| - 1]) + (if s[|s| - 1].IsPoint() then [s[|s| - 1]] else [])
  }

  method NewDeckFor(n: int) returns (deck: seq<Card>)
    ensures deck == Deck(n)
  {
    deck := AppendSuits(n, SUITS, RANKS);
    deck := deck + [JOKER];
  }

  method AppendSuits(n: int, suits: seq<Suit>, ranks: seq<Rank>) returns (deck: seq<Card>)
    requires ranks == RANKS
    ensures deck == Rows(n, suits)
  {
    hide Row, Removed;
    deck := [];
    var i := 0;
    while i < |suits|
      invariant 0 <= i <= |suits|
      invariant deck == Rows(n, suits[..i])
    {
      var row := SuitRow(n, suits[i], ranks);
      assert suits[..i + 1][..i] == suits[..i];
      deck := deck + row;
      i := i + 1;
    }
    assert suits[..i] == suits;
  }

  method SuitRow(n: int, suit: Suit, ranks: seq<Rank>) returns (row: seq<Card>)
    ensures row == Row(n, suit, ranks)
  {
    hide Removed;
    row := [];
    var j := 0;
    while j < |ranks|
      invariant 0 <= j <= |ranks|
      invariant row == Row(n, suit, ranks[..j])
    {
      assert ranks[..j + 1][..j] == ranks[..j];
      if !Removed(n, suit, ranks[j]) { row := row + [Card(suit, ranks[j])]; }
      j := j + 1;
    }
    assert ranks[..j] == ranks;
  }

  /** A shuffle may produce any permutation of the deck. */
  predicate IsDeal(n: int, deck: seq<Card>) {
    Perm(deck, Deck(n))
  }

  function HandFrom(deck: seq<Card>, seat: nat): seq<Card>
    requires 10 * seat + 10 <= |deck|
  {
    deck[10 * seat..10 * seat + 10]
  }

  /** Deals ten cards a seat and three to the kitty; a deck of the wrong size deals nothing. */
  method Deal(deck: seq<Card>, n: nat) returns (hands: seq<seq<Card>>, kitty: seq<Card>)
    ensures |deck| != 10 * n + 3 ==> hands == [] && kitty == []
    ensures |deck| == 10 * n + 3 ==> |hands| == n && kitty == deck[10 * n..]
    ensures |deck| == 10 * n + 3 ==> forall i :: 0 <= i < n ==> hands[i] == HandFrom(deck, i)
    ensures |deck| == 10 * n + 3 ==> Flatten(hands) + kitty == deck
  {
    hands, kitty := [], [];
    if |deck| != 10 * n + 3 { return; }
    var k := 0;
    var i := 0;
    while i < n
      invariant 0 <= i <= n && k == 10 * i && |hands| == i
      invariant forall a :: 0 <= a < i ==> hands[a] == HandFrom(deck, a)
      invariant Flatten(hands) == deck[..k]
    {
      var hand: seq<Card> := [];
      var j := 0;
      while j < 10
        invariant 0 <= j <= 10 && k == 10 * i + j
        invariant hand == deck[10 * i..k]
      {
        hand := hand + [deck[k]];
        j, k := j + 1, k + 1;
      }
      FlattenAppend(hands, hand);
      hands := hands + [hand];
      i := i + 1;
    }
    kitty := deck[k..];
    assert deck[..k] + deck[k..] == deck;
  }

  // ----- what the deck contains

  lemma {:induction false} RowFacts(n: int, s: Suit, ranks: seq<Rank>)
    requires forall i, j :: 0 <= i < j < |ranks| ==> ranks[i] != ranks[j]
    ensures NoDup(Row(n, s, ranks))
    ensures forall c :: c in Row(n, s, ranks) <==> c.suit == s && c.rank in ranks && !Removed(n, s, c.rank)
  {
    if ranks != [] {
      var init, last := ranks[..|ranks| - 1], ranks[|ranks| - 1];
      RowFacts(n, s, init);
      assert ranks == init + [last];
    }
  }

  lemma {:induction false} RowsFacts(n: int, suits: seq<Suit>)
    requires forall i, j :: 0 <= i < j < |suits| ==> suits[i] != suits[j]
    ensures NoDup(Rows(n, suits))
    ensures forall c :: c in Rows(n, suits) <==> c.suit in suits && c.rank in RANKS && !Removed(n, c.suit, c.rank)
  {
    hide Row, Removed;
    if suits != [] {
      RowsFacts(n, suits[..|suits| - 1]);
      RowFacts(n, suits[|suits| - 1], RANKS);
    }
  }

  /** Fours, twos and the red threes are missing with four players, and nothing with five; ranks fall in the order of
      RANKS, from fourteen to two, and the first five are the scoring cards. */
  lemma PackAndRanks(suit: Suit, i: int)
    requires suit.Real() && 0 <= i < |RANKS|
    ensures InDeck(5, Card(suit, RANKS[i]))
    ensures InDeck(4, Card(suit, RANKS[i])) <==> i <= 9 || (i == 11 && suit in {Spades, Clubs})
    ensures RANKS == [Ace, King, Queen, Jack, Ten, Nine, Eight, Seven, Six, Five, Four, Three, Two]
    ensures RANKS[i].Value() == 14 - i
    ensures Card(suit, RANKS[i]).IsPoint() <==> i < 5
  {
  }

  lemma DeckContents(n: int)
    ensures NoDup(Deck(n))
    ensures forall c :: c in Deck(n) <==> InDeck(n, c)
    ensures forall c :: multiset(Deck(n))[c] == if InDeck(n, c) then 1 else 0
  {
    hide Rows;
    RowsFacts(n, SUITS);
    forall c: Card ensures c in Deck(n) <==> InDeck(n, c) { Listed(c.suit, c.rank); }
    forall c: Card ensures multiset(Deck(n))[c] == if InDeck(n, c) then 1 else 0 { NoDupCount(Deck(n), c); }
  }

  lemma Listed(s: Suit, r: Rank)
    ensures s in SUITS <==> s.Real()
    ensures r in RANKS <==> r.Plain()
    ensures JOKER.suit !in SUITS
  {
  }

  lemma {:induction false} PointsConcat(a: seq<Card>, b: seq<Card>)
    ensures PointCards(a + b) == PointCards(a) + PointCards(b)
  {
    if b == [] {
      assert a + b == a;
    } else {
      PointsConcat(a, b[..|b| - 1]);
      assert (a + b)[..|a + b| - 1] == a + b[..|b| - 1];
    }
  }

  lemma {:induction false} PointsMember(s: seq<Card>, c: Card)
    ensures c in PointCards(s) <==> c in s && c.IsPoint()
    ensures multiset(PointCards(s))[c] == if c.IsPoint() then multiset(s)[c] else 0
  {
    if s != [] {
      PointsMember(s[..|s| - 1], c);
      assert s == s[..|s| - 1] + [s[|s| - 1]];
    }
  }

  lemma PointsPerm(a: seq<Card>, b: seq<Card>)
    requires Perm(a, b)
    ensures Perm(PointCards(a), PointCards(b))
    ensures |PointCards(a)| == |PointCards(b)|
  {
    forall c ensures multiset(PointCards(a))[c] == multiset(PointCards(b))[c] {
      PointsMember(a, c);
      PointsMember(b, c);
    }
    PermSize(PointCards(a), PointCards(b));
  }

  function RowSize(n: int, s: Suit): nat {
    if n == 4 then (if s == Hearts || s == Diamonds then 10 else 11) else 13
  }

  /** One suit of the deck: its length, and its five scoring cards. */
  lemma RowSizes(n: int, s: Suit)
    ensures |Row(n, s, RANKS)| == RowSize(n, s)
    ensures |PointCards(Row(n, s, RANKS))| == 5
  {
    RowPrefix(n, s, RANKS, 13);
    assert RANKS[..13] == RANKS;
  }

  lemma {:induction false} RowPrefix(n: int, s: Suit, ranks: seq<Rank>, k: nat)
    requires k <= 13 == |ranks|
    requires forall i :: 0 <= i < 13 ==> (Card(s, ranks[i]).IsPoint() <==> i < 5)
    requires forall i :: 0 <= i < 13 ==> (ranks[i] == Four <==> i == 10)
    requires forall i :: 0 <= i < 13 ==> (ranks[i] == Three <==> i == 11)
    requires forall i :: 0 <= i < 13 ==> (ranks[i] == Two <==> i == 12)
    ensures |PointCards(Row(n, s, ranks[..k]))| == if k < 5 then k else 5
    ensures |Row(n, s, ranks[..k])| ==
            if n != 4 || k <= 10 then k
            else if k == 11 then 10
            else if s == Hearts || s == Diamonds then 10 else 11
  {
    if k > 0 {
      RowPrefix(n, s, ranks, k - 1);
      assert ranks[..k][..k - 1] == ranks[..k - 1];
      var row, last := Row(n, s, ranks[..k - 1]), ranks[k - 1];
      PointsConcat(row, if Removed(n, s, last) then [] else [Card(s, last)]);
    }
  }

  /** Ten cards a seat and three for the kitty, twenty of them scoring cards, in both games. */
  lemma DeckSize(n: int)
    ensures |Deck(n)| == if n == 4 then 43 else 53
    ensures |PointCards(Deck(n))| == 20
  {
    RowSizes(n, Spades);
    RowSizes(n, Diamonds);
    RowSizes(n, Hearts);
    RowSizes(n, Clubs);
    FourRows(n, SUITS);
    PointsConcat(Rows(n, SUITS), [JOKER]);
  }

  lemma FourRows(n: int, suits: seq<Suit>)
    requires |suits| == 4 && forall i :: 0 <= i < 4 ==> |PointCards(Row(n, suits[i], RANKS))| == 5
    ensures |PointCards(Rows(n, suits))| == 20
    ensures |Rows(n, suits)| == |Row(n, suits[0], RANKS)| + |Row(n, suits[1], RANKS)| + |Row(n, suits[2], RANKS)|
            + |Row(n, suits[3], RANKS)|
  {
    hide Row;
    RowsGrow(n, suits, 0);
    RowsGrow(n, suits, 1);
    RowsGrow(n, suits, 2);
    RowsGrow(n, suits, 3);
    assert suits[..4] == suits && suits[..0] == [];
  }

  lemma RowsGrow(n: int, suits: seq<Suit>, k: nat)
    requires k < |suits|
    ensures |Rows(n, suits[..k + 1])| == |Rows(n, suits[..k])| + |Row(n, suits[k], RANKS)|
    ensures |PointCards(Rows(n, suits[..k + 1]))| == |PointCards(Rows(n, suits[..k]))|
            + |PointCards(Row(n, suits[k], RANKS))|
  {
    hide Row;
    assert suits[..k + 1][..k] == suits[..k];
    PointsConcat(Rows(n, suits[..k]), Row(n, suits[k], RANKS));
  }
}
