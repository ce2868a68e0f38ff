/** Runs with a deal of one's choice: the opener holds given cards, every other seat starts with a given
    card, and the opener buys the contract at once. */
module Staging {
  import opened Cards
  import opened Piles
  import opened Decks
  import opened State
  import opened Rules
  import opened Invariants
  import opened Play
  import opened Steps
  import opened Runs
  import opened Finishing

  // ----- a stacked deck

  /** Different cards of the deck: a hand, one card for every other seat, and a kitty. */
  ghost predicate Stackable(n: int, hand: seq<Card>, firsts: seq<Card>, kitty: seq<Card>) {
    && (n == 4 || n == 5) && |hand| == 10 && |firsts| == n - 1 && |kitty| == 3 && NoDup(hand + firsts + kitty)
    && forall c :: c in hand + firsts + kitty ==> InDeck(n, c)
  }

  function Others(n: int, placed: seq<Card>): seq<Card> { Keep(Deck(n), placed) }

  /** Ten cards for each of m further seats: the chosen one and nine others. */
  function OtherHands(firsts: seq<Card>, others: seq<Card>, m: nat): (r: seq<Card>)
    requires m <= |firsts| && 9 * m <= |others|
    ensures |r| == 10 * m
  {
    if m == 0 then [] else OtherHands(firsts, others, m - 1) + [firsts[m - 1]] + others[9 * m - 9..9 * m]
  }

  ghost function Stack(n: int, hand: seq<Card>, firsts: seq<Card>, kitty: seq<Card>): seq<Card>
    requires Stackable(n, hand, firsts, kitty)
  {
    OthersCount(n, hand + firsts + kitty);
    hand + OtherHands(firsts, Others(n, hand + firsts + kitty), |firsts|) + kitty
  }

  lemma OthersCount(n: int, placed: seq<Card>)
    requires (n == 4 || n == 5) && NoDup(placed) && forall c :: c in placed ==> InDeck(n, c)
    ensures |Others(n, placed)| == 10 * n + 3 - |placed|
    ensures multiset(placed) + multiset(Others(n, placed)) == multiset(Deck(n))
  {
    hide Deck;
    var d := Deck(n);
    DeckContents(n);
    DeckSize(n);
    TakeSize(d, placed);
    NoDupSize(placed);
    Split(d, placed);
    forall c: Card ensures multiset(placed)[c] == multiset(Take(d, placed))[c] {
      NoDupCount(placed, c);
      NoDupCount(Take(d, placed), c);
    }
    assert multiset(placed) == multiset(Take(d, placed));
  }

  lemma {:induction false} OtherHandsPerm(firsts: seq<Card>, others: seq<Card>, m: nat)
    requires m <= |firsts| && 9 * m <= |others|
    ensures Perm(OtherHands(firsts, others, m), firsts[..m] + others[..9 * m])
  {
    hide Perm, OtherHands;
    if m == 0 {
      assert firsts[..0] + others[..0] == [];
      NothingPerm(firsts, others);
    } else {
      OtherHandsPerm(firsts, others, m - 1);
      NextHand(firsts, others, m, others[..9 * m - 9], others[9 * m - 9..9 * m]);
    }
  }

  lemma NextHand(firsts: seq<Card>, others: seq<Card>, m: nat, part: seq<Card>, row: seq<Card>)
    requires 0 < m <= |firsts| && 9 * m <= |others| && part == others[..9 * m - 9] && row == others[9 * m - 9..9 * m]
    requires Perm(OtherHands(firsts, others, m - 1), firsts[..m - 1] + part)
    ensures Perm(OtherHands(firsts, others, m), firsts[..m] + others[..9 * m])
  {
    hide Perm;
    var hands, card := OtherHands(firsts, others, m - 1), firsts[m - 1];
    OneMoreHand(hands, firsts[..m - 1], card, part, row);
    assert OtherHands(firsts, others, m) == hands + [card] + row;
    Prefix(firsts, m - 1, m);
    Prefix(others, 9 * m - 9, 9 * m);
  }

  lemma NothingPerm(firsts: seq<Card>, others: seq<Card>)
    ensures Perm(OtherHands(firsts, others, 0), [])
  {
  }

  lemma Prefix(s: seq<Card>, i: nat, j: nat)
    requires i <= j <= |s|
    ensures s[..i] + s[i..j] == s[..j]
    ensures j == i + 1 ==> s[..i] + [s[i]] == s[..j]
  {
  }

  lemma OneMoreHand(hands: seq<Card>, firsts: seq<Card>, card: Card, part: seq<Card>, row: seq<Card>)
    requires Perm(hands, firsts + part)
    ensures Perm(hands + [card] + row, (firsts + [card]) + (part + row))
  {
    Joins(multiset(hands), multiset(firsts), multiset(part), multiset{card}, multiset(row));
    assert multiset(hands + [card] + row) == multiset(hands) + multiset{card} + multiset(row);
    assert multiset((firsts + [card]) + (part + row)) == multiset(firsts) + multiset{card}
           + (multiset(part) + multiset(row));
  }

  /** One more card and one more row on both sides. */
  lemma Joins(all: multiset<Card>, a: multiset<Card>, b: multiset<Card>, card: multiset<Card>, row: multiset<Card>)
    requires all == a + b
    ensures all + card + row == (a + card) + (b + row)
  {
    forall c: Card ensures (all + card + row)[c] == ((a + card) + (b + row))[c] {
      assert all[c] == (a + b)[c];
    }
  }

  lemma {:induction false} OtherHandAt(firsts: seq<Card>, others: seq<Card>, m: nat, k: nat)
    requires k < m <= |firsts| && 9 * m <= |others|
    ensures OtherHands(firsts, others, m)[10 * k..10 * k + 10] == [firsts[k]] + others[9 * k..9 * k + 9]
  {
    if k < m - 1 {
      OtherHandAt(firsts, others, m - 1, k);
      assert OtherHands(firsts, others, m)[10 * k..10 * k + 10]
             == OtherHands(firsts, others, m - 1)[10 * k..10 * k + 10];
    }
  }

  /** The hands a stacked deck deals. */
  ghost predicate Holds0(players: seq<Player>, hand: seq<Card>, firsts: seq<Card>, kitty: seq<Card>) {
    && |players| == |firsts| + 1 && players[0].hand == hand
    && forall s :: 1 <= s < |players| ==>
         players[s].hand != [] && players[s].hand[0] == firsts[s - 1]
         && forall c :: c in players[s].hand ==> c !in hand && c !in kitty
  }

  lemma StackDeals(n: int, hand: seq<Card>, firsts: seq<Card>, kitty: seq<Card>, players: seq<Player>)
    requires Stackable(n, hand, firsts, kitty) && |players| == n
    requires |Stack(n, hand, firsts, kitty)| == 10 * n + 3
    requires forall s :: 0 <= s < n ==> players[s].hand == HandFrom(Stack(n, hand, firsts, kitty), s)
    ensures Holds0(players, hand, firsts, kitty)
  {
    hide Deck, InDeck, NoDup, Others, Stackable, OtherHands;
    var deck := Stack(n, hand, firsts, kitty);
    StackShape(n, hand, firsts, kitty);
    assert deck[0..10] == hand;
    forall s | 1 <= s < n
      ensures players[s].hand != [] && players[s].hand[0] == firsts[s - 1]
      ensures forall c :: c in players[s].hand ==> c !in hand && c !in kitty
    {
      StackRow(n, hand, firsts, kitty, s);
    }
  }

  lemma StackShape(n: int, hand: seq<Card>, firsts: seq<Card>, kitty: seq<Card>)
    requires Stackable(n, hand, firsts, kitty)
    ensures var deck := Stack(n, hand, firsts, kitty);
            |deck| == 10 * n + 3 && |hand| == 10 && |firsts| == n - 1 && deck[..10] == hand && deck[10 * n..] == kitty
                && IsDeal(n, deck)
  {
    hide Deck, InDeck;
    var placed := hand + firsts + kitty;
    var others := Others(n, placed);
    OthersCount(n, placed);
    OtherHandsPerm(firsts, others, |firsts|);
    assert others[..9 * |firsts|] == others && firsts[..|firsts|] == firsts;
    assert multiset(firsts + others) == multiset(firsts) + multiset(others);
    var mid := OtherHands(firsts, others, |firsts|);
    var deck := Stack(n, hand, firsts, kitty);
    assert deck == hand + mid + kitty;
    assert multiset(deck) == multiset(hand) + multiset(mid) + multiset(kitty);
    assert multiset(placed) == multiset(hand) + multiset(firsts) + multiset(kitty);
  }

  lemma StackRow(n: int, hand: seq<Card>, firsts: seq<Card>, kitty: seq<Card>, s: int)
    requires Stackable(n, hand, firsts, kitty) && 1 <= s < n && |Stack(n, hand, firsts, kitty)| == 10 * n + 3
    ensures |firsts| == n - 1
    ensures var row := HandFrom(Stack(n, hand, firsts, kitty), s);
            row != [] && row[0] == firsts[s - 1] && forall c :: c in row ==> c !in hand && c !in kitty
  {
    hide Deck, InDeck, OtherHands, Others, NoDup;
    var placed := hand + firsts + kitty;
    var others := Others(n, placed);
    OthersCount(n, placed);
    OtherHandAt(firsts, others, |firsts|, s - 1);
    Middle(hand, OtherHands(firsts, others, |firsts|), kitty, s - 1);
    FirstApart(hand, firsts, kitty, s - 1);
    RowApart(n, hand, firsts, kitty, 9 * (s - 1));
  }

  lemma Middle(hand: seq<Card>, mid: seq<Card>, kitty: seq<Card>, k: nat)
    requires |hand| == 10 && 10 * k + 10 <= |mid|
    ensures HandFrom(hand + mid + kitty, k + 1) == mid[10 * k..10 * k + 10]
  {
  }

  lemma RowApart(n: int, hand: seq<Card>, firsts: seq<Card>, kitty: seq<Card>, i: nat)
    requires i + 9 <= |Others(n, hand + firsts + kitty)|
    ensures forall c :: c in Others(n, hand + firsts + kitty)[i..i + 9] ==> c !in hand && c !in kitty
  {
    hide Deck;
    var placed := hand + firsts + kitty;
    var others := Others(n, placed);
    forall c | c in others[i..i + 9] ensures c !in hand && c !in kitty {
      assert c in others;
      assert c !in placed;
    }
  }

  lemma FirstApart(hand: seq<Card>, firsts: seq<Card>, kitty: seq<Card>, k: nat)
    requires NoDup(hand + firsts + kitty) && k < |firsts|
    ensures firsts[k] !in hand && firsts[k] !in kitty
  {
    var placed := hand + firsts + kitty;
    assert placed[|hand| + k] == firsts[k];
    forall i | 0 <= i < |hand| ensures hand[i] != firsts[k] { assert placed[i] == hand[i]; }
    forall i | 0 <= i < |kitty| ensures kitty[i] != firsts[k] { assert placed[|hand| + |firsts| + i] == kitty[i]; }
  }

  // ----- buying the contract

  /** A table where the opener has just bought the contract with a stacked deck. */
  ghost predicate Bought(g: GameState, n: int, suit: Suit, hand: seq<Card>, firsts: seq<Card>, kitty: seq<Card>) {
    && g.status.Exchanging? && g.declarer == 0 && g.trump == suit && g.N() == n && |g.players| == n == |firsts| + 1
    && g.players[0].hand == hand + kitty
    && forall s :: 1 <= s < n ==>
         g.players[s].hand != [] && g.players[s].hand[0] == firsts[s - 1]
         && forall c :: c in g.players[s].hand ==> c !in hand && c !in kitty
  }

  lemma BuyContract(id: string, cfg: Config, suit: Suit, hand: seq<Card>, firsts: seq<Card>,
      kitty: seq<Card>) returns (r: Run)
    requires Playable(cfg) && suit.Real() && Stackable(cfg.Seats(), hand, firsts, kitty)
    ensures Legal(r) && r.id == id && r.cfg == cfg
    ensures Bought(r.tables[|r.ops|].g, cfg.Seats(), suit, hand, firsts, kitty)
  {
    hide Inv, Stackable, Stack, Dealt, Bought, ValidateMove, Resizes, Moved, IsDeal;
    var n := cfg.Seats();
    var deck := Stack(n, hand, firsts, kitty);
    StackShape(n, hand, firsts, kitty);
    var r0 := NewRun(id, cfg);
    var r1 := FillTable(r0, deck);
    var t := r1.tables[|r1.ops|];
    ReachableInv(r1, |r1.ops|);
    InvIndexable(t);
    BaseOf(t);
    DealtPhase(t.g, deck);
    StackDeals(n, hand, firsts, kitty, t.g.players);
    BuyAllowed(t, suit);
    r := MoveOn(r1, t.g.players[0].id, BidMove(10, suit, false));
    Buys(t, suit, Deck(n), hand, firsts, kitty);
  }

  lemma DealtPhase(g: GameState, deck: seq<Card>)
    requires Dealt(g, deck)
    ensures g.status.Bidding? && g.turn == 0 && |g.players| == g.N() && |deck| == 10 * g.N() + 3
            && g.kitty == deck[10 * g.N()..]
    ensures g.currentBid.None?
    ensures forall s :: 0 <= s < |g.players| ==> g.players[s].hand == HandFrom(deck, s)
  {
  }

  lemma BuyAllowed(t: Table, suit: Suit)
    requires Indexable(t.g) && t.g.status.Bidding? && t.g.turn == 0 && suit.Real() && t.g.currentBid.None?
             && Seated(t.g.players)
    ensures ValidateMove(t.g, t.g.players[0].id, BidMove(10, suit, false)).Accept?
    ensures !Resizes(t.g, BidMove(10, suit, false))
  {
    SeatOfPlayer(t.g.players, 0);
  }

  lemma Buys(t: Table, suit: Suit, deck: seq<Card>, hand: seq<Card>, firsts: seq<Card>, kitty: seq<Card>)
    requires Indexable(t.g) && t.g.status.Bidding? && t.g.turn == 0 && |t.g.players| == t.g.N() && Seated(t.g.players)
    requires ValidateMove(t.g, t.g.players[0].id, BidMove(10, suit, false)).Accept?
    requires Holds0(t.g.players, hand, firsts, kitty) && t.g.kitty == kitty
    ensures Bought(Moved(t, t.g.players[0].id, BidMove(10, suit, false), deck).g, t.g.N(), suit, hand, firsts, kitty)
  {
    hide ValidateMove;
    SeatOfPlayer(t.g.players, 0);
  }
}
