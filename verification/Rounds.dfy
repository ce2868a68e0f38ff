/** What every run keeps about the cards, the tricks, the friend and the scores. */
module Rounds {
  import opened Cards
  import opened Piles
  import opened Decks
  import opened State
  import opened Rules
  import opened Engine
  import opened Auction
  import opened Invariants
  import opened Conservation
  import opened Play
  import opened Steps
  import opened Runs
  import opened Winner

  // ----- cards

  /** From the first deal on, hands, kitty, trick log and discards are the deck, each card once. */
  lemma CardsConserved(r: Run, at: nat)
    requires Legal(r) && at <= |r.ops| && !r.tables[at].g.status.Waiting?
    ensures var t := r.tables[at];
            var all := AllCards(t.g.players, t.g.kitty, t.g.tricks, t.discards);
            NoDup(all) && (forall c :: c in all <==> InDeck(t.g.N(), c)) && |all| == 10 * t.g.N() + 3
  {
    hide PhaseInv, Books, Deck, AllCards;
    ReachableInv(r, at);
    InvParts(r.tables[at]);
    var t := r.tables[at];
    var n, all := t.g.N(), AllCards(t.g.players, t.g.kitty, t.g.tricks, t.discards);
    DeckSize(n);
    DeckContents(n);
    PermSize(all, Deck(n));
    assert forall c :: multiset(all)[c] == multiset(Deck(n))[c];
    NoDupFromCount(all);
  }

  // ----- the trick log

  predicate InRound(p: Phase) { p.Playing? || p.Finished? }

  /** How many tricks of the log are complete, in any phase. */
  function Complete(g: GameState): nat {
    if g.status.Finished? then |g.tricks| else if g.tricks == [] then 0 else |g.tricks| - 1
  }

  lemma RoundOf(t: Table)
    requires InRound(t.g.status) && Inv(t)
    ensures RoundInv(t, Complete(t.g)) && t.g.tricks != [] && |t.g.players| == t.g.N() && Seated(t.g.players)
    ensures Conserved(t.g.N(), t.g.players, [], t.g.tricks, t.discards)
  {
    hide Conserved, Books, RoundInv;
    InvParts(t);
    KittyGone(t);
  }

  lemma KittyGone(t: Table)
    requires InRound(t.g.status) && Inv(t)
    ensures t.g.kitty == [] && t.g.tricks != []
  {
    hide Conserved, Books, BidLog, TrickLog, HandSizes, LateHands, Placement, NoRevoke, RenouncersOut, Accounted,
         RevealedRightly;
    InvParts(t);
  }

  /** Each trick goes round from its leader: the declarer leads the first, the winner of each trick the next. */
  lemma TricksRotate(r: Run, at: nat, j: int)
    requires Legal(r) && at <= |r.ops| && InRound(r.tables[at].g.status) && 0 <= j < |r.tables[at].g.tricks|
    ensures var g := r.tables[at].g;
            var leader := if j == 0 then g.declarer else g.tricks[j - 1].winner;
            && 0 <= leader < |g.players| == g.N()
            && (forall i :: 0 <= i < |g.tricks[j].cards| ==>
                  var play := g.tricks[j].cards[i];
                  play.seat == (leader + i) % g.N() && 0 <= play.seat < |g.players|
                      && play.playerID == g.players[play.seat].id)
            && (j < Complete(g) ==> |g.tricks[j].cards| == g.N())
            && (g.status.Playing? && j == |g.tricks| - 1 ==> g.turn == (leader + |g.tricks[j].cards|) % g.N())
  {
    hide Inv, Conserved, HandSizes, LateHands, Placement, NoRevoke, RenouncersOut, Accounted, RevealedRightly,
         RotationLog, LeadLog, WinnerLog, InRotation, Rot, ContractInv, FriendSeat, Seated, IdList;
    ReachableInv(r, at);
    var t := r.tables[at];
    var g := t.g;
    RoundOf(t);
    IdCount(g.players);
    var leader := Leader(g.declarer, g.tricks, j);
    LogAt(IdList(g.players), g.declarer, g.trump, g.tricks, j);
    if j < Complete(g) { WonAt(g.N(), g.trump, g.tricks, Complete(g), j); }
    PlaysByMod(g.players, leader, g.tricks[j]);
    if g.status.Playing? && j == |g.tricks| - 1 {
      TurnFollows(t);
      RotIsMod(g.N(), leader, |g.tricks[j].cards|);
    }
  }

  lemma PlaysByMod(players: seq<Player>, leader: int, t: Trick)
    requires InRotation(IdList(players), leader, t)
    ensures 0 <= leader < |players|
    ensures forall i :: 0 <= i < |t.cards| ==>
              t.cards[i].seat == (leader + i) % |players| && 0 <= t.cards[i].seat < |players|
              && t.cards[i].playerID == players[t.cards[i].seat].id
  {
    forall i | 0 <= i < |t.cards|
      ensures t.cards[i].seat == (leader + i) % |players| && 0 <= t.cards[i].seat < |players|
              && t.cards[i].playerID == players[t.cards[i].seat].id
    {
      RotIsMod(|players|, leader, i);
    }
  }

  lemma RotIsMod(n: int, from: int, i: int)
    requires 0 <= from < n && 0 <= i < n
    ensures Rot(n, from, i) == (from + i) % n
  {
    if from + i < n { assert (from + i) % n == from + i; } else { assert (from + i) % n == from + i - n; }
  }

  lemma TurnFollows(t: Table)
    requires t.g.status.Playing? && Inv(t)
    ensures var last := |t.g.tricks| - 1;
            && last >= 0 && |t.g.tricks[last].cards| < |t.g.players|
            && t.g.turn == Rot(|t.g.players|, Leader(t.g.declarer, t.g.tricks, last), |t.g.tricks[last].cards|)
  {
    hide Conserved, Books, ContractInv, TrickLog, HandSizes, LateHands, Placement, NoRevoke, RenouncersOut, Accounted,
         RevealedRightly;
    InvParts(t);
  }

  /** A seat that has yet to play in trick k holds 11 - k cards; the declarer keeps one more for every
      name repeated among the three discards. */
  lemma HandCount(r: Run, at: nat, s: int)
    requires Legal(r) && at <= |r.ops| && r.tables[at].g.status.Playing? && 0 <= s < |r.tables[at].g.players|
    ensures var t := r.tables[at];
            var k := |t.g.tricks|;
            && 1 <= k <= 10 && 1 <= |t.discards| <= 3
            && |t.g.players[s].hand| == (if SeatIn(t.g.tricks[k - 1], s) then 10 else 11) - k
                                        + (if s == t.g.declarer then 3 - |t.discards| else 0)
  {
    hide Inv, Conserved, LateHands, Placement, NoRevoke, RenouncersOut, Accounted, RevealedRightly, RotationLog,
         LeadLog, WinnerLog;
    ReachableInv(r, at);
    RoundOf(r.tables[at]);
  }

  /** The exchange leaves the declarer ten cards exactly when the three discards are different cards. */
  lemma ExchangeExact(r: Run, at: nat, who: string, cards: seq<Card>, deck: seq<Card>)
    requires Legal(r) && at <= |r.ops| && OpOk(r.tables[at], MoveOp(who, DiscardMove(cards), deck))
    ensures var t := r.tables[at];
            var t1 := After(t, MoveOp(who, DiscardMove(cards), deck));
            && 0 <= t.g.declarer < |t1.g.players|
            && (forall c :: c in t1.discards <==> c in cards) && |t1.discards| == |set c | c in cards|
            && |t1.g.players[t.g.declarer].hand| == 13 - |t1.discards|
            && (|t1.g.players[t.g.declarer].hand| == 10 <==> NoDup(cards))
  {
    hide Inv, ApplyDiscard, ValidateMove, Performed;
    var t := r.tables[at];
    ReachableInv(r, at);
    BaseOf(t);
    AcceptedMove(t.g, who, DiscardMove(cards));
    Exchanged(t, who, t.g.declarer, cards);
    DiscardPerformed(t.g, who, cards, deck);
  }

  /** Repeated discards are really accepted: one card named three times leaves the declarer twelve cards. */
  lemma RepeatedDiscard(r: Run, at: nat, c: Card)
    requires Legal(r) && at <= |r.ops| && r.tables[at].g.status.Exchanging?
    requires c in HandOf(r.tables[at].g.players, r.tables[at].g.declarer)
    ensures var t := r.tables[at];
            && 0 <= t.g.declarer < |t.g.players|
            && var op := MoveOp(t.g.players[t.g.declarer].id, DiscardMove([c, c, c]), Deck(t.g.N()));
            && OpOk(t, op) && |HandOf(After(t, op).g.players, t.g.declarer)| == 12
  {
    hide Inv, ApplyDiscard, Performed, Deck;
    var t := r.tables[at];
    var cards := [c, c, c];
    ReachableInv(r, at);
    BaseOf(t);
    InvIndexable(t);
    SeatOfPlayer(t.g.players, t.g.declarer);
    var who := t.g.players[t.g.declarer].id;
    assert OpOk(t, MoveOp(who, DiscardMove(cards), Deck(t.g.N())));
    ExchangeExact(r, at, who, cards, Deck(t.g.N()));
    assert (set x | x in cards) == {c};
  }

  lemma DiscardPerformed(g: GameState, who: string, cards: seq<Card>, deck: seq<Card>)
    requires Indexable(g) && |g.players| <= g.N() && ValidateMove(g, who, DiscardMove(cards)).Accept?
    ensures Performed(g, who, DiscardMove(cards), deck) == ApplyDiscard(g, SeatOf(g.players, who), cards)
  {
    hide ApplyDiscard, ValidateMove;
  }

  lemma Exchanged(t: Table, who: string, p: int, cards: seq<Card>)
    requires Indexable(t.g) && t.g.status.Exchanging? && p == t.g.declarer && 0 <= p < |t.g.players|
    requires ValidateDiscard(t.g, who, p, cards).Accept?
    requires Inv(t)
    ensures var g1, pile := ApplyDiscard(t.g, p, cards), Take(t.g.players[p].hand, cards);
            && |g1.players| == |t.g.players| && |pile| == |set c | c in cards| && |g1.players[p].hand| == 13 - |pile|
            && (forall c :: c in pile <==> c in cards) && (|pile| == 3 <==> NoDup(cards))
  {
    InvParts(t);
    DiscardKeeps(t, who, p, cards);
    DiscardedSize(t, Table(ApplyDiscard(t.g, p, cards), Take(t.g.players[p].hand, cards)));
    hide Inv, ApplyDiscard;
    assert forall c :: c in cards ==> c in t.g.players[p].hand;
    NamesDiffer(cards);
  }

  lemma NamesDiffer(cards: seq<Card>)
    requires |cards| == 3
    ensures |set c | c in cards| == 3 <==> NoDup(cards)
  {
    var s := set c | c in cards;
    assert s == {cards[0]} + {cards[1]} + {cards[2]};
  }

  lemma DiscardedSize(t: Table, t1: Table)
    requires t.g.status.Exchanging? && Inv(t) && Inv(t1) && t1.g.status.Calling? && t1.g.declarer == t.g.declarer
    ensures 0 <= t1.g.declarer < |t1.g.players| && |t1.g.players[t1.g.declarer].hand| == 13 - |t1.discards|
  {
    hide Conserved, Books, BidLog, Accounted;
    InvParts(t);
    InvParts(t1);
  }

  /** No play of trick 1 is the Joker, and no play of trick 10 is the Joker or the Mighty, with one
      exception: a declarer who named a discard twice and so holds surplus cards. */
  lemma SpecialsPlaced(r: Run, at: nat, j: int, i: int)
    requires Legal(r) && at <= |r.ops| && InRound(r.tables[at].g.status)
    requires 0 <= j < |r.tables[at].g.tricks| && 0 <= i < |r.tables[at].g.tricks[j].cards|
    ensures var t := r.tables[at];
            var play := t.g.tricks[j].cards[i];
            && (play.card.rank == Joker ==> j != 0)
            && (IsSpecial(t.g.trump, play.card) && j == 9 ==> play.seat == t.g.declarer && |t.discards| < 3)
  {
    hide Inv, Conserved, HandSizes, LateHands, NoRevoke, RenouncersOut, Accounted, RevealedRightly, RotationLog,
         LeadLog, WinnerLog;
    ReachableInv(r, at);
    RoundOf(r.tables[at]);
  }

  /** No revoke, from the log alone: whoever answers with neither the suit owed nor a special never
      shows that suit later in the round. */
  lemma NobodyRevokes(r: Run, at: nat, j: int, i: int, m: int, k: int)
    requires Legal(r) && at <= |r.ops| && InRound(r.tables[at].g.status)
    requires var tricks := r.tables[at].g.tricks;
             && 0 <= j < m < |tricks| && 0 < i < |tricks[j].cards| && 0 <= k < |tricks[m].cards|
             && tricks[j].cards[i].seat == tricks[m].cards[k].seat
             && tricks[j].cards[i].card.suit != tricks[j].leadSuit
                && !IsSpecial(r.tables[at].g.trump, tricks[j].cards[i].card)
    ensures var tricks := r.tables[at].g.tricks; tricks[m].cards[k].card.suit != tricks[j].leadSuit
  {
    hide Inv, Conserved, HandSizes, LateHands, Placement, Accounted, RevealedRightly, RotationLog, LeadLog, WinnerLog,
         RenouncersOut;
    ReachableInv(r, at);
    var g := r.tables[at].g;
    RoundOf(r.tables[at]);
    assert Renounces(g.trump, g.tricks[j], i);
  }

  /** The card that takes a completed trick, as the rules of the game name it. */
  ghost predicate RightWinner(trump: Suit, k: int, t: Trick, w: int) {
    && 0 <= w < |t.cards| && t.winner == t.cards[w].seat
    && (MightyIn(trump, t) ==> IsMighty(trump, t.cards[w].card))
    && (LiveJoker(trump, k, t) ==> t.cards[w].card.rank == Joker)
    && (!MightyIn(trump, t) && !LiveJoker(trump, k, t) && TrumpIn(trump, t) ==> HighestOf(trump, t, w))
    && (PlainTrick(trump, k, t) ==> (t.cards[w].card.suit == t.leadSuit <==> LeadHolds(t)))
    && (PlainTrick(trump, k, t) && LeadHolds(t) ==> HighestOf(t.leadSuit, t, w))
    && (PlainTrick(trump, k, t) && !LeadHolds(t) ==> HighestOff(t, w))
  }

  ghost predicate WonRightly(trump: Suit, k: int, t: Trick) { exists w :: RightWinner(trump, k, t, w) }

  /** On every completed trick of every run the Mighty wins, else a live Joker, else the highest trump,
      else the highest card of the suit owed unless overtaken, and then the highest off-suit card. */
  lemma TrickWinner(r: Run, at: nat, j: int)
    requires Legal(r) && at <= |r.ops| && InRound(r.tables[at].g.status) && 0 <= j < Complete(r.tables[at].g)
    ensures var g := r.tables[at].g; WonRightly(g.trump, j + 1, g.tricks[j])
  {
    hide Inv, Conserved, HandSizes, LateHands, Placement, NoRevoke, RenouncersOut, Accounted, RevealedRightly,
         RotationLog, LeadLog, WinnerLog, MightyIn, LiveJoker, TrumpIn, LeadHolds, HighestOf, HighestOff, IsMighty,
         PlainTrick, OfDeck, Power, BestIndex, FriendSeat;
    ReachableInv(r, at);
    var t := r.tables[at];
    var g := t.g;
    RoundOf(t);
    BaseOf(t);
    IdCount(g.players);
    LogAt(IdList(g.players), g.declarer, g.trump, g.tricks, j);
    WonAt(|g.players|, g.trump, g.tricks, Complete(g), j);
    var tr, w := g.tricks[j], BestIndex(g.trump, j + 1, g.tricks[j], |g.tricks[j].cards|);
    TrickOfDeck(g.N(), g.players, g.tricks, t.discards, j);
    UpperTiers(g.trump, j + 1, tr, w);
    if PlainTrick(g.trump, j + 1, tr) { LeadTier(g.N(), g.trump, j + 1, tr, w); }
    assert RightWinner(g.trump, j + 1, tr, w);
  }

  lemma TrickOfDeck(n: int, players: seq<Player>, tricks: seq<Trick>, discards: seq<Card>, j: int)
    requires Conserved(n, players, [], tricks, discards) && 0 <= j < |tricks|
    ensures OfDeck(n, tricks[j])
  {
    hide Conserved, InDeck;
    forall i | 0 <= i < |tricks[j].cards| ensures InDeck(n, tricks[j].cards[i].card) {
      OnePlay(n, players, [], tricks, discards, j, i);
    }
    forall i, k | 0 <= i < k < |tricks[j].cards| ensures tricks[j].cards[i].card != tricks[j].cards[k].card {
      OnePlay(n, players, [], tricks, discards, j, i);
    }
  }
}
