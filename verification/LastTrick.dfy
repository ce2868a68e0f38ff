/** Special cards in the last trick. With three different discards there is none; a declarer who repeated a
    discard can save the Joker for it. */
module LastTrick {
  import opened Cards
  import opened Piles
  import opened Decks
  import opened Wrappers
  import opened State
  import opened Rules
  import opened Engine
  import opened Invariants
  import opened Play
  import opened Ownership
  import opened Steps
  import opened Runs
  import opened Progress
  import opened Rounds
  import opened Finishing

  // ----- what a round leaves alone

  /** An operation inside a round keeps the declarer and the discards, and gives the declarer no card. */
  ghost predicate RoundKeeps(t: Table, t1: Table) {
    && t1.discards == t.discards && t1.g.declarer == t.g.declarer && t1.g.trump == t.g.trump
       && t1.g.config == t.g.config
    && |t1.g.players| == |t.g.players|
    && forall c :: c in HandOf(t1.g.players, t1.g.declarer) ==> c in HandOf(t.g.players, t.g.declarer)
  }

  lemma RoundStep(t: Table, op: Op)
    requires OpOk(t, op) && Discarded(t.g.status) && Discarded(After(t, op).g.status)
    requires Inv(t)
    ensures RoundKeeps(t, After(t, op))
  {
    hide Inv, ValidateMove, IsDeal, Performed, Seated, Start;
    BaseOf(t);
    match op
    case JoinOp(id, name, deck) =>
    case MoveOp(id, m, deck) =>
      AcceptedMove(t.g, id, m);
      RoundMove(t.g, id, m, deck);
      if m.ChangeConfigMove? { SameSize(t.g, m); }
  }

  lemma SameSize(g: GameState, m: Move)
    requires m.ChangeConfigMove? && !Resizes(g, m)
    ensures ApplyChangeConfig(g, m.size).config == g.config
  {
  }

  lemma RoundMove(g: GameState, id: string, m: Move, deck: seq<Card>)
    requires Indexable(g) && |g.players| <= g.N() && Seated(g.players) && ValidateMove(g, id, m).Accept?
    requires Discarded(g.status) && Discarded(Performed(g, id, m, deck).status)
    ensures var g1 := Performed(g, id, m, deck);
            && g1.declarer == g.declarer && g1.trump == g.trump && |g1.players| == |g.players|
            && (!m.ChangeConfigMove? ==> g1.config == g.config)
            && (m.ChangeConfigMove? ==> g1 == ApplyChangeConfig(g, m.size))
            && (forall c :: c in HandOf(g1.players, g1.declarer) ==> c in HandOf(g.players, g.declarer))
  {
    hide ValidateMove, SeatOf, Seated, ApplyPlay, ApplyPlayAgain, ApplyChangeConfig, ApplyBid, ApplyPass,
         ApplyDiscard, PlayVerdict;
    AcceptedMove(g, id, m);
    var p := SeatOf(g.players, id);
    match m
    case PlayCardMove(card, callJoker, calledSuit) => PlayLeaves(g, id, p, card, callJoker, calledSuit);
    case PlayAgainMove => VoteLeaves(g, p, deck);
    case ChangeConfigMove(size) => SizeLeaves(g, size);
    case CallPartnerMove(friend, alone) =>
    case _ =>
  }

  lemma PlayLeaves(g: GameState, id: string, p: int, card: Card, callJoker: bool, calledSuit: Suit)
    requires g.tricks != []
    ensures var g1 := ApplyPlay(g, id, p, card, callJoker, calledSuit);
            && g1.declarer == g.declarer && g1.trump == g.trump && g1.config == g.config && |g1.players| == |g.players|
            && (forall s :: HandOf(g1.players, s) == if s == p then Keep(HandOf(g.players, s), [card])
               else HandOf(g.players, s))
  {
    hide FriendSeat, ScoreLedger, RoundPayouts, PointCards, WinnerSeat, Extend, Reveals, AddLedger, Keep;
    NoneKept(card);
  }

  lemma NoneKept(card: Card)
    ensures Keep([], [card]) == []
  {
  }

  lemma VoteLeaves(g: GameState, p: int, deck: seq<Card>)
    requires |g.players| <= g.N() && !ApplyPlayAgain(g, p, deck).status.Bidding?
    ensures ApplyPlayAgain(g, p, deck) == g.(votes := g.votes + {p})
  {
  }

  lemma SizeLeaves(g: GameState, size: Option<int>)
    ensures var g1 := ApplyChangeConfig(g, size);
            g1.players == g.players && g1.declarer == g.declarer && g1.trump == g.trump
  {
  }

  lemma {:induction false} RoundLeaves(u: Run, i: nat, j: nat)
    requires Legal(u) && i <= j <= |u.ops| && OneRound(u, i, j)
    ensures RoundKeeps(u.tables[i], u.tables[j])
    decreases j
  {
    hide Inv, OpOk, After;
    if i < j {
      RoundLeaves(u, i, j - 1);
      LegalStep(u, j - 1);
      RoundStep(u.tables[j - 1], u.ops[j - 1]);
    }
  }

  // ----- the choice in the last trick

  /** The declarer has to play a special in the last trick. */
  predicate Forced(trump: Suit, t: Trick, hand: seq<Card>) {
    || (|hand| == 2 && (HasMighty(trump, hand) || HasJoker(hand)))
    || (|hand| == 3 && HasMighty(trump, hand) && HasJoker(hand))
    || (t.cards != [] && HasSuit(hand, t.leadSuit)
        && forall i :: 0 <= i < |hand| && hand[i].suit == t.leadSuit ==> IsMighty(trump, hand[i]))
  }

  ghost predicate Allows(trump: Suit, t: Trick, hand: seq<Card>, c: Card) {
    exists callJoker, called :: PlayVerdict(trump, 10, t, hand, c, callJoker, called).Accept?
  }

  lemma OrdinaryAllowed(n: int, trump: Suit, t: Trick, hand: seq<Card>) returns (c: Card)
    requires FromDeck(n, hand) && 1 <= |hand| <= 3 && !t.jokerCalled && (t.cards != [] ==> t.leadSuit.Real())
    requires (|hand| == 1 ==> !HasMighty(trump, hand) && !HasJoker(hand)) && !Forced(trump, t, hand)
    ensures !IsSpecial(trump, c) && PlayVerdict(trump, 10, t, hand, c, false, Blank).Accept?
  {
    if t.cards != [] && HasSuit(hand, t.leadSuit) {
      var i :| 0 <= i < |hand| && hand[i].suit == t.leadSuit && !IsMighty(trump, hand[i]);
      c := hand[i];
      assert c in hand;
      DeckCard(n, c);
    } else {
      if |hand| == 3 {
        c := OrdinaryAmongThree(n, trump, hand);
      } else {
        c := hand[0];
      }
    }
  }

  lemma LastVerdicts(n: int, trump: Suit, t: Trick, hand: seq<Card>)
    requires FromDeck(n, hand) && 1 <= |hand| <= 3 && !t.jokerCalled && (t.cards != [] ==> t.leadSuit.Real())
    requires |hand| == 1 ==> !HasMighty(trump, hand) && !HasJoker(hand)
    ensures (exists c :: !IsSpecial(trump, c) && Allows(trump, t, hand, c)) <==> !Forced(trump, t, hand)
    ensures (exists c :: IsSpecial(trump, c) && Allows(trump, t, hand, c)) <==> HasMighty(trump, hand) || HasJoker(hand)
  {
    if !Forced(trump, t, hand) {
      var c := OrdinaryAllowed(n, trump, t, hand);
      assert Allows(trump, t, hand, c);
    }
    if HasMighty(trump, hand) {
      var i :| 0 <= i < |hand| && IsMighty(trump, hand[i]);
      SpecialAllowed(trump, t, hand, hand[i]);
    }
    if HasJoker(hand) {
      var i :| 0 <= i < |hand| && hand[i].rank == Joker;
      SpecialAllowed(trump, t, hand, hand[i]);
    }
  }

  lemma SpecialAllowed(trump: Suit, t: Trick, hand: seq<Card>, c: Card)
    requires c in hand && IsSpecial(trump, c)
    ensures var called := if t.cards == [] && c.rank == Joker then Spades else Blank;
            PlayVerdict(trump, 10, t, hand, c, false, called).Accept?
    ensures Allows(trump, t, hand, c)
  {
  }

  /** The player on turn may play this card now. */
  ghost predicate Offers(g: GameState, m: Move)
    requires Indexable(g) && g.status.Playing?
  {
    m.PlayCardMove? && ValidateMove(g, g.players[g.turn].id, m).Accept?
  }

  /** What the declarer may play in the last trick, with no, one or two surplus cards: a special exactly when
      one is in hand, and an ordinary card exactly when the rules do not force a special. */
  lemma SurplusForcesSpecial(r: Run, at: nat)
    requires Legal(r) && at <= |r.ops| && r.tables[at].g.status.Playing? && |r.tables[at].g.tricks| == 10
    requires r.tables[at].g.turn == r.tables[at].g.declarer
    ensures var g := r.tables[at].g;
            && Indexable(g)
            && var hand := g.players[g.turn].hand;
            && |hand| == 4 - |r.tables[at].discards| && 1 <= |hand| <= 3
            && ((exists m :: Offers(g, m) && !IsSpecial(g.trump, m.card)) <==> !Forced(g.trump, g.tricks[9], hand))
            && ((exists m :: Offers(g, m) && IsSpecial(g.trump, m.card)) <==>
               HasMighty(g.trump, hand) || HasJoker(hand))
            && (|hand| == 1 ==> !HasMighty(g.trump, hand) && !HasJoker(hand))
  {
    hide Inv, Forced, HasMighty, HasJoker, IsSpecial, PlayVerdict, ValidateMove, Allows, FromDeck;
    var t := r.tables[at];
    var g := t.g;
    ReachableInv(r, at);
    InvIndexable(t);
    LastHand(t);
    var tr, hand := g.tricks[9], g.players[g.turn].hand;
    LastVerdicts(g.N(), g.trump, tr, hand);
    forall c | Allows(g.trump, tr, hand, c) ensures exists m :: Offers(g, m) && m.card == c { OfferAllowed(g, c); }
    forall m | Offers(g, m) ensures Allows(g.trump, tr, hand, m.card) { AllowedOffer(g, m); }
  }

  lemma LastHand(t: Table)
    requires Indexable(t.g) && t.g.status.Playing? && |t.g.tricks| == 10 && t.g.turn == t.g.declarer
    requires Inv(t)
    ensures var hand, tr := t.g.players[t.g.turn].hand, t.g.tricks[9];
            && |hand| == 4 - |t.discards| && 1 <= |hand| <= 3 && FromDeck(t.g.N(), hand)
            && !tr.jokerCalled && (tr.cards != [] ==> tr.leadSuit.Real()) && Seated(t.g.players)
            && (|hand| == 1 ==> !HasMighty(t.g.trump, hand) && !HasJoker(hand))
  {
    hide Conserved, Books, RotationLog, LeadLog, WinnerLog, HandSizes, LateHands, Placement, NoRevoke, RenouncersOut,
         Accounted, RevealedRightly, FriendSeat, SeatIn, Seated, IdList, InRotation, FromDeck, HasMighty, HasJoker;
    InvParts(t);
    var g := t.g;
    var ids, leader := IdList(g.players), Leader(g.declarer, g.tricks, 9);
    IdCount(g.players);
    HandFromDeck(g.N(), g.players, g.tricks, t.discards, g.turn);
    LogAt(ids, g.declarer, g.trump, g.tricks, 9);
    TurnNotIn(ids, leader, g.tricks[9], g.turn);
    SizeAt(g.players, g.declarer, |t.discards|, g.tricks, g.turn);
    LateAt(g.trump, g.players, g.turn);
  }

  lemma OfferAllowed(g: GameState, c: Card)
    requires Indexable(g) && g.status.Playing? && |g.tricks| == 10 && Seated(g.players)
    requires Allows(g.trump, g.tricks[9], g.players[g.turn].hand, c)
    ensures exists m :: Offers(g, m) && m.card == c
  {
    hide PlayVerdict;
    var hand := g.players[g.turn].hand;
    var callJoker, called :| PlayVerdict(g.trump, 10, g.tricks[9], hand, c, callJoker, called).Accept?;
    var m := PlayCardMove(c, callJoker, called);
    AcceptOnTurn(g, m);
    assert Offers(g, m) && m.card == c;
  }

  lemma AllowedOffer(g: GameState, m: Move)
    requires Indexable(g) && g.status.Playing? && |g.tricks| == 10 && Seated(g.players) && Offers(g, m)
    ensures Allows(g.trump, g.tricks[9], g.players[g.turn].hand, m.card)
  {
    hide PlayVerdict, ValidateMove;
    AcceptedMove(g, g.players[g.turn].id, m);
  }

  // ----- saving a special

  predicate InLast(g: GameState, c: Card) {
    |g.tricks| == 10 && exists i :: 0 <= i < |g.tricks[9].cards| && g.tricks[9].cards[i].card == c
  }

  predicate SpecialInLast(g: GameState) {
    |g.tricks| == 10 && exists i :: 0 <= i < |g.tricks[9].cards| && IsSpecial(g.trump, g.tricks[9].cards[i].card)
  }

  /** A hand whose owner can always play something else than `keep`: any hand with the Joker, and a hand of the
      Mighty's suit, but for one card x, without the Joker. */
  ghost predicate Savable(trump: Suit, hand: seq<Card>, keep: Card, x: Card) {
    && keep in hand
    && (keep == JOKER
        || (IsMighty(trump, keep) && JOKER !in hand && forall c :: c in hand ==> c.suit == keep.suit || c == x))
  }

  /** The declarer still holds the card, nobody has called the Joker, and the declarer's last card is to come. */
  ghost predicate Saving(g: GameState, keep: Card, x: Card) {
    && g.status.Playing? && 0 < |g.tricks| && Savable(g.trump, HandOf(g.players, g.declarer), keep, x)
    && !g.tricks[|g.tricks| - 1].jokerCalled && (|g.tricks| == 10 ==> !SeatIn(g.tricks[9], g.declarer))
  }

  /** A card other than the saved one that the rules accept. */
  lemma ChooseAround(n: int, trump: Suit, k: int, t: Trick, hand: seq<Card>, keep: Card, x: Card) returns (c: Card)
    requires FromDeck(n, hand) && Savable(trump, hand, keep, x)
    requires |hand| >= 3 && (k == 1 ==> |hand| > 3) && !t.jokerCalled && (t.cards != [] ==> t.leadSuit.Real())
    ensures c != keep && PlayVerdict(trump, k, t, hand, c, false, Blank).Accept?
  {
    if keep == JOKER {
      c := ChooseAroundJoker(n, trump, k, t, hand);
    } else {
      c := ChooseAroundMighty(n, trump, k, t, hand, keep, x);
    }
  }

  lemma ChooseAroundJoker(n: int, trump: Suit, k: int, t: Trick, hand: seq<Card>) returns (c: Card)
    requires FromDeck(n, hand) && JOKER in hand && |hand| >= 3 && (k == 1 ==> |hand| > 3) && !t.jokerCalled
    requires t.cards != [] ==> t.leadSuit.Real()
    ensures c != JOKER && PlayVerdict(trump, k, t, hand, c, false, Blank).Accept?
  {
    if k == 1 {
      if t.cards == [] { c := ChooseFirstLead(n, trump, hand); } else { c := ChooseFirstFollow(n, trump, t, hand); }
    } else if |hand| == 3 && HasMighty(trump, hand) {
      var i :| 0 <= i < |hand| && IsMighty(trump, hand[i]);
      c := hand[i];
    } else if t.cards != [] && HasSuit(hand, t.leadSuit) {
      var i :| 0 <= i < |hand| && hand[i].suit == t.leadSuit;
      c := hand[i];
      assert c in hand;
      DeckCard(n, c);
    } else {
      c := OrdinaryAmongThree(n, trump, hand);
    }
  }

  lemma ChooseAroundMighty(n: int, trump: Suit, k: int, t: Trick, hand: seq<Card>, keep: Card, x: Card)
    returns (c: Card)
    requires FromDeck(n, hand) && IsMighty(trump, keep) && keep in hand && JOKER !in hand
    requires forall c :: c in hand ==> c.suit == keep.suit || c == x
    requires |hand| >= 3 && !t.jokerCalled && (t.cards != [] ==> t.leadSuit.Real())
    ensures c != keep && PlayVerdict(trump, k, t, hand, c, false, Blank).Accept?
  {
    NoJoker(n, hand);
    c := SuitMate(n, hand, keep, x);
    if t.cards != [] && t.leadSuit != keep.suit && HasSuit(hand, t.leadSuit) {
      var i :| 0 <= i < |hand| && hand[i].suit == t.leadSuit;
      c := hand[i];
    }
    assert c in hand && !IsSpecial(trump, c) && (c.suit == keep.suit ==> c.suit != trump);
  }

  lemma NoJoker(n: int, hand: seq<Card>)
    requires FromDeck(n, hand) && JOKER !in hand
    ensures !HasJoker(hand) && forall c :: c in hand ==> c.rank != Joker
  {
    forall c | c in hand ensures c.rank != Joker { DeckCard(n, c); }
  }

  /** Of three different cards one is of the suit of the saved card, and another card. */
  lemma SuitMate(n: int, hand: seq<Card>, keep: Card, x: Card) returns (c: Card)
    requires FromDeck(n, hand) && |hand| >= 3 && forall c :: c in hand ==> c.suit == keep.suit || c == x
    ensures c in hand && c != keep && c.suit == keep.suit
  {
    assert hand[0] in hand && hand[1] in hand && hand[2] in hand;
    if hand[0] != keep && hand[0].suit == keep.suit { c := hand[0]; }
    else if hand[1] != keep && hand[1].suit == keep.suit { c := hand[1]; }
    else { c := hand[2]; }
  }

  /** The declarer goes alone with the card in hand. */
  lemma CallSaves(g: GameState, keep: Card, x: Card)
    requires g.status.Calling? && g.tricks == [] && Savable(g.trump, HandOf(g.players, g.declarer), keep, x)
    ensures Saving(ApplyCall(g, None, true), keep, x)
  {
  }

  lemma LastSeat(t: Table)
    requires t.g.status.Playing? && Inv(t)
    ensures var g, last := t.g, |t.g.tricks| - 1;
            && last >= 0 && |g.tricks[last].cards| < g.N() && 0 <= g.declarer < g.N()
            && (|g.tricks[last].cards| == g.N() - 1 && g.declarer != g.turn ==> SeatIn(g.tricks[last], g.declarer))
  {
    hide Conserved, Books, RotationLog, LeadLog, WinnerLog, HandSizes, LateHands, Placement, NoRevoke, RenouncersOut,
         Accounted, RevealedRightly, FriendSeat, SeatIn, Seated, IdList, InRotation;
    InvParts(t);
    var g, last := t.g, |t.g.tricks| - 1;
    var ids, leader := IdList(g.players), Leader(g.declarer, g.tricks, last);
    IdCount(g.players);
    LogAt(ids, g.declarer, g.trump, g.tricks, last);
    TurnNotIn(ids, leader, g.tricks[last], g.turn);
    SeatInRotation(ids, leader, g.tricks[last], g.declarer);
    LeaderSeat(ids, leader, g.tricks[last]);
  }

  lemma LeaderSeat(ids: seq<string>, leader: int, t: Trick)
    requires InRotation(ids, leader, t)
    ensures 0 <= leader < |ids|
  {
  }

  /** Any other card than the declarer's saved one, without calling the Joker, keeps it saved. */
  lemma PlaySaves(g: GameState, id: string, p: int, card: Card, calledSuit: Suit, keep: Card, x: Card)
    requires Saving(g, keep, x) && |g.tricks| <= 10
    requires if p == g.declarer then card != keep && |g.tricks| < 10
             else |g.tricks[|g.tricks| - 1].cards| == g.N() - 1 ==> SeatIn(g.tricks[|g.tricks| - 1], g.declarer)
    ensures Saving(ApplyPlay(g, id, p, card, false, calledSuit), keep, x)
  {
    hide FriendSeat, ScoreLedger, RoundPayouts, PointCards, WinnerSeat, Reveals, AddLedger, Keep, Savable;
    PlayLeaves(g, id, p, card, false, calledSuit);
    StillSavable(g.trump, HandOf(g.players, g.declarer), card, keep, x);
  }

  lemma StillSavable(trump: Suit, hand: seq<Card>, card: Card, keep: Card, x: Card)
    requires Savable(trump, hand, keep, x)
    ensures card != keep ==> Savable(trump, Keep(hand, [card]), keep, x)
  {
  }

  /** A card played in the last trick stays in the log. */
  lemma LastPlayed(g: GameState, id: string, p: int, card: Card, calledSuit: Suit)
    requires g.status.Playing? && |g.tricks| == 10
    ensures var g1 := ApplyPlay(g, id, p, card, false, calledSuit); InLast(g1, card) && Discarded(g1.status)
  {
    hide FriendSeat, ScoreLedger, RoundPayouts, PointCards, WinnerSeat, Reveals, AddLedger, Keep, SetHand, AddPoints;
    var g1 := ApplyPlay(g, id, p, card, false, calledSuit);
    var i := |g.tricks[9].cards|;
    assert |g1.tricks[9].cards| == i + 1 && g1.tricks[9].cards[i].card == card;
  }

  /** The next card of a declarer who saves a special, or of anybody else. */
  lemma NextCard(t: Table, keep: Card, x: Card) returns (m: Move)
    requires Indexable(t.g) && Saving(t.g, keep, x) && |t.discards| < 3
    requires Inv(t)
    ensures m.PlayCardMove? && !m.callJoker && |t.g.tricks| <= 10 && !Resizes(t.g, m)
    ensures ValidateMove(t.g, t.g.players[t.g.turn].id, m).Accept?
    ensures t.g.turn == t.g.declarer ==> (m.card == keep <==> |t.g.tricks| == 10)
  {
    hide Conserved, Books, RotationLog, LeadLog, WinnerLog, HandSizes, LateHands, Placement, NoRevoke, RenouncersOut,
         Accounted, RevealedRightly, FriendSeat, SeatIn, Seated, IdList, InRotation, PlayVerdict, FromDeck, Inv,
         ValidateMove, Savable, IsMighty;
    var g, last := t.g, |t.g.tricks| - 1;
    InvParts(t);
    if g.turn != g.declarer {
      m := PlayOnTurn(t);
    } else {
      var hand := g.players[g.turn].hand;
      var ids, leader := IdList(g.players), Leader(g.declarer, g.tricks, last);
      IdCount(g.players);
      HandFromDeck(g.N(), g.players, g.tricks, t.discards, g.turn);
      LogAt(ids, g.declarer, g.trump, g.tricks, last);
      TurnNotIn(ids, leader, g.tricks[last], g.turn);
      SizeAt(g.players, g.declarer, |t.discards|, g.tricks, g.turn);
      if |g.tricks| == 10 {
        SavedSpecial(g.trump, hand, keep, x);
        SpecialAllowed(g.trump, g.tricks[last], hand, keep);
        m := PlayCardMove(keep, false, if g.tricks[last].cards == [] && keep.rank == Joker then Spades else Blank);
      } else {
        var c := ChooseAround(g.N(), g.trump, |g.tricks|, g.tricks[last], hand, keep, x);
        m := PlayCardMove(c, false, Blank);
      }
    }
    AcceptOnTurn(g, m);
  }

  lemma SavedSpecial(trump: Suit, hand: seq<Card>, keep: Card, x: Card)
    requires Savable(trump, hand, keep, x)
    ensures keep in hand && IsSpecial(trump, keep)
  {
  }

  /** The round goes on from r to u, in whose last trick the card is played. */
  ghost predicate Late(r: Run, u: Run, c: Card) {
    Legal(u) && Continues(r, u) && OneRound(u, |r.ops|, |u.ops|) && InLast(u.tables[|u.ops|].g, c)
  }

  lemma SavingPhase(g: GameState, keep: Card, x: Card)
    requires Saving(g, keep, x)
    ensures g.status.Playing? && 0 < |g.tricks| && InDeal(g.status) && Discarded(g.status)
  {
  }

  lemma MovedPlay(t: Table, who: string, m: Move, deck: seq<Card>)
    requires t.g.status.Playing? && t.g.tricks != [] && m.PlayCardMove? && MoveOk(t, who, m, deck)
    ensures var t1 := Moved(t, who, m, deck);
            && t1.g == ApplyPlay(t.g, who, SeatOf(t.g.players, who), m.card, m.callJoker,
               m.calledSuit).(version := t.g.version + 1)
            && t1.discards == if t1.g.status.Bidding? then [] else t.discards
  {
    hide ApplyPlay, ValidateMove, Resizes, IsDeal;
  }

  lemma LateVersion(g: GameState, version: int, keep: Card, x: Card)
    ensures var g1 := g.(version := version);
            InLast(g1, keep) == InLast(g, keep) && Saving(g1, keep, x) == Saving(g, keep, x) && g1.status == g.status
  {
  }

  lemma {:induction false} SaveCard(r: Run, keep: Card, x: Card) returns (u: Run)
    requires Legal(r) && Saving(r.tables[|r.ops|].g, keep, x) && |r.tables[|r.ops|].discards| < 3
    ensures Late(r, u, keep)
    decreases Remaining(r.tables[|r.ops|].g)
  {
    hide Inv, MoveOk, Moved, Remaining, ValidateMove, Performed, Resizes, OneRound, Continues, ApplyPlay, Saving,
         InLast;
    var t := r.tables[|r.ops|];
    var g := t.g;
    ReachableInv(r, |r.ops|);
    SavingPhase(g, keep, x);
    RemainingBound(t);
    FullInDeal(t);
    InvIndexable(t);
    BaseOf(t);
    var m := NextCard(t, keep, x);
    var who := g.players[g.turn].id;
    LastSeat(t);
    var deck := Deck(g.N());
    MoveIsOk(t, who, m, deck);
    MoveShortens(t, who, m, deck);
    var v := MoveOn(r, who, m);
    MovedPlay(t, who, m, deck);
    var p := SeatOf(g.players, who);
    SeatOfPlayer(g.players, g.turn);
    LateVersion(ApplyPlay(g, who, p, m.card, m.callJoker, m.calledSuit), g.version + 1, keep, x);
    if g.turn == g.declarer && |g.tricks| == 10 {
      LastPlayed(g, who, p, m.card, m.calledSuit);
      u := v;
    } else {
      PlaySaves(g, who, p, m.card, m.calledSuit, keep, x);
      SavingPhase(v.tables[|v.ops|].g, keep, x);
      u := SaveCard(v, keep, x);
    }
    GoesOn(r, v, u);
  }

  // ----- the theorem

  lemma CallAlone(r: Run) returns (u: Run)
    requires Legal(r) && r.tables[|r.ops|].g.status.Calling?
    ensures Legal(u) && Continues(r, u) && |u.ops| == |r.ops| + 1 && r.tables[|r.ops|].g.tricks == []
    ensures var g := r.tables[|r.ops|].g; u.tables[|u.ops|].g == ApplyCall(g, None, true).(version := g.version + 1)
    ensures u.tables[|u.ops|].discards == r.tables[|r.ops|].discards
  {
    hide Inv, ValidateMove, Resizes, Continues, Moved;
    var t := r.tables[|r.ops|];
    ReachableInv(r, |r.ops|);
    InvIndexable(t);
    BaseOf(t);
    NoTricksYet(t);
    var who, m := t.g.players[t.g.declarer].id, CallPartnerMove(None, true);
    AloneAllowed(t.g);
    u := MoveOn(r, who, m);
    MovedCall(t, who, Deck(t.g.N()));
  }

  lemma AloneAllowed(g: GameState)
    requires Indexable(g) && g.status.Calling? && Seated(g.players)
    ensures ValidateMove(g, g.players[g.declarer].id, CallPartnerMove(None, true)).Accept?
    ensures !Resizes(g, CallPartnerMove(None, true))
  {
    SeatOfPlayer(g.players, g.declarer);
  }

  lemma MovedCall(t: Table, who: string, deck: seq<Card>)
    requires Indexable(t.g) && ValidateMove(t.g, who, CallPartnerMove(None, true)).Accept? && |t.g.players| <= t.g.N()
    ensures var t1 := Moved(t, who, CallPartnerMove(None, true), deck);
            t1.g == ApplyCall(t.g, None, true).(version := t.g.version + 1) && t1.discards == t.discards
  {
    hide ValidateMove;
  }

  /** A declarer with surplus cards who can save a special plays it in the last trick. */
  lemma CallAndSave(r: Run, keep: Card, x: Card) returns (u: Run)
    requires Legal(r) && r.tables[|r.ops|].g.status.Calling? && |r.tables[|r.ops|].discards| < 3
    requires var g := r.tables[|r.ops|].g; Savable(g.trump, HandOf(g.players, g.declarer), keep, x)
    ensures Late(r, u, keep)
  {
    hide Inv, Saving, Savable, InLast, Continues, OneRound;
    var g := r.tables[|r.ops|].g;
    var v := CallAlone(r);
    CallSaves(g, keep, x);
    LateVersion(ApplyCall(g, None, true), g.version + 1, keep, x);
    u := SaveCard(v, keep, x);
    GoesOn(r, v, u);
  }

  /** After an exchange that leaves the declarer the Joker, some continuation of the round plays the Joker in
      the last trick exactly when the three discards are not all different. */
  lemma JokerLastExactly(r: Run, who: string, cards: seq<Card>, deck: seq<Card>)
    requires Legal(r) && OpOk(r.tables[|r.ops|], MoveOp(who, DiscardMove(cards), deck))
    requires JOKER in HandOf(r.tables[|r.ops|].g.players, r.tables[|r.ops|].g.declarer) && JOKER !in cards
    ensures (exists u :: Late(Then(r, MoveOp(who, DiscardMove(cards), deck)), u, JOKER)) <==> !NoDup(cards)
  {
    hide Inv, OpOk, After, NoDup, Late, Continues, OneRound;
    var t, op := r.tables[|r.ops|], MoveOp(who, DiscardMove(cards), deck);
    var r1 := Then(r, op);
    ThenLegal(r, op);
    ExchangeExact(r, |r.ops|, who, cards, deck);
    ReachableInv(r, |r.ops|);
    Exchange(t, who, cards, deck);
    if !NoDup(cards) {
      ThreeNames(cards);
      var u := CallAndSave(r1, JOKER, JOKER);
      assert Late(r1, u, JOKER);
    } else {
      forall u | Late(r1, u, JOKER) ensures false { NeverLate(r1, u); }
    }
  }

  lemma Exchange(t: Table, who: string, cards: seq<Card>, deck: seq<Card>)
    requires OpOk(t, MoveOp(who, DiscardMove(cards), deck)) && Inv(t)
    ensures var t1 := After(t, MoveOp(who, DiscardMove(cards), deck));
            && |cards| == 3 && t1.g.status.Calling? && t1.g.declarer == t.g.declarer
            && HandOf(t1.g.players, t1.g.declarer) == Keep(HandOf(t.g.players, t.g.declarer), cards)
            && (forall s :: s != t.g.declarer ==> HandOf(t1.g.players, s) == HandOf(t.g.players, s))
            && t1.g.trump == t.g.trump && t1.g.config == t.g.config && |t1.g.players| == |t.g.players|
  {
    hide Inv, ValidateMove, Resizes, IsDeal, Keep, Take, PointCards;
    BaseOf(t);
    AcceptedMove(t.g, who, DiscardMove(cards));
  }

  lemma NeverLate(r: Run, u: Run)
    requires Legal(r) && |r.tables[|r.ops|].discards| >= 3
    ensures !Late(r, u, JOKER)
  {
    hide Inv;
    if Late(r, u, JOKER) {
      var j := |u.ops|;
      RoundLeaves(u, |r.ops|, j);
      assert u.tables[|r.ops|] == r.tables[|r.ops|];
      var i :| 0 <= i < |u.tables[j].g.tricks[9].cards| && u.tables[j].g.tricks[9].cards[i].card == JOKER;
      ReachableInv(u, j);
      CallingHasNoTricks(u.tables[j]);
      SpecialsPlaced(u, j, 9, i);
    }
  }

  lemma CallingHasNoTricks(t: Table)
    requires t.g.tricks != [] && Discarded(t.g.status) && Inv(t)
    ensures InRound(t.g.status)
  {
    hide Inv;
    if t.g.status.Calling? { NoTricksYet(t); }
  }

  // ----- a declarer without specials

  /** Inside a round every card stays with its owner. */
  lemma OwnersStep(t: Table, op: Op)
    requires OpOk(t, op) && Discarded(t.g.status) && Discarded(After(t, op).g.status)
    requires Inv(t)
    ensures var t1 := After(t, op);
            forall s, c :: Owns(t.g.players, t.g.tricks, s, c) <==> Owns(t1.g.players, t1.g.tricks, s, c)
  {
    hide Inv, ValidateMove, IsDeal, Performed, Seated, Start, Owns;
    BaseOf(t);
    var t1 := After(t, op);
    match op
    case JoinOp(id, name, deck) => OwnersAlike(t.g.players, t1.g.players, t.g.tricks, t1.g.tricks);
    case MoveOp(id, m, deck) =>
      AcceptedMove(t.g, id, m);
      OwnersMove(t.g, id, m, deck);
  }

  lemma OwnersAlike(players: seq<Player>, players1: seq<Player>, tricks: seq<Trick>, tricks1: seq<Trick>)
    requires |players| == |players1| && forall s :: 0 <= s < |players| ==> players[s].hand == players1[s].hand
    requires |tricks| <= |tricks1| && forall j :: 0 <= j < |tricks| ==> tricks1[j].cards == tricks[j].cards
    requires forall j :: |tricks| <= j < |tricks1| ==> tricks1[j].cards == []
    ensures forall s, c :: Owns(players, tricks, s, c) <==> Owns(players1, tricks1, s, c)
  {
    hide Owns;
    forall s, c ensures Owns(players, tricks, s, c) <==> Owns(players1, tricks1, s, c) {
      SameLogSameOwners(players, players1, tricks, tricks1, c);
    }
  }

  lemma OwnersMove(g: GameState, id: string, m: Move, deck: seq<Card>)
    requires Indexable(g) && |g.players| <= g.N() && Seated(g.players) && ValidateMove(g, id, m).Accept?
    requires Discarded(g.status) && Discarded(Performed(g, id, m, deck).status)
    ensures var g1 := Performed(g, id, m, deck);
            forall s, c :: Owns(g.players, g.tricks, s, c) <==> Owns(g1.players, g1.tricks, s, c)
  {
    hide ValidateMove, SeatOf, Seated, ApplyPlay, ApplyPlayAgain, ApplyBid, ApplyPass, ApplyDiscard, PlayVerdict, Owns;
    AcceptedMove(g, id, m);
    var p, g1 := SeatOf(g.players, id), Performed(g, id, m, deck);
    match m
    case PlayCardMove(card, callJoker, calledSuit) =>
      PlayIsHeld(g, id, p, m);
      OwnersPlay(g, id, p, card, callJoker, calledSuit);
    case PlayAgainMove => VoteLeaves(g, p, deck); OwnersAlike(g.players, g1.players, g.tricks, g1.tricks);
    case ChangeConfigMove(size) => OwnersAlike(g.players, g1.players, g.tricks, g1.tricks);
    case CallPartnerMove(friend, alone) => OwnersAlike(g.players, g1.players, g.tricks, g1.tricks);
    case _ =>
  }

  lemma PlayIsHeld(g: GameState, id: string, p: int, m: Move)
    requires Indexable(g) && 0 <= p < |g.players| && m.PlayCardMove? && Fits(g, id, p, m)
    ensures g.tricks != [] && m.card in g.players[p].hand
  {
  }

  lemma OwnersPlay(g: GameState, id: string, p: int, card: Card, callJoker: bool, calledSuit: Suit)
    requires g.tricks != [] && 0 <= p < |g.players| && card in g.players[p].hand
    ensures var g1 := ApplyPlay(g, id, p, card, callJoker, calledSuit);
            forall s, c :: Owns(g.players, g.tricks, s, c) <==> Owns(g1.players, g1.tricks, s, c)
  {
    hide FriendSeat, ScoreLedger, RoundPayouts, PointCards, WinnerSeat, Reveals, AddLedger, Keep, Owns;
    var placed := PlaceCard(g, id, p, card, callJoker, calledSuit);
    var g1 := ApplyPlay(g, id, p, card, callJoker, calledSuit);
    forall s, c ensures Owns(g.players, g.tricks, s, c) <==> Owns(placed.players, placed.tricks, s, c) {
      PlayKeepsOwners(g.players, g.tricks, Played(id, p, card), placed.tricks[|g.tricks| - 1], c);
    }
    OwnersAlike(placed.players, g1.players, placed.tricks, g1.tricks);
  }

  lemma {:induction false} OwnersKept(u: Run, i: nat, j: nat)
    requires Legal(u) && i <= j <= |u.ops| && OneRound(u, i, j)
    ensures forall s, c :: Owns(u.tables[i].g.players, u.tables[i].g.tricks, s, c) <==>
                           Owns(u.tables[j].g.players, u.tables[j].g.tricks, s, c)
    decreases j
  {
    hide Inv, OpOk, After, Owns;
    if i < j {
      OwnersKept(u, i, j - 1);
      LegalStep(u, j - 1);
      OwnersStep(u.tables[j - 1], u.ops[j - 1]);
    }
  }

  /** A declarer left with neither special after the exchange never plays one in the last trick, and nobody
      else ever does. */
  lemma NeitherNever(r: Run, u: Run)
    requires Legal(r) && r.tables[|r.ops|].g.status.Calling?
    requires var g := r.tables[|r.ops|].g; forall c :: c in HandOf(g.players, g.declarer) ==> !IsSpecial(g.trump, c)
    requires Legal(u) && Continues(r, u) && OneRound(u, |r.ops|, |u.ops|)
    ensures !SpecialInLast(u.tables[|u.ops|].g)
  {
    hide Inv, Owns, IsSpecial;
    var i, j := |r.ops|, |u.ops|;
    assert u.tables[i] == r.tables[i];
    var t := u.tables[j];
    RoundLeaves(u, i, j);
    OwnersKept(u, i, j);
    ReachableInv(u, i);
    NoTricksYet(u.tables[i]);
    if SpecialInLast(t.g) {
      var k :| 0 <= k < |t.g.tricks[9].cards| && IsSpecial(t.g.trump, t.g.tricks[9].cards[k].card);
      var c := t.g.tricks[9].cards[k].card;
      ReachableInv(u, j);
      CallingHasNoTricks(t);
      SpecialsPlaced(u, j, 9, k);
      PlayedIsOwned(t.g, 9, k);
      assert Owns(u.tables[i].g.players, u.tables[i].g.tricks, t.g.declarer, c);
      OwnedUnplayed(u.tables[i].g, t.g.declarer, c);
    }
  }

  lemma PlayedIsOwned(g: GameState, j: int, k: int)
    requires 0 <= j < |g.tricks| && 0 <= k < |g.tricks[j].cards|
    ensures Owns(g.players, g.tricks, g.tricks[j].cards[k].seat, g.tricks[j].cards[k].card)
  {
    assert PlayedBy(g.tricks[j], g.tricks[j].cards[k].seat, g.tricks[j].cards[k].card);
  }

  lemma OwnedUnplayed(g: GameState, s: int, c: Card)
    requires g.tricks == [] && Owns(g.players, g.tricks, s, c)
    ensures c in HandOf(g.players, s)
  {
  }
}
