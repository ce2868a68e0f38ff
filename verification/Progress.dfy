/** Nobody is ever stuck: in every phase of every reachable game some move is accepted, and every
    deal comes to an end. */
module Progress {
  import opened Cards
  import opened Piles
  import opened Decks
  import opened Wrappers
  import opened State
  import opened Rules
  import opened Engine
  import opened Auction
  import opened Invariants
  import opened Play
  import opened Steps
  import opened Runs

  // ----- choosing a card

  lemma {:induction false} SuitCountOne(hand: seq<Card>, suit: Suit, only: Card)
    requires NoDup(hand) && forall i :: 0 <= i < |hand| && hand[i].suit == suit ==> hand[i] == only
    ensures SuitCount(hand, suit) <= 1
    ensures only !in hand ==> SuitCount(hand, suit) == 0
  {
    if hand != [] { SuitCountOne(hand[..|hand| - 1], suit, only); }
  }

  /** Three different cards of the deck cannot all be the Mighty or the Joker. */
  lemma OrdinaryAmongThree(n: int, trump: Suit, hand: seq<Card>) returns (c: Card)
    requires FromDeck(n, hand) && |hand| >= 3
    ensures c in hand && !IsSpecial(trump, c)
  {
    assert hand[0] in hand && hand[1] in hand && hand[2] in hand;
    DeckCard(n, hand[0]);
    DeckCard(n, hand[1]);
    DeckCard(n, hand[2]);
    if !IsSpecial(trump, hand[0]) { c := hand[0]; }
    else if !IsSpecial(trump, hand[1]) { c := hand[1]; }
    else { c := hand[2]; }
  }

  /** A card the rules accept: on the first trick an ordinary card (or a forced Mighty), later a
      special if one is held, and otherwise a card of the suit owed or anything. */
  lemma ChooseCard(n: int, trump: Suit, k: int, t: Trick, hand: seq<Card>) returns (c: Card, called: Suit)
    requires FromDeck(n, hand) && hand != [] && (k == 1 ==> |hand| > 3 && !t.jokerCalled)
    requires t.cards != [] ==> t.leadSuit.Real()
    ensures PlayVerdict(trump, k, t, hand, c, false, called).Accept?
  {
    called := Blank;
    if k == 1 {
      if t.cards == [] { c := ChooseFirstLead(n, trump, hand); } else { c := ChooseFirstFollow(n, trump, t, hand); }
    } else if HasMighty(trump, hand) {
      var i :| 0 <= i < |hand| && IsMighty(trump, hand[i]);
      c := hand[i];
    } else if HasJoker(hand) {
      var i :| 0 <= i < |hand| && hand[i].rank == Joker;
      c := hand[i];
      called := if t.cards == [] then Spades else Blank;
    } else if HasSuit(hand, t.leadSuit) {
      var i :| 0 <= i < |hand| && hand[i].suit == t.leadSuit;
      c := hand[i];
      assert c.rank != Joker;
    } else {
      c := hand[0];
      assert c.rank != Joker;
    }
  }

  lemma ChooseFirstLead(n: int, trump: Suit, hand: seq<Card>) returns (c: Card)
    requires FromDeck(n, hand) && |hand| > 3
    ensures c in hand && !IsSpecial(trump, c) && (c.suit == trump ==> !HasOrdinary(trump, hand))
  {
    if HasOrdinary(trump, hand) {
      var i :| 0 <= i < |hand| && hand[i].suit != trump && !IsSpecial(trump, hand[i]);
      c := hand[i];
    } else {
      c := OrdinaryAmongThree(n, trump, hand);
    }
  }

  lemma ChooseFirstFollow(n: int, trump: Suit, t: Trick, hand: seq<Card>) returns (c: Card)
    requires FromDeck(n, hand) && |hand| > 3 && t.cards != [] && !t.jokerCalled && t.leadSuit.Real()
    ensures PlayVerdict(trump, 1, t, hand, c, false, Blank).Accept?
  {
    forall i | 0 <= i < |hand| && hand[i].suit == t.leadSuit ensures hand[i].rank != Joker {
      assert hand[i] in hand;
      DeckCard(n, hand[i]);
    }
    if i :| 0 <= i < |hand| && hand[i].suit == t.leadSuit && !IsSpecial(trump, hand[i]) {
      c := hand[i];
    } else if i :| 0 <= i < |hand| && hand[i].suit == t.leadSuit {
      c := hand[i];
      SuitCountOne(hand, t.leadSuit, c);
    } else {
      c := OrdinaryAmongThree(n, trump, hand);
    }
  }

  /** In every reachable playing state the seat on turn holds a card that is accepted. */
  lemma NoStuckPlayer(r: Run, at: nat) returns (m: Move)
    requires Legal(r) && at <= |r.ops| && r.tables[at].g.status.Playing?
    ensures var g := r.tables[at].g;
            && Indexable(g) && m.PlayCardMove? && m.card in g.players[g.turn].hand
            && ValidateMove(g, g.players[g.turn].id, m).Accept?
  {
    ReachableInv(r, at);
    var t := r.tables[at];
    InvIndexable(t);
    m := PlayOnTurn(t);
    AcceptOnTurn(t.g, m);
  }

  lemma AcceptOnTurn(g: GameState, m: Move)
    requires Indexable(g) && g.status.Playing? && Seated(g.players) && g.tricks != [] && m.PlayCardMove?
    requires PlayVerdict(g.trump, |g.tricks|, g.tricks[|g.tricks| - 1], g.players[g.turn].hand, m.card, m.callJoker,
             m.calledSuit).Accept?
    ensures ValidateMove(g, g.players[g.turn].id, m).Accept? && m.card in g.players[g.turn].hand
  {
    hide PlayVerdict;
    SeatOfPlayer(g.players, g.turn);
    AcceptedIsHeld(g.trump, |g.tricks|, g.tricks[|g.tricks| - 1], g.players[g.turn].hand, m.card, m.callJoker,
        m.calledSuit);
  }

  lemma PlayOnTurn(t: Table) returns (m: Move)
    requires Indexable(t.g) && t.g.status.Playing? && Inv(t)
    ensures m.PlayCardMove? && !m.callJoker && t.g.tricks != [] && Seated(t.g.players)
    ensures PlayVerdict(t.g.trump, |t.g.tricks|, t.g.tricks[|t.g.tricks| - 1], t.g.players[t.g.turn].hand, m.card,
            m.callJoker, m.calledSuit).Accept?
  {
    hide Conserved, Deck, Books, BidLog, RotationLog, LeadLog, WinnerLog, HandSizes, Placement, NoRevoke,
         RenouncersOut, LateHands, RevealedRightly, FriendSeat, Accounted, PlayVerdict, FromDeck, InRotation, SeatIn,
         Seated;
    InvParts(t);
    var g, last := t.g, |t.g.tricks| - 1;
    var ids, leader := IdList(g.players), Leader(g.declarer, g.tricks, last);
    IdCount(g.players);
    HandFromDeck(g.N(), g.players, g.tricks, t.discards, g.turn);
    LogAt(ids, g.declarer, g.trump, g.tricks, last);
    TurnNotIn(ids, leader, g.tricks[last], g.turn);
    SizeAt(g.players, g.declarer, |t.discards|, g.tricks, g.turn);
    var c, called := ChooseCard(g.N(), g.trump, |g.tricks|, g.tricks[last], g.players[g.turn].hand);
    m := PlayCardMove(c, false, called);
  }

  /** Before the table is full anyone can join; afterwards somebody always has an accepted move. */
  lemma SomeMoveAlways(r: Run, at: nat) returns (who: string, m: Move)
    requires Legal(r) && at <= |r.ops| && !r.tables[at].g.status.Waiting?
    ensures var g := r.tables[at].g; Indexable(g) && ValidateMove(g, who, m).Accept? && !Resizes(g, m)
  {
    hide Inv;
    ReachableInv(r, at);
    var t := r.tables[at];
    InvIndexable(t);
    if t.g.status.Playing? {
      m := NoStuckPlayer(r, at);
      who := t.g.players[t.g.turn].id;
    } else {
      who, m := MoveOffPlay(t);
    }
  }

  lemma MoveOffPlay(t: Table) returns (who: string, m: Move)
    requires Indexable(t.g) && !t.g.status.Playing? && !t.g.status.Waiting? && Inv(t)
    ensures ValidateMove(t.g, who, m).Accept? && !Resizes(t.g, m)
  {
    hide Conserved, Deck, Books, BidLog, Accounted, Rotating, RoundInv;
    InvParts(t);
    var g := t.g;
    if g.status.Bidding? {
      who, m := g.players[g.turn].id, PassMove;
      SeatOfPlayer(g.players, g.turn);
    } else if g.status.Exchanging? {
      SeatOfPlayer(g.players, g.declarer);
      var hand := g.players[g.declarer].hand;
      who, m := g.players[g.declarer].id, DiscardMove([hand[0], hand[1], hand[2]]);
    } else if g.status.Calling? {
      SeatOfPlayer(g.players, g.declarer);
      who, m := g.players[g.declarer].id, CallPartnerMove(None, true);
    } else {
      SeatOfPlayer(g.players, 0);
      who, m := g.players[0].id, PlayAgainMove;
    }
  }

  // ----- every deal ends

  predicate InDeal(p: Phase) { p.Bidding? || p.Exchanging? || p.Calling? || p.Playing? }

  /** Steps left in a deal: bids and passes, then the exchange, the call and the cards. */
  function Remaining(g: GameState): int {
    match g.status
    case Waiting => 0
    case Bidding => 52 + AuctionMeasure(g.N(), Standing(g.currentBid), g.passed)
    case Exchanging => 52
    case Calling => 51
    case Playing => if g.tricks == [] then 50 else (10 - |g.tricks|) * g.N() + g.N() - |g.tricks[|g.tricks| - 1].cards|
    case Finished => 0
  }

  /** The table has just been dealt: nobody has bid or passed. */
  predicate JustDealt(g: GameState) { g.status.Bidding? && g.bids == [] }

  lemma BidShortens(t: Table, id: string, p: int, points: int, suit: Suit, noTrump: bool)
    requires Indexable(t.g) && t.g.status.Bidding? && ValidateBid(t.g, id, points, suit, noTrump).Accept?
    requires Inv(t)
    ensures var g1 := ApplyBid(t.g, id, p, points, suit, noTrump); Remaining(g1) < Remaining(t.g)
  {
    hide Conserved, Deck, Books, BidLog, Accounted, TenEach, Advance;
    InvParts(t);
    var opener :| Rotation(t.g.N(), opener, t.g.turn, t.g.declarer, t.g.passed, t.g.currentBid.Some?);
  }

  lemma PassShortens(t: Table, id: string, p: int, deck: seq<Card>)
    requires Indexable(t.g) && t.g.status.Bidding? && p == t.g.turn && |t.g.players| == t.g.N()
    requires Inv(t)
    ensures var g1 := ApplyPass(t.g, id, p, deck); JustDealt(g1) || Remaining(g1) < Remaining(t.g)
  {
    hide Conserved, Deck, Books, BidLog, Accounted, TenEach, Advance;
    InvParts(t);
    var g := t.g;
    var opener :| Rotation(g.N(), opener, g.turn, g.declarer, g.passed, g.currentBid.Some?);
    LastSeatMayBid(g.N(), opener, g.turn, g.declarer, g.passed, g.currentBid.Some?);
  }

  lemma PlayShortens(t: Table, id: string, p: int, card: Card, callJoker: bool, calledSuit: Suit)
    requires Indexable(t.g) && t.g.status.Playing? && t.g.tricks != []
    requires Inv(t)
    ensures Remaining(ApplyPlay(t.g, id, p, card, callJoker, calledSuit)) < Remaining(t.g)
  {
    hide Conserved, Deck, Books, BidLog, RotationLog, LeadLog, WinnerLog, HandSizes, Placement, NoRevoke,
         RenouncersOut, LateHands, RevealedRightly, FriendSeat, Accounted, Seated, Extend, SetHand, AddPoints,
         WinnerSeat, Reveals, FinishRound;
    InvParts(t);
    var g, n := t.g, t.g.N();
    var g1 := PlaceCard(g, id, p, card, callJoker, calledSuit);
    var last := |g.tricks| - 1;
    if |g1.tricks[last].cards| == n {
      var g2 := CloseTrick(g1);
      FinishEnds(g2);
      assert (10 - |g.tricks|) * n >= 0;
      if |g2.tricks| != 10 { Distribute(10 - |g.tricks|, n); }
    }
  }

  lemma Distribute(k: int, n: int)
    ensures (k - 1) * n + n == k * n
  {
  }

  lemma FinishEnds(g: GameState)
    ensures Remaining(FinishRound(g)) == 0
  {
  }

  /** Each move of a deal either throws the hand in for a new deal or brings the end nearer. */
  lemma MoveShortens(t: Table, id: string, m: Move, deck: seq<Card>)
    requires MoveOk(t, id, m, deck) && InDeal(t.g.status)
    requires Inv(t)
    ensures var g1 := Moved(t, id, m, deck).g; JustDealt(g1) || Remaining(g1) < Remaining(t.g)
  {
    hide Inv, ApplyBid, ApplyPass, ApplyDiscard, ApplyCall, ApplyPlay, Take, ValidateMove, ValidateBid,
         ValidateDiscard, ValidateCall, ValidatePlay, SeatOf, IsDeal, Resizes, Seated, Remaining, JustDealt,
         NextDiscards;
    var g, p, v := t.g, SeatOf(t.g.players, id), t.g.version + 1;
    BaseOf(t);
    AcceptedMove(g, id, m);
    match m
    case BidMove(points, suit, noTrump) =>
      BidShortens(t, id, p, points, suit, noTrump);
      VersionIdle(ApplyBid(g, id, p, points, suit, noTrump), v);
    case PassMove =>
      PassShortens(t, id, p, deck);
      VersionIdle(ApplyPass(g, id, p, deck), v);
    case DiscardMove(cards) =>
      ExchangeShortens(g, p, cards);
      VersionIdle(ApplyDiscard(g, p, cards), v);
    case CallPartnerMove(friend, alone) =>
      NoTricksYet(t);
      CallShortens(g, friend, alone);
      VersionIdle(ApplyCall(g, friend, alone), v);
    case PlayCardMove(card, callJoker, calledSuit) =>
      PlayPhase(g, id, p, card, callJoker, calledSuit);
      PlayShortens(t, id, p, card, callJoker, calledSuit);
      VersionIdle(ApplyPlay(g, id, p, card, callJoker, calledSuit), v);
    case PlayAgainMove =>
    case ChangeConfigMove(size) =>
  }

  lemma VersionIdle(g: GameState, version: int)
    ensures Remaining(g.(version := version)) == Remaining(g) && JustDealt(g.(version := version)) == JustDealt(g)
  {
  }

  lemma ExchangeShortens(g: GameState, p: int, cards: seq<Card>)
    requires g.status.Exchanging?
    ensures Remaining(ApplyDiscard(g, p, cards)) < Remaining(g)
  {
    hide SetHand, AddPoints, Keep, Take;
  }

  lemma CallShortens(g: GameState, friend: Option<Card>, alone: bool)
    requires g.status.Calling? && g.tricks == [] && g.N() <= 5
    ensures Remaining(ApplyCall(g, friend, alone)) < Remaining(g)
  {
    assert g.tricks + [NEWTRICK] == [NEWTRICK];
  }

  lemma NoTricksYet(t: Table)
    requires Inv(t) && t.g.status.Calling?
    ensures t.g.tricks == [] && t.g.N() <= 5
  {
    hide Conserved, Books, ContractInv, HandSizes, Accounted;
    InvParts(t);
  }

  function MoveCount(ops: seq<Op>): nat {
    if ops == [] then 0 else MoveCount(ops[..|ops| - 1]) + (if ops[|ops| - 1].MoveOp? then 1 else 0)
  }

  ghost predicate SameDeal(r: Run, i: int, j: int)
    requires Legal(r) && 0 <= i <= j <= |r.ops|
  {
    forall k :: i <= k <= j ==>
      InDeal(r.tables[k].g.status) && (k > i ==> !JustDealt(r.tables[k].g))
  }

  lemma RejoinIdle(t: Table, id: string, name: string, deck: seq<Card>)
    requires CanJoin(t.g, id) && InDeal(t.g.status) && |t.g.players| == t.g.N()
    ensures var g1 := Join(t.g, id, name, deck); Remaining(g1) == Remaining(t.g)
  {
  }

  /** Within one deal of any run there are only so many moves left: at most 67 from the first bid. */
  lemma {:induction false} DealEnds(r: Run, i: nat, j: nat)
    requires Legal(r) && i <= j <= |r.ops| && SameDeal(r, i, j)
    ensures MoveCount(r.ops[i..j]) + Remaining(r.tables[j].g) <= Remaining(r.tables[i].g) <= 67
    decreases j
  {
    hide Inv, Remaining, MoveOk, CanJoin, JustDealt, Moved, Join;
    if i == j {
      ReachableInv(r, i);
      assert r.ops[i..i] == [];
      RemainingBound(r.tables[i]);
    } else {
      DealEnds(r, i, j - 1);
      LegalStep(r, j - 1);
      assert r.ops[i..j][..j - 1 - i] == r.ops[i..j - 1];
      var t := r.tables[j - 1];
      match r.ops[j - 1]
      case JoinOp(who, name, deck) => FullInDeal(t); RejoinIdle(t, who, name, deck);
      case MoveOp(who, m, deck) => MoveShortens(t, who, m, deck);
    }
  }

  lemma FullInDeal(t: Table)
    requires InDeal(t.g.status) && Inv(t)
    ensures |t.g.players| == t.g.N()
  {
    InvParts(t);
  }

  lemma RemainingBound(t: Table)
    requires InDeal(t.g.status) && Inv(t)
    ensures 0 <= Remaining(t.g) <= 67
  {
    hide Conserved, Deck, Books, Accounted, RotationLog, LeadLog, WinnerLog, HandSizes, Placement, NoRevoke,
         RenouncersOut, LateHands, RevealedRightly, FriendSeat;
    InvParts(t);
    if t.g.status.Bidding? {
      var opener :| Rotation(t.g.N(), opener, t.g.turn, t.g.declarer, t.g.passed, t.g.currentBid.Some?);
      assert InRange(t.g.N(), t.g.passed);
    }
  }

  // ----- the outcome of the auction

  /** The contract is the last and strict maximum of all the bids, made by the declarer, and above the minimum. */
  lemma ContractIsHighestBid(r: Run, at: nat)
    requires Legal(r) && at <= |r.ops| && r.tables[at].g.status in {Exchanging, Calling, Playing, Finished}
    ensures var g := r.tables[at].g;
            && g.contract.Some? && 0 <= g.declarer < |g.players|
               && g.players[g.declarer].id == g.contract.value.playerID
            && g.config.MinBid() <= g.contract.value.points <= 10
            && exists k :: StandsAt(g.bids, g.contract.value, k)
  {
    hide Conserved, Deck, Books, Accounted, TrickLog, HandSizes, Placement, NoRevoke, RenouncersOut, LateHands,
         RevealedRightly, FriendSeat;
    ReachableInv(r, at);
    InvParts(r.tables[at]);
    var g := r.tables[at].g;
    assert ContractInv(g);
  }

  /** While a bid stands: the seat on turn is in the auction and did not make it, at most n - 2 seats
      have passed, and every seat strictly between the high bidder and the turn has. */
  lemma AuctionStructure(r: Run, at: nat)
    requires Legal(r) && at <= |r.ops| && r.tables[at].g.status.Bidding?
    ensures var g := r.tables[at].g;
            && 0 <= g.turn < g.N() && g.turn !in g.passed && |g.passed| < g.N()
            && (g.currentBid.Some? ==>
                  && 0 <= g.declarer < g.N() && g.declarer != g.turn && g.declarer !in g.passed
                     && |g.passed| <= g.N() - 2
                  && forall i :: 0 < i < Offset(g.N(), g.declarer, g.turn) ==> Rot(g.N(), g.declarer, i) in g.passed)
  {
    hide Conserved, Deck, Books, Accounted, BidLog;
    ReachableInv(r, at);
    InvParts(r.tables[at]);
    var g := r.tables[at].g;
    var opener :| Rotation(g.N(), opener, g.turn, g.declarer, g.passed, g.currentBid.Some?);
  }
}
