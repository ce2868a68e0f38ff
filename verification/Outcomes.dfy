/** The friend, the points and the scores, over whole runs. */
module Outcomes {
  import opened Cards
  import opened Piles
  import opened Decks
  import opened State
  import opened Rules
  import opened Scoring
  import opened Engine
  import opened Auction
  import opened Invariants
  import opened Play
  import opened Ownership
  import opened Tricks
  import opened BookKeeping
  import opened Steps
  import opened Runs
  import opened Points
  import opened Rounds

  // ----- the friend

  /** The friend is the one seat that holds, or has played, the called card. */
  lemma FriendOwnsCard(r: Run, at: nat, s: int)
    requires Legal(r) && at <= |r.ops| && InRound(r.tables[at].g.status) && r.tables[at].g.partnerCard.Some?
    ensures var g := r.tables[at].g;
            && -1 <= Friend(g) < |g.players|
            && ((0 <= s && s == Friend(g)) <==> Owns(g.players, g.tricks, s, g.partnerCard.value))
  {
    hide Inv, Conserved, HandSizes, LateHands, Placement, NoRevoke, RenouncersOut, Accounted, RevealedRightly,
         RotationLog, LeadLog, WinnerLog, Owns, HandSeat, LogSeat;
    ReachableInv(r, at);
    var t := r.tables[at];
    var g := t.g;
    RoundOf(t);
    IdCount(g.players);
    LogSeatsOf(IdList(g.players), g.declarer, g.tricks);
    LocateOwner(g.N(), g.players, [], g.tricks, t.discards, g.partnerCard.value);
  }

  lemma FriendAfterPlay(t: Table, id: string, p: int, card: Card, callJoker: bool, calledSuit: Suit)
    requires Indexable(t.g) && t.g.status.Playing? && p == t.g.turn && 0 <= p < |t.g.players| && t.g.players[p].id == id
    requires ValidatePlay(t.g, id, p, card, callJoker, calledSuit).Accept?
    requires Inv(t)
    ensures t.g.tricks != [] && Friend(ApplyPlay(t.g, id, p, card, callJoker, calledSuit)) == Friend(t.g)
  {
    hide Conserved, Deck, Books, BidLog, RotationLog, LeadLog, WinnerLog, NoRevoke, RenouncersOut, FriendSeat,
         Accounted, RevealedRightly, HandSizes, LateHands, Placement, PlayVerdict, Seated, IdList, InRotation,
         LeadDeclared, Extend, FinishRound, SetHand, WinnerSeat, Reveals;
    InvParts(t);
    var g, last := t.g, |t.g.tricks| - 1;
    PlaceKeeps(t, id, p, card, callJoker, calledSuit);
    var t1 := Table(PlaceCard(g, id, p, card, callJoker, calledSuit), t.discards);
    if |t1.g.tricks[last].cards| == g.N() {
      var g2 := CloseTrick(t1.g);
      CloseKeeps(t1, g2);
      FriendOpens(g2, t.discards);
      FinishFriend(g2);
    }
  }

  lemma FinishFriend(g: GameState)
    ensures Friend(FinishRound(g)) == Friend(g)
  {
  }

  /** One operation of a round leaves the friend where it is. */
  lemma FriendStep(t: Table, op: Op)
    requires OpOk(t, op) && InRound(t.g.status) && InRound(After(t, op).g.status)
    requires Inv(t)
    ensures Friend(After(t, op).g) == Friend(t.g)
  {
    hide Inv, Conserved, ApplyBid, ApplyPass, ApplyDiscard, ApplyCall, ApplyPlay, NextRound, ValidateMove,
         ValidateBid, ValidateDiscard, ValidateCall, ValidatePlay, SeatOf, IsDeal, Resizes, Seated, FriendSeat,
         NextDiscards;
    var g := t.g;
    BaseOf(t);
    match op
    case JoinOp(id, name, deck) =>
      var p := SeatOf(g.players, id);
      var after := g.players[p := g.players[p].(name := name, connected := true)];
      FriendOnlyHands(g.players, after, g.tricks, g.noFriend, g.partnerCard);
    case MoveOp(id, m, deck) =>
      AcceptedMove(g, id, m);
      var p := SeatOf(g.players, id);
      match m
      case PlayCardMove(card, callJoker, calledSuit) => FriendAfterPlay(t, id, p, card, callJoker, calledSuit);
      case PlayAgainMove => RestartLeaves(g, p, deck);
      case ChangeConfigMove(size) =>
      case _ =>
  }

  lemma RestartLeaves(g: GameState, p: int, deck: seq<Card>)
    requires |g.players| <= g.N()
    ensures InRound(ApplyPlayAgain(g, p, deck).status) ==> ApplyPlayAgain(g, p, deck) == g.(votes := g.votes + {p})
  {
  }

  ghost predicate SameRound(r: Run, i: int, j: int)
    requires Legal(r) && 0 <= i <= j <= |r.ops|
  {
    forall k :: i <= k <= j ==> InRound(r.tables[k].g.status)
  }

  /** From the call to the end of the round the scan for the friend keeps giving the same seat. */
  lemma {:induction false} FriendStable(r: Run, i: nat, j: nat)
    requires Legal(r) && i <= j <= |r.ops| && SameRound(r, i, j)
    ensures Friend(r.tables[i].g) == Friend(r.tables[j].g)
    decreases j
  {
    hide Inv, Friend, OpOk, After;
    if i < j {
      FriendStable(r, i, j - 1);
      LegalStep(r, j - 1);
      FriendStep(r.tables[j - 1], r.ops[j - 1]);
    }
  }

  ghost predicate GivesAway(t: Trick, play: Played, friend: int) {
    && t.winner == friend && play in t.cards
    && (play.card.rank in {Ace, King, Queen, Jack, Ten} || (play.card.rank == Joker && play.seat == friend))
  }

  lemma RevealsByCard(t: Trick, friend: int)
    ensures t.winner == friend && Reveals(t, friend) <==> exists play :: GivesAway(t, play, friend)
  {
    if Reveals(t, friend) {
      var i :| 0 <= i < |t.cards| && (t.cards[i].card.IsPoint()
          || (t.cards[i].seat == friend && t.cards[i].card.rank == Joker));
      assert t.winner == friend ==> GivesAway(t, t.cards[i], friend);
    }
  }

  /** The table knows the friend exactly when some completed trick was won by the friend and held a
      scoring card or the friend's Joker. */
  lemma FriendRevealed(r: Run, at: nat)
    requires Legal(r) && at <= |r.ops| && InRound(r.tables[at].g.status)
    ensures var g := r.tables[at].g;
            && (g.partnerSeat == -1 || g.partnerSeat == Friend(g) >= 0)
            && (g.partnerSeat != -1 <==>
                Friend(g) >= 0
                && exists j, play :: 0 <= j < Complete(g) <= |g.tricks| && GivesAway(g.tricks[j], play, Friend(g)))
  {
    hide GivesAway, Inv, Conserved, HandSizes, LateHands, Placement, NoRevoke, RenouncersOut, Accounted, RotationLog,
         LeadLog, WinnerLog, FriendSeat, Reveals;
    ReachableInv(r, at);
    var g := r.tables[at].g;
    RoundOf(r.tables[at]);
    var fs, won := Friend(g), g.tricks[..Complete(g)];
    assert forall j :: 0 <= j < Complete(g) ==> won[j] == g.tricks[j];
    if fs >= 0 && Defended(won, fs) {
      var j :| 0 <= j < |won| && won[j].winner == fs && Reveals(won[j], fs);
      RevealsByCard(g.tricks[j], fs);
    }
    if j, play :| 0 <= j < Complete(g) && GivesAway(g.tricks[j], play, fs) {
      RevealsByCard(g.tricks[j], fs);
      assert won[j].winner == fs && Reveals(won[j], fs);
    }
  }

  // ----- points

  lemma PointsOf(t: Table)
    requires !t.g.status.Waiting? && Inv(t)
    ensures Accounted(t.g.players, t.g.declarer, t.discards, t.g.tricks[..Complete(t.g)])
    ensures (0 <= t.g.declarer < |t.g.players|) || t.discards == []
    ensures forall j :: 0 <= j < Complete(t.g) ==> 0 <= t.g.tricks[j].winner < |t.g.players|
  {
    hide Conserved, Books, BidLog, Accounted, HandSizes, LateHands, Placement, NoRevoke, RenouncersOut,
         RevealedRightly, RotationLog, LeadLog, WinnerLog, TenEach;
    InvParts(t);
    if InRound(t.g.status) {
      RoundOf(t);
      forall j | 0 <= j < Complete(t.g) ensures 0 <= t.g.tricks[j].winner < |t.g.players| { WinnerInRange(t, j); }
    } else {
      assert t.g.tricks[..0] == [];
    }
  }

  lemma WinnerInRange(t: Table, j: int)
    requires InRound(t.g.status) && RoundInv(t, Complete(t.g)) && 0 <= j < Complete(t.g)
    ensures 0 <= t.g.tricks[j].winner < |t.g.players|
  {
    hide Conserved, Accounted, HandSizes, LateHands, Placement, NoRevoke, RenouncersOut, RevealedRightly, RotationLog,
         LeadLog, WinnerLog, BestIndex, FriendSeat;
    var g := t.g;
    IdCount(g.players);
    WonAt(|g.players|, g.trump, g.tricks, Complete(g), j);
    LogAt(IdList(g.players), g.declarer, g.trump, g.tricks, j);
    WinnerSeated(IdList(g.players), Leader(g.declarer, g.tricks, j), g.trump, j + 1, g.tricks[j]);
  }

  /** At every moment the players' piles, the hands, the kitty and the trick on the table hold the twenty
      scoring cards between them; each pile is what the seat discarded and captured, in order. */
  lemma TwentyScoringCards(r: Run, at: nat)
    requires Legal(r) && at <= |r.ops| && !r.tables[at].g.status.Waiting?
    ensures var t := r.tables[at];
            var done := Complete(t.g);
            && (forall s :: 0 <= s < |t.g.players| ==>
               t.g.players[s].points == Pile(t.g.declarer, t.discards, t.g.tricks[..done], s))
            && TotalPoints(t.g.players) + |PointCards(Flatten(Hands(t.g.players)))| + |PointCards(t.g.kitty)|
               + (if done < |t.g.tricks| then |PointCards(CardsIn(t.g.tricks[done]))| else 0) == 20
  {
    hide PhaseInv, Conserved, Deck, Books, PointCards;
    ReachableInv(r, at);
    InvParts(r.tables[at]);
    var t := r.tables[at];
    PointsOf(t);
    PointsMakeTwenty(t.g.N(), t.g.players, t.g.kitty, t.g.tricks, t.g.declarer, t.discards, Complete(t.g));
  }

  /** With three different discards, all twenty are in the piles when the round is over. */
  lemma AllTwentyAtFinish(r: Run, at: nat)
    requires Legal(r) && at <= |r.ops| && r.tables[at].g.status.Finished?
    ensures var t := r.tables[at];
            && TotalPoints(t.g.players) <= 20
            && (|t.discards| == 3 ==> TotalPoints(t.g.players) == 20)
            && (TotalPoints(t.g.players) == 20 <==> forall s :: 0 <= s < |t.g.players| ==>
               PointCards(t.g.players[s].hand) == [])
  {
    hide Inv, Conserved, Deck, LateHands, Placement, NoRevoke, RenouncersOut, Accounted, RevealedRightly, RotationLog,
         LeadLog, WinnerLog, PointCards, Flatten, SeatIn;
    TwentyScoringCards(r, at);
    ReachableInv(r, at);
    var t := r.tables[at];
    var g := t.g;
    RoundOf(t);
    KittyGone(t);
    NoPoints();
    PointsInHands(Hands(g.players));
    if |t.discards| == 3 {
      forall s | 0 <= s < |g.players| ensures PointCards(g.players[s].hand) == [] {
        HandsPlayedOut(t, s);
      }
      assert forall i :: 0 <= i < |Hands(g.players)| ==> PointCards(Hands(g.players)[i]) == [];
    }
    assert forall s :: 0 <= s < |g.players| ==> Hands(g.players)[s] == g.players[s].hand;
  }

  /** At the finish only a declarer with surplus cards has any left. */
  lemma HandsPlayedOut(t: Table, s: int)
    requires t.g.status.Finished? && 0 <= s < |t.g.players|
    requires Inv(t)
    ensures |t.g.players[s].hand| == if s == t.g.declarer then 3 - |t.discards| else 0
  {
    hide Conserved, LateHands, Placement, NoRevoke, RenouncersOut, Accounted, RevealedRightly, RotationLog, LeadLog,
         WinnerLog, FriendSeat, Books;
    InvParts(t);
    var g := t.g;
    IdCount(g.players);
    FullAt(IdList(g.players), g.declarer, g.trump, g.tricks, 9);
    SeatInRotation(IdList(g.players), Leader(g.declarer, g.tricks, 9), g.tricks[9], s);
    RotOnto(|g.players|, Leader(g.declarer, g.tricks, 9), s);
  }

  lemma {:induction false} PointsInHands(rows: seq<seq<Card>>)
    ensures |PointCards(Flatten(rows))| == 0 <==> forall i :: 0 <= i < |rows| ==> PointCards(rows[i]) == []
  {
    hide PointCards;
    if rows == [] {
      NoPoints();
    } else {
      var init, last := rows[..|rows| - 1], rows[|rows| - 1];
      PointsInHands(init);
      PointsConcat(Flatten(init), last);
      assert forall i :: 0 <= i < |init| ==> init[i] == rows[i];
    }
  }

  // ----- scores

  /** At every finish the scores are the payouts of the contract: they cancel out, their signs tell
      success, and nobody wins or loses more than 640 (five players) or 480 (four). */
  lemma FinalScores(r: Run, at: nat, s: int)
    requires Legal(r) && at <= |r.ops| && r.tables[at].g.status.Finished? && 0 <= s < |r.tables[at].g.players|
    ensures var g := r.tables[at].g;
            var fs := Friend(g);
            && g.contract.Some? && 0 <= g.declarer < |g.players| == g.N()
            && var p, y := TeamPoints(g.players, g.declarer, fs), RoundPayouts(g);
            && Get(g.scores, g.players[s].id) == Share(y, g.declarer, fs, s)
            && Sum(IdList(g.players), g.scores) == 0
            && (p >= g.contract.value.points + 10 <==> y.declarer >= 0)
            && (p >= g.contract.value.points + 10 ==> y.partner >= 0 && y.opponent <= 0)
            && (p < g.contract.value.points + 10 ==> y.declarer < 0 && y.partner <= 0 && y.opponent > 0)
            && -160 * (g.N() - 1) <= Get(g.scores, g.players[s].id) <= 160 * (g.N() - 1)
  {
    hide Inv, Conserved, Deck, Books, HandSizes, LateHands, Placement, NoRevoke, RenouncersOut, Accounted,
         RevealedRightly, TrickLog, PayoutOf, TeamPoints, TotalPoints, Opponents, PointCards, ScoreLedger, BidLog,
         Share, Sum, Get, HandSeat, LogSeat;
    ReachableInv(r, at);
    AllTwentyAtFinish(r, at);
    var t := r.tables[at];
    FinishFacts(t);
    var g := t.g;
    var fs := Friend(g);
    TeamWithinTotal(g.players, g.declarer, fs);
    ScoreLedgerEntries(g.players, RoundPayouts(g), g.declarer, fs);
    RoundCancels(g);
    ScoreSoundness(g.config, g.contract.value, g.noFriend, g.declarer, fs, TeamPoints(g.players, g.declarer, fs), s);
  }

  lemma FinishFacts(t: Table)
    requires t.g.status.Finished? && Inv(t)
    ensures ContractInv(t.g) && |t.g.players| == t.g.N() && Seated(t.g.players) && Distinct(IdList(t.g.players))
    ensures t.g.scores == ScoreLedger(t.g.players, RoundPayouts(t.g), t.g.declarer, Friend(t.g))
    ensures -1 <= Friend(t.g) < |t.g.players| && (t.g.noFriend ==> Friend(t.g) == -1)
    ensures t.g.N() == 4 || t.g.N() == 5
    ensures t.g.config.Seats() == t.g.N()
  {
    hide Conserved, HandSizes, LateHands, Placement, NoRevoke, RenouncersOut, Accounted, RevealedRightly, RotationLog,
         LeadLog, WinnerLog, Books, BidLog, ScoreLedger, RoundPayouts, HandSeat, LogSeat;
    InvParts(t);
    RoundOf(t);
    FriendOpens(t.g, t.discards);
  }

  /** The books of every run: each round and the totals cancel out, and totals are sums of the history. */
  lemma BooksBalance(r: Run, at: nat)
    requires Legal(r) && at <= |r.ops|
    ensures var g := r.tables[at].g;
            && (forall h :: 0 <= h < |g.history| ==> Sum(IdList(g.players), g.history[h]) == 0)
            && Sum(IdList(g.players), g.totals) == 0
            && (forall who :: Get(g.totals, who) == Accumulated(g.history, who))
  {
    hide Conserved, ExchangingInv, CallingInv, BiddingInv, PlayingInv, FinishedInv, Sum;
    ReachableInv(r, at);
    InvParts(r.tables[at]);
    EmptyBooks(IdList(r.tables[at].g.players));
  }

  ghost predicate HistoryNext(g: GameState, after: GameState) {
    && g.history <= after.history
    && (after.history == g.history || (g.status.Playing? && |after.history| == |g.history| + 1))
  }

  lemma HistoryMove(g: GameState, id: string, m: Move, deck: seq<Card>)
    requires Indexable(g) && ValidateMove(g, id, m).Accept? && |g.players| <= g.N() && Seated(g.players)
    ensures HistoryNext(g, Performed(g, id, m, deck))
  {
    AcceptedMove(g, id, m);
    hide ValidateMove, SeatOf, Seated, FriendSeat, ScoreLedger, RoundPayouts, Keep, Take, PointCards, NextBidder,
         SetHand, AddPoints, WinnerSeat, Extend, Reveals, AddLedger, DealTo, ClearPoints, PlayVerdict;
  }

  lemma HistoryStep(t: Table, op: Op)
    requires OpOk(t, op)
    requires Inv(t)
    ensures HistoryNext(t.g, After(t, op).g)
  {
    hide Inv, ValidateMove, Performed, DealTo;
    BaseOf(t);
    match op
    case JoinOp(id, name, deck) =>
    case MoveOp(id, m, deck) => HistoryMove(t.g, id, m, deck);
  }

  /** Entries of the score history are never altered: an earlier history is a prefix of every later one. */
  lemma {:induction false} HistoryOnlyGrows(r: Run, i: nat, j: nat)
    requires Legal(r) && i <= j <= |r.ops|
    ensures r.tables[i].g.history <= r.tables[j].g.history
    decreases j
  {
    hide Inv, OpOk, After;
    if i < j {
      HistoryOnlyGrows(r, i, j - 1);
      LegalStep(r, j - 1);
      HistoryStep(r.tables[j - 1], r.ops[j - 1]);
    }
  }
}
