/** From every reachable game a finished round can be reached: no run is a dead end, and every phase is
    really reached. */
module Finishing {
  import opened Cards
  import opened Piles
  import opened Decks
  import opened State
  import opened Rules
  import opened Engine
  import opened Auction
  import opened Invariants
  import opened Play
  import opened Steps
  import opened Runs
  import opened Progress
  import opened Outcomes

  predicate Continues(r: Run, u: Run) { u.id == r.id && u.cfg == r.cfg && r.ops <= u.ops && r.tables <= u.tables }

  /** The phases of a round once the declarer has discarded. */
  predicate Discarded(p: Phase) { p.Calling? || p.Playing? || p.Finished? }

  /** From table i to table j the run stays in one round, past the exchange. */
  ghost predicate OneRound(u: Run, i: int, j: int) {
    0 <= i <= j < |u.tables| && forall k :: i <= k <= j ==> Discarded(u.tables[k].g.status)
  }

  /** A run that is v, or goes on from it, goes on from r, one operation earlier. */
  lemma GoesOn(r: Run, v: Run, u: Run)
    requires Legal(r) && Legal(v) && Legal(u) && Continues(r, v) && |v.ops| == |r.ops| + 1
    requires u == v || Continues(v, u)
    ensures Continues(r, u)
    ensures Discarded(r.tables[|r.ops|].g.status)
            && (if u == v then Discarded(v.tables[|v.ops|].g.status) else OneRound(u, |v.ops|, |u.ops|)) ==>
              OneRound(u, |r.ops|, |u.ops|)
  {
    assert u.tables[|r.ops|] == v.tables[|r.ops|] == r.tables[|r.ops|];
  }

  /** One more accepted move. */
  lemma MoveOn(r: Run, who: string, m: Move) returns (u: Run)
    requires Legal(r)
    requires var g := r.tables[|r.ops|].g;
             Indexable(g) && |g.players| <= g.N() && ValidateMove(g, who, m).Accept? && !Resizes(g, m)
    ensures Legal(u) && Continues(r, u) && |u.ops| == |r.ops| + 1
    ensures var t := r.tables[|r.ops|]; u.tables[|u.ops|] == Moved(t, who, m, Deck(t.g.N()))
  {
    hide Moved, ValidateMove, Resizes, Deck;
    var t := r.tables[|r.ops|];
    MoveIsOk(t, who, m, Deck(t.g.N()));
    u := Then(r, MoveOp(who, m, Deck(t.g.N())));
    ThenLegal(r, MoveOp(who, m, Deck(t.g.N())));
  }

  /** The phases a deal goes through on its way to the finish. */
  predicate Onward(before: Phase, after: Phase) {
    (before.Bidding? && after.Exchanging?) || (before.Exchanging? && after.Calling?)
    || (before.Calling? && after.Playing?) || (before.Playing? && (after.Playing? || after.Finished?))
  }

  /** A move that brings the deal nearer its end: the highest bid, any discard, going alone, any card. */
  lemma NextMove(t: Table) returns (who: string, m: Move)
    requires Indexable(t.g) && InDeal(t.g.status) && |t.g.players| == t.g.N()
    requires Inv(t)
    ensures ValidateMove(t.g, who, m).Accept? && !Resizes(t.g, m)
    ensures m.BidMove? || m.DiscardMove? || m.CallPartnerMove? || m.PlayCardMove?
    ensures m.BidMove? ==> m.points == 10
  {
    hide Inv;
    var g := t.g;
    if g.status.Playing? {
      m := PlayOnTurn(t);
      who := g.players[g.turn].id;
      AcceptOnTurn(g, m);
    } else if g.status.Bidding? {
      who, m := g.players[g.turn].id, BidMove(10, NoSuit, true);
      TopBidOpen(t);
    } else {
      who, m := MoveOffPlay(t);
    }
  }

  lemma TopBidOpen(t: Table)
    requires Indexable(t.g) && t.g.status.Bidding?
    requires Inv(t)
    ensures ValidateMove(t.g, t.g.players[t.g.turn].id, BidMove(10, NoSuit, true)).Accept?
  {
    hide Conserved, Books, BidLog, Accounted, Rotating, TenEach;
    InvParts(t);
    SeatOfPlayer(t.g.players, t.g.turn);
  }

  lemma MoveOnward(g: GameState, who: string, m: Move, deck: seq<Card>)
    requires Indexable(g) && |g.players| <= g.N() && Seated(g.players) && ValidateMove(g, who, m).Accept?
    requires m.BidMove? || m.DiscardMove? || m.CallPartnerMove? || m.PlayCardMove?
    requires m.BidMove? ==> m.points == 10
    ensures Onward(g.status, Performed(g, who, m, deck).status)
  {
    AcceptedMove(g, who, m);
    hide ValidateMove, SeatOf, Seated, FriendSeat, ScoreLedger, RoundPayouts, Keep, Take, PointCards, NextBidder,
         SetHand, AddPoints, WinnerSeat, Extend, Reveals, AddLedger, PlayVerdict;
  }

  /** The round's scores are filed when it ends. */
  lemma FinishAdds(g: GameState, who: string, m: Move, deck: seq<Card>)
    requires Indexable(g) && |g.players| <= g.N() && Seated(g.players) && ValidateMove(g, who, m).Accept?
    ensures var g1 := Performed(g, who, m, deck);
            !g.status.Finished? && g1.status.Finished? ==> |g1.history| == |g.history| + 1
  {
    AcceptedMove(g, who, m);
    hide ValidateMove, SeatOf, Seated, FriendSeat, ScoreLedger, RoundPayouts, Keep, Take, PointCards, NextBidder,
         SetHand, AddPoints, WinnerSeat, Extend, Reveals, AddLedger, PlayVerdict;
  }

  lemma {:induction false} FinishDeal(r: Run) returns (u: Run)
    requires Legal(r) && InDeal(r.tables[|r.ops|].g.status)
    ensures Legal(u) && Continues(r, u) && u.tables[|u.ops|].g.status.Finished?
    ensures Discarded(r.tables[|r.ops|].g.status) ==> OneRound(u, |r.ops|, |u.ops|)
    ensures |u.tables[|u.ops|].g.history| > |r.tables[|r.ops|].g.history|
    decreases Remaining(r.tables[|r.ops|].g)
  {
    hide Inv, MoveOk, Moved, Remaining, ValidateMove, Performed, Resizes, OneRound, Continues;
    var t := r.tables[|r.ops|];
    ReachableInv(r, |r.ops|);
    RemainingBound(t);
    FullInDeal(t);
    InvIndexable(t);
    BaseOf(t);
    var who, m := NextMove(t);
    var deck := Deck(t.g.N());
    MoveIsOk(t, who, m, deck);
    MoveShortens(t, who, m, deck);
    MoveOnward(t.g, who, m, deck);
    var v := MoveOn(r, who, m);
    MovedStatus(t, who, m, deck);
    HistoryMove(t.g, who, m, deck);
    FinishAdds(t.g, who, m, deck);
    if v.tables[|v.ops|].g.status.Finished? { u := v; } else { u := FinishDeal(v); }
    GoesOn(r, v, u);
  }

  lemma MoveIsOk(t: Table, who: string, m: Move, deck: seq<Card>)
    requires Indexable(t.g) && ValidateMove(t.g, who, m).Accept? && |t.g.players| <= t.g.N() && !Resizes(t.g, m)
             && deck == Deck(t.g.N())
    ensures MoveOk(t, who, m, deck)
  {
    hide ValidateMove, Deck, Resizes;
  }

  lemma MovedStatus(t: Table, who: string, m: Move, deck: seq<Card>)
    requires MoveOk(t, who, m, deck)
    ensures Indexable(t.g) && ValidateMove(t.g, who, m).Accept? && |t.g.players| <= t.g.N()
    ensures Moved(t, who, m, deck).g == Performed(t.g, who, m, deck).(version := t.g.version + 1)
  {
    hide ValidateMove, Performed;
  }

  // ----- filling the table

  /** A name no player has. */
  function NewName(players: seq<Player>): (s: string)
    ensures forall i :: 0 <= i < |players| ==> |players[i].id| < |s|
  {
    if players == [] then "x" else NewName(players[..|players| - 1]) + players[|players| - 1].id + "x"
  }

  /** A table as it is dealt from a deck: the first seat opens the bidding. */
  ghost predicate Dealt(g: GameState, deck: seq<Card>) {
    && (g.N() == 4 || g.N() == 5) && |g.players| == g.N() && |deck| == 10 * g.N() + 3 && g.status.Bidding?
       && g.turn == 0
    && g.currentBid.None? && g.passed == {} && g.kitty == deck[10 * g.N()..]
    && forall s :: 0 <= s < |g.players| ==> g.players[s].hand == HandFrom(deck, s)
  }

  /** Newcomers fill the table, and the last of them has the deck dealt. */
  lemma {:induction false} FillTable(r: Run, deck: seq<Card>) returns (u: Run)
    requires Legal(r) && r.tables[|r.ops|].g.status.Waiting? && IsDeal(r.tables[|r.ops|].g.N(), deck)
    ensures Legal(u) && Continues(r, u) && Dealt(u.tables[|u.ops|].g, deck)
    ensures u.tables[|u.ops|].g.config == r.tables[|r.ops|].g.config
    decreases r.tables[|r.ops|].g.N() - |r.tables[|r.ops|].g.players|
  {
    hide Inv, OpOk, After, CanJoin, Dealt, IsDeal;
    var t := r.tables[|r.ops|];
    ReachableInv(r, |r.ops|);
    BaseOf(t);
    var op := JoinOp(NewName(t.g.players), "", deck);
    InvFresh(t);
    NewcomerJoins(t, op);
    var u1 := Then(r, op);
    ThenLegal(r, op);
    if u1.tables[|u1.ops|].g.status.Waiting? { u := FillTable(u1, deck); } else { u := u1; }
  }

  lemma InvFresh(t: Table)
    requires t.g.status.Waiting? && Inv(t)
    ensures FreshInv(t)
  {
    InvParts(t);
  }

  lemma NewcomerJoins(t: Table, op: Op)
    requires op.JoinOp? && op.id == NewName(t.g.players) && IsDeal(t.g.N(), op.deck)
    requires BaseInv(t.g) && FreshInv(t) && t.g.status.Waiting?
    ensures OpOk(t, op)
    ensures var g1 := After(t, op).g;
            g1.config == t.g.config && |g1.players| == |t.g.players| + 1 && (g1.status.Waiting? || Dealt(g1, op.deck))
  {
    hide Deck;
    DeckSize(t.g.N());
    PermSize(op.deck, Deck(t.g.N()));
  }

  /** Every run can be continued to the end of a round. */
  lemma EveryRunCanFinish(r: Run) returns (u: Run)
    requires Legal(r)
    ensures Legal(u) && Continues(r, u) && u.tables[|u.ops|].g.status.Finished?
  {
    u := r;
    if u.tables[|u.ops|].g.status.Waiting? { u := FillTable(u, Deck(u.tables[|u.ops|].g.N())); }
    if !u.tables[|u.ops|].g.status.Finished? { u := FinishDeal(u); }
  }

  // ----- round after round

  lemma FreeVote(t: Table) returns (s: int)
    requires t.g.status.Finished? && Inv(t)
    ensures 0 <= s < |t.g.players| && s !in t.g.votes && |t.g.votes| < |t.g.players| == t.g.N() == t.g.config.numPlayers
  {
    hide Conserved, Books, RoundInv, ScoreLedger, RoundPayouts, FriendSeat;
    InvParts(t);
    PassedBound(|t.g.players|, t.g.votes);
    s :| 0 <= s < |t.g.players| && s !in t.g.votes;
  }

  lemma VoteCounts(g: GameState, s: int, deck: seq<Card>)
    requires g.status.Finished? && 0 <= s < |g.players| == g.N() == g.config.numPlayers && s !in g.votes
             && |deck| == 10 * g.N() + 3
    ensures var g1 := ApplyPlayAgain(g, s, deck);
            && g1.history == g.history && g1.N() == g.N()
            && (g1.status.Bidding? || (g1.status.Finished? && |g1.votes| == |g.votes| + 1))
  {
  }

  lemma VoteAllowed(g: GameState, s: int)
    requires Indexable(g) && g.status.Finished? && Seated(g.players) && 0 <= s < |g.players|
    ensures ValidateMove(g, g.players[s].id, PlayAgainMove).Accept? && SeatOf(g.players, g.players[s].id) == s
    ensures !Resizes(g, PlayAgainMove)
  {
    SeatOfPlayer(g.players, s);
  }

  /** The votes still missing start the next deal. */
  lemma {:induction false} VoteOn(r: Run) returns (u: Run)
    requires Legal(r) && r.tables[|r.ops|].g.status.Finished?
    ensures Legal(u) && Continues(r, u) && InDeal(u.tables[|u.ops|].g.status)
    ensures u.tables[|u.ops|].g.history == r.tables[|r.ops|].g.history
    decreases r.tables[|r.ops|].g.N() - |r.tables[|r.ops|].g.votes|
  {
    hide Inv, Moved, ValidateMove, Resizes, Continues, Deck, ApplyPlayAgain, MoveOk;
    var t := r.tables[|r.ops|];
    ReachableInv(r, |r.ops|);
    InvIndexable(t);
    BaseOf(t);
    var s := FreeVote(t);
    var who, deck := t.g.players[s].id, Deck(t.g.N());
    VoteAllowed(t.g, s);
    DeckSize(t.g.N());
    VoteCounts(t.g, s, deck);
    var v := MoveOn(r, who, PlayAgainMove);
    MoveIsOk(t, who, PlayAgainMove, deck);
    MovedStatus(t, who, PlayAgainMove, deck);
    if v.tables[|v.ops|].g.status.Finished? { u := VoteOn(v); } else { u := v; }
    GoesOn(r, v, u);
  }

  /** From every run, finished or not, another round can be played to its end and its scores filed. */
  lemma AnotherRound(r: Run) returns (u: Run)
    requires Legal(r)
    ensures Legal(u) && Continues(r, u) && u.tables[|u.ops|].g.status.Finished?
    ensures |u.tables[|u.ops|].g.history| > |r.tables[|r.ops|].g.history|
  {
    hide Inv;
    var v := r;
    if r.tables[|r.ops|].g.status.Waiting? {
      ReachableInv(r, |r.ops|);
      InvFresh(r.tables[|r.ops|]);
      v := FillTable(r, Deck(r.tables[|r.ops|].g.N()));
    } else if r.tables[|r.ops|].g.status.Finished? {
      v := VoteOn(r);
    }
    u := FinishDeal(v);
  }
}
