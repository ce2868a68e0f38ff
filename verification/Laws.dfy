/** What the story of the operations says about the moves of a run. */
module Laws {
  import opened Cards
  import Piles
  import opened Decks
  import opened Wrappers
  import opened State
  import opened Rules
  import opened Engine
  import opened Auction
  import opened Invariants
  import opened Steps
  import opened Runs
  import opened Rounds
  import opened Story
  import opened Telling

  // ----- the cards played

  /** The story before and after operation k. */
  lemma TwoTables(r: Run, k: nat)
    requires Legal(r) && k < |r.ops|
    ensures Told(r.tables[k].g, TaleOf(r.cfg, r.ops[..k]))
    ensures Told(r.tables[k + 1].g, Tell(TaleOf(r.cfg, r.ops[..k]), r.ops[k]))
  {
    hide Told, Tell;
    StoryHolds(r, k);
    StoryHolds(r, k + 1);
    assert r.ops[..k + 1][..k] == r.ops[..k];
  }

  /** The first card of a trick settles what is owed: its suit, or the suit called with the Joker; and the Joker
      is called exactly when the move calls it with the joker caller. */
  lemma LeadStored(r: Run, k: nat)
    requires Legal(r) && k < |r.ops| && r.ops[k].MoveOp? && r.ops[k].move.PlayCardMove?
    requires var tricks := r.tables[k].g.tricks; tricks != [] && tricks[|tricks| - 1].cards == []
    ensures var g, g1, m := r.tables[k].g, r.tables[k + 1].g, r.ops[k].move;
            var last := |g.tricks| - 1;
            && last < |g1.tricks| && |g1.tricks[last].cards| == 1
            && g1.tricks[last].cards[0].playerID == r.ops[k].id && g1.tricks[last].cards[0].card == m.card
            && g1.tricks[last].leadSuit == (if m.card.rank == Joker then m.calledSuit else m.card.suit)
            && (g1.tricks[last].jokerCalled <==> m.callJoker && JokerCaller(g.trump, m.card))
  {
    hide HandsFit, SeatsFit, TurnFits, RoundFits, FriendFits, Place, AuctionFits;
    TwoTables(r, k);
    var g, s := r.tables[k].g, TaleOf(r.cfg, r.ops[..k]);
    EmptyIsOpen(g, s);
    SameTrump(r, k);
    var m := r.ops[k].move;
    var s1 := Tell(s, r.ops[k]);
    assert s1.tricks[|s.tricks|] == [Turn(Place(s.guests, r.ops[k].id), m.card, m.callJoker, m.calledSuit)];
  }

  /** A trick without cards is the one after those of the story. */
  lemma EmptyIsOpen(g: GameState, s: Tale)
    requires TricksFit(g, s) && g.tricks != [] && g.tricks[|g.tricks| - 1].cards == []
    ensures |g.tricks| == |s.tricks| + 1 && g.status.Playing? && !OpenTrick(s)
  {
    var last := |g.tricks| - 1;
    assert |s.tricks| == last + 1 ==> TrickFits(s.guests, g.trump, g.tricks[last], s.tricks[last]);
  }

  lemma SameTrump(r: Run, k: nat)
    requires Legal(r) && k < |r.ops| && r.ops[k].MoveOp? && r.ops[k].move.PlayCardMove?
    ensures r.tables[k + 1].g.trump == r.tables[k].g.trump
  {
    hide Inv, ValidateMove, FriendSeat, ScoreLedger, RoundPayouts, PointCards, WinnerSeat, Reveals, AddLedger, Extend,
         SetHand, AddPoints, IsDeal, Resizes;
    LegalStep(r, k);
    BaseOf(r.tables[k]);
    AcceptedMove(r.tables[k].g, r.ops[k].id, r.ops[k].move);
  }

  /** The cards played since the last call, in order. */
  function SinceCall(ops: seq<Op>): seq<Op> {
    if ops == [] then [] else Since(SinceCall(ops[..|ops| - 1]), ops[|ops| - 1])
  }

  function Since(since: seq<Op>, op: Op): seq<Op> {
    if op.MoveOp? && op.move.CallPartnerMove? then []
    else if op.MoveOp? && op.move.PlayCardMove? then since + [op]
    else since
  }

  function AllPlays(tricks: seq<Trick>): seq<Played> {
    if tricks == [] then [] else AllPlays(tricks[..|tricks| - 1]) + tricks[|tricks| - 1].cards
  }

  function AllTurns(tricks: seq<seq<Turn>>): seq<Turn> {
    if tricks == [] then [] else AllTurns(tricks[..|tricks| - 1]) + tricks[|tricks| - 1]
  }

  ghost predicate PlayMatches(play: Played, op: Op) {
    op.MoveOp? && op.move.PlayCardMove? && play.playerID == op.id && play.card == op.move.card
  }

  ghost predicate TurnMatches(guests: seq<Guest>, turn: Turn, op: Op) {
    && op.MoveOp? && op.move.PlayCardMove? && 0 <= turn.seat < |guests| && guests[turn.seat].id == op.id
    && turn.card == op.move.card && turn.callJoker == op.move.callJoker && turn.called == op.move.calledSuit
  }

  lemma {:induction false} PlaysFit(guests: seq<Guest>, trump: Suit, tricks: seq<Trick>, laid: seq<seq<Turn>>)
    requires |tricks| == |laid| && forall k :: 0 <= k < |laid| ==> TrickFits(guests, trump, tricks[k], laid[k])
    ensures |AllPlays(tricks)| == |AllTurns(laid)|
    ensures forall i :: 0 <= i < |AllTurns(laid)| ==>
              var turn := AllTurns(laid)[i];
              0 <= turn.seat < |guests| && AllPlays(tricks)[i] == Played(guests[turn.seat].id, turn.seat, turn.card)
  {
    if tricks != [] {
      var last := |tricks| - 1;
      PlaysFit(guests, trump, tricks[..last], laid[..last]);
      assert TrickFits(guests, trump, tricks[last], laid[last]);
    }
  }

  lemma TurnsLaid(n: int, tricks: seq<seq<Turn>>, card: Turn)
    ensures AllTurns(Laid(n, tricks, card)) == AllTurns(tricks) + [card]
  {
    var last := |tricks| - 1;
    if tricks == [] || |tricks[last]| == n {
      assert (tricks + [[card]])[..|tricks|] == tricks;
    } else {
      assert tricks[last := tricks[last] + [card]][..last] == tricks[..last];
    }
  }

  ghost predicate TurnsMatch(s: Tale, since: seq<Op>) {
    var turns := AllTurns(s.tricks);
    |turns| == |since| && forall i :: 0 <= i < |turns| ==> TurnMatches(s.guests, turns[i], since[i])
  }

  /** How an operation can lead into, or stay in, the play of a round. */
  lemma RoundBefore(t: Table, op: Op)
    requires OpOk(t, op) && InRound(After(t, op).g.status)
    requires Inv(t)
    ensures if op.MoveOp? && op.move.CallPartnerMove? then t.g.status.Calling? else InRound(t.g.status)
    ensures op.MoveOp? ==>
              SeatOf(t.g.players, op.id) >= 0 && !op.move.BidMove? && !op.move.PassMove? && !op.move.DiscardMove?
  {
    hide Inv, ValidateMove, ApplyBid, ApplyPass, ApplyDiscard, ApplyCall, ApplyPlay, ApplyPlayAgain,
         ApplyChangeConfig, Moved, Seated, IsDeal, Resizes, DealTo, SeatOf;
    BaseOf(t);
    match op
    case JoinOp(id, name, deck) =>
    case MoveOp(id, m, deck) =>
      AcceptedMove(t.g, id, m);
      MovedGame(t, id, m, deck);
      NoRoundYet(t.g, id, SeatOf(t.g.players, id), m, deck);
  }

  lemma NoRoundYet(g: GameState, id: string, p: int, m: Move, deck: seq<Card>)
    requires |g.players| <= g.N()
    ensures m.BidMove? && g.status.Bidding? ==> !InRound(ApplyBid(g, id, p, m.points, m.suit, m.noTrump).status)
    ensures m.PassMove? && g.status.Bidding? ==> !InRound(ApplyPass(g, id, p, deck).status)
    ensures m.DiscardMove? ==> !InRound(ApplyDiscard(g, p, m.cards).status)
  {
    hide Advance, DealTo, SetHand, AddPoints;
  }

  lemma NextTurns(g: GameState, s: Tale, since: seq<Op>, op: Op)
    requires Told(g, s) && |Tell(s, op).guests| == Tell(s, op).N() && InRound(PhaseOf(Tell(s, op)))
    requires if op.MoveOp? && op.move.CallPartnerMove? then g.status.Calling?
             else InRound(g.status) && TurnsMatch(s, since)
    requires op.MoveOp? ==>
               SeatOf(g.players, op.id) >= 0 && !op.move.BidMove? && !op.move.PassMove? && !op.move.DiscardMove?
    ensures TurnsMatch(Tell(s, op), Since(since, op))
  {
    hide HandsFit, TurnFits, FriendFits, AuctionFits, TricksFit, Laid, HighBid, Declarer, AllTurns, TurnMatches;
    SamePlace(g.players, s.guests, op.id);
    if op.MoveOp? && op.move.PlayCardMove? {
      var turn := Turn(Place(s.guests, op.id), op.move.card, op.move.callJoker, op.move.calledSuit);
      TurnsLaid(s.N(), s.tricks, turn);
      OneTurn(s.guests, turn, op);
    } else if op.JoinOp? {
      Rejoined(s, Tell(s, op), since);
    } else if op.move.CallPartnerMove? {
      NoTurns();
    }
  }

  lemma NoTurns()
    ensures AllTurns([]) == []
  {
  }

  lemma OneTurn(guests: seq<Guest>, turn: Turn, op: Op)
    requires op.MoveOp? && op.move.PlayCardMove?
    requires turn == Turn(Place(guests, op.id), op.move.card, op.move.callJoker, op.move.calledSuit)
    requires Place(guests, op.id) >= 0
    ensures TurnMatches(guests, turn, op)
  {
  }

  lemma Rejoined(s: Tale, s1: Tale, since: seq<Op>)
    requires TurnsMatch(s, since) && s1.tricks == s.tricks && |s1.guests| == |s.guests|
    requires forall i :: 0 <= i < |s.guests| ==> s1.guests[i].id == s.guests[i].id
    ensures TurnsMatch(s1, since)
  {
  }

  lemma {:induction false} TurnsSinceCall(r: Run, at: nat)
    requires Legal(r) && at <= |r.ops| && InRound(r.tables[at].g.status)
    ensures TurnsMatch(TaleOf(r.cfg, r.ops[..at]), SinceCall(r.ops[..at]))
  {
    hide Told, TurnsMatch, Tell, OpOk, After, Inv;
    if at == 0 {
      NotYet(r);
    } else {
      TwoTables(r, at - 1);
      LegalStep(r, at - 1);
      var t, s, op := r.tables[at - 1], TaleOf(r.cfg, r.ops[..at - 1]), r.ops[at - 1];
      assert r.ops[..at][..at - 1] == r.ops[..at - 1];
      RoundBefore(t, op);
      if InRound(t.g.status) { TurnsSinceCall(r, at - 1); }
      ToldPhase(r.tables[at].g, Tell(s, op));
      NextTurns(t.g, s, SinceCall(r.ops[..at - 1]), op);
    }
  }

  lemma NotYet(r: Run)
    requires Legal(r)
    ensures r.tables[0].g.status.Waiting?
  {
  }

  lemma ToldPhase(g: GameState, s: Tale)
    requires Told(g, s)
    ensures PhaseOf(s) == g.status && (!g.status.Waiting? ==> |s.guests| == s.N())
  {
  }

  /** The plays in the trick log are the cards played since the call, in order, each by its player. */
  lemma PlaysSinceCall(r: Run, at: nat)
    requires Legal(r) && at <= |r.ops| && InRound(r.tables[at].g.status)
    ensures var plays, since := AllPlays(r.tables[at].g.tricks), SinceCall(r.ops[..at]);
            |plays| == |since| && forall i :: 0 <= i < |plays| ==> PlayMatches(plays[i], since[i])
  {
    hide Told, TurnsMatch, AllPlays, AllTurns;
    TurnsSinceCall(r, at);
    StoryHolds(r, at);
    PlaysTold(r.tables[at].g, TaleOf(r.cfg, r.ops[..at]));
    PlaysMatch(r.tables[at].g, TaleOf(r.cfg, r.ops[..at]), SinceCall(r.ops[..at]));
  }

  ghost predicate PlaysAreTurns(g: GameState, s: Tale) {
    var plays, turns := AllPlays(g.tricks), AllTurns(s.tricks);
    && |plays| == |turns|
    && forall i :: 0 <= i < |turns| ==>
         0 <= turns[i].seat < |s.guests| && plays[i] == Played(s.guests[turns[i].seat].id, turns[i].seat, turns[i].card)
  }

  lemma PlaysTold(g: GameState, s: Tale)
    requires Told(g, s)
    ensures PlaysAreTurns(g, s)
  {
    hide HandsFit, TurnFits, FriendFits, AuctionFits, Orderly, TrickFits, PhaseOf;
    var told := g.tricks[..|s.tricks|];
    PlaysFit(s.guests, g.trump, told, s.tricks);
    if |g.tricks| > |s.tricks| {
      assert g.tricks[..|g.tricks| - 1] == told;
      assert AllPlays(g.tricks) == AllPlays(told);
    } else {
      assert told == g.tricks;
    }
  }

  lemma PlaysMatch(g: GameState, s: Tale, since: seq<Op>)
    requires PlaysAreTurns(g, s) && TurnsMatch(s, since)
    ensures var plays := AllPlays(g.tricks);
            |plays| == |since| && forall i :: 0 <= i < |plays| ==> PlayMatches(plays[i], since[i])
  {
    hide AllPlays, AllTurns;
  }

  /** Once a trick has a card, what it owes never changes in the round. */
  lemma LeadStands(r: Run, k: nat, at: nat)
    requires Legal(r) && k <= at <= |r.ops|
    requires forall i :: k <= i <= at ==> InRound(r.tables[i].g.status)
    requires forall i :: k <= i < at ==> r.ops[i].MoveOp? ==> !r.ops[i].move.CallPartnerMove?
    ensures |r.tables[k].g.tricks| <= |r.tables[at].g.tricks|
    ensures forall j :: 0 <= j < |r.tables[k].g.tricks| && r.tables[k].g.tricks[j].cards != [] ==>
              && r.tables[at].g.tricks[j].leadSuit == r.tables[k].g.tricks[j].leadSuit
              && r.tables[at].g.tricks[j].jokerCalled == r.tables[k].g.tricks[j].jokerCalled
              && r.tables[k].g.tricks[j].cards <= r.tables[at].g.tricks[j].cards
    decreases at
  {
    hide OpOk, After, Inv;
    if k < at {
      LeadStands(r, k, at - 1);
      LegalStep(r, at - 1);
      TrickStep(r.tables[at - 1], r.ops[at - 1]);
    }
  }

  ghost predicate LeadsSame(tricks: seq<Trick>, after: seq<Trick>) {
    && |tricks| <= |after|
    && forall j :: 0 <= j < |tricks| ==>
         && tricks[j].cards <= after[j].cards
         && (tricks[j].cards != [] ==>
               after[j].leadSuit == tricks[j].leadSuit && after[j].jokerCalled == tricks[j].jokerCalled)
  }

  lemma LeadsKept(g: GameState, id: string, p: int, card: Card, callJoker: bool, called: Suit)
    requires g.status.Playing? && 0 <= p < |g.players| == g.N()
    requires 0 < |g.tricks| <= 10 && |g.tricks[|g.tricks| - 1].cards| < g.N()
    ensures LeadsSame(g.tricks, ApplyPlay(g, id, p, card, callJoker, called).tricks)
  {
    hide Extend, ApplyPlay;
    PlayFrame(g, id, p, card, callJoker, called);
    Extended(g.trump, g.tricks[|g.tricks| - 1], Played(id, p, card), callJoker, called);
  }

  lemma TrickStep(t: Table, op: Op)
    requires OpOk(t, op) && InRound(t.g.status) && InRound(After(t, op).g.status)
    requires Inv(t)
    ensures LeadsSame(t.g.tricks, After(t, op).g.tricks)
  {
    hide Inv, Moved, Join, MoveOk, CanJoin, SeatOf, ApplyPlay, NextRound, LeadsSame;
    SameLeads(t.g.tricks);
    match op
    case JoinOp(id, name, deck) => RejoinedGame(t, id, name, deck);
    case MoveOp(id, m, deck) =>
      if m.PlayCardMove? {
        PlayedGame(t, id, m, deck);
        LeadsKept(t.g, id, SeatOf(t.g.players, id), m.card, m.callJoker, m.calledSuit);
      } else {
        FinishedGame(t, id, m, deck);
        RoundRestarts(t.g, SeatOf(t.g.players, id), deck);
      }
  }

  lemma SameLeads(tricks: seq<Trick>)
    ensures LeadsSame(tricks, tricks)
  {
  }

  lemma Extended(trump: Suit, t: Trick, play: Played, callJoker: bool, called: Suit)
    ensures var t1 := Extend(trump, t, play, callJoker, called);
            t.cards <= t1.cards && (t.cards != [] ==> t1.leadSuit == t.leadSuit && t1.jokerCalled == t.jokerCalled)
  {
  }

  lemma RoundRestarts(g: GameState, p: int, deck: seq<Card>)
    requires |g.players| <= g.N()
    ensures NextRound(g.(votes := g.votes + {p}), deck).status.Bidding?
  {
  }

  // ----- votes for another round

  predicate IsVote(op: Op) { op.MoveOp? && op.move.PlayAgainMove? }

  predicate IsResize(op: Op) {
    op.MoveOp? && op.move.ChangeConfigMove? && (op.move.size == Some(4) || op.move.size == Some(5))
  }

  /** The seat has voted at some operation since the round was finished, or its configuration last set. */
  ghost predicate VotedSince(r: Run, at: nat, seat: int)
    requires Legal(r) && at <= |r.ops|
  {
    exists i :: VotedAt(r, i, at, seat)
  }

  ghost predicate VotedAt(r: Run, i: int, at: nat, seat: int)
    requires Legal(r) && at <= |r.ops|
  {
    && 0 <= i < at && IsVote(r.ops[i]) && SeatOf(r.tables[i].g.players, r.ops[i].id) == seat
    && forall j :: i <= j < at ==> r.tables[j].g.status.Finished? && !IsResize(r.ops[j])
  }

  lemma FinishedStep(t: Table, op: Op)
    requires OpOk(t, op) && t.g.status.Finished?
    requires Inv(t)
    ensures var p := SeatOf(t.g.players, op.id);
            var g1 := After(t, op).g;
            && 0 <= p < |t.g.players| == t.g.N()
            && (g1.status.Finished? || g1.status.Bidding?)
            && (op.MoveOp? ==> op.move.PlayAgainMove? || op.move.ChangeConfigMove?)
            && (IsVote(op) && g1.status.Finished? ==> g1 == t.g.(votes := t.g.votes + {p}, version := t.g.version + 1))
            && (!IsVote(op) ==> g1.status.Finished? && g1.votes == if IsResize(op) then {} else t.g.votes)
  {
    hide Inv, Moved, Join, MoveOk, CanJoin, SeatOf, NextRound;
    match op
    case JoinOp(id, name, deck) => RejoinedGame(t, id, name, deck);
    case MoveOp(id, m, deck) =>
      FinishedOnly(t, id, m, deck);
      FinishedGame(t, id, m, deck);
      RoundRestarts(t.g, SeatOf(t.g.players, id), deck);
      PhaseFacts(t);
  }

  lemma FinishedOnly(t: Table, id: string, m: Move, deck: seq<Card>)
    requires MoveOk(t, id, m, deck) && t.g.status.Finished? && Inv(t)
    ensures !m.PlayCardMove?
  {
    hide Inv, ValidateMove, Seated, IsDeal, Resizes, SeatOf;
    BaseOf(t);
    AcceptedMove(t.g, id, m);
  }

  lemma NoVoteYet(t: Table, op: Op)
    requires OpOk(t, op) && !t.g.status.Finished?
    requires Inv(t)
    ensures !IsVote(op)
  {
    hide Inv, ValidateMove, IsDeal, Resizes;
    BaseOf(t);
    if op.MoveOp? { AcceptedMove(t.g, op.id, op.move); }
  }

  lemma FinishVotes(g: GameState, g1: GameState, s: Tale, op: Op)
    requires Told(g, s) && Told(g1, Tell(s, op)) && !g.status.Finished? && g1.status.Finished? && !IsVote(op)
    ensures g1.votes == {}
  {
    hide HandsFit, TurnFits, FriendFits, TricksFit, AuctionFits, SeatsFit, HighBid, Declarer, Laid;
  }

  /** The votes on a finished table are those of the seats that have sent one. */
  lemma {:induction false} VotesExactly(r: Run, at: nat, seat: int)
    requires Legal(r) && at <= |r.ops| && r.tables[at].g.status.Finished?
    ensures seat in r.tables[at].g.votes <==> VotedSince(r, at, seat)
  {
    hide Inv, OpOk, After, Told, Tell;
    if at == 0 {
      NotYet(r);
    } else {
      LegalStep(r, at - 1);
      var last := at - 1;
      var t, op := r.tables[last], r.ops[last];
      if t.g.status.Finished? {
        VotesExactly(r, last, seat);
        FinishedStep(t, op);
        if VotedSince(r, last, seat) {
          var i :| VotedAt(r, i, last, seat);
          assert !IsResize(op) ==> VotedAt(r, i, at, seat);
        }
        assert IsVote(op) && SeatOf(t.g.players, op.id) == seat ==> VotedAt(r, last, at, seat);
        if VotedSince(r, at, seat) {
          var i :| VotedAt(r, i, at, seat);
          assert i < last ==> VotedAt(r, i, last, seat);
        }
      } else {
        NoVoteYet(t, op);
        TwoTables(r, last);
        FinishVotes(t.g, r.tables[at].g, TaleOf(r.cfg, r.ops[..last]), op);
        assert forall i :: VotedAt(r, i, at, seat) ==> i <= last;
      }
    }
  }

  /** A finished round is followed by a new deal exactly at the vote that completes those of all seats; until then
      a vote changes nothing else. */
  lemma RestartExactly(r: Run, k: nat)
    requires Legal(r) && k < |r.ops| && r.tables[k].g.status.Finished?
    ensures var g, g1, voter := r.tables[k].g, r.tables[k + 1].g, SeatOf(r.tables[k].g.players, r.ops[k].id);
            && (g1.status.Bidding? <==>
                  IsVote(r.ops[k]) && forall seat :: 0 <= seat < g.N() ==> seat == voter || VotedSince(r, k, seat))
            && (IsVote(r.ops[k]) && !g1.status.Bidding? ==>
               g1 == g.(votes := g.votes + {voter}, version := g.version + 1))
  {
    hide Inv, OpOk, After, Told, Tell, VotedSince, VotedAt;
    LegalStep(r, k);
    var t, op := r.tables[k], r.ops[k];
    FinishedStep(t, op);
    TwoTables(r, k);
    forall seat ensures seat in t.g.votes <==> VotedSince(r, k, seat) { VotesExactly(r, k, seat); }
    if IsVote(op) {
      VoteCompletes(t.g, r.tables[k + 1].g, TaleOf(r.cfg, r.ops[..k]), op);
      VotesInRange(t);
      var votes := t.g.votes + {SeatOf(t.g.players, op.id)};
      AllVoted(t.g.N(), votes);
      assert forall seat :: seat in votes <==> seat == SeatOf(t.g.players, op.id) || VotedSince(r, k, seat);
    }
  }

  lemma VotesInRange(t: Table)
    requires t.g.status.Finished? && Inv(t)
    ensures forall s :: s in t.g.votes ==> 0 <= s < t.g.N()
  {
    hide Conserved, Books, RoundInv, ScoreLedger, RoundPayouts, FriendSeat;
    InvParts(t);
  }

  lemma VoteCompletes(g: GameState, g1: GameState, s: Tale, op: Op)
    requires IsVote(op) && g.status.Finished? && Told(g, s) && Told(g1, Tell(s, op))
    ensures g1.status.Bidding? <==> |g.votes + {SeatOf(g.players, op.id)}| == g.N()
  {
    hide HandsFit, TurnFits, FriendFits, TricksFit, Declarer;
    SamePlace(g.players, s.guests, op.id);
  }

  lemma AllVoted(n: nat, votes: set<int>)
    requires forall s :: s in votes ==> 0 <= s < n
    ensures |votes| == n <==> forall s :: 0 <= s < n ==> s in votes
  {
    SubsetSize(votes, Seats(n));
    assert (forall s :: 0 <= s < n ==> s in votes) ==> votes == Seats(n);
  }

  // ----- between the phases

  /** The auction ends with a bid of ten, or with a standing bid when all other seats have passed; the high bidder
      then holds the contract in the suit bid. */
  lemma AuctionEnds(r: Run, k: nat)
    requires Legal(r) && k < |r.ops| && r.tables[k].g.status.Bidding?
    ensures var g, g1, op := r.tables[k].g, r.tables[k + 1].g, r.ops[k];
            && (g1.status.Bidding? || g1.status.Exchanging?)
            && (g1.status.Exchanging? <==>
                  g1.currentBid.Some? && (g1.currentBid.value.points == 10 || |g1.passed| == g.N() - 1))
            && (g1.status.Exchanging? ==>
                  && g1.contract == g1.currentBid && g1.trump == g1.currentBid.value.suit && g1.kitty == []
                  && g1.turn == g1.declarer == SeatOf(g1.players, g1.currentBid.value.playerID))
            && (op.MoveOp? && op.move.BidMove? ==>
               g1.bids == g.bids + [Bid(op.id, op.move.points, op.move.suit, op.move.noTrump)]
                                                   && g1.currentBid == Some(g1.bids[|g.bids|]) && g1.passed == g.passed)
            && (op.MoveOp? && op.move.PassMove? ==>
                  if |g.passed| + 1 == g.N() then
                    |op.deck| == 10 * |g.players| + 3 && g1.bids == [] && g1.passed == {}
                        && g1.kitty == op.deck[10 * |g.players|..] && g1.turn == 0
                  else g1.passed == g.passed + {SeatOf(g.players, op.id)} && g1.currentBid == g.currentBid)
  {
    hide Inv, OpOk, After, HandsFit, FriendFits, TricksFit, NextUp;
    LegalStep(r, k);
    TwoTables(r, k);
    BiddingOps(r.tables[k], r.ops[k]);
    var g, s, op := r.tables[k].g, TaleOf(r.cfg, r.ops[..k]), r.ops[k];
    SamePlace(g.players, s.guests, op.id);
    if op.MoveOp? && op.move.BidMove? {
      StandingLast(s.bids, Bid(op.id, op.move.points, op.move.suit, op.move.noTrump));
    }
    if op.MoveOp? && op.move.PassMove? { StandingLast(s.bids, Bid(op.id, 0, Blank, false)); }
    var g1 := r.tables[k + 1].g;
    if g1.currentBid.Some? { SamePlace(g1.players, Tell(s, op).guests, g1.currentBid.value.playerID); }
  }

  lemma BiddingOps(t: Table, op: Op)
    requires OpOk(t, op) && t.g.status.Bidding?
    requires Inv(t)
    ensures op.JoinOp? ==> SeatOf(t.g.players, op.id) >= 0
    ensures op.MoveOp? ==> op.move.BidMove? || op.move.PassMove?
    ensures op.MoveOp? ==> 0 <= SeatOf(t.g.players, op.id) && SeatOf(t.g.players, op.id) !in t.g.passed
    ensures op.MoveOp? && op.move.BidMove? ==> 0 < op.move.points <= 10
    ensures op.MoveOp? && op.move.BidMove? && t.g.currentBid.Some? ==> op.move.points > t.g.currentBid.value.points
    ensures t.g.currentBid.Some? ==> t.g.currentBid.value.points < 10
  {
    hide Inv, ValidateMove, IsDeal, Resizes, Seated;
    BaseOf(t);
    PhaseFacts(t);
    BidBelowTen(t);
    if op.MoveOp? { AcceptedMove(t.g, op.id, op.move); }
  }

  lemma BidBelowTen(t: Table)
    requires t.g.status.Bidding? && Inv(t)
    ensures t.g.currentBid.Some? ==> t.g.currentBid.value.points < 10
  {
    hide Conserved, Books, Rotating, BidLog, Accounted, TenEach;
    InvParts(t);
  }

  ghost predicate FollowsRound(g: GameState, g1: GameState, deck: seq<Card>) {
    && g.N() == |g.players| > 0 && |deck| == 10 * |g.players| + 3
    && g1.dealer == (g.dealer + 1) % g.N() && g1.turn == g1.dealer && g1.kitty == deck[10 * |g.players|..]
    && g1.history == g.history && g1.totals == g.totals && g1.scores == map[]
    && g1.bids == [] && g1.currentBid.None? && g1.declarer == -1 && g1.passed == {} && g1.tricks == [] && g1.votes == {}
    && g1.contract.None? && g1.partnerCard.None? && g1.partnerSeat == -1 && !g1.noFriend && |g1.players| == |g.players|
    && forall i :: 0 <= i < |g.players| ==>
         g1.players[i] == g.players[i].(hand := deck[10 * i..10 * i + 10], points := [])
  }

  /** A new round is dealt from the deck of the last vote, with the next dealer, who opens. */
  lemma NextDealer(r: Run, k: nat)
    requires Legal(r) && k < |r.ops| && r.tables[k].g.status.Finished? && r.tables[k + 1].g.status.Bidding?
    ensures FollowsRound(r.tables[k].g, r.tables[k + 1].g, r.ops[k].deck)
  {
    hide Inv, ValidateMove, IsDeal, Resizes, Seated, Moved, ApplyBid, ApplyPass, ApplyDiscard, ApplyCall, ApplyPlay,
         ApplyPlayAgain, FollowsRound;
    LegalStep(r, k);
    var t, op := r.tables[k], r.ops[k];
    BaseOf(t);
    PhaseFacts(t);
    AcceptedMove(t.g, op.id, op.move);
    MovedGame(t, op.id, op.move, op.deck);
    DealSize(t.g.N(), op.deck);
    DealerMod(t.g.dealer, t.g.N());
    Restarted(t.g, SeatOf(t.g.players, op.id), op.deck);
  }

  lemma Restarted(g: GameState, p: int, deck: seq<Card>)
    requires |g.players| == g.N() > 0 && |deck| == 10 * g.N() + 3 && Rot(g.N(), g.dealer, 1) == (g.dealer + 1) % g.N()
    requires g.status.Finished?
    ensures ApplyPlayAgain(g, p, deck).status.Bidding? ==>
            FollowsRound(g, ApplyPlayAgain(g, p, deck).(version := g.version + 1), deck)
  {
  }

  lemma DealSize(n: int, deck: seq<Card>)
    requires (n == 4 || n == 5) && IsDeal(n, deck)
    ensures |deck| == 10 * n + 3
  {
    hide Deck;
    DeckSize(n);
    Piles.PermSize(deck, Deck(n));
  }

  lemma DealerMod(dealer: int, n: int)
    requires (n == 4 || n == 5) && 0 <= dealer < n
    ensures Rot(n, dealer, 1) == (dealer + 1) % n
  {
  }

  /** The call is stored as it was made, the declarer opens the play, and the call stands until the round is over. */
  lemma CallStands(r: Run, k: nat, at: nat)
    requires Legal(r) && k < at <= |r.ops| && r.ops[k].MoveOp? && r.ops[k].move.CallPartnerMove?
    requires forall i :: k < i <= at ==> InRound(r.tables[i].g.status)
    ensures var g, call := r.tables[at].g, r.ops[k].move;
            g.partnerCard == call.friend && (g.noFriend <==> call.alone) && (call.alone <==> call.friend.None?)
    ensures r.tables[k + 1].g.turn == r.tables[k + 1].g.declarer && r.tables[k + 1].g.tricks == [NEWTRICK]
    decreases at
  {
    hide Inv, OpOk, After;
    LegalStep(r, at - 1);
    if k + 1 < at {
      CallStands(r, k, at - 1);
      CallKept(r.tables[at - 1], r.ops[at - 1]);
    } else {
      CallMade(r.tables[k], r.ops[k]);
    }
  }

  lemma CallMade(t: Table, op: Op)
    requires OpOk(t, op) && op.MoveOp? && op.move.CallPartnerMove?
    requires Inv(t)
    ensures var g := After(t, op).g;
            && g.partnerCard == op.move.friend && (g.noFriend <==> op.move.alone)
               && (op.move.alone <==> op.move.friend.None?)
            && g.turn == g.declarer && g.tricks == [NEWTRICK]
  {
    hide Inv, Conserved, Books, BidLog, Accounted, HandSizes, Moved, Seated, IsDeal, Resizes, SeatOf;
    InvParts(t);
    MovedGame(t, op.id, op.move, op.deck);
  }

  lemma CallKept(t: Table, op: Op)
    requires OpOk(t, op) && InRound(t.g.status) && InRound(After(t, op).g.status)
    requires Inv(t)
    ensures After(t, op).g.partnerCard == t.g.partnerCard && After(t, op).g.noFriend == t.g.noFriend
  {
    hide Inv, Moved, Join, MoveOk, CanJoin, SeatOf, ApplyPlay, NextRound, Extend;
    match op
    case JoinOp(id, name, deck) => RejoinedGame(t, id, name, deck);
    case MoveOp(id, m, deck) =>
      if m.PlayCardMove? {
        PlayedGame(t, id, m, deck);
        PlayFrame(t.g, id, SeatOf(t.g.players, id), m.card, m.callJoker, m.calledSuit);
      } else {
        FinishedGame(t, id, m, deck);
        RoundRestarts(t.g, SeatOf(t.g.players, id), deck);
      }
  }

  // ----- joining

  /** A seated player comes back under the new name and connected, in any phase. A stranger takes the next seat of a
      waiting table; at the last seat everybody is dealt ten cards and seat 0 opens. */
  lemma JoinExactly(r: Run, k: nat)
    requires Legal(r) && k < |r.ops| && r.ops[k].JoinOp?
    ensures var g, g1, op := r.tables[k].g, r.tables[k + 1].g, r.ops[k];
            && (forall i :: 0 <= i < |g.players| && g.players[i].id == op.id ==>
                  g1 == g.(players := g.players[i := g.players[i].(name := op.name, connected := true)],
                      version := g.version + 1))
            && ((forall i :: 0 <= i < |g.players| ==> g.players[i].id != op.id) ==>
                  && g.status.Waiting? && |op.deck| == 10 * g.N() + 3
                  && Arrived(g.players + [Player(op.id, op.name, |g.players|, [], [], true)], g1, op.deck))
  {
    hide Inv, Conserved, Deck, IsDeal;
    LegalStep(r, k);
    BaseOf(r.tables[k]);
    DealSize(r.tables[k].g.N(), r.ops[k].deck);
    forall i | 0 <= i < |r.tables[k].g.players| && r.tables[k].g.players[i].id == r.ops[k].id
      ensures SeatOf(r.tables[k].g.players, r.ops[k].id) == i
    {
      SameSeat(r.tables[k].g.players, r.ops[k].id, i);
    }
  }

  ghost predicate Arrived(players: seq<Player>, g: GameState, deck: seq<Card>) {
    && |g.players| == |players| <= g.N() && |deck| == 10 * g.N() + 3
    && (|players| < g.N() ==> g.status.Waiting? && g.players == players)
    && (|players| == g.N() ==>
          && g.status.Bidding? && g.turn == 0 && g.kitty == deck[10 * g.N()..]
          && forall i :: 0 <= i < |players| ==>
               g.players[i] == players[i].(hand := deck[10 * i..10 * i + 10], points := []))
  }
}
