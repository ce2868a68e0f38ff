/** What the cards a seat plays say about the cards it has left, over whole rounds: nobody keeps a called Joker, a suit
    owed, or the better first card, and shows it later. */
module Vows {
  import opened Cards
  import opened Piles
  import opened Decks
  import opened Wrappers
  import opened State
  import opened Rules
  import opened Engine
  import opened Invariants
  import opened Steps
  import opened Runs
  import opened Rounds
  import opened Story
  import opened Telling
  import opened Laws
  import opened Accepts

  /** Playing card i of trick j (counted from 0) its player declares not to have c left: the Joker, if it was called
      and the answer is no special; a card of the suit owed, if the answer is neither that nor a special; an ordinary
      card, if the first lead is trump; and any card of its suit, if the Mighty answers in the first trick. */
  ghost predicate Disclaims(trump: Suit, j: int, t: Trick, i: int, c: Card) {
    && 0 <= i < |t.cards|
    && var card := t.cards[i].card;
       || (i > 0 && t.jokerCalled && !Special(trump, card) && c == JOKER)
       || (i > 0 && card.suit != t.leadSuit && !Special(trump, card) && c.suit == t.leadSuit)
       || (j == 0 && i == 0 && card.suit == trump && c.suit != trump && !Special(trump, c))
       || (j == 0 && i > 0 && card == Mighty(trump) && c.suit == card.suit)
  }

  /** The seat does not hold the card and has not played it after trick j. */
  ghost predicate Without(players: seq<Player>, tricks: seq<Trick>, j: int, seat: int, c: Card) {
    && c !in HandOf(players, seat)
    && forall m, k :: 0 <= j < m < |tricks| && 0 <= k < |tricks[m].cards| && tricks[m].cards[k].seat == seat ==>
         tricks[m].cards[k].card != c
  }

  ghost predicate Honest(trump: Suit, players: seq<Player>, tricks: seq<Trick>) {
    forall j, i, c :: 0 <= j < |tricks| && 0 <= i < |tricks[j].cards| && Disclaims(trump, j, tricks[j], i, c) ==>
      Without(players, tricks, j, tricks[j].cards[i].seat, c)
  }

  /** In the first trick the Joker is never played, nor the Mighty but to follow suit; a Joker is called by its caller,
      in neither the first trick nor the last. */
  ghost predicate Opened(trump: Suit, j: int, t: Trick) {
    && (j == 0 ==> forall i :: 0 <= i < |t.cards| ==>
          t.cards[i].card != JOKER && (t.cards[i].card == Mighty(trump) ==> 0 < i && t.leadSuit == Mighty(trump).suit))
    && (t.jokerCalled ==> t.cards != [] && JokerCaller(trump, t.cards[0].card) && 0 < j < 9)
  }

  ghost predicate AllOpened(trump: Suit, tricks: seq<Trick>) {
    forall j :: 0 <= j < |tricks| ==> Opened(trump, j, tricks[j])
  }

  lemma SameDisclaim(trump: Suit, j: int, t: Trick, t1: Trick, i: int, c: Card)
    requires t.cards <= t1.cards && 0 <= i < |t.cards| && t1.leadSuit == t.leadSuit && t1.jokerCalled == t.jokerCalled
    ensures Disclaims(trump, j, t1, i, c) <==> Disclaims(trump, j, t, i, c)
  {
    hide Special, Mighty;
  }

  /** A card accepted for trick k says the truth. */
  lemma Truthful(trump: Suit, k: int, t: Trick, hand: seq<Card>, play: Played, callJoker: bool, called: Suit,
      winner: int, c: Card)
    requires MayPlay(trump, k, t, hand, play.card, callJoker, called)
    requires Disclaims(trump, k - 1, Extend(trump, t, play, callJoker, called).(winner := winner), |t.cards|, c)
    ensures c !in Keep(hand, [play.card])
  {
    hide JokerCaller;
  }

  ghost predicate Allowed(g: GameState, play: Played, callJoker: bool, called: Suit) {
    && g.tricks != [] && 0 <= play.seat < |g.players|
    && MayPlay(g.trump, |g.tricks|, g.tricks[|g.tricks| - 1], g.players[play.seat].hand, play.card, callJoker, called)
  }

  /** The table after a card of the seat p. */
  ghost predicate Follows(g: GameState, g1: GameState, play: Played, callJoker: bool, called: Suit) {
    && g.tricks != [] && 0 <= play.seat < |g.players| == |g1.players| && |g.tricks| <= |g1.tricks| <= |g.tricks| + 1
    && g1.trump == g.trump
    && var k := |g.tricks| - 1;
       && (forall j :: 0 <= j < k ==> g1.tricks[j] == g.tricks[j])
       && g1.tricks[k] == Extend(g.trump, g.tricks[k], play, callJoker, called).(winner := g1.tricks[k].winner)
       && (|g1.tricks| > |g.tricks| ==> g1.tricks[k + 1] == NEWTRICK)
       && forall i :: 0 <= i < |g.players| ==>
            g1.players[i].hand == if i == play.seat then Keep(g.players[i].hand, [play.card]) else g.players[i].hand
  }

  lemma StaysWithout(g: GameState, g1: GameState, play: Played, callJoker: bool, called: Suit, j: int, seat: int,
      c: Card)
    requires Follows(g, g1, play, callJoker, called) && play.card in g.players[play.seat].hand
    requires Without(g.players, g.tricks, j, seat, c)
    ensures Without(g1.players, g1.tricks, j, seat, c)
  {
  }

  lemma NewWithout(g: GameState, g1: GameState, play: Played, callJoker: bool, called: Suit, c: Card)
    requires Follows(g, g1, play, callJoker, called) && c !in Keep(g.players[play.seat].hand, [play.card])
    ensures Without(g1.players, g1.tricks, |g.tricks| - 1, play.seat, c)
  {
    hide Extend;
  }

  lemma OpenedPlay(g: GameState, g1: GameState, play: Played, callJoker: bool, called: Suit)
    requires Follows(g, g1, play, callJoker, called) && AllOpened(g.trump, g.tricks) && |g.tricks| <= 10
    requires Allowed(g, play, callJoker, called)
    ensures AllOpened(g1.trump, g1.tricks)
  {
    hide JokerCaller, Extend, MayPlay, Mighty;
    var last := |g.tricks| - 1;
    OpenedTrick(g.trump, last + 1, g.tricks[last], g.players[play.seat].hand, play, callJoker, called,
        g1.tricks[last].winner);
    assert Opened(g1.trump, last, g1.tricks[last]);
  }

  lemma OpenedTrick(trump: Suit, k: int, t: Trick, hand: seq<Card>, play: Played, callJoker: bool, called: Suit,
      winner: int)
    requires MayPlay(trump, k, t, hand, play.card, callJoker, called) && Opened(trump, k - 1, t) && 1 <= k <= 10
    ensures Opened(trump, k - 1, Extend(trump, t, play, callJoker, called).(winner := winner))
  {
    CallerPlain(trump, play.card);
  }

  lemma CallerPlain(trump: Suit, c: Card)
    ensures IsJokerCaller(trump, c) <==> JokerCaller(trump, c)
  {
  }

  lemma OldHonest(g: GameState, g1: GameState, play: Played, callJoker: bool, called: Suit, j: int, i: int, c: Card)
    requires Follows(g, g1, play, callJoker, called) && Honest(g.trump, g.players, g.tricks)
    requires play.card in g.players[play.seat].hand
    requires 0 <= j < |g.tricks| && 0 <= i < |g.tricks[j].cards| && Disclaims(g1.trump, j, g1.tricks[j], i, c)
    ensures i < |g1.tricks[j].cards| && Without(g1.players, g1.tricks, j, g1.tricks[j].cards[i].seat, c)
  {
    hide Disclaims, Without;
    Extended(g.trump, g.tricks[|g.tricks| - 1], play, callJoker, called);
    SameDisclaim(g.trump, j, g.tricks[j], g1.tricks[j], i, c);
    StaysWithout(g, g1, play, callJoker, called, j, g.tricks[j].cards[i].seat, c);
  }

  lemma NewHonest(g: GameState, g1: GameState, play: Played, callJoker: bool, called: Suit, c: Card)
    requires Follows(g, g1, play, callJoker, called)
    requires Allowed(g, play, callJoker, called)
    requires Disclaims(g1.trump, |g.tricks| - 1, g1.tricks[|g.tricks| - 1], |g.tricks[|g.tricks| - 1].cards|, c)
    ensures Without(g1.players, g1.tricks, |g.tricks| - 1, play.seat, c)
  {
    hide Disclaims, Without, MayPlay, Extend;
    var last := |g.tricks| - 1;
    Truthful(g.trump, last + 1, g.tricks[last], g.players[play.seat].hand, play, callJoker, called,
        g1.tricks[last].winner, c);
    NewWithout(g, g1, play, callJoker, called, c);
  }

  lemma HonestPlay(g: GameState, g1: GameState, play: Played, callJoker: bool, called: Suit)
    requires Follows(g, g1, play, callJoker, called) && Honest(g.trump, g.players, g.tricks)
    requires Allowed(g, play, callJoker, called)
    ensures Honest(g1.trump, g1.players, g1.tricks)
  {
    hide Disclaims, Without, MayLead, MayFollow;
    forall j, i, c | 0 <= j < |g1.tricks| && 0 <= i < |g1.tricks[j].cards| && Disclaims(g1.trump, j, g1.tricks[j], i, c)
      ensures Without(g1.players, g1.tricks, j, g1.tricks[j].cards[i].seat, c)
    {
      if j < |g.tricks| && i < |g.tricks[j].cards| {
        OldHonest(g, g1, play, callJoker, called, j, i, c);
      } else {
        NewHonest(g, g1, play, callJoker, called, c);
      }
    }
  }

  // ----- every run

  /** An operation during a round that plays no card leaves the hands and the tricks alone. */
  ghost predicate Quiet(g: GameState, g1: GameState) {
    && g1.trump == g.trump && g1.tricks == g.tricks && |g1.players| == |g.players|
    && forall i :: 0 <= i < |g.players| ==> g1.players[i].hand == g.players[i].hand
  }

  lemma QuietJoin(g: GameState, id: string, name: string, deck: seq<Card>)
    requires SeatOf(g.players, id) >= 0
    ensures Quiet(g, Join(g, id, name, deck))
  {
  }

  lemma QuietFinish(g: GameState, p: int, deck: seq<Card>, size: Option<int>)
    requires |g.players| <= g.N()
    ensures InRound(ApplyPlayAgain(g, p, deck).status) ==> Quiet(g, ApplyPlayAgain(g, p, deck))
    ensures Quiet(g, ApplyChangeConfig(g, size))
  {
    hide NextRound;
    RoundRestarts(g, p, deck);
  }

  lemma QuietStep(t: Table, op: Op)
    requires OpOk(t, op) && InRound(t.g.status) && InRound(After(t, op).g.status)
             && !(op.MoveOp? && op.move.PlayCardMove?)
    requires Inv(t)
    ensures Quiet(t.g, After(t, op).g)
  {
    hide Inv, Moved, Join, MoveOk, CanJoin, SeatOf, ApplyPlayAgain, ApplyChangeConfig, Quiet;
    match op
    case JoinOp(id, name, deck) => RejoinedGame(t, id, name, deck); QuietJoin(t.g, id, name, deck);
    case MoveOp(id, m, deck) =>
      FinishedGame(t, id, m, deck);
      QuietFinish(t.g, SeatOf(t.g.players, id), deck, if m.ChangeConfigMove? then m.size else None);
      var p := SeatOf(t.g.players, id);
      QuietVersion(t.g, if m.PlayAgainMove? then ApplyPlayAgain(t.g, p, deck) else ApplyChangeConfig(t.g, m.size),
                   t.g.version + 1);
  }

  lemma QuietVersion(g: GameState, g1: GameState, version: int)
    ensures Quiet(g, g1) ==> Quiet(g, g1.(version := version))
  {
  }

  ghost predicate Kept(g: GameState) { Honest(g.trump, g.players, g.tricks) && AllOpened(g.trump, g.tricks) }

  lemma CardStep(r: Run, k: nat)
    requires Legal(r) && k < |r.ops| && r.ops[k].MoveOp? && r.ops[k].move.PlayCardMove?
    requires Kept(r.tables[k].g)
    ensures Kept(r.tables[k + 1].g)
  {
    hide Inv, ApplyPlay, MoveOk, Moved, ValidateMove, Kept, MayPlay, SeatOf;
    LegalStep(r, k);
    var t, id, m := r.tables[k], r.ops[k].id, r.ops[k].move;
    PlayedGame(t, id, m, r.ops[k].deck);
    MovedGame(t, id, m, r.ops[k].deck);
    CardsAccepted(r, k, id, m.card, m.callJoker, m.calledSuit);
    CardKeeps(t.g, id, SeatOf(t.g.players, id), m.card, m.callJoker, m.calledSuit, t.g.version + 1);
  }

  lemma CardKeeps(g: GameState, id: string, p: int, card: Card, callJoker: bool, called: Suit, version: int)
    requires 0 < |g.tricks| <= 10 && 0 <= p < |g.players| && Kept(g)
    requires MayPlay(g.trump, |g.tricks|, g.tricks[|g.tricks| - 1], g.players[p].hand, card, callJoker, called)
    ensures Kept(ApplyPlay(g, id, p, card, callJoker, called).(version := version))
  {
    hide ApplyPlay, Honest, AllOpened, MayPlay;
    PlayFollows(g, id, p, card, callJoker, called);
    var g1 := ApplyPlay(g, id, p, card, callJoker, called);
    HonestPlay(g, g1, Played(id, p, card), callJoker, called);
    OpenedPlay(g, g1, Played(id, p, card), callJoker, called);
  }

  lemma PlayFollows(g: GameState, id: string, p: int, card: Card, callJoker: bool, called: Suit)
    requires 0 < |g.tricks| <= 10 && 0 <= p < |g.players|
    ensures Follows(g, ApplyPlay(g, id, p, card, callJoker, called), Played(id, p, card), callJoker, called)
  {
    hide ApplyPlay, Extend;
    PlayFrame(g, id, p, card, callJoker, called);
    PlayPlayers(g, id, p, card, callJoker, called);
  }

  lemma QuietHonest(g: GameState, g1: GameState)
    requires Quiet(g, g1) && Kept(g)
    ensures Kept(g1)
  {
    hide Disclaims;
    forall j, i, c | 0 <= j < |g1.tricks| && 0 <= i < |g1.tricks[j].cards| && Disclaims(g1.trump, j, g1.tricks[j], i, c)
      ensures Without(g1.players, g1.tricks, j, g1.tricks[j].cards[i].seat, c)
    {
      assert Without(g.players, g.tricks, j, g.tricks[j].cards[i].seat, c);
    }
  }

  lemma {:induction false} KeptAlways(r: Run, at: nat)
    requires Legal(r) && at <= |r.ops| && InRound(r.tables[at].g.status)
    ensures Kept(r.tables[at].g)
  {
    hide Inv, OpOk, After, Kept;
    if at == 0 {
      NotYet(r);
    } else {
      LegalStep(r, at - 1);
      var t, op := r.tables[at - 1], r.ops[at - 1];
      RoundBefore(t, op);
      if InRound(t.g.status) {
        KeptAlways(r, at - 1);
        if op.MoveOp? && op.move.PlayCardMove? { CardStep(r, at - 1); }
        else {
          QuietStep(t, op);
          QuietHonest(t.g, r.tables[at].g);
        }
      } else {
        CallOpens(t, op);
        NothingPlayed(r.tables[at].g);
      }
    }
  }

  lemma CallOpens(t: Table, op: Op)
    requires OpOk(t, op) && t.g.status.Calling? && op.MoveOp? && op.move.CallPartnerMove?
    requires Inv(t)
    ensures After(t, op).g.tricks == [NEWTRICK]
  {
    hide Inv, ValidateMove, IsDeal, Resizes, Moved, Seated;
    PhaseFacts(t);
    MovedGame(t, op.id, op.move, op.deck);
  }

  lemma NothingPlayed(g: GameState)
    requires g.tricks == [NEWTRICK]
    ensures Kept(g)
  {
  }

  /** Whoever disclaims a card has none in hand afterwards and plays none in a later trick. */
  lemma NobodyLies(r: Run, at: nat, j: int, i: int, c: Card)
    requires Legal(r) && at <= |r.ops| && InRound(r.tables[at].g.status)
    requires var g := r.tables[at].g;
             && 0 <= j < |g.tricks| && 0 <= i < |g.tricks[j].cards| && Disclaims(g.trump, j, g.tricks[j], i, c)
    ensures var g := r.tables[at].g;
            var seat := g.tricks[j].cards[i].seat;
            && 0 <= seat < |g.players| && c !in g.players[seat].hand
            && forall m, k :: j < m < |g.tricks| && 0 <= k < |g.tricks[m].cards|
                              && g.tricks[m].cards[k].seat == seat ==>
                 g.tricks[m].cards[k].card != c
  {
    hide Disclaims;
    KeptAlways(r, at);
    TricksRotate(r, at, j);
    var g := r.tables[at].g;
    assert Without(g.players, g.tricks, j, g.tricks[j].cards[i].seat, c);
  }

  /** Nobody leads a special first, or answers the first trick with a Joker or a Mighty of another suit; the Joker is
      called only by its caller, led to a trick between the first and the last. */
  lemma TricksOpened(r: Run, at: nat, j: int)
    requires Legal(r) && at <= |r.ops| && InRound(r.tables[at].g.status) && 0 <= j < |r.tables[at].g.tricks|
    ensures Opened(r.tables[at].g.trump, j, r.tables[at].g.tricks[j])
  {
    hide Opened, Honest;
    KeptAlways(r, at);
  }

  /** A Joker that was called is played or not held: whoever answers with neither special has no Joker left. */
  lemma CalledJokerPlayed(r: Run, at: nat, j: int, i: int)
    requires Legal(r) && at <= |r.ops| && InRound(r.tables[at].g.status)
    requires var g := r.tables[at].g;
             && 0 <= j < |g.tricks| && 0 < i < |g.tricks[j].cards| && g.tricks[j].jokerCalled
             && !Special(g.trump, g.tricks[j].cards[i].card)
    ensures var g := r.tables[at].g;
            var seat := g.tricks[j].cards[i].seat;
            && 0 <= seat < |g.players| && JOKER !in g.players[seat].hand
            && forall m, k :: j < m < |g.tricks| && 0 <= k < |g.tricks[m].cards|
                              && g.tricks[m].cards[k].seat == seat ==>
                 g.tricks[m].cards[k].card != JOKER
  {
    hide Special;
    NobodyLies(r, at, j, i, JOKER);
  }
}
