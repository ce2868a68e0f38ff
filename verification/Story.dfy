/** The game told from its operations alone: what the bids, passes, discards, calls, cards and votes of a run
    add up to, without the engine. Every table of every run is the one the story tells. */
module Story {
  import opened Cards
  import opened Wrappers
  import opened State
  import opened Runs

  datatype Guest = Guest(id: string, name: string)

  datatype Call = Call(friend: Option<Card>, alone: bool)

  datatype Turn = Turn(seat: int, card: Card, callJoker: bool, called: Suit)

  /** What has happened: who came, and since the last deal who bid, passed, discarded, called, played and voted. */
  datatype Tale = Tale(
    cfg: Config, guests: seq<Guest>, deck: seq<Card>, opener: int, bids: seq<Bid>, passed: set<int>,
    discards: Option<seq<Card>>, call: Option<Call>, tricks: seq<seq<Turn>>, votes: set<int>, rounds: int, moves: int)
  {
    function N(): int { if cfg.numPlayers == 4 then 4 else 5 }
  }

  function Beginning(cfg: Config): Tale {
    Tale(if cfg.numPlayers == 0 then cfg.(numPlayers := 5) else cfg, [], [], 0, [], {}, None, None, [], {}, 0, 0)
  }

  /** The first place taken under this ID, or -1. */
  function Place(guests: seq<Guest>, id: string): (r: int)
    ensures -1 <= r < |guests|
    ensures r >= 0 ==> guests[r].id == id && forall i :: 0 <= i < r ==> guests[i].id != id
    ensures r < 0 ==> forall i :: 0 <= i < |guests| ==> guests[i].id != id
  {
    if guests == [] then -1
    else
      var r := Place(guests[..|guests| - 1], id);
      if r >= 0 then r else if guests[|guests| - 1].id == id then |guests| - 1 else -1
  }

  /** A new deal wipes out everything but the guests and the rounds. */
  function Dealt(s: Tale, deck: seq<Card>, opener: int): Tale {
    s.(deck := deck, opener := opener, bids := [], passed := {}, discards := None, call := None, tricks := [],
        votes := {})
  }

  /** One more card on the table: on the open trick, or on a new one if the last is full. */
  function Laid(n: int, tricks: seq<seq<Turn>>, card: Turn): seq<seq<Turn>> {
    var last := |tricks| - 1;
    if tricks == [] || |tricks[last]| == n then tricks + [[card]] else tricks[last := tricks[last] + [card]]
  }

  function Tell(s: Tale, op: Op): Tale {
    var n, p, t := s.N(), Place(s.guests, op.id), s.(moves := s.moves + 1);
    match op
    case JoinOp(id, name, deck) =>
      if p >= 0 then t.(guests := s.guests[p := Guest(id, name)])
      else if |s.guests| + 1 == n then Dealt(t.(guests := s.guests + [Guest(id, name)]), deck, 0)
      else t.(guests := s.guests + [Guest(id, name)])
    case MoveOp(id, m, deck) =>
      match m
      case BidMove(points, suit, noTrump) => t.(bids := s.bids + [Bid(id, points, suit, noTrump)])
      case PassMove =>
        if |s.passed + {p}| == n then Dealt(t, deck, 0)
        else t.(bids := s.bids + [Bid(id, 0, Blank, false)], passed := s.passed + {p})
      case DiscardMove(cards) => t.(discards := Some(cards))
      case CallPartnerMove(friend, alone) => t.(call := Some(Call(friend, alone)))
      case PlayCardMove(card, callJoker, called) => t.(tricks := Laid(n, s.tricks, Turn(p, card, callJoker, called)))
      case PlayAgainMove =>
        if |s.votes + {p}| == n then Dealt(t, deck, (s.rounds + 1) % n).(rounds := s.rounds + 1)
        else t.(votes := s.votes + {p})
      case ChangeConfigMove(size) => if size == Some(4) || size == Some(5) then t.(votes := {}) else t
  }

  function TaleOf(cfg: Config, ops: seq<Op>): Tale {
    if ops == [] then Beginning(cfg) else Tell(TaleOf(cfg, ops[..|ops| - 1]), ops[|ops| - 1])
  }

  // ----- what the story says

  /** The last bid that is not a pass. */
  function HighBid(bids: seq<Bid>): Option<Bid> {
    if bids == [] then None
    else if bids[|bids| - 1].points > 0 then Some(bids[|bids| - 1])
    else HighBid(bids[..|bids| - 1])
  }

  /** The auction is over: a bid of ten, or a bid when all other seats have passed. */
  predicate Awarded(s: Tale) {
    HighBid(s.bids).Some? && (HighBid(s.bids).value.points == 10 || |s.passed| == s.N() - 1)
  }

  function Declarer(s: Tale): int {
    if HighBid(s.bids).None? then -1 else Place(s.guests, HighBid(s.bids).value.playerID)
  }

  predicate OpenTrick(s: Tale) { s.tricks != [] && |s.tricks[|s.tricks| - 1]| < s.N() }

  function PhaseOf(s: Tale): Phase {
    if |s.guests| < s.N() then Waiting
    else if !Awarded(s) then Bidding
    else if s.discards.None? then Exchanging
    else if s.call.None? then Calling
    else if |s.tricks| < 10 || OpenTrick(s) then Playing
    else Finished
  }

  predicate Threw(s: Tale, seat: int, c: Card) { seat == Declarer(s) && s.discards.Some? && c in s.discards.value }

  predicate Showed(s: Tale, seat: int, c: Card) {
    exists k, i :: 0 <= k < |s.tricks| && 0 <= i < |s.tricks[k]| && s.tricks[k][i].seat == seat
        && s.tricks[k][i].card == c
  }

  /** The seat was dealt the card, or picked it up with the kitty. */
  predicate Drew(s: Tale, seat: int, c: Card) {
    && |s.deck| == 10 * s.N() + 3 && 0 <= seat < s.N()
    && (c in s.deck[10 * seat..10 * seat + 10] || (Awarded(s) && seat == Declarer(s) && c in s.deck[10 * s.N()..]))
  }

  predicate JokerCaller(trump: Suit, c: Card) {
    c == if trump == Clubs then Card(Spades, Three) else Card(Clubs, Three)
  }

  // ----- the table the story tells

  ghost predicate SeatsFit(g: GameState, s: Tale) {
    && g.config == s.cfg && g.N() == s.N() && g.version == s.moves + 1
    && |g.players| == |s.guests| <= s.N()
    && forall i :: 0 <= i < |g.players| ==>
         g.players[i].id == s.guests[i].id && g.players[i].name == s.guests[i].name && g.players[i].seat == i
             && g.players[i].connected
  }

  ghost predicate RoundFits(g: GameState, s: Tale) {
    && g.status == PhaseOf(s) && g.dealer == s.rounds % s.N() && s.rounds >= 0
    && |g.history| == s.rounds + (if g.status.Finished? then 1 else 0) && g.votes == s.votes
    && (!g.status.Finished? ==> g.scores == map[])
  }

  /** The seat after the last caller that is still in the auction is on turn. */
  ghost predicate TurnFits(g: GameState, s: Tale) {
    && (g.status.Bidding? && s.bids == [] ==> g.turn == s.opener)
    && (g.status.Bidding? && s.bids != [] ==>
          NextUp(s.N(), s.passed, Place(s.guests, s.bids[|s.bids| - 1].playerID), g.turn))
    && (g.status.Exchanging? || g.status.Calling? ==> g.turn == g.declarer)
  }

  predicate NextUp(n: int, passed: set<int>, caller: int, turn: int) {
    && 0 <= caller < n && 0 <= turn < n && turn !in passed
    && forall i :: 0 < i < Offset(n, caller, turn) ==> Rot(n, caller, i) in passed
  }

  ghost predicate AuctionFits(g: GameState, s: Tale) {
    && g.bids == s.bids && g.passed == s.passed && g.currentBid == HighBid(s.bids) && g.declarer == Declarer(s)
    && g.contract == (if Awarded(s) then HighBid(s.bids) else None)
    && (Awarded(s) ==> g.trump == HighBid(s.bids).value.suit)
    && (!g.status.Waiting? ==> |s.deck| == 10 * s.N() + 3 && g.kitty == if Awarded(s) then [] else s.deck[10 * s.N()..])
  }

  ghost predicate HandsFit(players: seq<Player>, s: Tale) {
    forall seat, c :: 0 <= seat < |players| ==>
      (c in players[seat].hand <==> Drew(s, seat, c) && !Threw(s, seat, c) && !Showed(s, seat, c))
  }

  ghost predicate FriendFits(g: GameState, s: Tale) {
    && g.partnerCard == (if s.call.Some? then s.call.value.friend else None)
    && g.noFriend == (s.call.Some? && s.call.value.alone)
  }

  /** A trick of the log is the cards laid, in order; its first card settles the suit owed and the joker call. */
  ghost predicate TrickFits(guests: seq<Guest>, trump: Suit, t: Trick, laid: seq<Turn>) {
    && |t.cards| == |laid| > 0
    && (forall i :: 0 <= i < |laid| ==>
          0 <= laid[i].seat < |guests| && t.cards[i] == Played(guests[laid[i].seat].id, laid[i].seat, laid[i].card))
    && t.leadSuit == (if laid[0].card.rank == Joker then laid[0].called else laid[0].card.suit)
    && (t.jokerCalled <==> laid[0].callJoker && JokerCaller(trump, laid[0].card))
  }

  ghost predicate TricksFit(g: GameState, s: Tale) {
    && |g.tricks| == |s.tricks| + (if g.status.Playing? && !OpenTrick(s) then 1 else 0)
    && (g.status.Playing? && !OpenTrick(s) ==> g.tricks[|s.tricks|].cards == [] && !g.tricks[|s.tricks|].jokerCalled)
    && forall k :: 0 <= k < |s.tricks| ==> TrickFits(s.guests, g.trump, g.tricks[k], s.tricks[k])
  }

  /** Nobody discards before the contract, calls before the discards, plays before the call, or votes before the end. */
  ghost predicate Orderly(s: Tale) {
    && (!Awarded(s) ==> s.discards.None?) && (s.discards.None? ==> s.call.None?) && (s.call.None? ==> s.tricks == [])
    && (!PhaseOf(s).Finished? ==> s.votes == {})
    && (|s.guests| < s.N() ==> s.deck == [] && s.bids == [] && s.passed == {})
    && |s.tricks| <= 10 && forall k :: 0 <= k < |s.tricks| ==> 0 < |s.tricks[k]| <= s.N()
  }

  ghost predicate Told(g: GameState, s: Tale) {
    && Orderly(s)
    && SeatsFit(g, s) && RoundFits(g, s) && TurnFits(g, s) && AuctionFits(g, s) && HandsFit(g.players, s)
       && FriendFits(g, s) && TricksFit(g, s)
  }
}
