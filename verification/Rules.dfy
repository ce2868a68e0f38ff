/** What a move must satisfy, who wins a trick, and who the friend is (internal/game/rules.go). */
module Rules {
  import opened Cards
  import opened Wrappers
  import opened State

  datatype Reason =
    | NotInGame | NotYourTurn | WrongPhase | BadPoints | BadSuit | BidTooLow | NotDeclarer
    | WrongCount | NotHeld | BadFriendCall | NoTrick | MustPlaySpecial | JokerWasCalled
    | BadFirstTrick | BadCalledSuit | BadJokerCall | MustFollow

  datatype Verdict = Accept | Reject(why: Reason)

  predicate IsMighty(trump: Suit, c: Card) {
    if trump == Spades then c.suit == Diamonds && c.rank == Ace else c.suit == Spades && c.rank == Ace
  }

  predicate IsJokerCaller(trump: Suit, c: Card) {
    if trump == Clubs then c.suit == Spades && c.rank == Three else c.suit == Clubs && c.rank == Three
  }

  predicate IsSpecial(trump: Suit, c: Card) { IsMighty(trump, c) || c.rank == Joker }

  predicate HasMighty(trump: Suit, hand: seq<Card>) { exists i :: 0 <= i < |hand| && IsMighty(trump, hand[i]) }

  predicate HasJoker(hand: seq<Card>) { exists i :: 0 <= i < |hand| && hand[i].rank == Joker }

  predicate HasSuit(hand: seq<Card>, s: Suit) { exists i :: 0 <= i < |hand| && hand[i].suit == s }

  predicate HasOrdinary(trump: Suit, hand: seq<Card>) {
    exists i :: 0 <= i < |hand| && hand[i].suit != trump && !IsSpecial(trump, hand[i])
  }

  function SuitCount(hand: seq<Card>, s: Suit): nat {
    if hand == [] then 0
    else SuitCount(hand[..|hand| - 1], s) + (if hand[|hand| - 1].suit == s then 1 else 0)
  }

  // ----- validation

  /** The seat a phase looks up must exist; the source indexes its seat array with it. */
  predicate Indexable(g: GameState) {
    && (g.status.Bidding? || g.status.Playing? ==> 0 <= g.turn < |g.players|)
    && (g.status.Exchanging? || g.status.Calling? ==> 0 <= g.declarer < |g.players|)
  }

  function ValidateMove(g: GameState, id: string, m: Move): Verdict
    requires Indexable(g)
  {
    var p := SeatOf(g.players, id);
    if p < 0 then Reject(NotInGame)
    else if g.status.Playing? && g.players[g.turn].id != id then Reject(NotYourTurn)
    else
      match m
      case BidMove(points, suit, noTrump) => ValidateBid(g, id, points, suit, noTrump)
      case PassMove => ValidatePass(g, id)
      case DiscardMove(cards) => ValidateDiscard(g, id, p, cards)
      case CallPartnerMove(friend, alone) => ValidateCall(g, id, friend, alone)
      case PlayCardMove(card, callJoker, calledSuit) => ValidatePlay(g, id, p, card, callJoker, calledSuit)
      case PlayAgainMove => if g.status.Finished? then Accept else Reject(WrongPhase)
      case ChangeConfigMove(_) => if g.status.Finished? then Accept else Reject(WrongPhase)
  }

  function ValidateBid(g: GameState, id: string, points: int, suit: Suit, noTrump: bool): Verdict
    requires Indexable(g)
  {
    if !g.status.Bidding? then Reject(WrongPhase)
    else if g.players[g.turn].id != id then Reject(NotYourTurn)
    else if points < g.config.MinBid() || points > 10 then Reject(BadPoints)
    else if (if noTrump then suit != NoSuit else !suit.Real()) then Reject(BadSuit)
    else if g.currentBid.Some? && points <= g.currentBid.value.points then Reject(BidTooLow)
    else Accept
  }

  function ValidatePass(g: GameState, id: string): Verdict
    requires Indexable(g)
  {
    if !g.status.Bidding? then Reject(WrongPhase)
    else if g.players[g.turn].id != id then Reject(NotYourTurn)
    else Accept
  }

  function ValidateDiscard(g: GameState, id: string, p: int, cards: seq<Card>): Verdict
    requires Indexable(g) && 0 <= p < |g.players|
  {
    if !g.status.Exchanging? then Reject(WrongPhase)
    else if g.players[g.declarer].id != id then Reject(NotDeclarer)
    else if |cards| != 3 then Reject(WrongCount)
    else if exists i :: 0 <= i < 3 && cards[i] !in g.players[p].hand then Reject(NotHeld)
    else Accept
  }

  function ValidateCall(g: GameState, id: string, friend: Option<Card>, alone: bool): Verdict
    requires Indexable(g)
  {
    if !g.status.Calling? then Reject(WrongPhase)
    else if g.players[g.declarer].id != id then Reject(NotDeclarer)
    else if friend.Some? == alone then Reject(BadFriendCall)
    else if friend.None? then Accept
    else if friend.value == JOKER then
      (if g.config.numPlayers == 4 && !g.config.allowJokerPartner then Reject(BadFriendCall) else Accept)
    else if !friend.value.suit.Real() || !friend.value.rank.Plain() then Reject(BadFriendCall)
    else Accept
  }

  function ValidatePlay(g: GameState, id: string, p: int, card: Card, callJoker: bool, calledSuit: Suit): Verdict
    requires Indexable(g) && 0 <= p < |g.players|
  {
    if !g.status.Playing? then Reject(WrongPhase)
    else if g.players[g.turn].id != id then Reject(NotYourTurn)
    else if g.tricks == [] then (if card !in g.players[p].hand then Reject(NotHeld) else Reject(NoTrick))
    else PlayVerdict(g.trump, |g.tricks|, g.tricks[|g.tricks| - 1], g.players[p].hand, card, callJoker, calledSuit)
  }

  /** The rules for one card, given trump, the number and state of the trick, and the hand. */
  function PlayVerdict(trump: Suit, k: int, t: Trick, hand: seq<Card>, card: Card, callJoker: bool,
      calledSuit: Suit): Verdict
  {
    var special := IsSpecial(trump, card);
    if card !in hand then Reject(NotHeld)
    else if |hand| == 3 && HasMighty(trump, hand) && HasJoker(hand) && !special then Reject(MustPlaySpecial)
    else if |hand| == 2 && (HasMighty(trump, hand) || HasJoker(hand)) && !special then Reject(MustPlaySpecial)
    else if t.jokerCalled && HasJoker(hand) && !special then Reject(JokerWasCalled)
    else if t.cards == [] then LeadVerdict(trump, k, hand, card, callJoker, calledSuit)
    else FollowVerdict(trump, k, t, hand, card, calledSuit)
  }

  function LeadVerdict(trump: Suit, k: int, hand: seq<Card>, card: Card, callJoker: bool, calledSuit: Suit): Verdict {
    if k == 1 && (IsSpecial(trump, card) || (card.suit == trump && HasOrdinary(trump, hand))) then Reject(BadFirstTrick)
    else if (if card.rank == Joker then !calledSuit.Real() else calledSuit != Blank) then Reject(BadCalledSuit)
    else if callJoker && (!IsJokerCaller(trump, card) || k == 1 || k == 10) then Reject(BadJokerCall)
    else Accept
  }

  function FollowVerdict(trump: Suit, k: int, t: Trick, hand: seq<Card>, card: Card, calledSuit: Suit): Verdict {
    if calledSuit != Blank then Reject(BadCalledSuit)
    else if k == 1 && card.rank == Joker then Reject(BadFirstTrick)
    else if k == 1 && IsMighty(trump, card) && (t.leadSuit != card.suit || SuitCount(hand, t.leadSuit) > 1) then
      Reject(BadFirstTrick)
    else if card.suit != t.leadSuit && !IsSpecial(trump, card) && HasSuit(hand, t.leadSuit) then Reject(MustFollow)
    else Accept
  }

  // ----- trick strength

  predicate MightyIn(trump: Suit, t: Trick) { exists i :: 0 <= i < |t.cards| && IsMighty(trump, t.cards[i].card) }

  function Power(trump: Suit, k: int, t: Trick, c: Card): int {
    if IsMighty(trump, c) then 1000
    else if c.rank == Joker then
      (if k == 1 || k == 10 || t.jokerCalled || MightyIn(trump, t) then 0 else 500)
    else if c.suit == trump then 100 + c.rank.Value()
    else if c.suit == t.leadSuit then 10 + c.rank.Value()
    else c.rank.Value()
  }

  /** Index of the first card of greatest power among the first m. */
  function BestIndex(trump: Suit, k: int, t: Trick, m: nat): (r: nat)
    requires 0 < m <= |t.cards|
    ensures r < m
  {
    if m == 1 then 0
    else
      var b := BestIndex(trump, k, t, m - 1);
      if Power(trump, k, t, t.cards[m - 1].card) > Power(trump, k, t, t.cards[b].card) then m - 1 else b
  }

  function CardsIn(t: Trick): seq<Card> { seq(|t.cards|, i requires 0 <= i < |t.cards| => t.cards[i].card) }

  function WinnerSeat(trump: Suit, k: int, t: Trick): int
    requires t.cards != []
  {
    t.cards[BestIndex(trump, k, t, |t.cards|)].seat
  }

  // ----- the friend

  /** First seat whose hand holds the card, or -1. */
  function HandSeat(players: seq<Player>, c: Card): (r: int)
    ensures -1 <= r < |players|
    ensures r >= 0 ==> c in players[r].hand && forall i :: 0 <= i < r ==> c !in players[i].hand
    ensures r < 0 ==> forall i :: 0 <= i < |players| ==> c !in players[i].hand
  {
    if players == [] then -1
    else
      var r := HandSeat(players[..|players| - 1], c);
      if r >= 0 then r else if c in players[|players| - 1].hand then |players| - 1 else -1
  }

  predicate PlayedBy(t: Trick, s: int, c: Card) {
    exists i :: 0 <= i < |t.cards| && t.cards[i].card == c && t.cards[i].seat == s
  }

  function FirstPlayer(cards: seq<Played>, c: Card): (r: Option<int>)
    ensures r.Some? ==> exists i :: 0 <= i < |cards| && cards[i].card == c && cards[i].seat == r.value
    ensures r.None? ==> forall i :: 0 <= i < |cards| ==> cards[i].card != c
  {
    if cards == [] then None
    else
      var last := cards[|cards| - 1];
      var r := FirstPlayer(cards[..|cards| - 1], c);
      if r.Some? then r else if last.card == c then Some(last.seat) else None
  }

  /** Seat of the first play of the card in the trick log, or -1. */
  function LogSeat(tricks: seq<Trick>, c: Card): int {
    if tricks == [] then -1
    else
      var r := LogSeat(tricks[..|tricks| - 1], c);
      var here := FirstPlayer(tricks[|tricks| - 1].cards, c);
      if r != -1 then r else if here.Some? then here.value else -1
  }

  /** The holder of a card, or else the first to have played it, found by scanning hands and then tricks; or -1. */
  function Locate(players: seq<Player>, tricks: seq<Trick>, c: Card): int {
    var h := HandSeat(players, c);
    if h >= 0 then h else LogSeat(tricks, c)
  }

  function FriendSeat(players: seq<Player>, tricks: seq<Trick>, noFriend: bool, partner: Option<Card>): int {
    if noFriend || partner.None? then -1 else Locate(players, tricks, partner.value)
  }

  predicate Reveals(t: Trick, s: int) {
    exists i :: 0 <= i < |t.cards| && (t.cards[i].card.IsPoint()
        || (t.cards[i].seat == s && t.cards[i].card.rank == Joker))
  }
}
