/** The effect of each accepted move, as a function of the state (ApplyMove in
    internal/game/rules.go, Start in internal/game/game.go). `deck` is the shuffled deck a move
    uses if it deals. */
module Engine {
  import opened Cards
  import opened Piles
  import opened Decks
  import opened Wrappers
  import opened State
  import opened Rules
  import opened Scoring

  function SetHand(players: seq<Player>, s: int, hand: seq<Card>): (r: seq<Player>)
    ensures |r| == |players|
  {
    if 0 <= s < |players| then players[s := players[s].(hand := hand)] else players
  }

  function AddPoints(players: seq<Player>, s: int, points: seq<Card>): (r: seq<Player>)
    ensures |r| == |players|
  {
    if 0 <= s < |players| then players[s := players[s].(points := players[s].points + points)] else players
  }

  function HandOf(players: seq<Player>, s: int): seq<Card> {
    if 0 <= s < |players| then players[s].hand else []
  }

  // ----- dealing

  function DealTo(players: seq<Player>, deck: seq<Card>): (r: seq<Player>)
    requires 10 * |players| <= |deck|
    ensures |r| == |players|
    ensures forall i :: 0 <= i < |players| ==> r[i] == players[i].(hand := HandFrom(deck, i), points := [])
  {
    seq(|players|, i requires 0 <= i < |players| => players[i].(hand := HandFrom(deck, i), points := []))
  }

  /** Deals to the filled seats; a deck of the wrong size for the seat count deals nothing. */
  function Start(g: GameState, deck: seq<Card>): GameState
    requires |g.players| <= g.N()
  {
    var n := g.N();
    if |deck| == 10 * n + 3 then
      g.(players := DealTo(g.players, deck), kitty := deck[10 * n..], status := Bidding, turn := 0)
    else g.(kitty := [], status := Bidding, turn := 0)
  }

  // ----- auction

  function NextBidder(n: int, passed: set<int>, turn: int, fuel: int): int
    decreases fuel
  {
    var t := Rot(n, turn, 1);
    if fuel <= 0 || t !in passed then t else NextBidder(n, passed, t, fuel - 1)
  }

  function Advance(n: int, passed: set<int>, turn: int): int {
    if |passed| >= n then turn else NextBidder(n, passed, turn, n)
  }

  /** The standing bid becomes the contract and the declarer picks up the kitty. */
  function Award(g: GameState): GameState
    requires g.currentBid.Some?
  {
    g.(status := Exchanging, contract := g.currentBid, trump := g.currentBid.value.suit, turn := g.declarer,
       players := SetHand(g.players, g.declarer, HandOf(g.players, g.declarer) + g.kitty), kitty := [])
  }

  function ApplyBid(g: GameState, id: string, p: int, points: int, suit: Suit, noTrump: bool): GameState
  {
    var b := Bid(id, points, suit, noTrump);
    var g1 := g.(currentBid := Some(b), declarer := p, bids := g.bids + [b]);
    if points == 10 || |g.passed| == g.N() - 1 then Award(g1)
    else g1.(turn := Advance(g.N(), g.passed, g.turn))
  }

  /** Everyone passed: the hand is thrown in and dealt again. */
  function Redeal(g: GameState, deck: seq<Card>): GameState
    requires |g.players| <= g.N()
  {
    Start(g.(bids := [], currentBid := None, contract := None, declarer := -1, passed := {}, partnerCard := None,
             partnerSeat := -1, noFriend := false, trump := Blank, tricks := []), deck)
  }

  function ApplyPass(g: GameState, id: string, p: int, deck: seq<Card>): GameState
    requires |g.players| <= g.N()
  {
    var passed := g.passed + {p};
    var g1 := g.(passed := passed, bids := g.bids + [Bid(id, 0, Blank, false)], turn := Advance(g.N(), passed, g.turn));
    if |passed| == g.N() - 1 && g.currentBid.Some? then Award(g1)
    else if |passed| == g.N() then Redeal(g1, deck)
    else g1
  }

  // ----- exchange and call

  function ApplyDiscard(g: GameState, p: int, cards: seq<Card>): GameState {
    var hand := HandOf(g.players, p);
    g.(players := AddPoints(SetHand(g.players, p, Keep(hand, cards)), p, PointCards(Take(hand, cards))),
       status := Calling)
  }

  function ApplyCall(g: GameState, friend: Option<Card>, alone: bool): GameState {
    g.(noFriend := g.noFriend || alone, partnerCard := if alone then None else friend,
       status := Playing, turn := g.declarer, tricks := g.tricks + [NEWTRICK])
  }

  // ----- play

  /** The current trick after one more card; the first card fixes the suit owed and the joker call. */
  function Extend(trump: Suit, t: Trick, play: Played, callJoker: bool, calledSuit: Suit): Trick {
    var t1 := t.(cards := t.cards + [play]);
    if t.cards != [] then t1
    else
      t1.(leadSuit := if play.card.rank == Joker then calledSuit else play.card.suit,
          jokerCalled := t.jokerCalled || (callJoker && IsJokerCaller(trump, play.card)))
  }

  function PlaceCard(g: GameState, id: string, p: int, card: Card, callJoker: bool, calledSuit: Suit): (r: GameState)
    requires g.tricks != []
    ensures |r.tricks| == |g.tricks| && |r.players| == |g.players|
    ensures |r.tricks[|g.tricks| - 1].cards| == |g.tricks[|g.tricks| - 1].cards| + 1
  {
    var idx := |g.tricks| - 1;
    g.(players := SetHand(g.players, p, Keep(HandOf(g.players, p), [card])),
       tricks := g.tricks[idx := Extend(g.trump, g.tricks[idx], Played(id, p, card), callJoker, calledSuit)],
       turn := Rot(g.N(), g.turn, 1))
  }

  /** A full trick goes to its winner, who leads next; the friend is revealed by a defending win. */
  function CloseTrick(g: GameState): (r: GameState)
    requires g.tricks != [] && g.tricks[|g.tricks| - 1].cards != []
    ensures |r.tricks| == |g.tricks| && |r.players| == |g.players|
    ensures r.tricks[|g.tricks| - 1].winner == r.turn
  {
    var idx := |g.tricks| - 1;
    var t := g.tricks[idx];
    var w := WinnerSeat(g.trump, |g.tricks|, t);
    var tricks := g.tricks[idx := t.(winner := w)];
    var fs := FriendSeat(g.players, tricks, g.noFriend, g.partnerCard);
    g.(tricks := tricks, turn := w, players := AddPoints(g.players, w, PointCards(CardsIn(t))),
       partnerSeat := if g.partnerSeat < 0 && fs >= 0 && w == fs && Reveals(t, fs) then fs else g.partnerSeat)
  }

  function Get(l: Ledger, id: string): int { if id in l then l[id] else 0 }

  function RoundPayouts(g: GameState): Payout {
    if g.contract.None? then Payout(0, 0, 0)
    else
      var fs := FriendSeat(g.players, g.tricks, g.noFriend, g.partnerCard);
      PayoutOf(g.config, g.contract.value, g.noFriend, Partnered(g.declarer, fs),
               Opponents(|g.players|, g.declarer, fs), TeamPoints(g.players, g.declarer, fs))
  }

  function ScoreLedger(players: seq<Player>, y: Payout, declarer: int, fs: int): Ledger {
    if players == [] then map[]
    else
      var last := |players| - 1;
      ScoreLedger(players[..last], y, declarer, fs)[players[last].id := Share(y, declarer, fs, last)]
  }

  function AddLedger(totals: Ledger, round: Ledger): Ledger {
    map id | id in totals.Keys + round.Keys :: Get(totals, id) + Get(round, id)
  }

  function FinishRound(g: GameState): GameState {
    var fs := FriendSeat(g.players, g.tricks, g.noFriend, g.partnerCard);
    var round := ScoreLedger(g.players, RoundPayouts(g), g.declarer, fs);
    g.(status := Finished, scores := round, totals := AddLedger(g.totals, round), history := g.history + [round])
  }

  function ApplyPlay(g: GameState, id: string, p: int, card: Card, callJoker: bool, calledSuit: Suit): GameState
    requires g.tricks != []
  {
    var g1 := PlaceCard(g, id, p, card, callJoker, calledSuit);
    if |g1.tricks[|g1.tricks| - 1].cards| != g.N() then g1
    else
      var g2 := CloseTrick(g1);
      if |g2.tricks| == 10 then FinishRound(g2) else g2.(tricks := g2.tricks + [NEWTRICK])
  }

  // ----- between rounds

  function ClearPoints(players: seq<Player>): (r: seq<Player>)
    ensures |r| == |players| && forall i :: 0 <= i < |r| ==> r[i] == players[i].(points := [])
  {
    seq(|players|, i requires 0 <= i < |players| => players[i].(points := []))
  }

  /** Clears the table and moves the dealer on. */
  function Cleared(g: GameState): (r: GameState)
    ensures |r.players| == |g.players| && r.N() == g.N()
  {
    g.(votes := {}, tricks := [], bids := [], currentBid := None, contract := None, declarer := -1,
       partnerCard := None, partnerSeat := -1, passed := {}, scores := map[], noFriend := false,
       dealer := Rot(g.config.numPlayers, g.dealer, 1), players := ClearPoints(g.players))
  }

  /** Deals the next round and lets the new dealer open. */
  function NextRound(g: GameState, deck: seq<Card>): GameState
    requires |g.players| <= g.N()
  {
    var g1 := Cleared(g);
    Start(g1, deck).(turn := g1.dealer)
  }

  function ApplyPlayAgain(g: GameState, p: int, deck: seq<Card>): GameState
    requires |g.players| <= g.N()
  {
    var g1 := g.(votes := g.votes + {p});
    if |g1.votes| == g.config.numPlayers then NextRound(g1, deck) else g1
  }

  function ApplyChangeConfig(g: GameState, size: Option<int>): GameState {
    if size.Some? && (size.value == 4 || size.value == 5)
    then g.(config := g.config.(numPlayers := size.value), votes := {})
    else g
  }

  /** What a move does besides counting itself. */
  function Performed(g: GameState, id: string, m: Move, deck: seq<Card>): GameState
    requires Indexable(g) && ValidateMove(g, id, m).Accept? && |g.players| <= g.N()
  {
    var p := SeatOf(g.players, id);
    match m
    case BidMove(points, suit, noTrump) => ApplyBid(g, id, p, points, suit, noTrump)
    case PassMove => ApplyPass(g, id, p, deck)
    case DiscardMove(cards) => ApplyDiscard(g, p, cards)
    case CallPartnerMove(friend, alone) => ApplyCall(g, friend, alone)
    case PlayCardMove(card, callJoker, calledSuit) => ApplyPlay(g, id, p, card, callJoker, calledSuit)
    case PlayAgainMove => ApplyPlayAgain(g, p, deck)
    case ChangeConfigMove(size) => ApplyChangeConfig(g, size)
  }

  /** One accepted move. */
  function Apply(g: GameState, id: string, m: Move, deck: seq<Card>): GameState
    requires Indexable(g) && ValidateMove(g, id, m).Accept? && |g.players| <= g.N()
  {
    Performed(g, id, m, deck).(version := g.version + 1)
  }

  // ----- joining (JoinGame in internal/service/game_service.go)

  function NewPlayer(id: string, name: string, seat: int): Player { Player(id, name, seat, [], [], true) }

  predicate CanJoin(g: GameState, id: string) { SeatOf(g.players, id) >= 0 || |g.players| < g.N() }

  /** A seated player only refreshes name and connection; a new one takes the first free seat, and
      the last seat starts the game. */
  function Join(g: GameState, id: string, name: string, deck: seq<Card>): GameState
    requires CanJoin(g, id)
  {
    var p := SeatOf(g.players, id);
    if p >= 0 then
      g.(players := g.players[p := g.players[p].(name := name, connected := true)], version := g.version + 1)
    else
      var g1 := g.(players := g.players + [NewPlayer(id, name, |g.players|)], version := g.version + 1);
      if |g1.players| == g.N() then Start(g1, deck) else g1
  }
}
