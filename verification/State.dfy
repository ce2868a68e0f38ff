/** The state of one game as a value (internal/game/game.go, internal/game/config.go).
    `players` lists the filled seats; joining fills the first free seat, so they are a prefix
    of the seat array. Sets stand for Go's set-like maps from seat to true. */
module State {
  import opened Cards
  import opened Wrappers

  datatype Phase = Waiting | Bidding | Exchanging | Calling | Playing | Finished

  datatype FailDist = EqualSplit | DeclarerAlone | TwoOneSplit

  datatype Config = Config(numPlayers: int, allowJokerPartner: bool, failDist: FailDist) {
    function Seats(): int { if numPlayers == 0 then 5 else numPlayers }
    function MinBid(): int { if Seats() == 4 then 4 else 3 }
  }

  datatype Player = Player(id: string, name: string, seat: int, hand: seq<Card>, points: seq<Card>, connected: bool)

  datatype Bid = Bid(playerID: string, points: int, suit: Suit, noTrump: bool)

  datatype Played = Played(playerID: string, seat: int, card: Card)

  datatype Trick = Trick(cards: seq<Played>, leadSuit: Suit, winner: int, jokerCalled: bool)

  const NEWTRICK := Trick([], Blank, 0, false)

  // The payload of each kind of move; a Blank called suit is an absent one.
  datatype Move =
    | BidMove(points: int, suit: Suit, noTrump: bool)
    | PassMove
    | DiscardMove(cards: seq<Card>)
    | CallPartnerMove(friend: Option<Card>, alone: bool)
    | PlayCardMove(card: Card, callJoker: bool, calledSuit: Suit)
    | PlayAgainMove
    | ChangeConfigMove(size: Option<int>)

  type Ledger = map<string, int>

  datatype GameState = GameState(
    id: string, status: Phase, config: Config, players: seq<Player>, kitty: seq<Card>,
    turn: int, dealer: int,
    bids: seq<Bid>, currentBid: Option<Bid>, declarer: int, passed: set<int>, contract: Option<Bid>,
    partnerCard: Option<Card>, partnerSeat: int, noFriend: bool,
    trump: Suit, tricks: seq<Trick>,
    scores: Ledger, totals: Ledger, history: seq<Ledger>, votes: set<int>,
    version: int)
  {
    function N(): int { config.Seats() }
  }

  /** A game as created: no players, version 1 (NewWithConfig). */
  function NewGame(id: string, cfg: Config): GameState {
    var c := if cfg.numPlayers == 0 then cfg.(numPlayers := 5) else cfg;
    GameState(id, Waiting, c, [], [], 0, 0, [], None, -1, {}, None, None, -1, false, Blank, [],
              map[], map[], [], {}, 1)
  }

  /** Seat arithmetic: the seat i places after `from`, and the distance the other way. */
  function Rot(n: int, from: int, i: int): int { if from + i < n then from + i else from + i - n }

  function Offset(n: int, from: int, seat: int): int { if from <= seat then seat - from else seat - from + n }

  /** The seat of the first player with this ID, or -1 (GetPlayer). */
  function SeatOf(players: seq<Player>, id: string): (r: int)
    ensures -1 <= r < |players|
    ensures r >= 0 ==> players[r].id == id && forall i :: 0 <= i < r ==> players[i].id != id
    ensures r < 0 ==> forall i :: 0 <= i < |players| ==> players[i].id != id
  {
    if players == [] then -1
    else
      var r := SeatOf(players[..|players| - 1], id);
      if r >= 0 then r else if players[|players| - 1].id == id then |players| - 1 else -1
  }
}
