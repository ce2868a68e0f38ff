/** What every reachable game satisfies, stated slice by slice. A Table is a game together with the
    pile its declarer threw away, which the stored state does not keep. */
module Invariants {
  import opened Cards
  import opened Piles
  import opened Decks
  import opened State
  import opened Rules
  import opened Scoring
  import opened Engine
  import opened Auction

  datatype Table = Table(g: GameState, discards: seq<Card>)

  // ----- seats

  ghost predicate Seated(players: seq<Player>) {
    && (forall i :: 0 <= i < |players| ==> players[i].seat == i)
    && (forall i, j :: 0 <= i < j < |players| ==> players[i].id != players[j].id)
  }

  // ----- cards

  function Hands(players: seq<Player>): seq<seq<Card>> {
    seq(|players|, i requires 0 <= i < |players| => players[i].hand)
  }

  function LogRows(tricks: seq<Trick>): seq<seq<Card>> {
    seq(|tricks|, i requires 0 <= i < |tricks| => CardsIn(tricks[i]))
  }

  /** Every card of the deal, wherever it is now. */
  function AllCards(players: seq<Player>, kitty: seq<Card>, tricks: seq<Trick>, discards: seq<Card>): seq<Card> {
    Flatten(Hands(players)) + kitty + Flatten(LogRows(tricks)) + discards
  }

  ghost predicate Conserved(n: int, players: seq<Player>, kitty: seq<Card>, tricks: seq<Trick>, discards: seq<Card>) {
    Perm(AllCards(players, kitty, tricks, discards), Deck(n))
  }

  ghost predicate SeatIn(t: Trick, s: int) { exists i :: 0 <= i < |t.cards| && t.cards[i].seat == s }

  /** How many cards a seat has played, if every trick but the last is full. */
  ghost function Plays(tricks: seq<Trick>, s: int): int {
    if tricks == [] then 0 else |tricks| - 1 + (if SeatIn(tricks[|tricks| - 1], s) then 1 else 0)
  }

  /** Hand sizes once the kitty is taken and d cards are discarded. */
  ghost predicate HandSizes(players: seq<Player>, declarer: int, d: int, tricks: seq<Trick>) {
    forall s :: 0 <= s < |players| ==>
      |players[s].hand| == (if s == declarer then 13 - d else 10) - Plays(tricks, s)
  }

  ghost predicate TenEach(players: seq<Player>) { forall s :: 0 <= s < |players| ==> |players[s].hand| == 10 }

  /** A seat with two cards left does not hold both specials, and with one card left holds none. */
  ghost predicate LateHands(trump: Suit, players: seq<Player>) {
    forall s :: 0 <= s < |players| ==> LateHand(trump, players[s].hand)
  }

  ghost predicate LateHand(trump: Suit, hand: seq<Card>) {
    && (|hand| <= 1 ==> !HasMighty(trump, hand) && !HasJoker(hand))
    && (|hand| == 2 ==> !(HasMighty(trump, hand) && HasJoker(hand)))
  }

  // ----- the trick log

  function Leader(declarer: int, tricks: seq<Trick>, j: int): int {
    if 0 < j <= |tricks| then tricks[j - 1].winner else declarer
  }

  function IdList(players: seq<Player>): seq<string> {
    seq(|players|, i requires 0 <= i < |players| => players[i].id)
  }

  /** One card from each seat in turn, starting with the leader. */
  ghost predicate InRotation(ids: seq<string>, leader: int, t: Trick) {
    && 0 <= leader < |ids| && |t.cards| <= |ids|
    && forall i :: 0 <= i < |t.cards| ==>
        t.cards[i].seat == Rot(|ids|, leader, i) && t.cards[i].playerID == ids[t.cards[i].seat]
  }

  /** The suit owed is the led card's, or the one called with a led joker. */
  ghost predicate LeadDeclared(trump: Suit, k: int, t: Trick) {
    && (t.cards != [] ==> t.leadSuit.Real() && (t.cards[0].card.rank != Joker ==> t.leadSuit == t.cards[0].card.suit))
    && (t.jokerCalled ==> t.cards != [] && IsJokerCaller(trump, t.cards[0].card) && k != 1 && k != 10)
  }

  ghost predicate RotationLog(ids: seq<string>, declarer: int, tricks: seq<Trick>) {
    forall j :: 0 <= j < |tricks| ==> InRotation(ids, Leader(declarer, tricks, j), tricks[j])
  }

  ghost predicate LeadLog(trump: Suit, tricks: seq<Trick>) {
    forall j :: 0 <= j < |tricks| ==> LeadDeclared(trump, j + 1, tricks[j])
  }

  ghost predicate Resolved(n: int, trump: Suit, k: int, t: Trick) {
    |t.cards| == n > 0 && t.winner == WinnerSeat(trump, k, t)
  }

  ghost predicate WinnerLog(n: int, trump: Suit, tricks: seq<Trick>, done: int) {
    forall j :: 0 <= j < done <= |tricks| ==> Resolved(n, trump, j + 1, tricks[j])
  }

  /** `done` counts the tricks that are complete and have their winner. */
  ghost predicate TrickLog(ids: seq<string>, declarer: int, trump: Suit, tricks: seq<Trick>, done: int) {
    && 0 <= done <= |tricks| <= 10
    && RotationLog(ids, declarer, tricks) && LeadLog(trump, tricks) && WinnerLog(|ids|, trump, tricks, done)
  }

  /** The Joker never appears in trick 1, and no special in trick 10 unless the declarer, who kept
      surplus cards by naming a discard twice, plays it. */
  ghost predicate Placement(declarer: int, d: int, trump: Suit, tricks: seq<Trick>) {
    && (forall i :: 0 < |tricks| && 0 <= i < |tricks[0].cards| ==> tricks[0].cards[i].card.rank != Joker)
    && (forall i :: 10 == |tricks| && 0 <= i < |tricks[9].cards| && IsSpecial(trump, tricks[9].cards[i].card) ==>
        tricks[9].cards[i].seat == declarer && d < 3)
  }

  /** An answer that is neither of the suit owed nor a special. */
  ghost predicate Renounces(trump: Suit, t: Trick, i: int) {
    0 < i < |t.cards| && t.cards[i].card.suit != t.leadSuit && !IsSpecial(trump, t.cards[i].card)
  }

  ghost predicate NoneLater(tricks: seq<Trick>, j: int, s: int, suit: Suit) {
    forall m, i :: 0 <= j < m < |tricks| && 0 <= i < |tricks[m].cards| && tricks[m].cards[i].seat == s ==>
      tricks[m].cards[i].card.suit != suit
  }

  /** Whoever renounces a suit shows no card of it later. */
  ghost predicate NoRevoke(trump: Suit, tricks: seq<Trick>) {
    forall j, i :: 0 <= j < |tricks| && Renounces(trump, tricks[j], i) ==>
      NoneLater(tricks, j, tricks[j].cards[i].seat, tricks[j].leadSuit)
  }

  /** ... because none is left in hand. */
  ghost predicate RenouncersOut(trump: Suit, players: seq<Player>, tricks: seq<Trick>) {
    forall j, i :: 0 <= j < |tricks| && Renounces(trump, tricks[j], i) ==>
      !HasSuit(HandOf(players, tricks[j].cards[i].seat), tricks[j].leadSuit)
  }

  // ----- points and the friend

  function Captured(tricks: seq<Trick>, s: int): seq<Card> {
    if tricks == [] then []
    else
      var t := tricks[|tricks| - 1];
      Captured(tricks[..|tricks| - 1], s) + (if t.winner == s then PointCards(CardsIn(t)) else [])
  }

  /** Each pile of points is what the seat threw away plus what it captured, in order. */
  ghost predicate Accounted(players: seq<Player>, declarer: int, discards: seq<Card>, won: seq<Trick>) {
    forall s :: 0 <= s < |players| ==>
      players[s].points == (if s == declarer then PointCards(discards) else []) + Captured(won, s)
  }

  ghost predicate Defended(won: seq<Trick>, s: int) {
    exists j :: 0 <= j < |won| && won[j].winner == s && Reveals(won[j], s)
  }

  ghost predicate RevealedRightly(partnerSeat: int, fs: int, won: seq<Trick>) {
    partnerSeat == if fs >= 0 && Defended(won, fs) then fs else -1
  }

  // ----- the ledger of scores

  function Ids(ids: seq<string>): set<string> { set i | 0 <= i < |ids| :: ids[i] }

  function Sum(ids: seq<string>, l: Ledger): int {
    if ids == [] then 0 else Sum(ids[..|ids| - 1], l) + Get(l, ids[|ids| - 1])
  }

  function Accumulated(history: seq<Ledger>, id: string): int {
    if history == [] then 0 else Accumulated(history[..|history| - 1], id) + Get(history[|history| - 1], id)
  }

  /** Every round and the running totals cancel out, and the totals are the sum of the history. */
  ghost predicate Books(ids: seq<string>, totals: Ledger, history: seq<Ledger>) {
    && (forall h :: 0 <= h < |history| ==> history[h].Keys == Ids(ids) && Sum(ids, history[h]) == 0)
    && totals.Keys == (if history == [] then {} else Ids(ids))
    && (forall id :: Get(totals, id) == Accumulated(history, id))
    && Sum(ids, totals) == 0
  }

  // ----- phases

  ghost predicate Rotating(g: GameState) {
    exists opener :: Rotation(g.N(), opener, g.turn, g.declarer, g.passed, g.currentBid.Some?)
  }

  ghost predicate NoFriendYet(g: GameState) { g.partnerCard.None? && g.partnerSeat == -1 && !g.noFriend }

  ghost predicate BiddingInv(t: Table) {
    var g := t.g;
    && Rotating(g) && BidLog(g.bids, g.currentBid, g.config.MinBid())
    && (g.currentBid.Some? ==> HeldBy(g, g.currentBid.value) && g.currentBid.value.points < 10)
    && g.contract.None? && NoFriendYet(g)
    && g.tricks == [] && t.discards == [] && TenEach(g.players) && |g.kitty| == 3
    && Accounted(g.players, g.declarer, [], [])
  }

  /** The bid is legal and made by the declarer. */
  ghost predicate HeldBy(g: GameState, b: Bid) {
    && LegalBid(g.config, b) && (if b.noTrump then b.suit == NoSuit else b.suit.Real())
    && 0 <= g.declarer < |g.players| && g.players[g.declarer].id == b.playerID
  }

  /** The contract is the last and highest bid of the auction, and the declarer's. */
  ghost predicate ContractInv(g: GameState) {
    && g.contract.Some? && g.contract == g.currentBid && g.trump == g.contract.value.suit
    && HeldBy(g, g.contract.value) && BidLog(g.bids, g.currentBid, g.config.MinBid())
    && g.kitty == []
  }

  ghost predicate ExchangingInv(t: Table) {
    && ContractInv(t.g) && NoFriendYet(t.g) && t.g.turn == t.g.declarer
    && t.g.tricks == [] && t.discards == []
    && HandSizes(t.g.players, t.g.declarer, 0, []) && Accounted(t.g.players, t.g.declarer, [], [])
  }

  ghost predicate CallingInv(t: Table) {
    && ContractInv(t.g) && NoFriendYet(t.g) && t.g.turn == t.g.declarer
    && t.g.tricks == [] && 1 <= |t.discards| <= 3
    && HandSizes(t.g.players, t.g.declarer, |t.discards|, [])
    && Accounted(t.g.players, t.g.declarer, t.discards, [])
  }

  function Friend(g: GameState): int { FriendSeat(g.players, g.tricks, g.noFriend, g.partnerCard) }

  /** The part shared by play and the finished round; `done` tricks are complete. */
  ghost predicate RoundInv(t: Table, done: int) {
    var g := t.g;
    && ContractInv(g) && 1 <= |t.discards| <= 3 && 1 <= |g.tricks| && 0 <= done <= |g.tricks|
    && (g.noFriend <==> g.partnerCard.None?)
    && HandSizes(g.players, g.declarer, |t.discards|, g.tricks)
    && LateHands(g.trump, g.players)
    && TrickLog(IdList(g.players), g.declarer, g.trump, g.tricks, done)
    && Placement(g.declarer, |t.discards|, g.trump, g.tricks)
    && NoRevoke(g.trump, g.tricks) && RenouncersOut(g.trump, g.players, g.tricks)
    && Accounted(g.players, g.declarer, t.discards, g.tricks[..done])
    && RevealedRightly(g.partnerSeat, Friend(g), g.tricks[..done])
  }

  ghost predicate PlayingInv(t: Table) {
    var g := t.g;
    var last := |g.tricks| - 1;
    && RoundInv(t, last)
    && |g.tricks[last].cards| < |g.players|
    && g.turn == Rot(|g.players|, Leader(g.declarer, g.tricks, last), |g.tricks[last].cards|)
  }

  ghost predicate FinishedInv(t: Table) {
    var g := t.g;
    && |g.tricks| == 10 && RoundInv(t, 10)
    && g.history != [] && g.scores == g.history[|g.history| - 1]
    && g.scores == ScoreLedger(g.players, RoundPayouts(g), g.declarer, Friend(g))
    && (forall s :: s in g.votes ==> 0 <= s < |g.players|) && |g.votes| < |g.players|
  }

  ghost predicate PhaseInv(t: Table) {
    match t.g.status
    case Waiting => FreshInv(t)
    case Bidding => BiddingInv(t)
    case Exchanging => ExchangingInv(t)
    case Calling => CallingInv(t)
    case Playing => PlayingInv(t)
    case Finished => FinishedInv(t)
  }

  ghost predicate BaseInv(g: GameState) {
    && (g.config.numPlayers == 4 || g.config.numPlayers == 5)
    && |g.players| <= g.N() && (g.status.Waiting? <==> |g.players| < g.N())
    && Seated(g.players) && 0 <= g.dealer < g.N() && g.version >= 1
    && (!g.status.Finished? ==> g.votes == {})
  }

  // The invariant, slice by slice.
  datatype Slice = SeatSlice | CardSlice | ScoreSlice | PhaseSlice

  ghost predicate Holds(t: Table, s: Slice) {
    match s
    case SeatSlice => BaseInv(t.g)
    case CardSlice => !t.g.status.Waiting? ==> Conserved(t.g.N(), t.g.players, t.g.kitty, t.g.tricks, t.discards)
    case ScoreSlice => !t.g.status.Waiting? ==> Books(IdList(t.g.players), t.g.totals, t.g.history)
    case PhaseSlice => PhaseInv(t)
  }

  ghost predicate Inv(t: Table) { forall s: Slice :: Holds(t, s) }

  lemma InvParts(t: Table)
    requires Inv(t)
    ensures BaseInv(t.g) && PhaseInv(t)
    ensures !t.g.status.Waiting? ==> Conserved(t.g.N(), t.g.players, t.g.kitty, t.g.tricks, t.discards)
    ensures !t.g.status.Waiting? ==> Books(IdList(t.g.players), t.g.totals, t.g.history)
  {
    hide BaseInv, PhaseInv, Conserved, Books;
    assert Holds(t, SeatSlice) && Holds(t, CardSlice) && Holds(t, ScoreSlice) && Holds(t, PhaseSlice);
  }

  /** Before the first deal nothing but the seats is set. */
  ghost predicate FreshInv(t: Table) {
    var g := t.g;
    && g.tricks == [] && t.discards == [] && g.history == [] && g.totals == map[]
    && g.bids == [] && g.currentBid.None? && g.declarer == -1 && g.passed == {} && g.contract.None? && NoFriendYet(g)
  }
}
