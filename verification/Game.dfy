/** The game object: the fields of internal/game/game.go, updated in place by the methods of
    internal/game/rules.go. Every method is proved against the function of the same step in Engine. */
module GameObject {
  import opened Cards
  import opened Piles
  import opened Decks
  import opened Wrappers
  import opened State
  import opened Rules
  import opened Checks
  import opened Scoring
  import opened Engine
  import opened Auction
  import opened Invariants
  import opened Ownership
  import opened Tricks
  import opened Steps

  /** The five places at the table; a free place is None (a nil pointer in the source). */
  function Places(ps: seq<Player>): (r: seq<Option<Player>>)
    requires |ps| <= 5
    ensures |r| == 5
    ensures forall i :: 0 <= i < 5 ==> r[i] == if i < |ps| then Some(ps[i]) else None
  {
    seq(5, i requires 0 <= i < 5 => if i < |ps| then Some(ps[i]) else None)
  }

  /** What the moves rely on to index the seats; every reachable game satisfies it. */
  ghost predicate Sound(g: GameState) {
    && (g.config.numPlayers == 4 || g.config.numPlayers == 5) && |g.players| <= g.N() && Seated(g.players)
    && (g.status.Waiting? <==> |g.players| < g.N())
    && (g.status.Bidding? ==> 0 <= g.turn < g.N() && InRange(g.N(), g.passed))
    && (g.status.Bidding? && g.currentBid.Some? ==> 0 <= g.declarer < g.N())
    && (g.status.Exchanging? || g.status.Calling? ==> 0 <= g.declarer < g.N())
    && (g.status.Playing? ==> 0 <= g.turn < g.N() && 0 < |g.tricks| && LogSeats(g.N(), g.tricks))
    && (g.status.Finished? ==> 0 <= g.dealer < g.N())
  }

  lemma SoundSeats(g: GameState)
    requires Sound(g)
    ensures Seated(g.players) && |g.players| <= g.N() <= 5
    ensures forall s :: 0 <= s < |g.players| ==> g.players[s].seat == s
  {
  }

  lemma FitsPhase(g: GameState, id: string, p: int, m: Move)
    requires Indexable(g) && 0 <= p < |g.players| && Fits(g, id, p, m)
    ensures m.BidMove? || m.PassMove? ==> g.status.Bidding?
    ensures m.PlayCardMove? ==> g.status.Playing?
    ensures m.PlayAgainMove? || m.ChangeConfigMove? ==> g.status.Finished?
  {
  }

  lemma InvIsSound(t: Table)
    requires Inv(t)
    ensures Sound(t.g)
  {
    hide Conserved, Books, BidLog, Accounted, HandSizes, LateHands, Placement, NoRevoke, RenouncersOut,
         RevealedRightly, RotationLog, LeadLog, WinnerLog, TenEach, FriendSeat, Seated, IdList;
    InvParts(t);
    InvIndexable(t);
    if t.g.status.Bidding? {
      var opener :| Rotation(t.g.N(), opener, t.g.turn, t.g.declarer, t.g.passed, t.g.currentBid.Some?);
    }
    if t.g.status.Playing? {
      IdCount(t.g.players);
      LogSeatsOf(IdList(t.g.players), t.g.declarer, t.g.tricks);
    }
  }

  // ----- loops over cards

  /** What is left of a hand without some cards, and the scoring cards among those taken out. */
  method SplitHand(hand: seq<Card>, cards: seq<Card>) returns (kept: seq<Card>, points: seq<Card>)
    ensures kept == Keep(hand, cards) && points == PointCards(Take(hand, cards))
  {
    hide PointCards, Keep, Take;
    kept, points := [], [];
    SplitNothing(cards);
    var i := 0;
    while i < |hand|
      invariant 0 <= i <= |hand|
      invariant kept == Keep(hand[..i], cards) && points == PointCards(Take(hand[..i], cards))
    {
      SplitStep(hand, cards, i);
      var c := hand[i];
      var out := false;
      var j := 0;
      while j < |cards| && !out
        invariant 0 <= j <= |cards| && (out <==> c in cards[..j])
      {
        if c == cards[j] { out := true; }
        j := j + 1;
      }
      assert out <==> c in cards by { if !out { assert cards[..j] == cards; } }
      if !out {
        kept := kept + [c];
      } else if c.IsPoint() {
        points := points + [c];
      }
      i := i + 1;
    }
    assert hand[..i] == hand;
  }

  lemma SplitNothing(cards: seq<Card>)
    ensures Keep([], cards) == [] && PointCards(Take([], cards)) == []
  {
  }

  lemma SplitStep(hand: seq<Card>, cards: seq<Card>, i: nat)
    requires i < |hand|
    ensures Keep(hand[..i + 1], cards) == Keep(hand[..i], cards) + (if hand[i] in cards then [] else [hand[i]])
    ensures PointCards(Take(hand[..i + 1], cards))
            == PointCards(Take(hand[..i], cards)) + (if hand[i] in cards && hand[i].IsPoint() then [hand[i]] else [])
  {
    hide PointCards, Keep, Take;
    assert hand[..i + 1] == hand[..i] + [hand[i]];
    SplitAppend(hand[..i], hand[i], cards);
    var taken := Take(hand[..i], cards);
    assert taken + [] == taken;
    PointStep(taken, hand[i]);
  }

  lemma SplitAppend(s: seq<Card>, c: Card, cards: seq<Card>)
    ensures Keep(s + [c], cards) == Keep(s, cards) + (if c in cards then [] else [c])
    ensures Take(s + [c], cards) == Take(s, cards) + (if c in cards then [c] else [])
  {
    assert (s + [c])[..|s|] == s;
  }

  lemma PointStep(s: seq<Card>, c: Card)
    ensures PointCards(s + [c]) == PointCards(s) + (if c.IsPoint() then [c] else [])
  {
    assert (s + [c])[..|s|] == s;
  }

  /** The winner's seat and the scoring cards of a full trick, by one pass over its cards. */
  method ResolveTrick(trump: Suit, k: int, t: Trick) returns (winner: int, points: seq<Card>)
    requires t.cards != []
    ensures winner == WinnerSeat(trump, k, t) && points == PointCards(CardsIn(t))
  {
    hide PointCards, BestIndex, Power;
    var winnerIdx, maxPower := 0, -1;
    points := [];
    BestSoFar(trump, k, t);
    var i := 0;
    while i < |t.cards|
      invariant 0 <= i <= |t.cards| && 0 <= winnerIdx < |t.cards|
      invariant i == 0 ==> winnerIdx == 0 && maxPower == -1
      invariant i > 0 ==> winnerIdx == BestIndex(trump, k, t, i)
      invariant i > 0 ==> maxPower == Power(trump, k, t, t.cards[winnerIdx].card)
      invariant points == PointCards(CardsIn(t)[..i])
    {
      var c := t.cards[i].card;
      PointStep(CardsIn(t)[..i], c);
      assert CardsIn(t)[..i + 1] == CardsIn(t)[..i] + [c];
      if c.IsPoint() { points := points + [c]; }
      var power := Power(trump, k, t, c);
      PowerSign(trump, k, t, c);
      if i > 0 { BestStep(trump, k, t, i); }
      if power > maxPower { maxPower, winnerIdx := power, i; }
      i := i + 1;
    }
    assert CardsIn(t)[..i] == CardsIn(t);
    winner := t.cards[winnerIdx].seat;
  }

  lemma BestSoFar(trump: Suit, k: int, t: Trick)
    requires t.cards != []
    ensures PointCards(CardsIn(t)[..0]) == [] && BestIndex(trump, k, t, 1) == 0
  {
  }

  lemma BestStep(trump: Suit, k: int, t: Trick, m: nat)
    requires 0 < m < |t.cards|
    ensures var b := BestIndex(trump, k, t, m);
            BestIndex(trump, k, t, m + 1)
            == if Power(trump, k, t, t.cards[m].card) > Power(trump, k, t, t.cards[b].card) then m else b
  {
  }

  lemma PowerSign(trump: Suit, k: int, t: Trick, c: Card)
    ensures Power(trump, k, t, c) >= 0
  {
  }

  /** The scores of one round, by player: a map the source shares between the game and its history. */
  class Sheet {
    var entries: Ledger

    constructor (entries: Ledger)
      ensures this.entries == entries
    {
      this.entries := entries;
    }

    method Put(id: string, score: int)
      modifies this
      ensures entries == old(entries)[id := score]
    {
      entries := entries[id := score];
    }
  }

  class Game {
    const id: string
    var status: Phase
    var config: Config
    var players: seq<Option<Player>>
    var kitty: seq<Card>
    var turn: int
    var dealer: int
    var bids: seq<State.Bid>
    var currentBid: Option<State.Bid>
    var declarer: int
    var passed: set<int>
    var contract: Option<State.Bid>
    var partnerCard: Option<Card>
    var partnerSeat: int
    var noFriend: bool
    var trump: Suit
    var tricks: seq<Trick>
    var scores: Sheet
    var totals: Ledger
    var history: seq<Sheet>
    var votes: set<int>
    var version: int
    ghost var crew: seq<Player>  // the filled places
    ghost var round: Ledger        // what the sheet of this round says
    ghost var past: seq<Ledger>    // what the sheets of the history say

    ghost predicate Valid()
      reads this`players, this`crew
    {
      |crew| <= 5 && players == Places(crew)
    }

    ghost function Abs(): GameState
      reads this
    {
      GameState(id, status, config, crew, kitty, turn, dealer, bids, currentBid, declarer, passed, contract,
          partnerCard, partnerSeat,
                noFriend, trump, tricks, round, totals, past, votes, version)
    }

    /** The sheets say what the ghost fields record. */
    ghost predicate Filed()
      reads this`scores, this`history, this`round, this`past, scores, history
    {
      && scores.entries == round && |history| == |past|
      && forall i :: 0 <= i < |history| ==> history[i].entries == past[i]
    }

    constructor NewWithConfig(id: string, cfg: Config)
      ensures Valid() && Filed() && Abs() == NewGame(id, cfg)
    {
      this.id, status, players, kitty := id, Waiting, [None, None, None, None, None], [];
      config := if cfg.numPlayers == 0 then cfg.(numPlayers := 5) else cfg;
      turn, dealer, bids, currentBid, declarer, passed, contract := 0, 0, [], None, -1, {}, None;
      partnerCard, partnerSeat, noFriend, trump, tricks := None, -1, false, Blank, [];
      scores := new Sheet(map[]);
      totals, history, round, past, votes, version := map[], [], map[], [], {}, 1;
      crew := [];
    }

    /** Rebuilds the object from a stored state (LoadGame in internal/store/redis/redis.go). */
    constructor FromState(g: GameState)
      requires |g.players| <= 5
      ensures Valid() && Filed() && Abs() == g
    {
      id, status, config, kitty, turn, dealer, bids := g.id, g.status, g.config, g.kitty, g.turn, g.dealer, g.bids;
      currentBid, declarer, passed, contract, partnerCard := g.currentBid, g.declarer, g.passed, g.contract,
          g.partnerCard;
      partnerSeat, noFriend, trump, tricks := g.partnerSeat, g.noFriend, g.trump, g.tricks;
      totals, votes, version, round, past := g.totals, g.votes, g.version, g.scores, g.history;
      players, crew := Places(g.players), g.players;
      scores := new Sheet(g.scores);
      var sheets := SheetsOf(g.history);
      history := sheets;
    }

    // ----- reading

    /** The state as it is stored. */
    method Snapshot() returns (g: GameState)
      requires Valid() && Filed()
      ensures g == Abs()
    {
      var ps: seq<Player> := [];
      var i := 0;
      while i < 5 && players[i].Some?
        invariant 0 <= i <= |crew| && ps == crew[..i]
      {
        ps := ps + [players[i].value];
        i := i + 1;
      }
      assert ps == crew;
      var entries := EntriesOf(history);
      assert entries == past;
      g := GameState(id, status, config, ps, kitty, turn, dealer, bids, currentBid, declarer, passed, contract,
          partnerCard, partnerSeat,
                     noFriend, trump, tricks, scores.entries, totals, entries, votes, version);
    }

    method GetPlayer(who: string) returns (p: Option<Player>)
      requires Valid()
      ensures p == var s := SeatOf(crew, who); if s < 0 then None else Some(crew[s])
    {
      var i := 0;
      while i < 5
        invariant 0 <= i <= 5
        invariant forall j :: 0 <= j < i && j < |crew| ==> crew[j].id != who
      {
        if players[i].Some? && players[i].value.id == who { return players[i]; }
        i := i + 1;
      }
      p := None;
    }

    method IsFull() returns (full: bool)
      requires Valid() && 0 <= config.Seats() <= 5
      ensures full <==> |crew| >= config.Seats()
    {
      var count := 0;
      var i := 0;
      while i < config.Seats()
        invariant 0 <= i <= config.Seats()
        invariant count == if i < |crew| then i else |crew|
      {
        if players[i].Some? { count := count + 1; }
        i := i + 1;
      }
      full := count == config.Seats();
    }

    method FindFriend() returns (fs: int)
      requires Valid() && Seated(crew)
      ensures fs == FriendSeat(crew, tricks, noFriend, partnerCard)
    {
      if noFriend || partnerCard.None? { return -1; }
      var pc := partnerCard.value;
      var i := 0;
      while i < 5
        invariant 0 <= i <= 5 && forall j :: 0 <= j < i && j < |crew| ==> pc !in crew[j].hand
      {
        if players[i].Some? && pc in players[i].value.hand {
          assert HandSeat(crew, pc) == i;
          return players[i].value.seat;
        }
        i := i + 1;
      }
      i := 0;
      while i < |tricks|
        invariant 0 <= i <= |tricks| && LogSeat(tricks[..i], pc) == -1
      {
        assert tricks[..i + 1][..i] == tricks[..i];
        var first := FirstPlayer(tricks[i].cards, pc);
        if first.Some? && first.value != -1 {
          LogSeatFound(tricks, i, pc);
          return first.value;
        }
        i := i + 1;
      }
      assert tricks[..i] == tricks;
      fs := -1;
    }

    // ----- checking a move

    /** Whether a move is allowed. */
    method Validate(who: string, m: Move) returns (v: Verdict)
      requires Valid() && Indexable(Abs())
      ensures v == ValidateMove(Abs(), who, m)
    {
      hide PlayVerdict, ValidateBid, ValidateDiscard, ValidateCall;
      var p := GetPlayer(who);
      if p.None? { return Reject(NotInGame); }
      if status.Playing? && players[turn].value.id != who { return Reject(NotYourTurn); }
      match m {
        case BidMove(points, suit, noTrump) => v := CheckBid(who, points, suit, noTrump);
        case PassMove => v := CheckTurn(who);
        case DiscardMove(cards) => v := CheckDiscard(who, p.value.hand, cards);
        case CallPartnerMove(friend, alone) => v := CheckCall(who, friend, alone);
        case PlayCardMove(card, callJoker, calledSuit) =>
          if !status.Playing? { return Reject(WrongPhase); }
          if tricks == [] {
            var held := HoldsCard(p.value.hand, card);
            return Reject(if held then NoTrick else NotHeld);
          }
          v := CheckCard(trump, |tricks|, tricks[|tricks| - 1], p.value.hand, card, callJoker, calledSuit);
        case PlayAgainMove => v := if status.Finished? then Accept else Reject(WrongPhase);
        case ChangeConfigMove(_) => v := if status.Finished? then Accept else Reject(WrongPhase);
      }
    }

    /** It is the player's turn to bid. */
    method CheckTurn(who: string) returns (v: Verdict)
      requires Valid() && Indexable(Abs())
      ensures v == ValidatePass(Abs(), who)
    {
      if !status.Bidding? { return Reject(WrongPhase); }
      v := if players[turn].value.id == who then Accept else Reject(NotYourTurn);
    }

    method CheckBid(who: string, points: int, suit: Suit, noTrump: bool) returns (v: Verdict)
      requires Valid() && Indexable(Abs())
      ensures v == ValidateBid(Abs(), who, points, suit, noTrump)
    {
      v := CheckTurn(who);
      if v.Reject? { return; }
      if points < config.MinBid() || points > 10 { return Reject(BadPoints); }
      if noTrump { if suit != NoSuit { return Reject(BadSuit); } } else if !suit.Real() { return Reject(BadSuit); }
      if currentBid.Some? && points <= currentBid.value.points { return Reject(BidTooLow); }
    }

    method CheckDiscard(who: string, hand: seq<Card>, cards: seq<Card>) returns (v: Verdict)
      requires Valid() && Indexable(Abs()) && SeatOf(crew, who) >= 0 && hand == crew[SeatOf(crew, who)].hand
      ensures v == ValidateDiscard(Abs(), who, SeatOf(crew, who), cards)
    {
      if !status.Exchanging? { return Reject(WrongPhase); }
      if players[declarer].value.id != who { return Reject(NotDeclarer); }
      if |cards| != 3 { return Reject(WrongCount); }
      var i := 0;
      while i < |cards|
        invariant 0 <= i <= 3 && forall j :: 0 <= j < i ==> cards[j] in hand
      {
        var held := HoldsCard(hand, cards[i]);
        if !held { return Reject(NotHeld); }
        i := i + 1;
      }
      v := Accept;
    }

    method CheckCall(who: string, friend: Option<Card>, alone: bool) returns (v: Verdict)
      requires Valid() && Indexable(Abs())
      ensures v == ValidateCall(Abs(), who, friend, alone)
    {
      if !status.Calling? { return Reject(WrongPhase); }
      if players[declarer].value.id != who { return Reject(NotDeclarer); }
      if friend.Some? == alone { return Reject(BadFriendCall); }
      if friend.None? { return Accept; }
      var c := friend.value;
      if c == JOKER {
        return if config.numPlayers == 4 && !config.allowJokerPartner then Reject(BadFriendCall) else Accept;
      }
      v := if c.suit.Real() && c.rank.Plain() then Accept else Reject(BadFriendCall);
    }

    // ----- one place at a time

    method PutPlayer(s: int, p: Player)
      requires Valid() && 0 <= s <= |crew| && s < 5
      modifies this`players, this`crew
      ensures Valid() && crew == if s < |old(crew)| then old(crew)[s := p] else old(crew) + [p]
    {
      players := players[s := Some(p)];
      crew := if s < |crew| then crew[s := p] else crew + [p];
    }

    method PutHand(s: int, hand: seq<Card>)
      requires Valid() && 0 <= s < |crew|
      modifies this`players, this`crew
      ensures Valid() && crew == SetHand(old(crew), s, hand)
    {
      PutPlayer(s, players[s].value.(hand := hand));
    }

    method PutPoints(s: int, points: seq<Card>)
      requires Valid() && 0 <= s < |crew|
      modifies this`players, this`crew
      ensures Valid() && crew == Engine.AddPoints(old(crew), s, points)
    {
      PutPlayer(s, players[s].value.(points := players[s].value.points + points));
    }

    // ----- dealing

    method DealHands(hands: seq<seq<Card>>)
      requires Valid() && |hands| <= 5
      modifies this`players, this`crew
      ensures Valid() && |crew| == |old(crew)|
      ensures forall i :: 0 <= i < |crew| ==>
                crew[i] == if i < |hands| then old(crew)[i].(hand := hands[i], points := []) else old(crew)[i]
    {
      var i := 0;
      while i < |hands|
        invariant 0 <= i <= |hands| && Valid() && |crew| == |old(crew)|
        invariant forall j :: 0 <= j < |crew| ==>
                    crew[j] == if j < i then old(crew)[j].(hand := hands[j], points := []) else old(crew)[j]
      {
        if players[i].Some? { PutPlayer(i, players[i].value.(hand := hands[i], points := [])); }
        i := i + 1;
      }
    }

    method Start(deck: seq<Card>)
      requires Valid() && (config.numPlayers == 4 || config.numPlayers == 5) && |crew| <= config.Seats()
      modifies this`players, this`crew, this`kitty, this`status, this`turn
      ensures Valid() && Abs() == Engine.Start(old(Abs()), deck)
    {
      var hands, rest := Deal(deck, config.Seats());
      DealHands(hands);
      assert crew == if |deck| == 10 * config.Seats() + 3 then DealTo(old(crew), deck) else old(crew);
      OpenAuction(rest);
    }

    method OpenAuction(rest: seq<Card>)
      modifies this`kitty, this`status, this`turn
      ensures Abs() == old(Abs()).(kitty := rest, status := Bidding, turn := 0)
    {
      kitty, status, turn := rest, Bidding, 0;
    }

    // ----- auction

    method AdvanceToNextBidder()
      requires Valid() && config.Seats() >= 2 && 0 <= turn < config.Seats() && InRange(config.Seats(), passed)
      modifies this`turn
      ensures turn == Advance(config.Seats(), passed, old(turn))
    {
      var n := config.Seats();
      if |passed| >= n { return; }
      AdvanceStops(n, passed, turn);
      ghost var target := Advance(n, passed, turn);
      ghost var fuel := n;
      turn := (turn + 1) % n;
      RotStep(n, old(turn));
      while turn in passed
        invariant 0 <= turn < n && 0 <= fuel <= n
        invariant target == if fuel == 0 || turn !in passed then turn else NextBidder(n, passed, turn, fuel - 1)
        invariant target !in passed
        decreases fuel
      {
        RotStep(n, turn);
        turn := (turn + 1) % n;
        fuel := fuel - 1;
      }
    }

    method AwardContract()
      requires Valid() && currentBid.Some? && 0 <= declarer < |crew|
      modifies this`status, this`contract, this`trump, this`turn, this`players, this`crew, this`kitty
      ensures Valid() && Abs() == Award(old(Abs()))
    {
      FixContract();
      PickUpKitty();
    }

    method FixContract()
      requires currentBid.Some?
      modifies this`status, this`contract, this`trump, this`turn
      ensures Abs() == old(Abs()).(status := Exchanging, contract := old(currentBid),
              trump := old(currentBid.value.suit), turn := declarer)
    {
      status, contract, trump, turn := Exchanging, currentBid, currentBid.value.suit, declarer;
    }

    method PickUpKitty()
      requires Valid() && 0 <= declarer < |crew|
      modifies this`players, this`crew, this`kitty
      ensures Valid()
      ensures Abs() == old(Abs()).(players := SetHand(old(crew), declarer, HandOf(old(crew), declarer) + old(kitty)),
              kitty := [])
    {
      PutHand(declarer, players[declarer].value.hand + kitty);
      kitty := [];
    }

    method Bid(who: string, s: int, points: int, suit: Suit, noTrump: bool)
      requires Valid() && Sound(Abs()) && status.Bidding? && 0 <= s < |crew|
      modifies this`status, this`contract, this`trump, this`turn, this`players, this`crew, this`kitty,
               this`currentBid, this`declarer, this`bids
      ensures Valid() && Abs() == ApplyBid(old(Abs()), who, s, points, suit, noTrump)
    {
      hide Award, Advance;
      StandBid(State.Bid(who, points, suit, noTrump), s);
      if points == 10 || |passed| == config.Seats() - 1 {
        AwardContract();
      } else {
        AdvanceToNextBidder();
      }
    }

    method StandBid(b: State.Bid, s: int)
      modifies this`currentBid, this`declarer, this`bids
      ensures Abs() == old(Abs()).(currentBid := Some(b), declarer := s, bids := old(bids) + [b])
    {
      currentBid, declarer, bids := Some(b), s, bids + [b];
    }

    method ClearBids()
      modifies this`bids, this`currentBid, this`contract
      ensures Abs() == old(Abs()).(bids := [], currentBid := None, contract := None)
    {
      bids, currentBid, contract := [], None, None;
    }

    method ClearAuction()
      modifies this`bids, this`currentBid, this`contract, this`declarer, this`passed
      ensures Abs() == old(Abs()).(bids := [], currentBid := None, contract := None, declarer := -1, passed := {})
    {
      ClearBids();
      declarer, passed := -1, {};
    }

    method ClearFriend()
      modifies this`partnerCard, this`partnerSeat, this`noFriend, this`tricks
      ensures Abs() == old(Abs()).(partnerCard := None, partnerSeat := -1, noFriend := false, tricks := [])
    {
      partnerCard, partnerSeat, noFriend, tricks := None, -1, false, [];
    }

    method Pass(who: string, s: int, deck: seq<Card>)
      requires Valid() && Sound(Abs()) && status.Bidding? && 0 <= s < |crew|
      modifies this`status, this`contract, this`trump, this`turn, this`players, this`crew, this`kitty,
               this`currentBid, this`declarer, this`bids, this`passed, this`partnerCard, this`partnerSeat,
                   this`noFriend, this`tricks
      ensures Valid() && Abs() == ApplyPass(old(Abs()), who, s, deck)
    {
      hide Award, Advance, Engine.Start;
      LogPass(State.Bid(who, 0, Blank, false), s);
      AdvanceToNextBidder();
      if |passed| == config.Seats() - 1 && currentBid.Some? {
        AwardContract();
      } else if |passed| == config.Seats() {
        ThrowIn(deck);
      }
    }

    method LogPass(b: State.Bid, s: int)
      modifies this`passed, this`bids
      ensures Abs() == old(Abs()).(passed := old(passed) + {s}, bids := old(bids) + [b])
    {
      passed, bids := passed + {s}, bids + [b];
    }

    method ThrowIn(deck: seq<Card>)
      requires Valid() && (config.numPlayers == 4 || config.numPlayers == 5) && |crew| <= config.Seats()
      modifies this`status, this`contract, this`trump, this`turn, this`players, this`crew, this`kitty,
               this`currentBid, this`declarer, this`bids, this`passed, this`partnerCard, this`partnerSeat,
                   this`noFriend, this`tricks
      ensures Valid() && Abs() == Redeal(old(Abs()), deck)
    {
      hide Engine.Start;
      ClearAuction();
      ClearFriend();
      trump := Blank;
      Start(deck);
    }

    // ----- exchange and call

    method Discard(s: int, cards: seq<Card>)
      requires Valid() && 0 <= s < |crew|
      modifies this`status, this`players, this`crew
      ensures Valid() && Abs() == ApplyDiscard(old(Abs()), s, cards)
    {
      hide Keep, Take, PointCards;
      var kept, points := SplitHand(players[s].value.hand, cards);
      PutHand(s, kept);
      PutPoints(s, points);
      status := Calling;
    }

    method CallPartner(friend: Option<Card>, alone: bool)
      modifies this`noFriend, this`partnerCard, this`status, this`turn, this`tricks
      ensures Abs() == ApplyCall(old(Abs()), friend, alone)
    {
      if alone {
        noFriend, partnerCard := true, None;
      } else {
        partnerCard := friend;
      }
      status, turn, tricks := Playing, declarer, tricks + [NEWTRICK];
    }

    // ----- play

    method PutCard(who: string, s: int, card: Card, callJoker: bool, calledSuit: Suit)
      requires Valid() && config.Seats() >= 2 && 0 <= turn < config.Seats() && tricks != [] && 0 <= s < |crew|
      modifies this`tricks, this`turn, this`players, this`crew
      ensures Valid() && Abs() == PlaceCard(old(Abs()), who, s, card, callJoker, calledSuit)
    {
      hide Keep, Take, PointCards, SetHand, Extend, Rot;
      var kept, _ := SplitHand(players[s].value.hand, [card]);
      PutHand(s, kept);
      var idx := |tricks| - 1;
      var t := AddCard(tricks[idx], Played(who, s, card), callJoker, calledSuit);
      RotStep(config.Seats(), turn);
      LayDown(t, (turn + 1) % config.Seats());
    }

    /** The trick with one more card; the first card settles what is owed. */
    method AddCard(t0: Trick, play: Played, callJoker: bool, calledSuit: Suit) returns (t: Trick)
      ensures t == Extend(trump, t0, play, callJoker, calledSuit)
    {
      t := t0.(cards := t0.cards + [play]);
      if |t.cards| == 1 {
        t := t.(leadSuit := play.card.suit);
        if play.card.rank == Joker { t := t.(leadSuit := calledSuit); }
        if callJoker && IsJokerCaller(trump, play.card) { t := t.(jokerCalled := true); }
      }
    }

    method TakeTrick()
      requires Valid() && Seated(crew) && tricks != [] && tricks[|tricks| - 1].cards != [] && LogSeats(|crew|, tricks)
      modifies this`tricks, this`turn, this`partnerSeat, this`players, this`crew
      ensures Valid() && Abs() == CloseTrick(old(Abs()))
    {
      hide PointCards, FriendSeat, WinnerSeat, Reveals, AddPoints, CardsIn, Seated, LogSeats;
      var t := tricks[|tricks| - 1];
      WinnerAtTable(|crew|, tricks, trump);
      var w, points := ResolveTrick(trump, |tricks|, t);
      Settle(t.(winner := w), w, points);
      RevealsAlike(t, w);
    }

    /** Records the winner, reveals a defending friend, hands over the points and the lead. */
    method Settle(t: Trick, w: int, points: seq<Card>)
      requires Valid() && Seated(crew) && tricks != [] && 0 <= w < |crew|
      modifies this`tricks, this`turn, this`partnerSeat, this`players, this`crew
      ensures Valid()
      ensures var closed := old(tricks)[|old(tricks)| - 1 := t];
              var fs := FriendSeat(old(crew), closed, noFriend, partnerCard);
              Abs() == old(Abs()).(tricks := closed, turn := w, players := Engine.AddPoints(old(crew), w, points),
                                   partnerSeat := if old(partnerSeat) < 0 && fs >= 0 && w == fs && Reveals(t, fs)
                                                  then fs else old(partnerSeat))
    {
      hide FriendSeat, Reveals, AddPoints, Seated;
      LayDown(t, w);
      RevealFriend(t, w);
      PutPoints(w, points);
    }

    /** Replaces the current trick and passes the turn. */
    method LayDown(t: Trick, next: int)
      requires tricks != []
      modifies this`tricks, this`turn
      ensures Abs() == old(Abs()).(tricks := old(tricks)[|old(tricks)| - 1 := t], turn := next)
    {
      tricks, turn := tricks[|tricks| - 1 := t], next;
    }

    method RevealFriend(t: Trick, w: int)
      requires Valid() && Seated(crew)
      modifies this`partnerSeat
      ensures var fs := Friend(Abs());
              partnerSeat == if old(partnerSeat) < 0 && fs >= 0 && w == fs && Reveals(t, fs) then fs
                  else old(partnerSeat)
    {
      hide FriendSeat, Reveals;
      if partnerSeat < 0 {
        var fs := FindFriend();
        if fs >= 0 && w == fs && Reveals(t, fs) { partnerSeat := fs; }
      }
    }

    // ----- scores

    /** The cards taken by the declarer's side, and the number of opponents. */
    method CountTeam(fs: int) returns (p: int, opponents: int)
      requires Valid()
      ensures p == TeamPoints(crew, declarer, fs) && opponents == Opponents(|crew|, declarer, fs)
    {
      p, opponents := 0, 0;
      var seat := 0;
      while seat < 5 && players[seat].Some?
        invariant 0 <= seat <= |crew|
        invariant p == TeamPoints(crew[..seat], declarer, fs) && opponents == Opponents(seat, declarer, fs)
      {
        assert crew[..seat + 1][..seat] == crew[..seat];
        if OnTeam(declarer, fs, seat) { p := p + |players[seat].value.points|; } else { opponents := opponents + 1; }
        seat := seat + 1;
      }
      assert crew[..seat] == crew;
    }

    method CalculateFinalScore() returns (seatScores: map<int, int>)
      requires Valid() && Seated(crew)
      ensures contract.None? ==> seatScores == map[]
      ensures contract.Some? ==>
                var fs := Friend(Abs());
                forall seat :: 0 <= seat < |crew| ==>
                  seat in seatScores && seatScores[seat] == Share(RoundPayouts(Abs()), declarer, fs, seat)
    {
      hide FriendSeat, TeamPoints, Opponents;
      seatScores := map[];
      if contract.None? { return; }
      var fs := FindFriend();
      var partnered := fs >= 0 && fs != declarer;
      var p, opponents := CountTeam(fs);
      var s := RoundStake(p);
      var success := p >= contract.value.points + 10;
      var sign := if success then 1 else -1;
      var special := !success && partnered && config.numPlayers == 4 && !config.failDist.EqualSplit?;
      var declarerPay, partnerPay, gain;
      if special {
        if config.failDist.DeclarerAlone? {
          declarerPay, partnerPay, gain := 2 * s, 0, s;
        } else {
          gain := (3 * s + 1) / 2;
          partnerPay := s;
          declarerPay := 2 * gain - partnerPay;
        }
      } else {
        declarerPay := -(sign * (opponents * s - (if partnered then s else 0)));
        partnerPay, gain := -(sign * s), -sign * s;
      }
      ghost var y := RoundPayouts(Abs());
      assert y == Payout(-declarerPay, -partnerPay, gain);
      var seat := 0;
      while seat < 5
        invariant 0 <= seat <= 5
        invariant forall i :: 0 <= i < seat && i < |crew| ==>
                  i in seatScores && seatScores[i] == Share(y, declarer, fs, i)
      {
        if players[seat].Some? {
          seatScores := seatScores[seat := if seat == declarer then -declarerPay
              else if partnered && seat == fs then -partnerPay else gain];
        }
        seat := seat + 1;
      }
    }

    method RoundStake(p: int) returns (s: int)
      requires contract.Some?
      ensures s == Stake(contract.value.points, config.MinBid(), p, contract.value.noTrump, noFriend)
    {
      var target := contract.value.points + 10;
      if p >= target {
        s := 2 * (contract.value.points - config.MinBid()) + (p - target);
      } else {
        s := target - p;
      }
      if p == 20 { s := s * 2; }
      if 20 - p >= 11 { s := s * 2; }
      if contract.value.noTrump { s := s * 2; }
      if noFriend { s := s * 2; }
    }

    /** Keys the seat scores by player on a new sheet, adds them to the totals, and files the sheet itself. */
    method CloseRound()
      requires Valid() && Seated(crew) && Filed()
      modifies this`status, this`scores, this`round, this`totals, this`history, this`past
      ensures Filed() && Abs() == FinishRound(old(Abs()))
      ensures fresh(scores) && history == old(history) + [scores]
    {
      hide FriendSeat, TeamPoints, Opponents, RoundPayouts;
      var seatScores := CalculateFinalScore();
      ghost var y, fs := RoundPayouts(Abs()), Friend(Abs());
      NoContractNoScore(Abs());
      var sheet := new Sheet(map[]);
      var seat := 0;
      while seat < 5 && players[seat].Some?
        invariant 0 <= seat <= |crew|
        invariant sheet.entries == ScoreLedger(crew[..seat], y, declarer, fs)
        modifies sheet
      {
        assert crew[..seat + 1][..seat] == crew[..seat];
        sheet.Put(players[seat].value.id, if seat in seatScores then seatScores[seat] else 0);
        seat := seat + 1;
      }
      assert crew[..seat] == crew;
      var sum := AddTotals(totals, sheet.entries);
      FileSheet(sheet, sum);
    }

    method FileSheet(sheet: Sheet, sum: Ledger)
      requires Filed()
      modifies this`status, this`scores, this`round, this`totals, this`history, this`past
      ensures Filed() && scores == sheet && history == old(history) + [sheet]
      ensures Abs() == old(Abs()).(status := Finished, scores := sheet.entries, totals := sum,
              history := old(past) + [sheet.entries])
    {
      UseSheet(sheet);
      KeepSheet(sheet);
      status, totals := Finished, sum;
    }

    method UseSheet(sheet: Sheet)
      requires Filed()
      modifies this`scores, this`round
      ensures Filed() && scores == sheet && Abs() == old(Abs()).(scores := sheet.entries)
    {
      scores, round := sheet, sheet.entries;
    }

    method KeepSheet(sheet: Sheet)
      requires Filed()
      modifies this`history, this`past
      ensures Filed() && history == old(history) + [sheet]
              && Abs() == old(Abs()).(history := old(past) + [sheet.entries])
    {
      history, past := history + [sheet], past + [sheet.entries];
    }

    method DoPlay(who: string, s: int, card: Card, callJoker: bool, calledSuit: Suit)
      requires Valid() && Filed() && Sound(Abs()) && status.Playing? && 0 <= s < |crew|
      modifies this
      ensures Valid() && Filed() && Abs() == ApplyPlay(old(Abs()), who, s, card, callJoker, calledSuit)
      ensures old(history) <= history
      ensures forall i :: 0 <= i < |old(history)| ==> history[i].entries == old(history[i].entries)
    {
      hide PlaceCard, CloseTrick, FinishRound;
      PlacedSound(Abs(), who, s, card, callJoker, calledSuit);
      PutCard(who, s, card, callJoker, calledSuit);
      if |tricks[|tricks| - 1].cards| == config.Seats() {
        EndTrick();
      }
    }

    method EndTrick()
      requires Valid() && Filed() && Seated(crew) && tricks != [] && tricks[|tricks| - 1].cards != []
               && LogSeats(|crew|, tricks)
      modifies this
      ensures Valid() && Filed()
      ensures var g := CloseTrick(old(Abs())); Abs() == if |g.tricks| == 10 then FinishRound(g)
              else g.(tricks := g.tricks + [NEWTRICK])
      ensures old(history) <= history
    {
      hide CloseTrick, FinishRound;
      ClosedSound(Abs());
      TakeTrick();
      if |tricks| == 10 { CloseRound(); } else { tricks := tricks + [NEWTRICK]; }
    }

    // ----- between rounds

    method DropPoints()
      requires Valid()
      modifies this`players, this`crew
      ensures Valid() && crew == ClearPoints(old(crew))
    {
      var i := 0;
      while i < 5
        invariant 0 <= i <= 5 && Valid() && |crew| == |old(crew)|
        invariant forall j :: 0 <= j < |crew| ==> crew[j] == if j < i then old(crew)[j].(points := []) else old(crew)[j]
      {
        if players[i].Some? { PutPlayer(i, players[i].value.(points := [])); }
        i := i + 1;
      }
      assert crew == ClearPoints(old(crew));
    }

    method ClearTable()
      requires Valid() && Filed() && config.numPlayers >= 2 && 0 <= dealer < config.numPlayers
      modifies this`bids, this`currentBid, this`contract, this`declarer, this`passed, this`partnerCard,
               this`partnerSeat, this`noFriend,
               this`tricks, this`votes, this`dealer, this`players, this`crew, this`scores, this`round
      ensures Valid() && Filed() && Abs() == Cleared(old(Abs())) && config == old(config) && |crew| == |old(crew)|
      ensures fresh(scores)
    {
      hide Rot;
      DropPoints();
      ClearAuction();
      ClearFriend();
      PassDeal();
    }

    /** Passes the deal on and starts a new sheet; the old one stays in the history as it is. */
    method PassDeal()
      requires config.numPlayers >= 2 && 0 <= dealer < config.numPlayers && Filed()
      modifies this`votes, this`scores, this`round, this`dealer
      ensures Filed() && fresh(scores)
      ensures Abs() == old(Abs()).(votes := {}, scores := map[], dealer := Rot(config.numPlayers, old(dealer), 1))
    {
      RotStep(config.numPlayers, dealer);
      votes, dealer := {}, (dealer + 1) % config.numPlayers;
      var sheet := new Sheet(map[]);
      UseSheet(sheet);
    }

    method ResetForNextRound(deck: seq<Card>)
      requires Valid() && Filed() && (config.numPlayers == 4 || config.numPlayers == 5) && |crew| <= config.Seats()
               && 0 <= dealer < config.Seats()
      modifies this
      ensures Valid() && Filed() && Abs() == NextRound(old(Abs()), deck)
      ensures history == old(history)
      ensures forall i :: 0 <= i < |old(history)| ==> history[i].entries == old(history[i].entries)
    {
      hide Engine.Start, Cleared, Filed, Valid;
      ClearTable();
      Start(deck);
      turn := dealer;
    }

    method PlayAgain(s: int, deck: seq<Card>)
      requires Valid() && Filed() && Sound(Abs()) && status.Finished?
      modifies this
      ensures Valid() && Filed() && Abs() == ApplyPlayAgain(old(Abs()), s, deck)
      ensures history == old(history)
    {
      hide NextRound;
      votes := votes + {s};
      if |votes| == config.numPlayers { ResetForNextRound(deck); }
    }

    method ChangeConfig(size: Option<int>)
      modifies this`config, this`votes
      ensures Abs() == ApplyChangeConfig(old(Abs()), size)
    {
      if size.Some? && (size.value == 4 || size.value == 5) {
        config, votes := config.(numPlayers := size.value), {};
      }
    }

    // ----- the two operations of the service

    /** Performs a move that validation accepted. */
    method ApplyMove(who: string, m: Move, deck: seq<Card>)
      requires Valid() && Filed() && Sound(Abs()) && Indexable(Abs()) && Rules.ValidateMove(Abs(), who, m).Accept?
      modifies this
      ensures Valid() && Filed() && Abs() == Apply(old(Abs()), who, m, deck)
      ensures old(history) <= history
      ensures forall i :: 0 <= i < |old(history)| ==> history[i].entries == old(history[i].entries)
    {
      hide Performed, Rules.ValidateMove;
      VersionKept(Abs(), who, m, deck);
      Perform(who, m, deck);
      version := version + 1;
    }

    method Perform(who: string, m: Move, deck: seq<Card>)
      requires Valid() && Filed() && Sound(Abs()) && Indexable(Abs()) && Rules.ValidateMove(Abs(), who, m).Accept?
      modifies this
      ensures Valid() && Filed() && Abs() == Performed(old(Abs()), who, m, deck)
      ensures old(history) <= history
    {
      hide ApplyBid, ApplyPass, ApplyDiscard, ApplyCall, ApplyPlay, ApplyPlayAgain, ApplyChangeConfig,
           Rules.ValidateMove, Filed, Sound, Seated, Fits;
      SoundSeats(Abs());
      AcceptedMove(Abs(), who, m);
      FitsPhase(Abs(), who, SeatOf(crew, who), m);
      var p := GetPlayer(who);
      var s := p.value.seat;
      if m.PlayAgainMove? || m.ChangeConfigMove? {
        BetweenRounds(s, m, deck);
      } else if m.PlayCardMove? {
        DoPlay(who, s, m.card, m.callJoker, m.calledSuit);
      } else {
        BeforePlay(who, s, m, deck);
      }
    }

    method BetweenRounds(s: int, m: Move, deck: seq<Card>)
      requires Valid() && Filed() && Sound(Abs()) && status.Finished? && (m.PlayAgainMove? || m.ChangeConfigMove?)
      modifies this
      ensures Valid() && Filed() && history == old(history)
      ensures Abs() == if m.PlayAgainMove? then ApplyPlayAgain(old(Abs()), s, deck)
              else ApplyChangeConfig(old(Abs()), m.size)
    {
      hide ApplyPlayAgain, ApplyChangeConfig, Filed, Sound;
      if m.PlayAgainMove? { PlayAgain(s, deck); } else { ChangeConfig(m.size); }
    }

    method BeforePlay(who: string, s: int, m: Move, deck: seq<Card>)
      requires Valid() && Sound(Abs()) && 0 <= s < |crew|
      requires m.BidMove? || m.PassMove? || m.DiscardMove? || m.CallPartnerMove?
      requires m.BidMove? || m.PassMove? ==> status.Bidding?
      modifies this`status, this`contract, this`trump, this`turn, this`players, this`crew, this`kitty, this`currentBid,
               this`declarer,
               this`bids, this`passed, this`partnerCard, this`partnerSeat, this`noFriend, this`tricks
      ensures Valid()
      ensures m.BidMove? ==> Abs() == ApplyBid(old(Abs()), who, s, m.points, m.suit, m.noTrump)
      ensures m.PassMove? ==> Abs() == ApplyPass(old(Abs()), who, s, deck)
      ensures m.DiscardMove? ==> Abs() == ApplyDiscard(old(Abs()), s, m.cards)
      ensures m.CallPartnerMove? ==> Abs() == ApplyCall(old(Abs()), m.friend, m.alone)
    {
      hide ApplyBid, ApplyPass, ApplyDiscard, ApplyCall, Sound;
      match m {
        case BidMove(points, suit, noTrump) => Bid(who, s, points, suit, noTrump);
        case PassMove => Pass(who, s, deck);
        case DiscardMove(cards) => Discard(s, cards);
        case CallPartnerMove(friend, alone) => CallPartner(friend, alone);
      }
    }

    method FreeSeat() returns (seat: int)
      requires Valid() && 0 <= config.Seats() <= 5
      ensures seat == if |crew| < config.Seats() then |crew| else -1
    {
      var i := 0;
      while i < config.Seats()
        invariant 0 <= i <= config.Seats() && i <= |crew|
      {
        if players[i].None? { return i; }
        i := i + 1;
      }
      seat := -1;
    }

    method Sit(p: Player)
      requires Valid() && p.seat == |crew| < 5
      modifies this`players, this`crew, this`version
      ensures Valid() && Abs() == old(Abs()).(players := old(crew) + [p], version := old(version) + 1)
    {
      PutPlayer(p.seat, p);
      version := version + 1;
    }

    method Reconnect(p: Player, name: string)
      requires Valid() && Seated(crew) && p in crew
      modifies this`players, this`crew, this`version
      ensures Valid()
      ensures Abs() == old(Abs()).(players := old(crew)[p.seat := p.(name := name, connected := true)],
              version := old(version) + 1)
    {
      PutPlayer(p.seat, p.(name := name, connected := true));
      version := version + 1;
    }

    /** Seats or refreshes a player; false when every place is taken. */
    method Join(who: string, name: string, deck: seq<Card>) returns (ok: bool)
      requires Valid() && Filed() && Sound(Abs())
      modifies this`players, this`crew, this`version, this`kitty, this`status, this`turn
      ensures Valid() && Filed() && ok == CanJoin(old(Abs()), who)
      ensures Abs() == if ok then Engine.Join(old(Abs()), who, name, deck) else old(Abs())
    {
      hide Engine.Start, Filed, Seated, Valid;
      SoundSeats(Abs());
      var p := GetPlayer(who);
      if p.Some? {
        Reconnect(p.value, name);
        return true;
      }
      var seat := FreeSeat();
      if seat == -1 { return false; }
      TakeSeat(NewPlayer(who, name, seat), deck);
      ok := true;
    }

    /** The last seat to be taken starts the game. */
    method TakeSeat(p: Player, deck: seq<Card>)
      requires Valid() && p.seat == |crew| < config.Seats() && (config.numPlayers == 4 || config.numPlayers == 5)
      modifies this`players, this`crew, this`version, this`kitty, this`status, this`turn
      ensures Valid()
      ensures var g := old(Abs()).(players := old(crew) + [p], version := old(version) + 1);
              Abs() == if |g.players| == g.N() then Engine.Start(g, deck) else g
    {
      hide Engine.Start, Places;
      Sit(p);
      var full := IsFull();
      if full { Start(deck); }
    }
  }

  method SheetsOf(ledgers: seq<Ledger>) returns (sheets: seq<Sheet>)
    ensures |sheets| == |ledgers| && forall i :: 0 <= i < |sheets| ==> sheets[i].entries == ledgers[i]
  {
    sheets := [];
    var i := 0;
    while i < |ledgers|
      invariant 0 <= i <= |ledgers| && |sheets| == i
      invariant forall j :: 0 <= j < i ==> sheets[j].entries == ledgers[j]
    {
      var sheet := new Sheet(ledgers[i]);
      sheets := sheets + [sheet];
      i := i + 1;
    }
  }

  method EntriesOf(sheets: seq<Sheet>) returns (ledgers: seq<Ledger>)
    ensures |ledgers| == |sheets| && forall i :: 0 <= i < |sheets| ==> ledgers[i] == sheets[i].entries
  {
    ledgers := [];
    var i := 0;
    while i < |sheets|
      invariant 0 <= i <= |sheets| && |ledgers| == i
      invariant forall j :: 0 <= j < i ==> ledgers[j] == sheets[j].entries
    {
      ledgers := ledgers + [sheets[i].entries];
      i := i + 1;
    }
  }

  /** Adds a round's scores to the running totals, one player at a time in no fixed order. */
  method AddTotals(totals: Ledger, round: Ledger) returns (sum: Ledger)
    ensures sum == AddLedger(totals, round)
  {
    sum := totals;
    var left := round.Keys;
    while left != {}
      invariant left <= round.Keys && sum.Keys == totals.Keys + (round.Keys - left)
      invariant forall id :: id in sum.Keys ==> sum[id] == Get(totals, id) + (if id in left then 0 else Get(round, id))
      decreases left
    {
      var id :| id in left;
      sum := sum[id := Get(sum, id) + round[id]];
      left := left - {id};
    }
  }

  lemma RevealsAlike(t: Trick, w: int)
    ensures forall s :: Reveals(t.(winner := w), s) == Reveals(t, s)
  {
  }

  lemma WinnerAtTable(n: int, tricks: seq<Trick>, trump: Suit)
    requires tricks != [] && tricks[|tricks| - 1].cards != [] && LogSeats(n, tricks)
    ensures 0 <= WinnerSeat(trump, |tricks|, tricks[|tricks| - 1]) < n
  {
  }

  /** Only the last step of a move touches the version. */
  lemma VersionKept(g: GameState, id: string, m: Move, deck: seq<Card>)
    requires Indexable(g) && Rules.ValidateMove(g, id, m).Accept? && |g.players| <= g.N()
    ensures Performed(g, id, m, deck).version == g.version
  {
  }

  lemma NoContractNoScore(g: GameState)
    ensures g.contract.None? ==> RoundPayouts(g) == Payout(0, 0, 0)
  {
  }

  lemma PlacedSound(g: GameState, who: string, s: int, card: Card, callJoker: bool, calledSuit: Suit)
    requires g.tricks != [] && Seated(g.players) && LogSeats(|g.players|, g.tricks) && 0 <= s < |g.players|
    ensures var g1 := PlaceCard(g, who, s, card, callJoker, calledSuit);
            && Seated(g1.players) && LogSeats(|g1.players|, g1.tricks)
            && |g1.tricks| == |g.tricks| && g1.tricks[|g1.tricks| - 1].cards != [] && g1.config == g.config
  {
    hide Keep;
  }

  lemma ClosedSound(g: GameState)
    requires g.tricks != [] && g.tricks[|g.tricks| - 1].cards != [] && Seated(g.players)
    ensures var g1 := CloseTrick(g); Seated(g1.players) && g1.config == g.config
  {
    hide PointCards, FriendSeat, WinnerSeat, Reveals;
  }

  lemma RotStep(n: int, turn: int)
    requires n >= 2 && 0 <= turn < n
    ensures (turn + 1) % n == Rot(n, turn, 1)
  {
    if turn + 1 == n { assert (turn + 1) % n == 0; } else { assert (turn + 1) % n == turn + 1; }
  }

  lemma {:induction false} LogSeatFound(tricks: seq<Trick>, i: nat, c: Card)
    requires i < |tricks| && LogSeat(tricks[..i], c) == -1
    requires FirstPlayer(tricks[i].cards, c).Some? && FirstPlayer(tricks[i].cards, c).value != -1
    ensures LogSeat(tricks, c) == FirstPlayer(tricks[i].cards, c).value
    decreases |tricks|
  {
    var init := tricks[..|tricks| - 1];
    if i < |init| {
      assert init[..i] == tricks[..i];
      LogSeatFound(init, i, c);
    } else {
      assert init == tricks[..i];
    }
  }
}
