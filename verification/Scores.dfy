/** What each player is paid for a round, worked out from the contract, the piles and the played cards of the finished
    table alone. */
module Scores {
  import opened Cards
  import opened State
  import opened Scoring
  import opened Engine
  import opened Invariants
  import opened Ownership
  import opened BookKeeping
  import opened Runs
  import Rules
  import Steps
  import opened Outcomes
  import opened Story
  import opened Laws

  /** The seat has the card, in hand or among the cards it played. */
  ghost predicate HasShown(g: GameState, seat: int, c: Card) {
    || (0 <= seat < |g.players| && c in g.players[seat].hand)
    || (exists j, i :: 0 <= j < |g.tricks| && 0 <= i < |g.tricks[j].cards| && g.tricks[j].cards[i].seat == seat
                       && g.tricks[j].cards[i].card == c)
  }

  /** The declarer's partner is whoever else has the called card; -1 is nobody. */
  ghost predicate Partner(g: GameState, fs: int) {
    if fs >= 0 then fs < |g.players| && fs != g.declarer && g.partnerCard.Some? && HasShown(g, fs, g.partnerCard.value)
    else
      && fs == -1
      && forall s :: 0 <= s < |g.players| && s != g.declarer && g.partnerCard.Some? ==>
         !HasShown(g, s, g.partnerCard.value)
  }

  function TwoTo(j: nat): nat { if j == 0 then 1 else 2 * TwoTo(j - 1) }

  function One(b: bool): nat { if b then 1 else 0 }

  /** The scoring cards in the piles of the declarer and the partner. */
  function Taken(g: GameState, fs: int): nat
    requires 0 <= g.declarer < |g.players| && fs < |g.players|
  {
    |g.players[g.declarer].points| + if fs >= 0 then |g.players[fs].points| else 0
  }

  /** Twice what was bid above the least bid and what was taken above the target, or what is missing; doubled for all
      twenty, for fewer than ten, for no trump and for no friend. */
  function Worth(n: nat, bid: Bid, friendless: bool, p: int): int {
    var margin := if p >= bid.points + 10 then 2 * (bid.points - (if n == 4 then 4 else 3)) + (p - bid.points - 10)
                  else bid.points + 10 - p;
    margin * TwoTo(One(p == 20) + One(p <= 9) + One(bid.noTrump) + One(friendless))
  }

  /** What a seat is due. Each opponent pays the round's worth, or collects it if the contract failed; the partner gets
      as much as an opponent pays, and the declarer the rest. When four players fail with a partner, they may have
      agreed that the declarer pays for both, or that each opponent collects half as much again, rounded up. */
  function Due(n: nat, split: FailDist, won: bool, declarer: int, fs: int, worth: int, seat: int): int {
    if !won && n == 4 && fs >= 0 && split.DeclarerAlone? then
      if seat == declarer then -2 * worth else if seat == fs then 0 else worth
    else if !won && n == 4 && fs >= 0 && split.TwoOneSplit? then
      var gain := worth + (if worth % 2 == 0 then worth / 2 else worth / 2 + 1);
      if seat == declarer then worth - 2 * gain else if seat == fs then -worth else gain
    else
      var signed := if won then worth else -worth;
      if seat == declarer then (if fs >= 0 then n - 3 else n - 1) * signed else if seat == fs then signed else -signed
  }

  lemma {:induction false} TeamTakes(players: seq<Player>, declarer: int, fs: int)
    requires 0 <= declarer && -1 <= fs
    ensures TeamPoints(players, declarer, fs) ==
            (if declarer < |players| then |players[declarer].points| else 0)
            + (if 0 <= fs < |players| && fs != declarer then |players[fs].points| else 0)
  {
    if players != [] { TeamTakes(players[..|players| - 1], declarer, fs); }
  }

  lemma DoublesCount(n: nat, bid: Bid, friendless: bool, p: int)
    ensures Stake(bid.points, if n == 4 then 4 else 3, p, bid.noTrump, friendless) == Worth(n, bid, friendless, p)
  {
    assert TwoTo(0) == 1 && TwoTo(1) == 2 && TwoTo(2) == 4 && TwoTo(3) == 8 && TwoTo(4) == 16;
    var j := One(p == 20) + One(p <= 9) + One(bid.noTrump) + One(friendless);
    assert j == 0 || j == 1 || j == 2 || j == 3 || j == 4;
  }

  lemma PartnerFound(r: Run, at: nat, fs: int)
    requires Legal(r) && at <= |r.ops| && r.tables[at].g.status.Finished? && Partner(r.tables[at].g, fs)
    ensures var g := r.tables[at].g;
            && (if fs >= 0 then Friend(g) == fs != g.declarer else Friend(g) == -1 || Friend(g) == g.declarer)
               && -1 <= fs < |g.players|
  {
    hide Friend;
    var g := r.tables[at].g;
    if g.partnerCard.Some? {
      FriendOwnsCard(r, at, if fs >= 0 then fs else Friend(g));
      Shown(g, fs);
      Shown(g, Friend(g));
    } else {
      NoCard(g);
    }
  }

  lemma NoCard(g: GameState)
    requires g.partnerCard.None?
    ensures Friend(g) == -1
  {
  }

  lemma Shown(g: GameState, seat: int)
    requires g.partnerCard.Some?
    ensures HasShown(g, seat, g.partnerCard.value) <==> Owns(g.players, g.tricks, seat, g.partnerCard.value)
  {
    var c := g.partnerCard.value;
    if InLog(g.tricks, seat, c) {
      var j :| 0 <= j < |g.tricks| && Rules.PlayedBy(g.tricks[j], seat, c);
      var i :| 0 <= i < |g.tricks[j].cards| && g.tricks[j].cards[i].card == c && g.tricks[j].cards[i].seat == seat;
    }
    if j, i :| 0 <= j < |g.tricks| && 0 <= i < |g.tricks[j].cards|
               && g.tricks[j].cards[i].seat == seat && g.tricks[j].cards[i].card == c {
      assert Rules.PlayedBy(g.tricks[j], seat, c);
    }
  }

  lemma ShareIsDue(cfg: Config, n: nat, bid: Bid, alone: bool, declarer: int, friend: int, fs: int, p: int, s: int)
    requires (n == 4 || n == 5) && cfg.numPlayers == n && 0 <= declarer < n && -1 <= fs < n && fs != declarer
             && 0 <= s < n
    requires if fs >= 0 then friend == fs else friend == -1 || friend == declarer
    ensures Share(PayoutOf(cfg, bid, alone, Partnered(declarer, friend), Opponents(n, declarer, friend), p),
                  declarer, friend, s)
            == Due(n, cfg.failDist, p >= bid.points + 10, declarer, fs, Worth(n, bid, alone, p), s)
  {
    hide Worth, Stake;
    OpponentCount(declarer, friend, n);
    DoublesCount(n, bid, alone, p);
  }

  /** Every finish pays each seat what it is due. */
  lemma RecordedScores(r: Run, at: nat, fs: int, s: int)
    requires Legal(r) && at <= |r.ops| && r.tables[at].g.status.Finished? && 0 <= s < |r.tables[at].g.players|
    requires Partner(r.tables[at].g, fs)
    ensures var g := r.tables[at].g;
            && 0 <= g.declarer < |g.players| && -1 <= fs < |g.players| && g.contract.Some?
               && g.players[s].id in g.scores
            && var n, bid, p := |g.players|, g.contract.value, Taken(g, fs);
               g.scores[g.players[s].id] ==
               Due(n, g.config.failDist, p >= bid.points + 10, g.declarer, fs, Worth(n, bid, g.noFriend, p), s)
  {
    hide Inv, Partner, Worth, Share, PayoutOf, TeamPoints, Friend, ScoreLedger, Ids, Due;
    ReachableInv(r, at);
    var g := r.tables[at].g;
    FinishOf(r.tables[at]);
    PartnerFound(r, at, fs);
    TeamTakes(g.players, g.declarer, Friend(g));
    ScoreLedgerEntries(g.players, RoundPayouts(g), g.declarer, Friend(g));
    IdIn(g.players, s);
    PayoutsOf(g);
    ShareIsDue(g.config, |g.players|, g.contract.value, g.noFriend, g.declarer, Friend(g), fs, Taken(g, fs), s);
  }

  lemma PayoutsOf(g: GameState)
    requires g.contract.Some?
    ensures RoundPayouts(g) == PayoutOf(g.config, g.contract.value, g.noFriend, Partnered(g.declarer, Friend(g)),
                                        Opponents(|g.players|, g.declarer, Friend(g)),
                                        TeamPoints(g.players, g.declarer, Friend(g)))
  {
  }

  lemma IdIn(players: seq<Player>, s: int)
    requires 0 <= s < |players|
    ensures players[s].id in Ids(IdList(players))
  {
    assert IdList(players)[s] == players[s].id;
  }

  lemma FinishOf(t: Table)
    requires t.g.status.Finished? && Inv(t)
    ensures var g := t.g;
            && (|g.players| == 4 || |g.players| == 5) && g.config.numPlayers == |g.players|
               && 0 <= g.declarer < |g.players|
            && g.contract.Some? && g.scores == ScoreLedger(g.players, RoundPayouts(g), g.declarer, Friend(g))
            && Distinct(IdList(g.players))
  {
    hide Inv, ScoreLedger, RoundPayouts, Friend, Seated, Distinct;
    FinishFacts(t);
    Steps.BaseOf(t);
  }

  /** Every finish has such a partner, or nobody. */
  lemma SomePartner(r: Run, at: nat) returns (fs: int)
    requires Legal(r) && at <= |r.ops| && r.tables[at].g.status.Finished?
    ensures Partner(r.tables[at].g, fs)
  {
    hide Inv, ScoreLedger, RoundPayouts, Friend, HasShown;
    var g := r.tables[at].g;
    ReachableInv(r, at);
    FinishOf(r.tables[at]);
    if g.partnerCard.None? {
      fs := -1;
    } else {
      FriendOwnsCard(r, at, 0);
      forall s ensures HasShown(g, s, g.partnerCard.value) <==> 0 <= s && s == Friend(g) {
        FriendOwnsCard(r, at, s);
        Shown(g, s);
      }
      fs := if Friend(g) == g.declarer then -1 else Friend(g);
    }
  }

  /** The scores of a round that ends are filed behind those of the earlier rounds and added to the totals. */
  lemma RoundFiled(r: Run, k: nat)
    requires Legal(r) && k < |r.ops| && !r.tables[k].g.status.Finished? && r.tables[k + 1].g.status.Finished?
    ensures var g, g1 := r.tables[k].g, r.tables[k + 1].g;
            && g1.history == g.history + [g1.scores]
            && forall who :: Get(g1.totals, who) == Get(g.totals, who) + Get(g1.scores, who)
  {
    hide Inv, OpOk, After, Told, Tell;
    var g, g1 := r.tables[k].g, r.tables[k + 1].g;
    LegalStep(r, k);
    NoVoteYet(r.tables[k], r.ops[k]);
    TwoTables(r, k);
    OneMoreRound(g, g1, TaleOf(r.cfg, r.ops[..k]), r.ops[k]);
    HistoryOnlyGrows(r, k, k + 1);
    ReachableInv(r, k + 1);
    LastFiled(r.tables[k + 1]);
    BooksBalance(r, k);
    BooksBalance(r, k + 1);
    assert g1.history[..|g.history|] == g.history;
    forall who ensures Get(g1.totals, who) == Get(g.totals, who) + Get(g1.scores, who) {
      assert Accumulated(g1.history, who) == Accumulated(g.history, who) + Get(g1.scores, who);
    }
  }

  lemma OneMoreRound(g: GameState, g1: GameState, s: Tale, op: Op)
    requires Told(g, s) && Told(g1, Tell(s, op)) && !g.status.Finished? && g1.status.Finished? && !IsVote(op)
    ensures |g1.history| == |g.history| + 1
  {
    hide HandsFit, TurnFits, FriendFits, TricksFit, AuctionFits, SeatsFit, HighBid, Declarer, Laid;
  }

  lemma LastFiled(t: Table)
    requires t.g.status.Finished? && Inv(t)
    ensures t.g.history != [] && t.g.scores == t.g.history[|t.g.history| - 1]
  {
    hide Conserved, Books, RoundInv, ScoreLedger, RoundPayouts;
    InvParts(t);
  }
}
