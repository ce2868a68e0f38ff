/** Round scores (CalculateFinalScore in internal/game/rules.go). */
module Scoring {
  import opened State

  predicate OnTeam(declarer: int, fs: int, seat: int) { seat == declarer || (fs >= 0 && seat == fs) }

  predicate Partnered(declarer: int, fs: int) { fs >= 0 && fs != declarer }

  function TeamPoints(players: seq<Player>, declarer: int, fs: int): nat {
    if players == [] then 0
    else
      var last := |players| - 1;
      TeamPoints(players[..last], declarer, fs) + (if OnTeam(declarer, fs, last) then |players[last].points| else 0)
  }

  function Opponents(m: nat, declarer: int, fs: int): nat {
    if m == 0 then 0 else Opponents(m - 1, declarer, fs) + (if OnTeam(declarer, fs, m - 1) then 0 else 1)
  }

  function Double(b: bool, s: int): int { if b then 2 * s else s }

  /** What one opponent pays or collects: the margin, doubled for a run, a back run, no trump and no friend. */
  function Stake(points: int, minBid: int, p: int, noTrump: bool, alone: bool): int {
    var target := points + 10;
    var margin := if p >= target then 2 * (points - minBid) + (p - target) else target - p;
    Double(alone, Double(noTrump, Double(20 - p >= 11, Double(p == 20, margin))))
  }

  predicate SpecialSplit(cfg: Config, success: bool, partnered: bool) {
    !success && partnered && cfg.numPlayers == 4 && !cfg.failDist.EqualSplit?
  }

  datatype Payout = Payout(declarer: int, partner: int, opponent: int)

  function Payouts(cfg: Config, success: bool, partnered: bool, s: int, opp: int): Payout {
    if SpecialSplit(cfg, success, partnered) then
      if cfg.failDist.DeclarerAlone? then Payout(-2 * s, 0, s)
      else
        var gain := (3 * s + 1) / 2;
        Payout(-(2 * gain - s), -s, gain)
    else
      var sign := if success then 1 else -1;
      Payout(sign * (opp * s - (if partnered then s else 0)), sign * s, -sign * s)
  }

  function PayoutOf(cfg: Config, bid: Bid, alone: bool, partnered: bool, opp: int, p: int): Payout {
    Payouts(cfg, p >= bid.points + 10, partnered, Stake(bid.points, cfg.MinBid(), p, bid.noTrump, alone), opp)
  }

  function Share(y: Payout, declarer: int, fs: int, seat: int): int {
    if seat == declarer then y.declarer else if fs >= 0 && seat == fs then y.partner else y.opponent
  }

  function SumShares(y: Payout, declarer: int, fs: int, m: nat): int {
    if m == 0 then 0 else SumShares(y, declarer, fs, m - 1) + Share(y, declarer, fs, m - 1)
  }

  // ----- zero sum

  lemma {:induction false} OpponentCount(declarer: int, fs: int, m: nat)
    requires 0 <= declarer && -1 <= fs
    ensures Opponents(m, declarer, fs) ==
            m - (if declarer < m then 1 else 0) - (if Partnered(declarer, fs) && fs < m then 1 else 0)
  {
    if m > 0 { OpponentCount(declarer, fs, m - 1); }
  }

  lemma {:induction false} SumByRole(y: Payout, declarer: int, fs: int, m: nat)
    requires 0 <= declarer && -1 <= fs
    ensures SumShares(y, declarer, fs, m) ==
            (if declarer < m then y.declarer else 0)
            + (if Partnered(declarer, fs) && fs < m then y.partner else 0)
            + Opponents(m, declarer, fs) * y.opponent
  {
    if m > 0 {
      SumByRole(y, declarer, fs, m - 1);
      OneMore(Opponents(m - 1, declarer, fs), y.opponent);
    }
  }

  lemma OneMore(o: int, each: int)
    ensures (o + 1) * each == o * each + each
  {
  }

  /** The scores of a full table cancel out, whoever the declarer and friend are and however a
      failed two-against-two contract is split. */
  lemma ZeroSum(cfg: Config, bid: Bid, alone: bool, players: seq<Player>, declarer: int, fs: int)
    requires 0 <= declarer < |players| && -1 <= fs < |players| == cfg.Seats()
    ensures SumShares(PayoutOf(cfg, bid, alone, Partnered(declarer, fs), Opponents(|players|, declarer, fs),
                               TeamPoints(players, declarer, fs)), declarer, fs, |players|) == 0
  {
    var opp, p := Opponents(|players|, declarer, fs), TeamPoints(players, declarer, fs);
    var partnered := Partnered(declarer, fs);
    SumByRole(PayoutOf(cfg, bid, alone, partnered, opp, p), declarer, fs, |players|);
    OpponentCount(declarer, fs, |players|);
    Balance(cfg, p >= bid.points + 10, partnered, Stake(bid.points, cfg.MinBid(), p, bid.noTrump, alone), opp);
  }

  lemma Balance(cfg: Config, success: bool, partnered: bool, s: int, opp: int)
    requires SpecialSplit(cfg, success, partnered) ==> opp == 2
    ensures var y := Payouts(cfg, success, partnered, s, opp);
            y.declarer + (if partnered then y.partner else 0) + opp * y.opponent == 0
  {
    if !SpecialSplit(cfg, success, partnered) {
      if success { assert opp * (-1 * s) == -(opp * s); } else { assert opp * (-(-1) * s) == opp * s; }
    }
  }

  // ----- what the scores say about the round

  predicate LegalBid(cfg: Config, bid: Bid) { cfg.MinBid() <= bid.points <= 10 }

  lemma StakeBounds(cfg: Config, bid: Bid, alone: bool, p: int)
    requires LegalBid(cfg, bid) && 0 <= p <= 20
    ensures 0 <= Stake(bid.points, cfg.MinBid(), p, bid.noTrump, alone) <= if alone then 160 else 80
    ensures p < bid.points + 10 ==> Stake(bid.points, cfg.MinBid(), p, bid.noTrump, alone) > 0
  {
  }

  /** More captured scoring cards are never worse for the team and never better for the defenders. */
  lemma MoreCardsPay(cfg: Config, bid: Bid, alone: bool, partnered: bool, opp: int, p: int, q: int)
    requires LegalBid(cfg, bid) && 0 <= p < q <= 20
    requires opp >= if partnered then 2 else 1
    ensures var a, b := PayoutOf(cfg, bid, alone, partnered, opp, p), PayoutOf(cfg, bid, alone, partnered, opp, q);
            a.declarer < b.declarer && a.partner <= b.partner && a.opponent >= b.opponent
  {
    var min := cfg.MinBid();
    var s, t := Stake(bid.points, min, p, bid.noTrump, alone), Stake(bid.points, min, q, bid.noTrump, alone);
    StakeBounds(cfg, bid, alone, p);
    StakeBounds(cfg, bid, alone, q);
    if q < bid.points + 10 {
      StakeFalls(bid.points, min, p, q, bid.noTrump, alone);
      PayLess(cfg, partnered, opp, t, s);
    } else if p >= bid.points + 10 {
      StakeRises(bid.points, min, p, q, bid.noTrump, alone);
      WinMore(cfg, partnered, opp, s, t);
    } else {
      PayLess(cfg, partnered, opp, 0, s);
      if t > 0 { WinMore(cfg, partnered, opp, 0, t); }
    }
  }

  lemma WinMore(cfg: Config, partnered: bool, opp: int, s: int, t: int)
    requires 0 <= s < t && opp >= if partnered then 2 else 1
    ensures var a, b := Payouts(cfg, true, partnered, s, opp), Payouts(cfg, true, partnered, t, opp);
            a.declarer < b.declarer && a.partner < b.partner && a.opponent > b.opponent
            && (s == 0 ==> a == Payout(0, 0, 0))
  {
    var w := if partnered then opp - 1 else opp;
    assert opp * s - (if partnered then s else 0) == w * s;
    assert opp * t - (if partnered then t else 0) == w * t;
    Scale(w, s, t);
  }

  lemma PayLess(cfg: Config, partnered: bool, opp: int, s: int, t: int)
    requires 0 <= s < t && opp >= if partnered then 2 else 1
    ensures var a, b := Payouts(cfg, false, partnered, s, opp), Payouts(cfg, false, partnered, t, opp);
            a.declarer > b.declarer && a.partner >= b.partner && a.opponent < b.opponent
            && (s == 0 ==> a == Payout(0, 0, 0))
  {
    var w := if partnered then opp - 1 else opp;
    assert opp * s - (if partnered then s else 0) == w * s;
    assert opp * t - (if partnered then t else 0) == w * t;
    Scale(w, s, t);
  }

  lemma Scale(w: int, a: int, b: int)
    requires w > 0 && a < b
    ensures w * a < w * b
  {
  }

  lemma StakeFalls(points: int, minBid: int, p: int, q: int, noTrump: bool, alone: bool)
    requires points <= 10 && 0 <= p < q < points + 10
    ensures Stake(points, minBid, p, noTrump, alone) > Stake(points, minBid, q, noTrump, alone)
  {
  }

  lemma StakeRises(points: int, minBid: int, p: int, q: int, noTrump: bool, alone: bool)
    requires minBid <= points && 0 <= points && points + 10 <= p < q <= 20
    ensures Stake(points, minBid, p, noTrump, alone) < Stake(points, minBid, q, noTrump, alone)
  {
  }

  /** The declarer is paid exactly when the target is met (or breaks even at stake zero), and no
      seat ever wins or loses more than 640 with five players or 480 with four. */
  lemma ScoreSoundness(cfg: Config, bid: Bid, alone: bool, declarer: int, fs: int, p: int, seat: int)
    requires LegalBid(cfg, bid) && 0 <= p <= 20 && (cfg.Seats() == 4 || cfg.Seats() == 5)
    requires 0 <= declarer < cfg.Seats() && -1 <= fs < cfg.Seats() && (alone ==> fs == -1)
    ensures var y := PayoutOf(cfg, bid, alone, Partnered(declarer, fs), Opponents(cfg.Seats(), declarer, fs), p);
            && (p >= bid.points + 10 <==> y.declarer >= 0)
            && (p >= bid.points + 10 ==> y.partner >= 0 && y.opponent <= 0)
            && (p < bid.points + 10 ==> y.declarer < 0 && y.partner <= 0 && y.opponent > 0)
            && -160 * (cfg.Seats() - 1) <= Share(y, declarer, fs, seat) <= 160 * (cfg.Seats() - 1)
  {
    var n := cfg.Seats();
    var opp := Opponents(n, declarer, fs);
    OpponentCount(declarer, fs, n);
    StakeBounds(cfg, bid, alone, p);
    assert opp == 1 || opp == 2 || opp == 3 || opp == 4;
  }
}
