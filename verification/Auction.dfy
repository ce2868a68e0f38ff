/** The auction, for any number n >= 2 of seats: who may be on turn, and what the bid log says
    about the standing bid (internal/game/rules.go, the bid and pass moves). */
module Auction {
  import opened Wrappers
  import opened State
  import opened Engine

  predicate InRange(n: int, passed: set<int>) { forall s :: s in passed ==> 0 <= s < n }

  /** The seats strictly between a and b, going round from a, have all passed. */
  predicate BetweenPassed(n: int, passed: set<int>, a: int, b: int) {
    forall i :: 0 < i < Offset(n, a, b) ==> Rot(n, a, i) in passed
  }

  /** Who may be on turn while bidding. `opener` is the seat that opened the auction. */
  predicate Rotation(n: int, opener: int, turn: int, declarer: int, passed: set<int>, standing: bool) {
    && InRange(n, passed)
    && 0 <= turn < n && turn !in passed && 0 <= opener < n
    && (standing ==> 0 <= declarer < n && declarer !in passed && turn != declarer && |passed| <= n - 2
                     && BetweenPassed(n, passed, declarer, turn))
    && (!standing ==> declarer == -1 && |passed| <= n - 1
                      && forall i :: 0 <= i < n ==> (Rot(n, opener, i) in passed <==> i < Offset(n, opener, turn)))
  }

  /** Passes are logged with zero points; real bids rise strictly and the standing bid is the last. */
  ghost predicate BidLog(bids: seq<Bid>, standing: Option<Bid>, minBid: int) {
    && (forall i :: 0 <= i < |bids| ==> bids[i].points == 0 || minBid <= bids[i].points <= 10)
    && (forall i, j :: 0 <= i < j < |bids| && bids[j].points > 0 ==> bids[i].points < bids[j].points)
    && (standing.None? ==> forall i :: 0 <= i < |bids| ==> bids[i].points == 0)
    && (standing.Some? ==> standing.value.points > 0 && StandsLast(bids, standing.value))
  }

  /** The bid is in the log, every other entry is strictly lower, and only passes follow it. */
  ghost predicate StandsLast(bids: seq<Bid>, b: Bid) { exists k :: StandsAt(bids, b, k) }

  predicate StandsAt(bids: seq<Bid>, b: Bid, k: int) {
    && 0 <= k < |bids| && bids[k] == b
    && (forall i :: 0 <= i < |bids| && i != k ==> bids[i].points < b.points)
    && (forall i :: k < i < |bids| ==> bids[i].points == 0)
  }

  function Standing(b: Option<Bid>): int { if b.Some? then b.value.points else 0 }

  function AuctionMeasure(n: int, standing: int, passed: set<int>): int { (10 - standing) + (n - |passed|) }

  // ----- counting seats

  function Seats(n: nat): (r: set<int>)
    ensures |r| == n && forall s :: s in r <==> 0 <= s < n
  {
    if n == 0 then {} else Seats(n - 1) + {n - 1}
  }

  lemma SubsetSize(a: set<int>, b: set<int>)
    requires a <= b
    ensures |a| <= |b|
    ensures |a| == |b| ==> a == b
  {
    assert b == a + (b - a);
    if |a| == |b| { assert b - a == {}; }
  }

  lemma PassedBound(n: nat, passed: set<int>)
    requires InRange(n, passed)
    ensures |passed| <= n
    ensures |passed| < n ==> exists s :: 0 <= s < n && s !in passed
    ensures forall s :: 0 <= s < n && s !in passed ==> |passed| < n
    ensures forall s, u :: 0 <= s < n && 0 <= u < n && s != u && s !in passed && u !in passed ==> |passed| <= n - 2
  {
    SubsetSize(passed, Seats(n));
    if |passed| < n {
      if forall s :: s in Seats(n) ==> s in passed { SubsetSize(Seats(n), passed); }
      assert exists s :: s in Seats(n) && s !in passed;
    }
    forall s | 0 <= s < n && s !in passed ensures |passed| < n { SubsetSize(passed + {s}, Seats(n)); }
    forall s, u | 0 <= s < n && 0 <= u < n && s != u && s !in passed && u !in passed ensures |passed| <= n - 2 {
      SubsetSize(passed + {s} + {u}, Seats(n));
    }
  }

  /** If two seats are still in the auction, so is one other than a given seat. */
  lemma OtherSeat(n: nat, passed: set<int>, a: int) returns (s: int)
    requires InRange(n, passed) && |passed| <= n - 2 && 0 <= a < n && a !in passed
    ensures 0 <= s < n && s != a && s !in passed
  {
    PassedBound(n, passed + {a});
    s :| 0 <= s < n && s !in passed + {a};
  }

  // ----- the rotation

  /** Stepping from seat to seat stops at the first one that has not passed. */
  lemma {:induction false} NextBidderStops(n: nat, passed: set<int>, turn: int, fuel: nat, s: int)
    requires 0 <= turn < n && 0 <= s < n && s !in passed
    requires 0 < (if s == turn then n else Offset(n, turn, s)) <= fuel + 1
    ensures var r := NextBidder(n, passed, turn, fuel);
            var d := if r == turn then n else Offset(n, turn, r);
            && 0 <= r < n && r !in passed
            && d <= (if s == turn then n else Offset(n, turn, s))
            && forall i :: 0 < i < d ==> Rot(n, turn, i) in passed
    decreases fuel
  {
    var t := Rot(n, turn, 1);
    if t in passed {
      assert t != s;
      NextBidderStops(n, passed, t, fuel - 1, s);
      var r := NextBidder(n, passed, t, fuel - 1);
      var d := if r == turn then n else Offset(n, turn, r);
      forall i | 0 < i < d ensures Rot(n, turn, i) in passed {
        if i > 1 { assert Rot(n, turn, i) == Rot(n, t, i - 1); }
      }
    }
  }

  /** The loop that looks for the next bidder terminates and lands on the first seat after `turn`
      that has not passed. */
  lemma AdvanceStops(n: nat, passed: set<int>, turn: int)
    requires InRange(n, passed) && 0 <= turn < n && |passed| < n
    ensures var r := Advance(n, passed, turn);
            && 0 <= r < n && r !in passed
            && forall i :: 0 < i < (if r == turn then n else Offset(n, turn, r)) ==> Rot(n, turn, i) in passed
  {
    PassedBound(n, passed);
    var s :| 0 <= s < n && s !in passed;
    NextBidderStops(n, passed, turn, n, s);
  }

  lemma BidRotates(n: nat, opener: int, turn: int, declarer: int, passed: set<int>, standing: bool)
    requires n >= 2 && Rotation(n, opener, turn, declarer, passed, standing) && |passed| != n - 1
    ensures Rotation(n, opener, Advance(n, passed, turn), turn, passed, true)
  {
    PassedBound(n, passed);
    var s := OtherSeat(n, passed, turn);
    NextBidderStops(n, passed, turn, n, s);
  }

  lemma PassRotates(n: nat, opener: int, turn: int, declarer: int, passed: set<int>, standing: bool)
    requires n >= 2 && Rotation(n, opener, turn, declarer, passed, standing)
    requires |passed| + 1 < (if standing then n - 1 else n)
    ensures Rotation(n, opener, Advance(n, passed + {turn}, turn), declarer, passed + {turn}, standing)
  {
    if standing { PassUnderBid(n, opener, turn, declarer, passed); } else { PassBeforeBids(n, opener, turn, passed); }
  }

  lemma PassUnderBid(n: nat, opener: int, turn: int, declarer: int, passed: set<int>)
    requires n >= 2 && Rotation(n, opener, turn, declarer, passed, true) && |passed| + 1 < n - 1
    ensures Rotation(n, opener, Advance(n, passed + {turn}, turn), declarer, passed + {turn}, true)
  {
    var after := passed + {turn};
    var next := Advance(n, after, turn);
    AdvanceStops(n, after, turn);
    var s := OtherSeat(n, after, declarer);
    assert Rot(n, declarer, Offset(n, declarer, s)) == s;
    assert Offset(n, declarer, turn) < Offset(n, declarer, s);
    NextBidderStops(n, after, turn, n, s);
    assert next != declarer;
    forall i | 0 < i < Offset(n, declarer, next) ensures Rot(n, declarer, i) in after {
      var m := Offset(n, declarer, turn);
      if i > m { assert Rot(n, declarer, i) == Rot(n, turn, i - m); }
    }
  }

  lemma PassBeforeBids(n: nat, opener: int, turn: int, passed: set<int>)
    requires n >= 2 && Rotation(n, opener, turn, -1, passed, false) && |passed| + 1 < n
    ensures Rotation(n, opener, Advance(n, passed + {turn}, turn), -1, passed + {turn}, false)
  {
    var after := passed + {turn};
    var m := Offset(n, opener, turn);
    PassedBound(n, after);
    var s :| 0 <= s < n && s !in after;
    assert Rot(n, opener, Offset(n, opener, s)) == s && Rot(n, opener, m) == turn;
    assert m + 1 < n && Rot(n, turn, 1) == Rot(n, opener, m + 1) && Rot(n, opener, m + 1) !in after;
  }

  /** At most n - 2 seats have passed under a standing bid; the one exception is the last seat of an
      auction without bids, which may still bid. */
  lemma LastSeatMayBid(n: nat, opener: int, turn: int, declarer: int, passed: set<int>, standing: bool)
    requires n >= 2 && Rotation(n, opener, turn, declarer, passed, standing)
    ensures |passed| == n - 1 ==> !standing && Offset(n, opener, turn) == n - 1
    ensures turn !in passed && |passed + {turn}| == |passed| + 1
  {
    if |passed| == n - 1 && Offset(n, opener, turn) < n - 1 {
      var u := Rot(n, opener, n - 1);
      assert u !in passed && u != turn;
      PassedBound(n, passed);
    }
  }

  // ----- the bid log

  lemma BidLogged(bids: seq<Bid>, standing: Option<Bid>, minBid: int, b: Bid)
    requires BidLog(bids, standing, minBid) && 0 < minBid <= b.points <= 10
    requires standing.Some? ==> b.points > standing.value.points
    ensures BidLog(bids + [b], Some(b), minBid)
  {
    var log := bids + [b];
    if standing.Some? {
      var k :| StandsAt(bids, standing.value, k);
    }
    assert StandsAt(log, b, |bids|);
  }

  lemma PassLogged(bids: seq<Bid>, standing: Option<Bid>, minBid: int, b: Bid)
    requires BidLog(bids, standing, minBid) && b.points == 0
    ensures BidLog(bids + [b], standing, minBid)
  {
    if standing.Some? {
      var k :| StandsAt(bids, standing.value, k);
      assert StandsAt(bids + [b], standing.value, k);
    }
  }
}
