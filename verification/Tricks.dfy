/** Closing a full trick and opening the next one, slice by slice. */
module Tricks {
  import opened Cards
  import opened Decks
  import opened State
  import opened Rules
  import opened Engine
  import opened Invariants
  import opened Play
  import opened Ownership

  /** Same trick, apart from the winner that is being recorded. */
  ghost predicate SameCards(t: Trick, t1: Trick) {
    t1.cards == t.cards && t1.leadSuit == t.leadSuit && t1.jokerCalled == t.jokerCalled
  }

  lemma PowerSame(trump: Suit, k: int, t: Trick, t1: Trick, c: Card)
    requires SameCards(t, t1)
    ensures Power(trump, k, t, c) == Power(trump, k, t1, c)
  {
    assert MightyIn(trump, t) == MightyIn(trump, t1);
  }

  lemma {:induction false} BestIndexSame(trump: Suit, k: int, t: Trick, t1: Trick, m: nat)
    requires SameCards(t, t1) && 0 < m <= |t.cards|
    ensures BestIndex(trump, k, t, m) == BestIndex(trump, k, t1, m)
  {
    if m > 1 {
      BestIndexSame(trump, k, t, t1, m - 1);
      PowerSame(trump, k, t, t1, t.cards[m - 1].card);
      PowerSame(trump, k, t, t1, t.cards[BestIndex(trump, k, t, m - 1)].card);
    }
  }

  /** A log whose last trick gets its winner. */
  ghost predicate Closes(tricks: seq<Trick>, closed: seq<Trick>, w: int) {
    && tricks != [] && |closed| == |tricks|
    && (forall j :: 0 <= j < |tricks| - 1 ==> closed[j] == tricks[j])
    && closed[|tricks| - 1] == tricks[|tricks| - 1].(winner := w)
  }

  lemma ResolvedClosed(n: int, trump: Suit, k: int, t: Trick, w: int)
    requires |t.cards| == n > 0 && w == WinnerSeat(trump, k, t)
    ensures Resolved(n, trump, k, t.(winner := w))
  {
    BestIndexSame(trump, k, t, t.(winner := w), |t.cards|);
  }

  lemma WinnerClosed(n: int, trump: Suit, tricks: seq<Trick>, closed: seq<Trick>, w: int)
    requires WinnerLog(n, trump, tricks, |tricks| - 1) && Closes(tricks, closed, w)
    requires Resolved(n, trump, |tricks|, closed[|tricks| - 1])
    ensures WinnerLog(n, trump, closed, |closed|)
  {
    forall j | 0 <= j < |closed| ensures Resolved(n, trump, j + 1, closed[j]) {
      if j < |tricks| - 1 { assert Resolved(n, trump, j + 1, tricks[j]); }
    }
  }

  lemma WinnerSeated(ids: seq<string>, leader: int, trump: Suit, k: int, t: Trick)
    requires InRotation(ids, leader, t) && t.cards != []
    ensures 0 <= WinnerSeat(trump, k, t) < |ids|
  {
  }

  lemma LogClosed(ids: seq<string>, declarer: int, trump: Suit, tricks: seq<Trick>, closed: seq<Trick>, w: int)
    requires TrickLog(ids, declarer, trump, tricks, |tricks| - 1) && Closes(tricks, closed, w)
    requires |tricks[|tricks| - 1].cards| == |ids| > 0 && w == WinnerSeat(trump, |tricks|, tricks[|tricks| - 1])
    ensures TrickLog(ids, declarer, trump, closed, |closed|)
  {
    ResolvedClosed(|ids|, trump, |tricks|, tricks[|tricks| - 1], w);
    WinnerClosed(|ids|, trump, tricks, closed, w);
    RotationClosed(ids, declarer, tricks, closed, w);
    LeadClosed(trump, tricks, closed, w);
  }

  lemma RotationClosed(ids: seq<string>, declarer: int, tricks: seq<Trick>, closed: seq<Trick>, w: int)
    requires RotationLog(ids, declarer, tricks) && Closes(tricks, closed, w)
    ensures RotationLog(ids, declarer, closed)
  {
    forall j | 0 <= j < |closed| ensures InRotation(ids, Leader(declarer, closed, j), closed[j]) {
      assert Leader(declarer, closed, j) == Leader(declarer, tricks, j);
      assert InRotation(ids, Leader(declarer, tricks, j), tricks[j]);
    }
  }

  lemma LeadClosed(trump: Suit, tricks: seq<Trick>, closed: seq<Trick>, w: int)
    requires LeadLog(trump, tricks) && Closes(tricks, closed, w)
    ensures LeadLog(trump, closed)
  {
    forall j | 0 <= j < |closed| ensures LeadDeclared(trump, j + 1, closed[j]) {
      assert LeadDeclared(trump, j + 1, tricks[j]);
    }
  }

  lemma RevokeClosed(trump: Suit, players: seq<Player>, players1: seq<Player>, tricks: seq<Trick>, closed: seq<Trick>,
      w: int)
    requires Closes(tricks, closed, w) && NoRevoke(trump, tricks) && RenouncersOut(trump, players, tricks)
    requires |players| == |players1| && forall s :: 0 <= s < |players| ==> players1[s].hand == players[s].hand
    ensures NoRevoke(trump, closed) && RenouncersOut(trump, players1, closed)
  {
    forall j, i | 0 <= j < |closed| && Renounces(trump, closed[j], i)
      ensures NoneLater(closed, j, closed[j].cards[i].seat, closed[j].leadSuit)
      ensures !HasSuit(HandOf(players1, closed[j].cards[i].seat), closed[j].leadSuit)
    {
      assert Renounces(trump, tricks[j], i);
      var s, suit := tricks[j].cards[i].seat, tricks[j].leadSuit;
      assert NoneLater(tricks, j, s, suit);
      assert HandOf(players1, s) == HandOf(players, s);
      forall m, k | 0 <= j < m < |closed| && 0 <= k < |closed[m].cards| && closed[m].cards[k].seat == s
        ensures closed[m].cards[k].card.suit != suit
      {
        assert tricks[m].cards[k] == closed[m].cards[k];
      }
    }
  }

  lemma AccountClosed(players: seq<Player>, declarer: int, discards: seq<Card>, tricks: seq<Trick>, closed: seq<Trick>,
      w: int)
    requires Closes(tricks, closed, w) && 0 <= w < |players|
    requires Accounted(players, declarer, discards, tricks[..|tricks| - 1])
    ensures Accounted(AddPoints(players, w, PointCards(CardsIn(tricks[|tricks| - 1]))), declarer, discards, closed)
  {
    var last := |tricks| - 1;
    assert closed[..last] == tricks[..last];
    assert CardsIn(closed[last]) == CardsIn(tricks[last]);
  }

  lemma DefendedClosed(tricks: seq<Trick>, closed: seq<Trick>, w: int, fs: int)
    requires Closes(tricks, closed, w)
    ensures Defended(closed, fs) <==>
              Defended(tricks[..|tricks| - 1], fs) || (w == fs && Reveals(tricks[|tricks| - 1], fs))
  {
    var last := |tricks| - 1;
    var won := tricks[..last];
    assert Reveals(closed[last], fs) <==> Reveals(tricks[last], fs);
    if Defended(closed, fs) {
      var j :| 0 <= j < |closed| && closed[j].winner == fs && Reveals(closed[j], fs);
      if j < last { assert won[j] == closed[j]; }
    }
    if Defended(won, fs) {
      var j :| 0 <= j < |won| && won[j].winner == fs && Reveals(won[j], fs);
      assert closed[j] == won[j];
    }
  }

  lemma LogSeatsOf(ids: seq<string>, declarer: int, tricks: seq<Trick>)
    requires RotationLog(ids, declarer, tricks)
    ensures LogSeats(|ids|, tricks)
  {
    forall j, i | 0 <= j < |tricks| && 0 <= i < |tricks[j].cards| ensures 0 <= tricks[j].cards[i].seat < |ids| {
      assert InRotation(ids, Leader(declarer, tricks, j), tricks[j]);
    }
  }

  // ----- opening the next trick

  lemma LogOpenedKept(ids: seq<string>, declarer: int, trump: Suit, tricks: seq<Trick>)
    requires TrickLog(ids, declarer, trump, tricks, |tricks|) && |tricks| < 10
    requires 0 <= Leader(declarer, tricks, |tricks|) < |ids|
    ensures TrickLog(ids, declarer, trump, tricks + [NEWTRICK], |tricks|)
  {
    var open := tricks + [NEWTRICK];
    forall j | 0 <= j < |open| ensures InRotation(ids, Leader(declarer, open, j), open[j]) {
      assert Leader(declarer, open, j) == Leader(declarer, tricks, j);
      if j < |tricks| { assert InRotation(ids, Leader(declarer, tricks, j), tricks[j]); }
    }
    forall j | 0 <= j < |open| ensures LeadDeclared(trump, j + 1, open[j]) {
      if j < |tricks| { assert LeadDeclared(trump, j + 1, tricks[j]); }
    }
    forall j | 0 <= j < |tricks| ensures Resolved(|ids|, trump, j + 1, open[j]) {
      assert Resolved(|ids|, trump, j + 1, tricks[j]);
    }
  }

  lemma RevokeOpened(trump: Suit, players: seq<Player>, tricks: seq<Trick>)
    requires NoRevoke(trump, tricks) && RenouncersOut(trump, players, tricks)
    ensures NoRevoke(trump, tricks + [NEWTRICK]) && RenouncersOut(trump, players, tricks + [NEWTRICK])
  {
    var open := tricks + [NEWTRICK];
    forall j, i | 0 <= j < |open| && Renounces(trump, open[j], i)
      ensures NoneLater(open, j, open[j].cards[i].seat, open[j].leadSuit)
      ensures !HasSuit(HandOf(players, open[j].cards[i].seat), open[j].leadSuit)
    {
      assert Renounces(trump, tricks[j], i);
      assert NoneLater(tricks, j, tricks[j].cards[i].seat, tricks[j].leadSuit);
    }
  }

  lemma SizesOpened(ids: seq<string>, players: seq<Player>, declarer: int, d: int, tricks: seq<Trick>)
    requires HandSizes(players, declarer, d, tricks) && tricks != [] && |ids| == |players|
    requires var t := tricks[|tricks| - 1];
             |t.cards| == |ids| && InRotation(ids, Leader(declarer, tricks, |tricks| - 1), t)
    ensures HandSizes(players, declarer, d, tricks + [NEWTRICK])
  {
    var last := |tricks| - 1;
    forall s | 0 <= s < |players| ensures SeatIn(tricks[last], s) {
      SeatInRotation(ids, Leader(declarer, tricks, last), tricks[last], s);
      RotOnto(|ids|, Leader(declarer, tricks, last), s);
    }
  }
}
