/** The secret friend: scanning hands and then the trick log always finds the same seat. */
module Ownership {
  import opened Cards
  import opened Piles
  import opened State
  import opened Rules
  import opened Engine
  import opened Invariants
  import opened Conservation
  import opened Play

  ghost predicate InHand(players: seq<Player>, s: int, c: Card) { 0 <= s < |players| && c in players[s].hand }

  ghost predicate InLog(tricks: seq<Trick>, s: int, c: Card) {
    exists j :: 0 <= j < |tricks| && PlayedBy(tricks[j], s, c)
  }

  /** The seat that was dealt (or drew) the card and kept it: it still holds it or has played it. */
  ghost predicate Owns(players: seq<Player>, tricks: seq<Trick>, s: int, c: Card) {
    InHand(players, s, c) || InLog(tricks, s, c)
  }

  ghost predicate LogSeats(n: int, tricks: seq<Trick>) {
    forall j, i :: 0 <= j < |tricks| && 0 <= i < |tricks[j].cards| ==> 0 <= tricks[j].cards[i].seat < n
  }

  lemma {:induction false} LogSeatFinds(n: int, tricks: seq<Trick>, c: Card)
    requires LogSeats(n, tricks)
    ensures var r := LogSeat(tricks, c);
            && (r == -1 || (0 <= r < n && InLog(tricks, r, c)))
            && (r == -1 ==> forall s :: !InLog(tricks, s, c))
  {
    if tricks != [] {
      var init, t := tricks[..|tricks| - 1], tricks[|tricks| - 1];
      LogSeatFinds(n, init, c);
      var r := LogSeat(init, c);
      if r != -1 {
        var j :| 0 <= j < |init| && PlayedBy(init[j], r, c);
        assert PlayedBy(tricks[j], r, c);
      } else {
        var here := FirstPlayer(t.cards, c);
        if here.Some? { assert PlayedBy(tricks[|init|], here.value, c); }
        else {
          forall s ensures !InLog(tricks, s, c) {
            if InLog(tricks, s, c) {
              var j :| 0 <= j < |tricks| && PlayedBy(tricks[j], s, c);
              if j < |init| { assert PlayedBy(init[j], s, c); assert InLog(init, s, c); }
            }
          }
        }
      }
    }
  }

  lemma OwnerUnique(n: int, players: seq<Player>, kitty: seq<Card>, tricks: seq<Trick>, discards: seq<Card>, c: Card,
      s: int, u: int)
    requires Conserved(n, players, kitty, tricks, discards)
    requires Owns(players, tricks, s, c) && Owns(players, tricks, u, c)
    ensures s == u
  {
    if InHand(players, s, c) {
      OneHolder(n, players, kitty, tricks, discards, s, c);
      NotLogged(tricks, u, c);
    } else if InHand(players, u, c) {
      OneHolder(n, players, kitty, tricks, discards, u, c);
      NotLogged(tricks, s, c);
    } else {
      var j :| 0 <= j < |tricks| && PlayedBy(tricks[j], s, c);
      var i :| 0 <= i < |tricks[j].cards| && tricks[j].cards[i].card == c && tricks[j].cards[i].seat == s;
      OnePlay(n, players, kitty, tricks, discards, j, i);
      var m :| 0 <= m < |tricks| && PlayedBy(tricks[m], u, c);
    }
  }

  lemma NotLogged(tricks: seq<Trick>, s: int, c: Card)
    requires forall j :: 0 <= j < |tricks| ==> c !in CardsIn(tricks[j])
    ensures !InLog(tricks, s, c)
  {
    forall j, i | 0 <= j < |tricks| && 0 <= i < |tricks[j].cards| ensures tricks[j].cards[i].card != c {
      assert CardsIn(tricks[j])[i] in CardsIn(tricks[j]);
    }
  }

  /** The scan returns the one owner, or -1 when nobody owns the card. */
  lemma LocateOwner(n: int, players: seq<Player>, kitty: seq<Card>, tricks: seq<Trick>, discards: seq<Card>, c: Card)
    requires Conserved(n, players, kitty, tricks, discards) && LogSeats(|players|, tricks)
    ensures var r := Locate(players, tricks, c);
            && -1 <= r < |players|
            && (forall s :: Owns(players, tricks, s, c) <==> (s == r && r != -1))
  {
    var r := Locate(players, tricks, c);
    LogSeatFinds(|players|, tricks, c);
    if r != -1 {
      assert Owns(players, tricks, r, c);
      forall s ensures Owns(players, tricks, s, c) <==> s == r {
        if Owns(players, tricks, s, c) { OwnerUnique(n, players, kitty, tricks, discards, c, s, r); }
      }
    }
  }

  /** Two tables on which each seat owns the card alike give the same scan result. */
  lemma SameOwner(n: int, players: seq<Player>, tricks: seq<Trick>, discards: seq<Card>, players1: seq<Player>,
      tricks1: seq<Trick>, c: Card)
    requires Conserved(n, players, [], tricks, discards) && Conserved(n, players1, [], tricks1, discards)
    requires LogSeats(|players|, tricks) && LogSeats(|players1|, tricks1) && |players1| == |players|
    requires forall s :: Owns(players, tricks, s, c) <==> Owns(players1, tricks1, s, c)
    ensures Locate(players, tricks, c) == Locate(players1, tricks1, c)
  {
    LocateOwner(n, players, [], tricks, discards, c);
    LocateOwner(n, players1, [], tricks1, discards, c);
    var r := Locate(players, tricks, c);
    var r1 := Locate(players1, tricks1, c);
    if r != -1 { assert Owns(players, tricks, r, c); }
    if r1 != -1 { assert Owns(players1, tricks1, r1, c); }
  }

  /** Playing a card leaves every card with its owner. */
  lemma PlayKeepsOwners(players: seq<Player>, tricks: seq<Trick>, play: Played, t1: Trick, c: Card)
    requires tricks != [] && 0 <= play.seat < |players| && play.card in players[play.seat].hand
    requires Extends(tricks[|tricks| - 1], play, t1)
    ensures forall s :: Owns(players, tricks, s, c) <==>
              Owns(SetHand(players, play.seat, Keep(players[play.seat].hand, [play.card])), tricks[|tricks| - 1 := t1],
                  s, c)
  {
    var last := |tricks| - 1;
    var after, log := SetHand(players, play.seat, Keep(players[play.seat].hand, [play.card])), tricks[last := t1];
    assert t1.cards[|tricks[last].cards|] == play;
    forall s ensures InLog(log, s, c) <==> (InLog(tricks, s, c) || (c == play.card && s == play.seat)) {
      if InLog(tricks, s, c) {
        var j :| 0 <= j < |tricks| && PlayedBy(tricks[j], s, c);
        var i :| 0 <= i < |tricks[j].cards| && tricks[j].cards[i].card == c && tricks[j].cards[i].seat == s;
        assert log[j].cards[i] == tricks[j].cards[i];
        assert PlayedBy(log[j], s, c);
      }
      if c == play.card && s == play.seat { assert PlayedBy(log[last], s, c); }
      if InLog(log, s, c) {
        var j :| 0 <= j < |log| && PlayedBy(log[j], s, c);
        var i :| 0 <= i < |log[j].cards| && log[j].cards[i].card == c && log[j].cards[i].seat == s;
        if j < last || i < |tricks[last].cards| { assert PlayedBy(tricks[j], s, c); }
      }
    }
    forall s ensures InHand(after, s, c) <==> (InHand(players, s, c) && !(c == play.card && s == play.seat)) {
    }
  }

  /** So does setting a winner or opening an empty trick. */
  lemma SameLogSameOwners(players: seq<Player>, players1: seq<Player>, tricks: seq<Trick>, tricks1: seq<Trick>, c: Card)
    requires |players| == |players1| && forall s :: 0 <= s < |players| ==> players[s].hand == players1[s].hand
    requires |tricks| <= |tricks1| && forall j :: 0 <= j < |tricks| ==> tricks1[j].cards == tricks[j].cards
    requires forall j :: |tricks| <= j < |tricks1| ==> tricks1[j].cards == []
    ensures forall s :: Owns(players, tricks, s, c) <==> Owns(players1, tricks1, s, c)
  {
    forall s ensures InLog(tricks, s, c) <==> InLog(tricks1, s, c) {
      if InLog(tricks, s, c) {
        var j :| 0 <= j < |tricks| && PlayedBy(tricks[j], s, c);
        assert PlayedBy(tricks1[j], s, c);
      }
      if InLog(tricks1, s, c) {
        var j :| 0 <= j < |tricks1| && PlayedBy(tricks1[j], s, c);
        assert PlayedBy(tricks[j], s, c);
      }
    }
  }
}
