/** No move creates, loses or doubles a card: hands, kitty, trick log and discards together stay a
    permutation of the deck of the deal. */
module Conservation {
  import opened Cards
  import opened Piles
  import opened Decks
  import opened State
  import opened Rules
  import opened Engine
  import opened Invariants

  // ----- rows

  lemma HandsSet(players: seq<Player>, s: int, hand: seq<Card>)
    requires 0 <= s < |players|
    ensures Hands(SetHand(players, s, hand)) == Hands(players)[s := hand]
  {
  }

  lemma LogExtended(tricks: seq<Trick>, t: Trick, c: Card)
    requires tricks != [] && CardsIn(t) == CardsIn(tricks[|tricks| - 1]) + [c]
    ensures multiset(Flatten(LogRows(tricks[|tricks| - 1 := t]))) == multiset(Flatten(LogRows(tricks))) + multiset{c}
  {
    var last := |tricks| - 1;
    var rows := LogRows(tricks);
    assert LogRows(tricks[last := t])[..last] == rows[..last];
    assert Flatten(LogRows(tricks[last := t])) == Flatten(rows[..last]) + (rows[last] + [c]);
    assert Flatten(rows) == Flatten(rows[..last]) + rows[last];
  }

  lemma LogSame(tricks: seq<Trick>, other: seq<Trick>)
    requires |tricks| == |other| && forall j :: 0 <= j < |tricks| ==> other[j].cards == tricks[j].cards
    ensures LogRows(other) == LogRows(tricks)
  {
  }

  lemma LogOpened(tricks: seq<Trick>)
    ensures Flatten(LogRows(tricks + [NEWTRICK])) == Flatten(LogRows(tricks))
  {
    assert LogRows(tricks + [NEWTRICK]) == LogRows(tricks) + [[]];
    FlattenAppend(LogRows(tricks), []);
  }

  /** The multiset of all cards, part by part. */
  lemma Parts(players: seq<Player>, kitty: seq<Card>, tricks: seq<Trick>, discards: seq<Card>)
    ensures multiset(AllCards(players, kitty, tricks, discards)) ==
            multiset(Flatten(Hands(players))) + multiset(kitty) + multiset(Flatten(LogRows(tricks)))
                + multiset(discards)
  {
  }

  // ----- one lemma per movement of cards

  /** Replacing a hand by what is kept of it loses exactly what was moved out. */
  lemma HandShrinks(before: multiset<Card>, after: multiset<Card>, hand: multiset<Card>, keep: multiset<Card>,
      moved: multiset<Card>)
    requires after + hand == before + keep && keep + moved == hand
    ensures after + moved == before
  {
    forall c ensures (after + moved)[c] == before[c] {
      assert (after + hand)[c] == (before + keep)[c];
      assert (keep + moved)[c] == hand[c];
    }
  }

  lemma HandGrows(before: multiset<Card>, after: multiset<Card>, hand: multiset<Card>, more: multiset<Card>)
    requires after + hand == before + (hand + more)
    ensures after == before + more
  {
    forall c ensures after[c] == (before + more)[c] {
      assert (after + hand)[c] == (before + (hand + more))[c];
    }
  }

  lemma AwardMoves(players: seq<Player>, kitty: seq<Card>, s: int)
    requires 0 <= s < |players|
    ensures Perm(AllCards(SetHand(players, s, players[s].hand + kitty), [], [], []), AllCards(players, kitty, [], []))
  {
    var hand := players[s].hand;
    var after := SetHand(players, s, hand + kitty);
    HandsSet(players, s, hand + kitty);
    FlattenUpdate(Hands(players), s, hand + kitty);
    HandGrows(multiset(Flatten(Hands(players))), multiset(Flatten(Hands(after))), multiset(hand), multiset(kitty));
    Parts(players, kitty, [], []);
    Parts(after, [], [], []);
  }

  lemma AwardConserves(n: int, players: seq<Player>, kitty: seq<Card>, s: int)
    requires 0 <= s < |players| && Conserved(n, players, kitty, [], [])
    ensures Conserved(n, SetHand(players, s, players[s].hand + kitty), [], [], [])
  {
    AwardMoves(players, kitty, s);
  }

  lemma DiscardMoves(players: seq<Player>, s: int, cards: seq<Card>)
    requires 0 <= s < |players|
    ensures Perm(AllCards(SetHand(players, s, Keep(players[s].hand, cards)), [], [], Take(players[s].hand, cards)),
                 AllCards(players, [], [], []))
  {
    var hand := players[s].hand;
    var keep, moved := Keep(hand, cards), Take(hand, cards);
    var after := SetHand(players, s, keep);
    HandsSet(players, s, keep);
    FlattenUpdate(Hands(players), s, keep);
    Split(hand, cards);
    HandShrinks(multiset(Flatten(Hands(players))), multiset(Flatten(Hands(after))), multiset(hand), multiset(keep),
        multiset(moved));
    Parts(players, [], [], []);
    Parts(after, [], [], moved);
  }

  lemma DiscardConserves(n: int, players: seq<Player>, s: int, cards: seq<Card>)
    requires 0 <= s < |players| && Conserved(n, players, [], [], [])
    ensures Conserved(n, SetHand(players, s, Keep(players[s].hand, cards)), [], [], Take(players[s].hand, cards))
  {
    DiscardMoves(players, s, cards);
  }

  lemma PlayMoves(players: seq<Player>, tricks: seq<Trick>, discards: seq<Card>, s: int, c: Card, t: Trick)
    requires 0 <= s < |players| && NoDup(players[s].hand) && c in players[s].hand
    requires tricks != [] && CardsIn(t) == CardsIn(tricks[|tricks| - 1]) + [c]
    ensures Perm(AllCards(SetHand(players, s, Keep(players[s].hand, [c])), [], tricks[|tricks| - 1 := t], discards),
                 AllCards(players, [], tricks, discards))
  {
    var hand := players[s].hand;
    var keep := Keep(hand, [c]);
    var after := SetHand(players, s, keep);
    HandsSet(players, s, keep);
    FlattenUpdate(Hands(players), s, keep);
    Split(hand, [c]);
    TakeOne(hand, c);
    HandShrinks(multiset(Flatten(Hands(players))), multiset(Flatten(Hands(after))), multiset(hand), multiset(keep),
        multiset{c});
    LogExtended(tricks, t, c);
    Parts(players, [], tricks, discards);
    Parts(after, [], tricks[|tricks| - 1 := t], discards);
  }

  lemma PlayConserves(n: int, players: seq<Player>, tricks: seq<Trick>, discards: seq<Card>, s: int, c: Card, t: Trick)
    requires 0 <= s < |players| && Conserved(n, players, [], tricks, discards)
    requires NoDup(players[s].hand) && c in players[s].hand
    requires tricks != [] && CardsIn(t) == CardsIn(tricks[|tricks| - 1]) + [c]
    ensures Conserved(n, SetHand(players, s, Keep(players[s].hand, [c])), [], tricks[|tricks| - 1 := t], discards)
  {
    PlayMoves(players, tricks, discards, s, c, t);
  }

  lemma DealConserves(n: int, players: seq<Player>, deck: seq<Card>)
    requires |players| == n && |deck| == 10 * n + 3 && IsDeal(n, deck)
    ensures Conserved(n, DealTo(players, deck), deck[10 * n..], [], [])
  {
    DealtHands(players, deck, n);
    var after := DealTo(players, deck);
    assert Hands(after)[..n] == Hands(after);
    assert AllCards(after, deck[10 * n..], [], []) == deck[..10 * n] + deck[10 * n..] == deck;
  }

  lemma {:induction false} DealtHands(players: seq<Player>, deck: seq<Card>, k: nat)
    requires k <= |players| && 10 * |players| <= |deck|
    ensures Flatten(Hands(DealTo(players, deck))[..k]) == deck[..10 * k]
  {
    if k > 0 {
      DealtHands(players, deck, k - 1);
      var hands := Hands(DealTo(players, deck));
      assert hands[..k][..k - 1] == hands[..k - 1];
      assert deck[..10 * k] == deck[..10 * (k - 1)] + HandFrom(deck, k - 1);
    }
  }

  /** Points, names and recorded winners are no cards. */
  lemma RecordsConserve(n: int, players: seq<Player>, after: seq<Player>, kitty: seq<Card>, tricks: seq<Trick>,
      closed: seq<Trick>,
                        discards: seq<Card>)
    requires Conserved(n, players, kitty, tricks, discards)
    requires |players| == |after| && forall s :: 0 <= s < |players| ==> after[s].hand == players[s].hand
    requires |tricks| == |closed| && forall j :: 0 <= j < |tricks| ==> closed[j].cards == tricks[j].cards
    ensures Conserved(n, after, kitty, closed, discards)
  {
    hide Deck;
    assert Hands(after) == Hands(players);
    LogSame(tricks, closed);
  }

  lemma OpenConserves(n: int, players: seq<Player>, kitty: seq<Card>, tricks: seq<Trick>, discards: seq<Card>)
    requires Conserved(n, players, kitty, tricks, discards)
    ensures Conserved(n, players, kitty, tricks + [NEWTRICK], discards)
  {
    hide Deck;
    LogOpened(tricks);
  }

  // ----- what conservation says about one card

  lemma PileSizes(n: int, players: seq<Player>, kitty: seq<Card>, tricks: seq<Trick>, discards: seq<Card>, c: Card)
    requires Conserved(n, players, kitty, tricks, discards)
    ensures multiset(Flatten(Hands(players)))[c] + multiset(kitty)[c] + multiset(Flatten(LogRows(tricks)))[c]
            + multiset(discards)[c]
            == if InDeck(n, c) then 1 else 0
  {
    Parts(players, kitty, tricks, discards);
    DeckContents(n);
    assert multiset(AllCards(players, kitty, tricks, discards))[c] == multiset(Deck(n))[c];
  }

  /** A card in hand is of the deck, once, and in no other hand. */
  lemma OneHolder(n: int, players: seq<Player>, kitty: seq<Card>, tricks: seq<Trick>, discards: seq<Card>, s: int,
      c: Card)
    requires Conserved(n, players, kitty, tricks, discards) && 0 <= s < |players| && c in players[s].hand
    ensures InDeck(n, c) && multiset(players[s].hand)[c] == 1
    ensures forall u :: 0 <= u < |players| && u != s ==> c !in players[u].hand
    ensures forall j :: 0 <= j < |tricks| ==> c !in CardsIn(tricks[j])
  {
    PileSizes(n, players, kitty, tricks, discards, c);
    FlattenHas(Hands(players), s, c);
    forall u | 0 <= u < |players| && u != s ensures c !in players[u].hand {
      FlattenHasTwo(Hands(players), if s < u then s else u, if s < u then u else s, c);
    }
    forall j | 0 <= j < |tricks| ensures c !in CardsIn(tricks[j]) { FlattenHas(LogRows(tricks), j, c); }
  }

  /** A card in the log is there once. */
  lemma OnePlay(n: int, players: seq<Player>, kitty: seq<Card>, tricks: seq<Trick>, discards: seq<Card>, j: int, i: int)
    requires Conserved(n, players, kitty, tricks, discards) && 0 <= j < |tricks| && 0 <= i < |tricks[j].cards|
    ensures InDeck(n, tricks[j].cards[i].card)
    ensures forall m, k ::
              0 <= m < |tricks| && 0 <= k < |tricks[m].cards| && tricks[m].cards[k].card == tricks[j].cards[i].card ==>
              m == j && k == i
  {
    var c := tricks[j].cards[i].card;
    var rows := LogRows(tricks);
    PileSizes(n, players, kitty, tricks, discards, c);
    assert rows[j][i] == c;
    FlattenHas(rows, j, c);
    forall m, k | 0 <= m < |tricks| && 0 <= k < |tricks[m].cards| && tricks[m].cards[k].card == c
      ensures m == j && k == i
    {
      assert rows[m][k] == c;
      if m != j {
        FlattenHasTwo(rows, if m < j then m else j, if m < j then j else m, c);
      } else if k != i {
        CountTwice(rows[j], if k < i then k else i, if k < i then i else k);
      }
    }
  }

  lemma HandNoDup(n: int, players: seq<Player>, kitty: seq<Card>, tricks: seq<Trick>, discards: seq<Card>, s: int)
    requires Conserved(n, players, kitty, tricks, discards) && 0 <= s < |players|
    ensures NoDup(players[s].hand)
    ensures forall c :: c in players[s].hand ==> InDeck(n, c)
  {
    forall c ensures multiset(players[s].hand)[c] <= 1 && (c in players[s].hand ==> InDeck(n, c)) {
      if c in players[s].hand { OneHolder(n, players, kitty, tricks, discards, s, c); }
    }
    NoDupFromCount(players[s].hand);
  }
}
