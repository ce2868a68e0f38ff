/** The books: each round cancels out and the running totals are the sum of the history
    (the end of a round in internal/game/rules.go). */
module BookKeeping {
  import opened State
  import opened Scoring
  import opened Engine
  import opened Invariants

  ghost predicate Distinct(ids: seq<string>) { forall i, j :: 0 <= i < j < |ids| ==> ids[i] != ids[j] }

  lemma IdsGrow(ids: seq<string>)
    requires ids != []
    ensures Ids(ids) == Ids(ids[..|ids| - 1]) + {ids[|ids| - 1]}
  {
  }

  lemma {:induction false} ScoreLedgerEntries(players: seq<Player>, y: Payout, declarer: int, fs: int)
    requires Distinct(IdList(players))
    ensures ScoreLedger(players, y, declarer, fs).Keys == Ids(IdList(players))
    ensures forall i :: 0 <= i < |players| ==>
              Get(ScoreLedger(players, y, declarer, fs), players[i].id) == Share(y, declarer, fs, i)
  {
    hide Share, Ids;
    if players == [] {
      NoIds();
    } else {
      var last := |players| - 1;
      var init, ids := players[..last], IdList(players);
      assert IdList(init) == ids[..last];
      ScoreLedgerEntries(init, y, declarer, fs);
      IdsGrow(ids);
      forall i | 0 <= i < |players|
        ensures Get(ScoreLedger(players, y, declarer, fs), players[i].id) == Share(y, declarer, fs, i)
      {
        assert ids[i] == players[i].id && ids[last] == players[last].id;
        if i < last { assert init[i].id == players[i].id; }
      }
    }
  }

  lemma NoIds()
    ensures Ids([]) == {} && IdList([]) == []
  {
  }

  lemma {:induction false} SumIsSumOfShares(ids: seq<string>, l: Ledger, y: Payout, declarer: int, fs: int)
    requires forall i :: 0 <= i < |ids| ==> Get(l, ids[i]) == Share(y, declarer, fs, i)
    ensures Sum(ids, l) == SumShares(y, declarer, fs, |ids|)
  {
    if ids != [] { SumIsSumOfShares(ids[..|ids| - 1], l, y, declarer, fs); }
  }

  lemma {:induction false} SumAdds(ids: seq<string>, a: Ledger, b: Ledger)
    ensures Sum(ids, AddLedger(a, b)) == Sum(ids, a) + Sum(ids, b)
  {
    if ids != [] {
      SumAdds(ids[..|ids| - 1], a, b);
      AddedEntry(a, b, ids[|ids| - 1]);
    }
  }

  lemma AddedEntry(a: Ledger, b: Ledger, id: string)
    ensures Get(AddLedger(a, b), id) == Get(a, id) + Get(b, id)
  {
  }

  /** The scores of a finished round cancel out. */
  lemma RoundCancels(g: GameState)
    requires Seated(g.players) && |g.players| == g.N() && 0 <= g.declarer < g.N() && -1 <= Friend(g) < g.N()
    ensures var round := ScoreLedger(g.players, RoundPayouts(g), g.declarer, Friend(g));
            round.Keys == Ids(IdList(g.players)) && Sum(IdList(g.players), round) == 0
  {
    var ids, y := IdList(g.players), RoundPayouts(g);
    var round := ScoreLedger(g.players, y, g.declarer, Friend(g));
    ScoreLedgerEntries(g.players, y, g.declarer, Friend(g));
    SumIsSumOfShares(ids, round, y, g.declarer, Friend(g));
    if g.contract.Some? {
      ZeroSum(g.config, g.contract.value, g.noFriend, g.players, g.declarer, Friend(g));
    } else {
      SumByRole(y, g.declarer, Friend(g), |ids|);
    }
  }

  lemma BooksKept(ids: seq<string>, totals: Ledger, history: seq<Ledger>, round: Ledger)
    requires Books(ids, totals, history) && round.Keys == Ids(ids) && Sum(ids, round) == 0
    ensures Books(ids, AddLedger(totals, round), history + [round])
  {
    SumAdds(ids, totals, round);
    assert (history + [round])[..|history|] == history;
    forall id ensures Get(AddLedger(totals, round), id) == Accumulated(history + [round], id) {
      AddedEntry(totals, round, id);
    }
  }

  lemma {:induction false} EmptyBooks(ids: seq<string>)
    ensures Books(ids, map[], [])
  {
    EmptySum(ids);
  }

  lemma {:induction false} EmptySum(ids: seq<string>)
    ensures Sum(ids, map[]) == 0
  {
    if ids != [] { EmptySum(ids[..|ids| - 1]); }
  }
}
