/** What an answer to a client promises: the game it carries is a committed table of the run, and its
    ledger row, if the operation has one, is recorded. */
module Answers {
  import opened Cards
  import opened State
  import opened Rules
  import opened Engine
  import opened Invariants
  import opened Steps
  import opened Runs
  import opened GameStore
  import opened GameService
  import opened Protocol
  import opened Interleaving
  import opened Serial

  /** The game is the table that some committed operation led to. */
  ghost predicate CommittedAs(r: Run, g: GameState) {
    2 <= g.version <= |r.tables| && g.version <= |r.ops| + 1 && r.tables[g.version - 1].g == g
  }

  /** The operation that led to this version only refreshed a seated player; it has no row. */
  predicate Rejoins(g: GameState, op: Op) { op.JoinOp? && SeatOf(g.players, op.id) >= 0 }

  ghost predicate RejoinAt(r: Run, version: int) {
    2 <= version <= |r.tables| && version <= |r.ops| + 1 && Rejoins(r.tables[version - 2].g, r.ops[version - 2])
  }

  ghost predicate Recorded(ledger: seq<Row>, version: int) {
    exists i :: 0 <= i < |ledger| && ledger[i].version == version
  }

  ghost predicate Answered(r: Run, ledger: seq<Row>, k: Client) {
    && (k.Ready? && k.row.None? ==> Rejoins(k.read, k.op))
    && (k.Recording? ==> CommittedAs(r, k.reply))
    && (k.Recording? && k.row.None? ==> RejoinAt(r, k.reply.version))
    && (k.Recording? && k.row.Some? ==> k.row.value.version == k.reply.version)
    && (k.Releasing? && k.outcome.Replied? ==>
          CommittedAs(r, k.outcome.g) && (RejoinAt(r, k.outcome.g.version) || Recorded(ledger, k.outcome.g.version)))
  }

  ghost predicate AnswerInv(s: Sys) { forall c :: Answered(s.run, s.ledger, At(s, c)) }

  ghost predicate Grows(s: Sys, s1: Sys) {
    s.run.tables <= s1.run.tables && s.run.ops <= s1.run.ops && s.ledger <= s1.ledger
  }

  lemma StepGrows(s: Sys, e: Event)
    ensures Grows(s, Step(s, e))
  {
    hide Decide, NextDiscards;
  }

  lemma AnswerStands(s: Sys, s1: Sys, k: Client)
    requires Grows(s, s1) && Answered(s.run, s.ledger, k)
    ensures Answered(s1.run, s1.ledger, k)
  {
    hide Rejoins;
    if k.Releasing? && k.outcome.Replied? && Recorded(s.ledger, k.outcome.g.version) {
      var i :| 0 <= i < |s.ledger| && s.ledger[i].version == k.outcome.g.version;
      assert s1.ledger[i].version == k.outcome.g.version;
    }
  }

  /** No row means that a seated player came back. */
  lemma NoRowRejoins(req: Request, g: GameState, deck: seq<Card>)
    ensures var d := Decide(req, g, deck);
            && (d.Write? && d.row.None? ==> Rejoins(g, OpOf(req, deck)))
            && (d.Refuse? ==> !d.outcome.Replied?)
  {
    hide ValidateMove, Apply, Join;
  }

  lemma SavedAnswer(s: Sys, c: int)
    requires At(s, c).Ready? && Answered(s.run, s.ledger, At(s, c))
    requires ProtocolInv(s)
    ensures var s1 := SaveStep(s, c, At(s, c)); Answered(s1.run, s1.ledger, At(s1, c))
  {
    hide ProtocolInv, OpOk, After, Makes, Rejoins, Grown;
    var k := At(s, c);
    PartsOf(s, c);
    ReadyOf(s, k);
    if Current(s.store, k.read.version) {
      Committed(s, k);
      RowVersion(s, k);
    }
  }

  lemma RowVersion(s: Sys, k: Client)
    requires k.Ready? && ReadyInv(s, k)
    ensures k.row.Some? ==> k.row.value.version == k.write.version
  {
    hide Makes, Known;
  }

  lemma RecordedAnswer(s: Sys, c: int, ledgerUp: bool)
    requires At(s, c).Recording? && Answered(s.run, s.ledger, At(s, c))
    ensures var s1 := RecordStep(s, c, At(s, c), ledgerUp); Answered(s1.run, s1.ledger, At(s1, c))
  {
    hide Rejoins;
    var k, s1 := At(s, c), RecordStep(s, c, At(s, c), ledgerUp);
    if k.row.Some? && ledgerUp { assert s1.ledger[|s.ledger|].version == k.reply.version; }
  }

  lemma AnswersKept(s: Sys, e: Event)
    requires AnswerInv(s) && Enabled(s, e)
    requires ProtocolInv(s)
    ensures AnswerInv(Step(s, e))
  {
    hide ProtocolInv, Decide, Rejoins, RejoinAt, CommittedAs, Recorded, Grows, SaveStep, RecordStep, Enabled;
    var s1 := Step(s, e);
    StepGrows(s, e);
    forall d ensures Answered(s1.run, s1.ledger, At(s1, d)) {
      assert Answered(s.run, s.ledger, At(s, d));
      AnswerStands(s, s1, At(s, d));
      if e.Work? && e.c == d && At(s, d).Loaded? { NoRowRejoins(At(s, d).req, At(s, d).g, e.deck); }
      if e.Save? && At(s, e.c).Ready? { if e.c == d { SavedAnswer(s, d); } else { SaveOthers(s, e.c, d); } }
      if e.Record? && At(s, e.c).Recording? {
        if e.c == d { RecordedAnswer(s, d, e.ledgerUp); } else { RecordOthers(s, e.c, d, e.ledgerUp); }
      }
    }
  }

  lemma SaveOthers(s: Sys, c: int, d: int)
    requires At(s, c).Ready? && d != c
    ensures At(SaveStep(s, c, At(s, c)), d) == At(s, d)
  {
    hide Grown;
  }

  lemma RecordOthers(s: Sys, c: int, d: int, ledgerUp: bool)
    requires At(s, c).Recording? && d != c
    ensures At(RecordStep(s, c, At(s, c), ledgerUp), d) == At(s, d)
  {
  }

  lemma {:induction false} AnswersAlways(h: History, at: nat)
    requires Possible(h) && at <= |h.events|
    ensures AnswerInv(h.states[at])
  {
    hide ProtocolInv, Enabled, Step, Answered;
    if at == 0 {
      NobodyAnswered(h.id, h.cfg);
    } else {
      AnswersAlways(h, at - 1);
      Reachable(h, at - 1);
      assert EventAt(h, at - 1);
      AnswersKept(h.states[at - 1], h.events[at - 1]);
    }
  }

  lemma NobodyAnswered(id: string, cfg: Config)
    ensures AnswerInv(Initial(id, cfg))
  {
  }

  /** A client that is answered with a game has committed: the game is a table of the run that an operation led
      to, and the ledger has that operation's row, unless it was a seated player coming back. */
  lemma RepliesCommitted(h: History, at: nat, c: int)
    requires Possible(h) && at <= |h.events|
    requires At(h.states[at], c).Releasing? && At(h.states[at], c).outcome.Replied?
    ensures var s, g := h.states[at], At(h.states[at], c).outcome.g;
            && Legal(s.run) && 2 <= g.version <= |s.run.tables| && g.version <= |s.run.ops| + 1
            && s.run.tables[g.version - 1].g == g && Inv(s.run.tables[g.version - 1])
            && ((s.run.ops[g.version - 2].JoinOp?
               && SeatOf(s.run.tables[g.version - 2].g.players, s.run.ops[g.version - 2].id) >= 0)
                || exists i :: 0 <= i < |s.ledger| && s.ledger[i].version == g.version
                               && s.ledger[i].player == s.run.ops[g.version - 2].id)
  {
    hide ProtocolInv, Inv;
    var s, g := h.states[at], At(h.states[at], c).outcome.g;
    AnswersAlways(h, at);
    assert Answered(s.run, s.ledger, At(s, c));
    Reachable(h, at);
    PartsOf(s, c);
    ReachableInv(s.run, g.version - 1);
    LedgerDiscipline(h, at);
    if Recorded(s.ledger, g.version) {
      var i :| 0 <= i < |s.ledger| && s.ledger[i].version == g.version;
      assert s.ledger[i].player == s.run.ops[g.version - 2].id;
    }
  }
}
