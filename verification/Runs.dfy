/** Runs of one game: any sequence of joins and accepted moves from a new game. */
module Runs {
  import opened Cards
  import opened Decks
  import opened State
  import opened Engine
  import opened Invariants
  import opened Steps

  // Each operation carries the shuffled deck it would deal from.
  datatype Op = JoinOp(id: string, name: string, deck: seq<Card>) | MoveOp(id: string, move: Move, deck: seq<Card>)

  ghost predicate OpOk(t: Table, op: Op) {
    match op
    case JoinOp(id, name, deck) => CanJoin(t.g, id) && IsDeal(t.g.N(), deck)
    case MoveOp(id, m, deck) => MoveOk(t, id, m, deck)
  }

  ghost function After(t: Table, op: Op): Table
    requires OpOk(t, op)
  {
    match op
    case JoinOp(id, name, deck) => Table(Join(t.g, id, name, deck), t.discards)
    case MoveOp(id, m, deck) => Moved(t, id, m, deck)
  }

  function Opening(id: string, cfg: Config): Table { Table(NewGame(id, cfg), []) }

  /** The seat counts a game can be created with; 0 means five. */
  predicate Playable(cfg: Config) { cfg.numPlayers == 0 || cfg.numPlayers == 4 || cfg.numPlayers == 5 }

  /** A run of one game: its tables and the operations between them. */
  datatype Run = Run(id: string, cfg: Config, tables: seq<Table>, ops: seq<Op>)

  ghost predicate StepAt(r: Run, k: int) {
    0 <= k < |r.ops| && k + 1 < |r.tables| && OpOk(r.tables[k], r.ops[k])
        && r.tables[k + 1] == After(r.tables[k], r.ops[k])
  }

  /** Each table follows from the one before by an allowed operation, starting with a new game. */
  ghost predicate Legal(r: Run) {
    && Playable(r.cfg) && |r.tables| == |r.ops| + 1 && r.tables[0] == Opening(r.id, r.cfg)
    && forall k :: 0 <= k < |r.ops| ==> StepAt(r, k)
  }

  function NewRun(id: string, cfg: Config): Run { Run(id, cfg, [Opening(id, cfg)], []) }

  ghost function Then(r: Run, op: Op): Run
    requires |r.tables| == |r.ops| + 1 && OpOk(r.tables[|r.ops|], op)
  {
    r.(tables := r.tables + [After(r.tables[|r.ops|], op)], ops := r.ops + [op])
  }

  lemma ThenLegal(r: Run, op: Op)
    requires Legal(r) && OpOk(r.tables[|r.ops|], op)
    ensures Legal(Then(r, op))
  {
    hide OpOk, After;
    var r1 := Then(r, op);
    forall k | 0 <= k < |r1.ops| ensures StepAt(r1, k) {
      if k < |r.ops| { assert StepAt(r, k); }
    }
  }

  /** The operations determine the run: its tables are the fold of the operations over the opening. */
  lemma {:induction false} RunDetermined(r: Run, u: Run, k: nat)
    requires Legal(r) && Legal(u) && r.id == u.id && r.cfg == u.cfg && k <= |r.ops| && k <= |u.ops|
    requires forall i :: 0 <= i < k ==> r.ops[i] == u.ops[i]
    ensures r.tables[k] == u.tables[k]
  {
    hide OpOk, After;
    if k > 0 {
      RunDetermined(r, u, k - 1);
      assert StepAt(r, k - 1) && StepAt(u, k - 1);
    }
  }

  lemma OpeningInv(id: string, cfg: Config)
    requires Playable(cfg)
    ensures Inv(Opening(id, cfg))
  {
  }

  lemma OpKeepsInv(t: Table, op: Op)
    requires OpOk(t, op)
    requires Inv(t)
    ensures Inv(After(t, op))
  {
    hide Inv, Moved, Join, MoveOk, CanJoin;
    match op
    case JoinOp(id, name, deck) => JoinKeepsInv(t, id, name, deck);
    case MoveOp(id, m, deck) => MoveKeepsInv(t, id, m, deck);
  }

  /** Every table of every run satisfies the invariant. */
  lemma {:induction false} ReachableInv(r: Run, at: nat)
    requires Legal(r) && at <= |r.ops|
    ensures Inv(r.tables[at])
  {
    hide Inv, OpOk, After;
    if at == 0 {
      OpeningInv(r.id, r.cfg);
    } else {
      ReachableInv(r, at - 1);
      assert StepAt(r, at - 1);
      OpKeepsInv(r.tables[at - 1], r.ops[at - 1]);
    }
  }

  /** One step of a run. */
  lemma LegalStep(r: Run, k: nat)
    requires Legal(r) && k < |r.ops|
    ensures OpOk(r.tables[k], r.ops[k]) && r.tables[k + 1] == After(r.tables[k], r.ops[k])
    ensures Inv(r.tables[k])
  {
    hide Inv, OpOk, After;
    ReachableInv(r, k);
    assert StepAt(r, k);
  }
}
