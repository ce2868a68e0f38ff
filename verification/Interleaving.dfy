/** Every atomic step of every client keeps the invariant of the protocol. */
module Interleaving {
  import opened Cards
  import opened Decks
  import opened Wrappers
  import opened State
  import opened Rules
  import opened Engine
  import opened Invariants
  import opened Steps
  import opened Runs
  import opened GameStore
  import opened GameService
  import opened Protocol

  // ----- one step at a time

  lemma InitialInv(id: string, cfg: Config)
    requires Playable(cfg)
    ensures ProtocolInv(Initial(id, cfg))
  {
  }

  /** A step that moves one client and leaves the log and the ledger alone. */
  lemma Moves(s: Sys, s1: Sys, c: int)
    requires s1 == s.(store := s1.store, used := s1.used, clients := s.clients[c := At(s1, c)])
    requires s.used <= s1.used && s1.store.state == s.store.state && s1.store.version == s.store.version
    requires forall d :: d != c ==> Disjoint(At(s1, c), At(s, d))
    requires LockMoves(s, s1, c)
    requires ProtocolInv(s) && ClientInv(s1, At(s1, c))
    ensures ProtocolInv(s1)
  {
    hide OpOk, After, Makes, Known, LockInv, LockMoves, RowOf, NoRow, LedgerInv;
    LockKept(s, s1, c);
    forall d ensures ClientInv(s1, At(s1, d)) {
      assert ClientInv(s, At(s, d));
    }
    forall d, e | d != e ensures Disjoint(At(s1, d), At(s1, e)) {
      assert Disjoint(At(s, d), At(s, e));
      assert Disjoint(At(s, e), At(s, d));
    }
  }

  /** The lock is as the client that moves, and the others, need it. */
  ghost predicate LockMoves(s: Sys, s1: Sys, c: int) {
    && (s1.store.lock.Some? ==> s1.store.lock.value in s1.used)
    && (!s.expired && Inside(At(s1, c)) ==> s1.store.lock == Some(At(s1, c).token))
    && (forall d :: d != c && !s.expired && Inside(At(s, d)) ==> s1.store.lock == Some(At(s, d).token))
  }

  lemma LockKept(s: Sys, s1: Sys, c: int)
    requires LockInv(s) && LockMoves(s, s1, c) && s1.clients == s.clients[c := At(s1, c)] && s1.expired == s.expired
    ensures LockInv(s1)
  {
    forall d | Inside(At(s1, d)) && !s1.expired ensures s1.store.lock == Some(At(s1, d).token) {
      assert d != c ==> At(s1, d) == At(s, d);
    }
  }

  lemma KnownGrows(r: Run, op: Op, g: GameState, after: GameState)
    requires Known(r, g)
    ensures Known(Grown(r, op, after), g)
  {
    hide NextDiscards;
  }

  lemma KnownInv(r: Run, g: GameState)
    requires Legal(r) && Known(r, g)
    ensures exists t: Table :: t.g == g && Inv(t)
    ensures Tabled(g) && Seated(g.players)
  {
    hide Inv;
    var t := r.tables[g.version - 1];
    ReachableInv(r, g.version - 1);
    InvIndexable(t);
    BaseOf(t);
  }

  /** What an operation does to the game depends on the game alone. */
  lemma SameGame(t: Table, u: Table, op: Op)
    requires t.g == u.g
    ensures OpOk(t, op) <==> OpOk(u, op)
    ensures OpOk(t, op) ==> After(u, op).g == After(t, op).g
  {
    hide ValidateMove, Apply, Join, NextDiscards;
  }

  /** What the client computes is the operation of the sequential engine. */
  lemma Decided(req: Request, g: GameState, deck: seq<Card>)
    requires IsDeal(g.N(), deck) && (req.MoveRequest? ==> !Resizes(g, req.move))
    ensures var d, op := Decide(req, g, deck), OpOf(req, deck);
            d.Write? ==>
            && Makes(g, op, d.g) && d.g.version == g.version + 1
            && (d.row.Some? ==> d.row.value.version == d.g.version && d.row.value.clientVersion == g.version
                                && d.row.value.player == Author(op))
  {
    hide ValidateMove, Performed, NextDiscards, DealTo;
    var d, op := Decide(req, g, deck), OpOf(req, deck);
    if d.Write? {
      var t0 := Table(g, []);
      assert OpOk(t0, op) && After(t0, op).g == d.g;
      forall t: Table | t.g == g ensures MakesAt(t, op, d.g) { SameGame(t0, t, op); }
    }
  }

  /** A save over the state that was read adds one operation to the run. */
  lemma Committed(s: Sys, k: Client)
    requires k.Ready? && StoreInv(s) && s.store.state.Some? && ReadyInv(s, k) && Current(s.store, k.read.version)
    ensures k.read == s.store.state.value && |s.run.tables| == |s.run.ops| + 1
    ensures OpOk(s.run.tables[|s.run.ops|], k.op) && After(s.run.tables[|s.run.ops|], k.op).g == k.write
    ensures Grown(s.run, k.op, k.write) == Then(s.run, k.op) && Legal(Grown(s.run, k.op, k.write))
  {
    hide OpOk, After, Grown;
    var t := s.run.tables[|s.run.ops|];
    assert MakesAt(t, k.op, k.write);
    GrownIsThen(s.run, k.op, k.write);
    ThenLegal(s.run, k.op);
  }

  lemma GrownIsThen(r: Run, op: Op, g: GameState)
    requires |r.tables| == |r.ops| + 1
    ensures OpOk(r.tables[|r.ops|], op) && After(r.tables[|r.ops|], op).g == g ==> Grown(r, op, g) == Then(r, op)
  {
    hide NextDiscards, Apply, Join, ValidateMove;
  }

  lemma SaveKeeps(s: Sys, c: int)
    requires ProtocolInv(s) && At(s, c).Ready?
    ensures ProtocolInv(SaveStep(s, c, At(s, c)))
  {
    hide OpOk, After, Makes, Known, RowOf, LedgerInv, NoRow;
    var k, s1 := At(s, c), SaveStep(s, c, At(s, c));
    assert ClientInv(s, k);
    if Current(s.store, k.read.version) {
      Committed(s, k);
      forall d ensures ClientInv(s1, At(s1, d)) {
        assert ClientInv(s, At(s, d));
        ClientGrows(s, s1, At(s, d), k.op, k.write);
        if d == c { RowCommitted(s, k); }
      }
      forall d, e | d != e ensures Disjoint(At(s1, d), At(s1, e)) {
        assert Disjoint(At(s, d), At(s, e));
        assert ClientInv(s, At(s, d)) && ClientInv(s, At(s, e));
        PendingOld(s, At(s, d));
        PendingOld(s, At(s, e));
      }
      LedgerGrows(s.ledger, s.run.ops, k.op);
      LockKept(s, s1, c);
    } else {
      assert ClientInv(s1, At(s1, c));
      Moves(s, s1, c);
    }
  }

  lemma PendingOld(s: Sys, k: Client)
    requires ClientInv(s, k)
    ensures k.Recording? && k.row.Some? ==> k.row.value.version <= |s.run.ops| + 1
  {
    hide Known, ReadyInv;
  }

  lemma RowCommitted(s: Sys, k: Client)
    requires k.Ready? && ReadyInv(s, k) && LedgerInv(s.ledger, s.run.ops) && k.read.version == |s.run.ops| + 1
    ensures k.row.Some? ==> RowOf(s.run.ops + [k.op], k.row.value) && NoRow(s.ledger, k.row.value.version)
  {
    hide OpOk, After, Makes, Known;
  }

  lemma LedgerGrows(ledger: seq<Row>, log: seq<Op>, op: Op)
    requires LedgerInv(ledger, log)
    ensures LedgerInv(ledger, log + [op])
  {
  }

  /** What the others know stays true when the log grows. */
  lemma ClientGrows(s: Sys, s1: Sys, k: Client, op: Op, after: GameState)
    requires s1 == s.(store := s1.store, clients := s1.clients, run := Grown(s.run, op, after)) && s1.store.state.Some?
    requires s.run.tables != [] && ClientInv(s, k)
    ensures ClientInv(s1, k)
  {
    hide OpOk, After, Makes, Known;
    if k.Loaded? { KnownGrows(s.run, op, k.g, after); }
    if k.Ready? { KnownGrows(s.run, op, k.read, after); }
  }

  lemma RecordKeeps(s: Sys, c: int, ledgerUp: bool)
    requires ProtocolInv(s) && At(s, c).Recording?
    ensures ProtocolInv(RecordStep(s, c, At(s, c), ledgerUp))
  {
    hide OpOk, After, Makes, Known, RowOf, StoreInv, ReadyInv;
    var k, s1 := At(s, c), RecordStep(s, c, At(s, c), ledgerUp);
    assert ClientInv(s, k);
    if k.row.Some? && ledgerUp {
      LedgerRecorded(s.ledger, s.run.ops, k.row.value);
      forall d ensures ClientInv(s1, At(s1, d)) {
        assert ClientInv(s, At(s, d));
        assert d != c ==> Disjoint(k, At(s, d));
        SameRun(s, s1, At(s, d));
      }
      forall d, e | d != e ensures Disjoint(At(s1, d), At(s1, e)) {
        assert Disjoint(At(s, d), At(s, e));
      }
      SameRun(s, s1, k);
      LockKept(s, s1, c);
    } else {
      assert ClientInv(s1, At(s1, c));
      Moves(s, s1, c);
    }
  }

  lemma LedgerRecorded(ledger: seq<Row>, log: seq<Op>, r: Row)
    requires LedgerInv(ledger, log) && RowOf(log, r) && NoRow(ledger, r.version)
    ensures LedgerInv(ledger + [r], log)
    ensures forall v :: NoRow(ledger, v) && v != r.version ==> NoRow(ledger + [r], v)
  {
  }

  lemma SameRun(s: Sys, s1: Sys, k: Client)
    requires s1.run == s.run && s1.store == s.store
    ensures StoreInv(s) ==> StoreInv(s1)
    ensures k.Ready? && ReadyInv(s, k) ==> ReadyInv(s1, k)
  {
    hide Known, OpOk, After, Makes;
  }

  lemma WorkKeeps(s: Sys, c: int, deck: seq<Card>)
    requires At(s, c).Loaded? && Fair(At(s, c), deck)
    requires ProtocolInv(s)
    ensures ProtocolInv(WorkStep(s, c, At(s, c), deck))
  {
    hide Known, Decide, OpOk, After, Makes, IsDeal, Resizes, StoreInv, LedgerInv, NoRow, RowOf;
    var k, s1 := At(s, c), WorkStep(s, c, At(s, c), deck);
    assert ClientInv(s, k);
    Decided(k.req, k.g, deck);
    Works(s, s1, c);
  }

  lemma Works(s: Sys, s1: Sys, c: int)
    requires s1 == s.(clients := s.clients[c := At(s1, c)])
    requires Inside(At(s, c)) && Inside(At(s1, c)) && At(s1, c).token == At(s, c).token && !At(s1, c).Recording?
    requires ProtocolInv(s) && ClientInv(s1, At(s1, c))
    ensures ProtocolInv(s1)
  {
    hide Known, OpOk, After, Makes, StoreInv, LedgerInv, NoRow, RowOf, ClientInv;
    forall d | d != c ensures Disjoint(At(s1, c), At(s, d)) { assert Disjoint(At(s, c), At(s, d)); }
    Moves(s, s1, c);
  }

  lemma LoadKeeps(s: Sys, c: int)
    requires ProtocolInv(s) && At(s, c).Holding?
    ensures ProtocolInv(LoadStep(s, c, At(s, c)))
  {
    hide OpOk, After, Makes, LedgerInv, NoRow, RowOf, ReadyInv;
    assert ClientInv(s, At(s, c));
    Works(s, LoadStep(s, c, At(s, c)), c);
  }

  lemma TryKeeps(s: Sys, c: int)
    requires ProtocolInv(s) && At(s, c).Queued?
    ensures ProtocolInv(TryStep(s, c, At(s, c)))
  {
    hide OpOk, After, Makes, Known, LedgerInv, NoRow, RowOf, ReadyInv, StoreInv;
    var s1 := TryStep(s, c, At(s, c));
    assert ClientInv(s, At(s, c));
    forall d | d != c ensures Disjoint(At(s1, c), At(s, d)) { assert Disjoint(At(s, c), At(s, d)); }
    Moves(s, s1, c);
  }

  lemma CreateKeeps(s: Sys)
    requires ProtocolInv(s)
    ensures ProtocolInv(CreateStep(s))
  {
    hide OpOk, After, Makes, Known, LedgerInv, NoRow, RowOf, ReadyInv;
    var s1 := CreateStep(s);
    assert forall d :: At(s1, d) == At(s, d);
    if Current(s.store, 0) {
      forall d ensures ClientInv(s1, At(s1, d)) { assert ClientInv(s, At(s, d)); }
      forall d, e | d != e ensures Disjoint(At(s1, d), At(s1, e)) { assert Disjoint(At(s, d), At(s, e)); }
    }
  }

  /** Every step of every client keeps the invariant. */
  lemma StepKeeps(s: Sys, e: Event)
    requires Enabled(s, e)
    requires ProtocolInv(s)
    ensures ProtocolInv(Step(s, e))
  {
    hide ProtocolInv, CreateStep, TryStep, LoadStep, WorkStep, SaveStep, RecordStep, Fair;
    match e
    case Create => CreateKeeps(s);
    case Begin(c, req, token) => BeginKeeps(s, c, req, token);
    case TryLock(c) => if At(s, c).Queued? { TryKeeps(s, c); }
    case Expire => ExpireKeeps(s);
    case Load(c) => if At(s, c).Holding? { LoadKeeps(s, c); }
    case Work(c, deck) => if At(s, c).Loaded? { WorkKeeps(s, c, deck); }
    case Save(c) => if At(s, c).Ready? { SaveKeeps(s, c); }
    case Record(c, ledgerUp) => if At(s, c).Recording? { RecordKeeps(s, c, ledgerUp); }
    case Release(c) => LeaveKeeps(s, c, e);
    case Fail(c) => LeaveKeeps(s, c, e);
    case Crash(c) => LeaveKeeps(s, c, e);
  }

  lemma BeginKeeps(s: Sys, c: int, req: Request, token: Token)
    requires token !in s.used
    requires ProtocolInv(s)
    ensures ProtocolInv(Step(s, Begin(c, req, token)))
  {
    hide OpOk, After, Makes, Known, LedgerInv, NoRow, RowOf, ReadyInv, StoreInv;
    if At(s, c).Idle? {
      var s1 := Step(s, Begin(c, req, token));
      forall d | d != c ensures Disjoint(At(s1, c), At(s, d)) { assert ClientInv(s, At(s, d)); }
      Moves(s, s1, c);
    }
  }

  lemma ExpireKeeps(s: Sys)
    requires ProtocolInv(s)
    ensures ProtocolInv(Step(s, Expire))
  {
    hide OpOk, After, Makes, Known, LedgerInv, NoRow, RowOf;
    var s1 := Step(s, Expire);
    assert forall d :: At(s1, d) == At(s, d);
    forall d ensures ClientInv(s1, At(s1, d)) { assert ClientInv(s, At(s, d)); }
    forall d, e | d != e ensures Disjoint(At(s1, d), At(s1, e)) { assert Disjoint(At(s, d), At(s, e)); }
  }

  lemma LeaveKeeps(s: Sys, c: int, e: Event)
    requires e == Release(c) || e == Fail(c) || e == Crash(c)
    requires ProtocolInv(s)
    ensures ProtocolInv(Step(s, e))
  {
    hide OpOk, After, Makes, Known, LedgerInv, NoRow, RowOf, ReadyInv, StoreInv;
    var s1 := Step(s, e);
    assert ClientInv(s, At(s, c));
    if s1 != s {
      forall d | d != c ensures Disjoint(At(s1, c), At(s, d)) { assert Disjoint(At(s, c), At(s, d)); }
      forall d | d != c && !s.expired && Inside(At(s, d)) ensures s1.store.lock == Some(At(s, d).token) {
        assert Disjoint(At(s, c), At(s, d));
      }
      Moves(s, s1, c);
    }
  }

  lemma {:induction false} Reachable(h: History, at: nat)
    requires Possible(h) && at <= |h.events|
    ensures ProtocolInv(h.states[at]) && h.states[at].run.id == h.id && h.states[at].run.cfg == h.cfg
  {
    hide ProtocolInv, Enabled, Step;
    if at == 0 {
      InitialInv(h.id, h.cfg);
    } else {
      Reachable(h, at - 1);
      assert EventAt(h, at - 1);
      StepKeeps(h.states[at - 1], h.events[at - 1]);
      SameTitle(h.states[at - 1], h.events[at - 1]);
    }
  }

  lemma SameTitle(s: Sys, e: Event)
    ensures Step(s, e).run.id == s.run.id && Step(s, e).run.cfg == s.run.cfg
  {
    hide Decide, NextDiscards;
  }
}
