/** The requests of internal/service/game_service.go, as one uninterrupted call. */
module GameService {
  import opened Cards
  import opened Wrappers
  import opened State
  import opened Rules
  import opened Engine
  import opened GameStore
  import Objects = GameObject

  datatype Request = JoinRequest(id: string, name: string) | MoveRequest(id: string, move: Move, clientVersion: int)

  // A row of the move ledger.
  datatype Row = Row(player: string, seat: int, version: int, clientVersion: int)

  datatype Outcome =
    | Replied(g: GameState) | GameBusy | GameNotFound | GameFull | StaleVersion | Refused(why: Reason)
    | LedgerFailed | StoreFailed | Panicked

  datatype Decision = Refuse(outcome: Outcome) | Write(g: GameState, row: Option<Row>)

  /** What the engine may index with. */
  predicate Tabled(g: GameState) { Indexable(g) && |g.players| <= g.N() }

  /** What a request makes of the state it loaded. Rejoining writes no ledger row. */
  function Decide(req: Request, g: GameState, deck: seq<Card>): Decision {
    if !Tabled(g) then Refuse(Panicked)
    else
      match req
      case JoinRequest(id, name) =>
        if !CanJoin(g, id) then Refuse(GameFull)
        else
          var g1 := Join(g, id, name, deck);
          Write(g1, if SeatOf(g.players, id) >= 0 then None else Some(Row(id, |g.players|, g1.version, g1.version - 1)))
      case MoveRequest(id, m, clientVersion) =>
        if clientVersion != g.version then Refuse(StaleVersion)
        else
          var v := ValidateMove(g, id, m);
          if v.Reject? then Refuse(Refused(v.why))
          else
            var g1 := Apply(g, id, m, deck);
            Write(g1, Some(Row(id, SeatOf(g1.players, id), g1.version, clientVersion)))
  }

  lemma JoinVersion(g: GameState, id: string, name: string, deck: seq<Card>)
    ensures CanJoin(g, id) ==> Join(g, id, name, deck).version == g.version + 1
  {
    hide DealTo;
  }

  lemma MoveVersion(g: GameState, id: string, m: Move, deck: seq<Card>)
    requires Tabled(g)
    ensures ValidateMove(g, id, m).Accept? ==> Apply(g, id, m, deck).version == g.version + 1
  {
    hide ValidateMove, Performed;
  }

  datatype Served = Served(store: Store, ledger: seq<Row>, outcome: Outcome)

  /** A whole request without interference: lock, load, decide, save, record, release. */
  function Serve(st: Store, ledger: seq<Row>, req: Request, deck: seq<Card>, ledgerUp: bool): Served {
    if st.lock.Some? then Served(st, ledger, GameBusy)
    else if st.state.None? then Served(st, ledger, GameNotFound)
    else
      var g := st.state.value;
      var d := Decide(req, g, deck);
      if d.Refuse? then Served(st, ledger, d.outcome)
      else if !Current(st, g.version) then Served(st, ledger, StaleVersion)
      else
        var st1 := Saved(st, d.g, g.version);
        if d.row.None? then Served(st1, ledger, Replied(d.g))
        else if !ledgerUp then Served(st1, ledger, LedgerFailed)
        else Served(st1, ledger + [d.row.value], Replied(d.g))
  }

  class Service {
    const store: RedisStore
    var games: seq<string>  // the games recorded in the database
    var ledger: seq<Row>

    constructor (store: RedisStore)
      ensures this.store == store && games == [] && ledger == []
    {
      this.store, games, ledger := store, [], [];
    }

    /** Records the game in the database first; if that fails nothing is stored. */
    method CreateGame(id: string, cfg: Config, ledgerUp: bool) returns (g: GameState, ok: bool)
      modifies this`games, store
      ensures g == NewGame(id, cfg) && ok == (ledgerUp && Current(old(store.Abs()), 0))
      ensures store.Abs() == if ledgerUp then Saved(old(store.Abs()), g, 0) else old(store.Abs())
      ensures games == old(games) + (if ledgerUp then [id] else [])
    {
      var game := new Objects.Game.NewWithConfig(id, cfg);
      g := game.Snapshot();
      if !ledgerUp { return g, false; }
      games := games + [id];
      ok := store.SaveGame(g, 0);
    }

    /** The lock is free or stays taken through all retries. */
    method Enter(token: Token) returns (ok: bool)
      modifies store`lock
      ensures ok == old(store.lock).None?
      ensures store.Abs() == Locked(old(store.Abs()), token)
    {
      var seen := Sees(store.lock);
      var r := store.AcquireLock(token, [seen, seen, seen, seen], [false, false, false]);
      ok := r.Got?;
    }

    method JoinGame(id: string, name: string, token: Token, deck: seq<Card>, ledgerUp: bool) returns (outcome: Outcome)
      requires store.state.Some? ==> Objects.Sound(store.state.value) && Tabled(store.state.value)
      modifies this`ledger, store
      ensures Served(store.Abs(), ledger, outcome)
              == Serve(old(store.Abs()), old(ledger), JoinRequest(id, name), deck, ledgerUp)
      ensures old(store.lock).Some? ==> outcome == GameBusy
      ensures old(store.lock).None? && old(store.state).None? ==> outcome == GameNotFound
      ensures old(store.lock).None? && old(store.state).Some? ==>
                var g, current := old(store.state).value, Current(old(store.Abs()), old(store.state).value.version);
                && (!CanJoin(g, id) ==> outcome == GameFull)
                && (CanJoin(g, id) && !current ==> outcome == StaleVersion)
                && (CanJoin(g, id) && current ==>
                      outcome == if SeatOf(g.players, id) < 0 && !ledgerUp then LedgerFailed
                                 else Replied(store.state.value))
      ensures outcome.Replied? || outcome.LedgerFailed? ==>
                && old(store.state).Some? && CanJoin(old(store.state).value, id)
                && store.state == Some(Join(old(store.state).value, id, name, deck))
                && store.version == Some(old(store.state).value.version + 1) && store.lock == old(store.lock)
      ensures !outcome.Replied? && !outcome.LedgerFailed? ==> store.Abs() == old(store.Abs())
      ensures if outcome.Replied? && SeatOf(old(store.state).value.players, id) < 0 then
                var g := old(store.state).value;
                ledger == old(ledger) + [Row(id, |g.players|, g.version + 1, g.version)]
              else ledger == old(ledger)
    {
      hide Objects.Sound, Tabled, Join, CanJoin;
      var entered := Enter(token);
      if !entered { return GameBusy; }
      var loaded := store.LoadGame();
      if loaded.None? {
        store.ReleaseLock(token);
        return GameNotFound;
      }
      JoinVersion(loaded.value, id, name, deck);
      var d := DecideJoin(loaded.value, id, name, deck);
      outcome := Commit(loaded.value.version, d, ledgerUp);
      store.ReleaseLock(token);
    }

    method ProcessMove(id: string, m: Move, clientVersion: int, token: Token, deck: seq<Card>,
        ledgerUp: bool) returns (outcome: Outcome)
      requires store.state.Some? ==> Objects.Sound(store.state.value) && Tabled(store.state.value)
      modifies this`ledger, store
      ensures Served(store.Abs(), ledger, outcome)
              == Serve(old(store.Abs()), old(ledger), MoveRequest(id, m, clientVersion), deck, ledgerUp)
      ensures old(store.lock).Some? ==> outcome == GameBusy
      ensures old(store.lock).None? && old(store.state).None? ==> outcome == GameNotFound
      ensures old(store.lock).None? && old(store.state).Some? && clientVersion != old(store.state).value.version ==>
                outcome == StaleVersion
      ensures old(store.lock).None? && old(store.state).Some? && clientVersion == old(store.state).value.version ==>
                var v, current := ValidateMove(old(store.state).value, id, m), Current(old(store.Abs()), clientVersion);
                && (v.Reject? ==> outcome == Refused(v.why))
                && (v.Accept? && !current ==> outcome == StaleVersion)
                && (v.Accept? && current ==> outcome == if ledgerUp then Replied(store.state.value) else LedgerFailed)
      ensures outcome.Replied? || outcome.LedgerFailed? ==>
                && old(store.state).Some? && ValidateMove(old(store.state).value, id, m).Accept?
                && store.state == Some(Apply(old(store.state).value, id, m, deck))
                   && store.version == Some(clientVersion + 1)
                && store.lock == old(store.lock)
      ensures !outcome.Replied? && !outcome.LedgerFailed? ==> store.Abs() == old(store.Abs())
      ensures if outcome.Replied? then
                && store.state.Some?
                && ledger == old(ledger)
                             + [Row(id, SeatOf(store.state.value.players, id), clientVersion + 1, clientVersion)]
              else ledger == old(ledger)
    {
      hide Objects.Sound, Tabled, ValidateMove, Apply;
      var entered := Enter(token);
      if !entered { return GameBusy; }
      var loaded := store.LoadGame();
      if loaded.None? {
        store.ReleaseLock(token);
        return GameNotFound;
      }
      MoveVersion(loaded.value, id, m, deck);
      var d := DecideMove(loaded.value, id, m, clientVersion, deck);
      outcome := Commit(loaded.value.version, d, ledgerUp);
      store.ReleaseLock(token);
    }

    method Commit(expected: int, d: Decision, ledgerUp: bool) returns (outcome: Outcome)
      modifies this`ledger, store`state, store`version
      ensures store.Abs() == if d.Write? then Saved(old(store.Abs()), d.g, expected) else old(store.Abs())
      ensures d.Refuse? ==> outcome == d.outcome && ledger == old(ledger)
      ensures d.Write? && !Current(old(store.Abs()), expected) ==> outcome == StaleVersion && ledger == old(ledger)
      ensures d.Write? && Current(old(store.Abs()), expected) ==>
                && outcome == (if d.row.Some? && !ledgerUp then LedgerFailed else Replied(d.g))
                && ledger == old(ledger) + (if d.row.Some? && ledgerUp then [d.row.value] else [])
    {
      if d.Refuse? { return d.outcome; }
      var saved := store.SaveGame(d.g, expected);
      if !saved { return StaleVersion; }
      if d.row.Some? {
        if !ledgerUp { return LedgerFailed; }
        ledger := ledger + [d.row.value];
      }
      outcome := Replied(d.g);
    }
  }

  method DecideJoin(g: GameState, id: string, name: string, deck: seq<Card>) returns (d: Decision)
    requires Objects.Sound(g) && Tabled(g)
    ensures d == Decide(JoinRequest(id, name), g, deck)
  {
    hide Join, Objects.Sound, Tabled;
    Objects.SoundSeats(g);
    var game := new Objects.Game.FromState(g);
    var known := game.GetPlayer(id);
    var ok := game.Join(id, name, deck);
    if !ok { return Refuse(GameFull); }
    var g1 := game.Snapshot();
    d := Write(g1, if known.Some? then None else Some(Row(id, |g.players|, g1.version, g1.version - 1)));
  }

  method DecideMove(g: GameState, id: string, m: Move, clientVersion: int, deck: seq<Card>) returns (d: Decision)
    requires Objects.Sound(g) && Tabled(g)
    ensures d == Decide(MoveRequest(id, m, clientVersion), g, deck)
  {
    hide ValidateMove, Apply;
    if clientVersion != g.version { return Refuse(StaleVersion); }
    var game := new Objects.Game.FromState(g);
    var v := game.Validate(id, m);
    if v.Reject? { return Refuse(Refused(v.why)); }
    game.ApplyMove(id, m, deck);
    var g1 := game.Snapshot();
    d := Write(g1, Some(Row(id, SeatOf(g1.players, id), g1.version, clientVersion)));
  }
}
