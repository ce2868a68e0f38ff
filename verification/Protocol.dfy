/** Many clients serving requests on one game at once (internal/service/game_service.go over
    internal/store/redis/redis.go). Each event is one atomic step of one client or of the store; the
    lock may expire and a client may stop between any two steps. */
module Protocol {
  import opened Cards
  import opened Decks
  import opened Wrappers
  import opened State
  import opened Invariants
  import opened Steps
  import opened Runs
  import opened GameStore
  import opened GameService

  datatype Client =
    | Idle
    | Queued(req: Request, token: Token, attempt: nat)
    | Holding(req: Request, token: Token)
    | Loaded(req: Request, token: Token, g: GameState)
    | Ready(req: Request, token: Token, read: GameState, op: Op, write: GameState, row: Option<Row>)
    | Recording(req: Request, token: Token, reply: GameState, row: Option<Row>)
    | Releasing(req: Request, token: Token, outcome: Outcome)

  /** `run` keeps the operations behind the stored state, in commit order, with the tables between
      them; `expired` remembers whether a lock ever timed out. */
  datatype Sys = Sys(store: Store, ledger: seq<Row>, used: set<Token>, clients: map<int, Client>, run: Run,
      expired: bool)

  datatype Event =
    | Create
    | Begin(c: int, req: Request, token: Token)
    | TryLock(c: int)
    | Expire
    | Load(c: int)
    | Work(c: int, deck: seq<Card>)
    | Save(c: int)
    | Record(c: int, ledgerUp: bool)
    | Release(c: int)
    | Fail(c: int)   // a store error after the lock was taken
    | Crash(c: int)

  function At(s: Sys, c: int): Client { if c in s.clients then s.clients[c] else Idle }

  function Put(s: Sys, c: int, k: Client): Sys { s.(clients := s.clients[c := k]) }

  function OpOf(req: Request, deck: seq<Card>): Op {
    match req
    case JoinRequest(id, name) => JoinOp(id, name, deck)
    case MoveRequest(id, m, _) => MoveOp(id, m, deck)
  }

  predicate Inside(k: Client) { !k.Idle? && !k.Queued? }

  function Step(s: Sys, e: Event): Sys {
    match e
    case Create => CreateStep(s)
    case Begin(c, req, token) => if At(s, c).Idle? then Put(s, c, Queued(req, token, 0)).(used := s.used + {token})
        else s
    case TryLock(c) => if At(s, c).Queued? then TryStep(s, c, At(s, c)) else s
    case Expire => if s.store.lock.Some? then s.(store := s.store.(lock := None), expired := true) else s
    case Load(c) => if At(s, c).Holding? then LoadStep(s, c, At(s, c)) else s
    case Work(c, deck) => if At(s, c).Loaded? then WorkStep(s, c, At(s, c), deck) else s
    case Save(c) => if At(s, c).Ready? then SaveStep(s, c, At(s, c)) else s
    case Record(c, ledgerUp) => if At(s, c).Recording? then RecordStep(s, c, At(s, c), ledgerUp) else s
    case Release(c) =>
      var k := At(s, c);
      if k.Releasing? then Put(s, c, Idle).(store := Unlocked(s.store, k.token)) else s
    case Fail(c) => if Inside(At(s, c)) then Put(s, c, Releasing(At(s, c).req, At(s, c).token, StoreFailed)) else s
    case Crash(c) => Put(s, c, Idle)
  }

  function CreateStep(s: Sys): Sys { s.(store := Saved(s.store, NewGame(s.run.id, s.run.cfg), 0)) }

  function TryStep(s: Sys, c: int, k: Client): Sys
    requires k.Queued?
  {
    if s.store.lock.None? then Put(s, c, Holding(k.req, k.token)).(store := Locked(s.store, k.token))
    else if k.attempt >= RETRIES then Put(s, c, Idle)
    else Put(s, c, k.(attempt := k.attempt + 1))
  }

  function LoadStep(s: Sys, c: int, k: Client): Sys
    requires k.Holding?
  {
    if s.store.state.None? then Put(s, c, Releasing(k.req, k.token, GameNotFound))
    else Put(s, c, Loaded(k.req, k.token, s.store.state.value))
  }

  function WorkStep(s: Sys, c: int, k: Client, deck: seq<Card>): Sys
    requires k.Loaded?
  {
    var d := Decide(k.req, k.g, deck);
    if d.Refuse? then Put(s, c, Releasing(k.req, k.token, d.outcome))
    else Put(s, c, Ready(k.req, k.token, k.g, OpOf(k.req, deck), d.g, d.row))
  }

  /** The run with one more operation, of which the resulting game is known. */
  function Grown(r: Run, op: Op, g: GameState): Run {
    if r.tables == [] then r
    else
      var t := r.tables[|r.tables| - 1];
      var pile := match op case JoinOp(_, _, _) => t.discards case MoveOp(id, m, _) => NextDiscards(t, id, m, g);
      r.(tables := r.tables + [Table(g, pile)], ops := r.ops + [op])
  }

  function SaveStep(s: Sys, c: int, k: Client): Sys
    requires k.Ready?
  {
    if Current(s.store, k.read.version) then
      Put(s, c, Recording(k.req, k.token, k.write, k.row)).(store := Saved(s.store, k.write, k.read.version),
          run := Grown(s.run, k.op, k.write))
    else Put(s, c, Releasing(k.req, k.token, StaleVersion))
  }

  function RecordStep(s: Sys, c: int, k: Client, ledgerUp: bool): Sys
    requires k.Recording?
  {
    if k.row.None? then Put(s, c, Releasing(k.req, k.token, Replied(k.reply)))
    else if !ledgerUp then Put(s, c, Releasing(k.req, k.token, LedgerFailed))
    else Put(s, c, Releasing(k.req, k.token, Replied(k.reply))).(ledger := s.ledger + [k.row.value])
  }

  /** Tokens are fresh, a shuffle yields a deal, and a match keeps its number of seats. */
  ghost predicate Enabled(s: Sys, e: Event) {
    && (e.Begin? ==> e.token !in s.used)
    && (e.Work? && At(s, e.c).Loaded? ==> Fair(At(s, e.c), e.deck))
  }

  ghost predicate Fair(k: Client, deck: seq<Card>)
    requires k.Loaded?
  {
    IsDeal(k.g.N(), deck) && (k.req.MoveRequest? ==> !Resizes(k.g, k.req.move))
  }

  // ----- runs of the protocol

  function Initial(id: string, cfg: Config): Sys { Sys(EMPTY, [], {}, map[], NewRun(id, cfg), false) }

  /** A run of the protocol: its states and the events between them. */
  datatype History = History(id: string, cfg: Config, states: seq<Sys>, events: seq<Event>)

  ghost predicate EventAt(h: History, k: int) {
    && 0 <= k < |h.events| && k + 1 < |h.states|
    && Enabled(h.states[k], h.events[k]) && h.states[k + 1] == Step(h.states[k], h.events[k])
  }

  ghost predicate Possible(h: History) {
    && Playable(h.cfg) && |h.states| == |h.events| + 1 && h.states[0] == Initial(h.id, h.cfg)
    && forall k :: 0 <= k < |h.events| ==> EventAt(h, k)
  }

  // ----- the invariant

  /** The stored game is the last table of a run of the engine, and the version counts its operations. */
  ghost predicate StoreInv(s: Sys) {
    && Legal(s.run)
    && (s.store.state.None? ==> s.store.version.None? && s.run.ops == [])
    && (s.store.state.Some? ==>
          && s.store.state.value == s.run.tables[|s.run.ops|].g
          && s.store.version == Some(s.store.state.value.version) && s.store.state.value.version == |s.run.ops| + 1)
  }

  /** A state somebody read: the table of the run that its version names. */
  ghost predicate Known(r: Run, g: GameState) { 1 <= g.version <= |r.tables| && r.tables[g.version - 1].g == g }

  /** The operation is allowed on the game and makes this of it, whatever was discarded before. */
  ghost predicate Makes(g: GameState, op: Op, after: GameState) {
    forall t: Table :: t.g == g ==> MakesAt(t, op, after)
  }

  ghost predicate MakesAt(t: Table, op: Op, after: GameState) { OpOk(t, op) && After(t, op).g == after }

  function Author(op: Op): string { op.id }

  ghost predicate RowOf(log: seq<Op>, r: Row) {
    r.clientVersion == r.version - 1 && 2 <= r.version <= |log| + 1 && Author(log[r.version - 2]) == r.player
  }

  ghost predicate ReadyInv(s: Sys, k: Client)
    requires k.Ready?
  {
    && Known(s.run, k.read) && Makes(k.read, k.op, k.write) && k.write.version == k.read.version + 1
    && (k.row.Some? ==> var r := k.row.value;
                        r.version == k.write.version && r.clientVersion == k.read.version && Author(k.op) == r.player)
  }

  ghost predicate ClientInv(s: Sys, k: Client) {
    && (!k.Idle? ==> k.token in s.used)
    && (k.Loaded? || k.Ready? || k.Recording? ==> s.store.state.Some?)
    && (k.Loaded? ==> Known(s.run, k.g))
    && (k.Ready? ==> ReadyInv(s, k))
    && (k.Recording? && k.row.Some? ==> RowOf(s.run.ops, k.row.value) && NoRow(s.ledger, k.row.value.version))
  }

  ghost predicate Clients(s: Sys) { forall c :: ClientInv(s, At(s, c)) }

  ghost predicate NoRow(ledger: seq<Row>, version: int) {
    forall i :: 0 <= i < |ledger| ==> ledger[i].version != version
  }

  ghost predicate LedgerInv(ledger: seq<Row>, log: seq<Op>) {
    && (forall i :: 0 <= i < |ledger| ==> RowOf(log, ledger[i]))
    && (forall i, j :: 0 <= i < j < |ledger| ==> ledger[i].version != ledger[j].version)
  }

  /** No two clients use one token or are about to record one version. */
  ghost predicate Apart(s: Sys) {
    forall c, d :: c != d ==> Disjoint(At(s, c), At(s, d))
  }

  predicate Disjoint(k: Client, l: Client) {
    && (!k.Idle? && !l.Idle? ==> k.token != l.token)
    && (k.Recording? && l.Recording? && k.row.Some? && l.row.Some? ==> k.row.value.version != l.row.value.version)
  }

  /** Until a lock first expires, whoever is past the lock still owns it. */
  ghost predicate LockInv(s: Sys) {
    && (s.store.lock.Some? ==> s.store.lock.value in s.used)
    && (!s.expired ==> forall c :: Inside(At(s, c)) ==> s.store.lock == Some(At(s, c).token))
  }

  ghost predicate ProtocolInv(s: Sys) {
    StoreInv(s) && Clients(s) && Apart(s) && LedgerInv(s.ledger, s.run.ops) && LockInv(s)
  }
}
