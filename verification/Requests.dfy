/** What a request becomes: the move its client asked for, on the version its client saw, under its client's name. */
module Requests {
  import opened Cards
  import opened Wrappers
  import opened State
  import opened Rules
  import opened Engine
  import opened Invariants
  import opened Runs
  import opened GameStore
  import opened GameService
  import opened Protocol
  import opened Interleaving
  import opened Serial
  import Answers
  import Objects = GameObject

  /** The operation is what the request asks for. */
  predicate Asks(req: Request, op: Op) {
    match req
    case JoinRequest(id, name) => op.JoinOp? && op.id == id && op.name == name
    case MoveRequest(id, m, _) => op.MoveOp? && op.id == id && op.move == m
  }

  /** A move was meant for the version before this game, and is recorded with the version its client sent. */
  predicate Honours(req: Request, after: GameState, row: Option<Row>) {
    match req
    case JoinRequest(id, _) =>
      row.Some? ==> row.value == Row(id, SeatOf(after.players, id), after.version, after.version - 1)
    case MoveRequest(id, _, clientVersion) =>
      && after.version == clientVersion + 1
      && row == Some(Row(id, SeatOf(after.players, id), clientVersion + 1, clientVersion))
  }

  ghost predicate Heeds(k: Client) {
    && (k.Ready? ==>
          && Asks(k.req, k.op) && k.write.version == k.read.version + 1 && Honours(k.req, k.write, k.row)
          && (k.row.None? <==> k.op.JoinOp? && SeatOf(k.read.players, k.op.id) >= 0))
    && (k.Recording? ==> Honours(k.req, k.reply, k.row))
  }

  lemma Newcomer(players: seq<Player>, p: Player)
    requires SeatOf(players, p.id) < 0
    ensures SeatOf(players + [p], p.id) == |players|
  {
    assert (players + [p])[..|players|] == players;
  }

  lemma SeatKept(players: seq<Player>, after: seq<Player>, id: string)
    requires |players| == |after| && forall i :: 0 <= i < |players| ==> after[i].id == players[i].id
    ensures SeatOf(after, id) == SeatOf(players, id)
  {
  }

  lemma SeatTaken(g: GameState, id: string, name: string, deck: seq<Card>)
    requires SeatOf(g.players, id) < 0 && |g.players| < g.N()
    ensures SeatOf(Join(g, id, name, deck).players, id) == |g.players|
  {
    var players := g.players + [NewPlayer(id, name, |g.players|)];
    Newcomer(g.players, NewPlayer(id, name, |g.players|));
    SeatKept(players, Join(g, id, name, deck).players, id);
  }

  lemma DecidedAsAsked(req: Request, g: GameState, token: Token, deck: seq<Card>)
    ensures var d := Decide(req, g, deck);
            d.Write? ==> Heeds(Ready(req, token, g, OpOf(req, deck), d.g, d.row))
  {
    hide ValidateMove, Performed, DealTo;
    if req.JoinRequest? && Tabled(g) && CanJoin(g, req.id) && SeatOf(g.players, req.id) < 0 {
      SeatTaken(g, req.id, req.name, deck);
    }
  }

  lemma HeedsKept(s: Sys, e: Event, c: int)
    requires Heeds(At(s, c))
    ensures Heeds(At(Step(s, e), c))
  {
    hide Decide, Asks, Honours, Grown;
    if e.Work? && e.c == c && At(s, c).Loaded? { DecidedAsAsked(At(s, c).req, At(s, c).g, At(s, c).token, e.deck); }
  }

  lemma NobodyThere(id: string, cfg: Config, c: int)
    ensures Heeds(At(Initial(id, cfg), c))
  {
  }

  lemma {:induction false} HeedsAlways(h: History, at: nat, c: int)
    requires Possible(h) && at <= |h.events|
    ensures Heeds(At(h.states[at], c))
  {
    hide Enabled, Step, Heeds;
    if at == 0 {
      NobodyThere(h.id, h.cfg, c);
    } else {
      HeedsAlways(h, at - 1, c);
      assert EventAt(h, at - 1);
      HeedsKept(h.states[at - 1], h.events[at - 1], c);
    }
  }

  /** A client serves the request it began with until it is idle again. */
  lemma RequestKept(s: Sys, e: Event, c: int)
    requires !At(s, c).Idle? && !At(Step(s, e), c).Idle?
    ensures At(Step(s, e), c).req == At(s, c).req && At(Step(s, e), c).token == At(s, c).token
  {
    hide Decide, Grown;
  }

  /** A committed move is the one requested, on the table whose version its client sent. */
  lemma MoveOnItsVersion(h: History, at: nat)
    requires Possible(h) && at < |h.events| && Commits(h.states[at], h.events[at])
    ensures var s, s1, k := h.states[at], h.states[at + 1], At(h.states[at], h.events[at].c);
            && |s1.run.ops| == |s.run.ops| + 1 && Asks(k.req, s1.run.ops[|s.run.ops|])
            && (k.req.MoveRequest? ==>
                  && s.store.version == Some(k.req.clientVersion) && s1.store.version == Some(k.req.clientVersion + 1)
                  && k.req.clientVersion == |s.run.ops| + 1 && |s.run.tables| == |s.run.ops| + 1
                  && s.store.state == Some(s.run.tables[|s.run.ops|].g)
                     && s.run.tables[|s.run.ops|].g.version == k.req.clientVersion)
  {
    hide Enabled, Step, ProtocolInv, Makes, OpOk, After;
    var s, k := h.states[at], At(h.states[at], h.events[at].c);
    assert EventAt(h, at);
    Reachable(h, at);
    PartsOf(s, h.events[at].c);
    VersionStep(s, h.events[at]);
    HeedsAlways(h, at, h.events[at].c);
    Serializable(h, at);
    Stored(s, h.events[at]);
  }

  lemma Stored(s: Sys, e: Event)
    requires Commits(s, e)
    ensures At(s, e.c).Ready?
    ensures s.store.version == Some(At(s, e.c).read.version) || (s.store.version.None? && At(s, e.c).read.version == 0)
  {
  }

  /** Two committed moves were sent for different versions. */
  lemma VersionsDiffer(h: History, i: nat, j: nat)
    requires Possible(h) && i < j < |h.events|
    requires Commits(h.states[i], h.events[i]) && Commits(h.states[j], h.events[j])
    requires At(h.states[i], h.events[i].c).req.MoveRequest? && At(h.states[j], h.events[j].c).req.MoveRequest?
    ensures At(h.states[i], h.events[i].c).req.clientVersion < At(h.states[j], h.events[j].c).req.clientVersion
  {
    hide Step, Enabled, ProtocolInv, Commits;
    MoveOnItsVersion(h, i);
    MoveOnItsVersion(h, j);
    LogOnlyGrows(h, i + 1, j);
  }

  // ----- refusals

  /** A client that has loaded the game is refused exactly for a version other than the one loaded, for an invalid
      move, or for want of a seat; nothing is stored or recorded by then. */
  lemma RefusedExactly(h: History, at: nat)
    requires Possible(h) && at < |h.events| && h.events[at].Work? && At(h.states[at], h.events[at].c).Loaded?
    ensures var s, s1, k := h.states[at], h.states[at + 1], At(h.states[at], h.events[at].c);
            var k1 := At(s1, h.events[at].c);
            && s1.store == s.store && s1.ledger == s.ledger && s1.run == s.run && Indexable(k.g)
            && (k1.Ready? || k1.Releasing?)
            && (k.req.MoveRequest? ==>
                  && (k.req.clientVersion != k.g.version ==> k1 == Releasing(k.req, k.token, StaleVersion))
                  && (k.req.clientVersion == k.g.version ==>
                        var v := ValidateMove(k.g, k.req.id, k.req.move);
                        (k1.Ready? <==> v.Accept?) && (v.Reject? ==> k1 == Releasing(k.req, k.token, Refused(v.why)))))
            && (k.req.JoinRequest? ==>
                  && (k1.Ready? <==> |k.g.players| < k.g.N()
                                     || exists i :: 0 <= i < |k.g.players| && k.g.players[i].id == k.req.id)
                  && (k1.Releasing? ==> k1 == Releasing(k.req, k.token, GameFull)))
  {
    hide Enabled, ProtocolInv, Inv, ValidateMove, Apply, Join, Objects.Sound;
    var s, k := h.states[at], At(h.states[at], h.events[at].c);
    assert EventAt(h, at);
    EveryReadIsReachable(h, at, h.events[at].c, h.events[at].deck);
  }

  // ----- the ledger

  /** The row was written for the request that event e committed. */
  ghost predicate Origin(h: History, e: int, at: int, row: Row) {
    && 0 <= e < at <= |h.events| && |h.states| == |h.events| + 1 && Commits(h.states[e], h.events[e])
    && var k := At(h.states[e], h.events[e].c); k.row == Some(row) && Honours(k.req, k.write, Some(row))
  }

  ghost predicate HasOrigin(h: History, at: int, row: Row) { exists e :: Origin(h, e, at, row) }

  ghost predicate RowsFit(h: History, at: nat) {
    && |h.states| == |h.events| + 1 && at <= |h.events|
    && (forall i :: 0 <= i < |h.states[at].ledger| ==> HasOrigin(h, at, h.states[at].ledger[i]))
    && (forall c :: PendingFits(h, at, At(h.states[at], c)))
  }

  ghost predicate PendingFits(h: History, at: nat, k: Client) {
    k.Recording? && k.row.Some? ==> HasOrigin(h, at, k.row.value)
  }

  lemma OriginLater(h: History, at: nat, row: Row)
    requires HasOrigin(h, at, row) && at < |h.events|
    ensures HasOrigin(h, at + 1, row)
  {
    hide Commits, Honours;
    var e :| Origin(h, e, at, row);
    assert Origin(h, e, at + 1, row);
  }

  lemma RowStep(s: Sys, e: Event, c: int)
    ensures var s1 := Step(s, e); var k1 := At(s1, c);
            && (k1.Recording? && k1 != At(s, c) ==> Commits(s, e) && e.c == c && k1.row == At(s, c).row)
            && (s1.ledger == s.ledger || (e.Record? && At(s, e.c).Recording? && At(s, e.c).row.Some?
                                         && s1.ledger == s.ledger + [At(s, e.c).row.value]))
  {
    hide Decide, Grown;
  }

  lemma PendingKept(h: History, at: nat, c: int)
    requires Possible(h) && at < |h.events| && RowsFit(h, at)
    ensures PendingFits(h, at + 1, At(h.states[at + 1], c))
  {
    hide Step, Enabled, Commits, Honours, HasOrigin;
    assert EventAt(h, at);
    var k, k1 := At(h.states[at], c), At(h.states[at + 1], c);
    RowStep(h.states[at], h.events[at], c);
    assert PendingFits(h, at, k);
    if k1.Recording? && k1.row.Some? {
      if k1 == k { OriginLater(h, at, k1.row.value); } else { Begun(h, at, k1.row.value); }
    }
  }

  lemma Begun(h: History, at: nat, row: Row)
    requires Possible(h) && at < |h.events| && Commits(h.states[at], h.events[at])
    requires At(h.states[at], h.events[at].c).row == Some(row)
    ensures HasOrigin(h, at + 1, row)
  {
    hide Step, Enabled, Honours;
    HeedsAlways(h, at, h.events[at].c);
    assert Origin(h, at, at + 1, row);
  }

  lemma {:induction false} RowsAlways(h: History, at: nat)
    requires Possible(h) && at <= |h.events|
    ensures RowsFit(h, at)
  {
    hide Step, Enabled, HasOrigin;
    if at > 0 {
      RowsAlways(h, at - 1);
      assert EventAt(h, at - 1);
      var s, s1, e := h.states[at - 1], h.states[at], h.events[at - 1];
      forall c ensures PendingFits(h, at, At(s1, c)) { PendingKept(h, at - 1, c); }
      forall i | 0 <= i < |s1.ledger| ensures HasOrigin(h, at, s1.ledger[i]) {
        RowStep(s, e, 0);
        if e.Record? { assert PendingFits(h, at - 1, At(s, e.c)); }
        OriginLater(h, at - 1, s1.ledger[i]);
      }
    }
  }

  /** Every ledger row was written for a request that committed: it has the player, that player's seat and the
      version of the game made, and of a move the version its client sent. */
  lemma RowsAreRequests(h: History, at: nat, i: int)
    requires Possible(h) && at <= |h.events| && 0 <= i < |h.states[at].ledger|
    ensures exists e ::
              && 0 <= e < at && Commits(h.states[e], h.events[e])
              && var k, row := At(h.states[e], h.events[e].c), h.states[at].ledger[i];
                 && row.player == k.req.id && row.seat == SeatOf(k.write.players, k.req.id)
                    && row.version == k.write.version
                 && row.clientVersion == if k.req.MoveRequest? then k.req.clientVersion else k.write.version - 1
  {
    hide Step, Enabled, Commits;
    RowsAlways(h, at);
    var row := h.states[at].ledger[i];
    assert HasOrigin(h, at, row);
    var e :| Origin(h, e, at, row);
    assert Commits(h.states[e], h.events[e]);
  }

  // ----- answers

  /** The operation that led to this game is the one the request asked for. */
  ghost predicate Theirs(ops: seq<Op>, req: Request, g: GameState) {
    && 2 <= g.version <= |ops| + 1 && Asks(req, ops[g.version - 2])
    && (req.MoveRequest? ==> g.version == req.clientVersion + 1)
  }

  ghost predicate ServedRight(ops: seq<Op>, k: Client) {
    && (k.Recording? ==> Theirs(ops, k.req, k.reply))
    && (k.Releasing? && k.outcome.Replied? ==> Theirs(ops, k.req, k.outcome.g))
  }

  lemma ServedKept(s: Sys, e: Event, c: int)
    requires ServedRight(s.run.ops, At(s, c)) && Heeds(At(s, c))
    requires ProtocolInv(s)
    ensures ServedRight(Step(s, e).run.ops, At(Step(s, e), c))
  {
    hide Decide, Grown, Asks, ProtocolInv;
    VersionStep(s, e);
    if e.Work? && At(s, e.c).Loaded? { Answers.NoRowRejoins(At(s, e.c).req, At(s, e.c).g, e.deck); }
  }

  lemma {:induction false} ServedAlways(h: History, at: nat, c: int)
    requires Possible(h) && at <= |h.events|
    ensures ServedRight(h.states[at].run.ops, At(h.states[at], c))
  {
    hide Enabled, Step, ProtocolInv, Heeds, Theirs;
    if at > 0 {
      ServedAlways(h, at - 1, c);
      HeedsAlways(h, at - 1, c);
      Reachable(h, at - 1);
      assert EventAt(h, at - 1);
      ServedKept(h.states[at - 1], h.events[at - 1], c);
    }
  }

  /** A client answered with a game gets the table that its own request led to. */
  lemma RepliesToRequest(h: History, at: nat, c: int)
    requires Possible(h) && at <= |h.events|
    requires At(h.states[at], c).Releasing? && At(h.states[at], c).outcome.Replied?
    ensures var r, req, g := h.states[at].run, At(h.states[at], c).req, At(h.states[at], c).outcome.g;
            && 2 <= g.version <= |r.ops| + 1 && |r.tables| == |r.ops| + 1 && g == r.tables[g.version - 1].g
            && Asks(req, r.ops[g.version - 2]) && (req.MoveRequest? ==> g.version == req.clientVersion + 1)
  {
    hide Asks, Step, Enabled;
    ServedAlways(h, at, c);
    Answers.RepliesCommitted(h, at, c);
  }

  /** Every answer has its reason: each outcome is reached by one kind of step, exactly in its case. */
  lemma WhyAnswered(h: History, at: nat, c: int)
    requires Possible(h) && at < |h.events|
    requires !At(h.states[at], c).Releasing? && At(h.states[at + 1], c).Releasing?
    ensures var s, k, e, o := h.states[at], At(h.states[at], c), h.events[at], At(h.states[at + 1], c).outcome;
            && (o.GameNotFound? <==> e == Load(c) && s.store.state.None?)
            && (o.StoreFailed? <==> e == Fail(c))
            && (o.LedgerFailed? <==> e == Record(c, false) && k.Recording? && k.row.Some?)
            && (o.Replied? <==> e.Record? && k.Recording? && (e.ledgerUp || k.row.None?))
            && (o.StaleVersion? <==>
                  || (e == Save(c) && k.Ready? && s.store.version != Some(k.read.version))
                  || (e.Work? && k.Loaded? && k.req.MoveRequest? && k.req.clientVersion != k.g.version))
            && (o.Refused? <==> e.Work? && k.Loaded? && k.req.MoveRequest? && k.req.clientVersion == k.g.version)
            && (o.GameFull? <==> e.Work? && k.Loaded? && k.req.JoinRequest?)
            && !o.GameBusy? && !o.Panicked?
  {
    hide Enabled, ProtocolInv, Inv, ValidateMove, Apply, Join, CanJoin, Grown, Objects.Sound;
    var s, e := h.states[at], h.events[at];
    assert EventAt(h, at);
    Reachable(h, at);
    StoredVersion(s, c);
    if e.Work? && At(s, e.c).Loaded? { EveryReadIsReachable(h, at, e.c, e.deck); }
  }

  lemma StoredVersion(s: Sys, c: int)
    requires ProtocolInv(s)
    ensures At(s, c).Ready? ==> s.store.version.Some?
  {
    hide LedgerInv, LockInv, Apart, Makes, Known, RowOf, NoRow, Legal;
    PartsOf(s, c);
  }

  // ----- creation and the lock

  /** The game is created once, as its configuration says. */
  lemma CreatedOnce(h: History, at: nat)
    requires Possible(h) && at < |h.events| && h.events[at].Create?
    ensures var s, s1 := h.states[at], h.states[at + 1];
            if s.store.state.None? then
              && s1.store.state == Some(NewGame(h.id, h.cfg)) && s1.store.version == Some(1)
              && s1.store.lock == s.store.lock
            else s1.store == s.store
  {
    hide Enabled, ProtocolInv, Inv, Objects.Sound;
    assert EventAt(h, at);
    Serializable(h, at);
  }

  ghost predicate Patient(k: Client) { k.Queued? ==> k.attempt <= 3 }

  lemma PatientKept(s: Sys, e: Event, c: int)
    requires Patient(At(s, c))
    ensures Patient(At(Step(s, e), c))
  {
    hide Decide, Grown;
  }

  lemma {:induction false} PatientAlways(h: History, at: nat, c: int)
    requires Possible(h) && at <= |h.events|
    ensures Patient(At(h.states[at], c))
  {
    hide Enabled, Step;
    if at > 0 {
      PatientAlways(h, at - 1, c);
      assert EventAt(h, at - 1);
      PatientKept(h.states[at - 1], h.events[at - 1], c);
    }
  }

  /** A client tries for the lock four times: it enters when it finds the lock free, and leaves after the fourth time
      that it does not. */
  lemma FourAttempts(h: History, at: nat, c: int)
    requires Possible(h) && at < |h.events| && h.events[at] == TryLock(c) && At(h.states[at], c).Queued?
    ensures var s, s1, k := h.states[at], h.states[at + 1], At(h.states[at], c);
            && 0 <= k.attempt <= 3 && s1.store.(lock := None) == s.store.(lock := None)
            && (if s.store.lock.None? then At(s1, c) == Holding(k.req, k.token) && s1.store.lock == Some(k.token)
                else
                  && s1.store.lock == s.store.lock
                  && At(s1, c) == if k.attempt == 3 then Idle else k.(attempt := k.attempt + 1))
  {
    hide Enabled;
    assert EventAt(h, at);
    PatientAlways(h, at, c);
  }
}
