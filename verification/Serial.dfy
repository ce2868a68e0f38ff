/** What the clients of the store can rely on, over every run of the protocol. */
module Serial {
  import opened Cards
  import opened Wrappers
  import opened State
  import opened Rules
  import opened Engine
  import opened Invariants
  import opened Steps
  import opened Runs
  import opened GameStore
  import opened GameService
  import opened Protocol
  import opened Interleaving
  import Objects = GameObject

  // ----- serializability

  /** However joins and moves interleave and locks expire, the stored game is the last table of the run
      that the committed operations make in commit order, and so a game the engine can reach. */
  lemma Serializable(h: History, at: nat)
    requires Possible(h) && at <= |h.events|
    ensures var s := h.states[at];
            && Legal(s.run) && s.run.id == h.id && s.run.cfg == h.cfg
            && (s.store.state.None? ==> s.store.version.None? && s.run.ops == [])
            && (s.store.state.Some? ==>
                  var t := s.run.tables[|s.run.ops|];
                  && s.store.state == Some(t.g) && Inv(t) && t.g.version == |s.run.ops| + 1
                     && s.store.version == Some(t.g.version)
                  && Objects.Sound(t.g) && Tabled(t.g))
  {
    hide Inv, ProtocolInv, Objects.Sound;
    Reachable(h, at);
    PartsOf(h.states[at], 0);
    var r := h.states[at].run;
    ReachableInv(r, |r.ops|);
    Objects.InvIsSound(r.tables[|r.ops|]);
    InvIndexable(r.tables[|r.ops|]);
    BaseOf(r.tables[|r.ops|]);
  }

  lemma PartsOf(s: Sys, c: int)
    requires ProtocolInv(s)
    ensures StoreInv(s) && LedgerInv(s.ledger, s.run.ops) && LockInv(s) && Apart(s) && ClientInv(s, At(s, c))
  {
  }

  /** A save succeeds only over the state it read, and stores what the sequential engine makes of it. */
  lemma CommitReadsPredecessor(h: History, at: nat, c: int)
    requires Possible(h) && at <= |h.events| && Commits(h.states[at], Save(c))
    ensures var s := h.states[at];
            var k, s1 := At(s, c), Step(s, Save(c));
            && |s.run.tables| == |s.run.ops| + 1 && s.store.state == Some(k.read)
               && k.read == s.run.tables[|s.run.ops|].g
            && OpOk(s.run.tables[|s.run.ops|], k.op) && s1.run == Then(s.run, k.op)
            && s1.store.state == Some(After(s.run.tables[|s.run.ops|], k.op).g)
               && s1.store.version == Some(k.read.version + 1)
  {
    hide OpOk, After, ProtocolInv, ClientInv, Grown;
    var s := h.states[at];
    Reachable(h, at);
    PartsOf(s, c);
    ReadyOf(s, At(s, c));
    Committed(s, At(s, c));
  }

  lemma ReadyOf(s: Sys, k: Client)
    requires k.Ready? && ClientInv(s, k)
    ensures ReadyInv(s, k) && s.store.state.Some? && k.write.version == k.read.version + 1
  {
    hide Makes, Known;
  }

  /** Whatever a client has in hand, it is a game the engine can reach, so no request indexes out of range. */
  lemma EveryReadIsReachable(h: History, at: nat, c: int, deck: seq<Card>)
    requires Possible(h) && at <= |h.events| && At(h.states[at], c).Loaded?
    ensures var k, r := At(h.states[at], c), h.states[at].run;
            && Legal(r) && 1 <= k.g.version <= |r.tables| && r.tables[k.g.version - 1].g == k.g
            && Inv(r.tables[k.g.version - 1]) && Objects.Sound(k.g) && Tabled(k.g)
            && Decide(k.req, k.g, deck) != Refuse(Panicked)
  {
    hide Inv, ProtocolInv, ValidateMove, Apply, Join, CanJoin, Objects.Sound;
    var s := h.states[at];
    Reachable(h, at);
    PartsOf(s, c);
    KnownInv(s.run, At(s, c).g);
    var at0 := At(s, c).g.version - 1;
    ReachableInv(s.run, at0);
    Objects.InvIsSound(s.run.tables[at0]);
  }

  // ----- versions

  predicate Commits(s: Sys, e: Event) { e.Save? && At(s, e.c).Ready? && Current(s.store, At(s, e.c).read.version) }

  /** A step leaves the stored game alone, creates it, or commits one operation and adds one to the version. */
  lemma VersionStep(s: Sys, e: Event)
    requires ProtocolInv(s)
    ensures var s1 := Step(s, e);
            if Commits(s, e) then
              && s.store.version.Some? && s1.store.version == Some(s.store.version.value + 1)
              && s1.run.ops == s.run.ops + [At(s, e.c).op] && At(s, e.c).read.version == |s.run.ops| + 1
            else
              && s1.run == s.run
              && (s1.store.(lock := None) == s.store.(lock := None)
                  || (e.Create? && s.store.state.None? && s1.store.state == Some(NewGame(s.run.id, s.run.cfg))
                     && s1.store.version == Some(1)))
  {
    hide Makes, Known, LedgerInv, LockInv, Apart, Decide, NextDiscards;
    PartsOf(s, if e.Save? then e.c else 0);
  }

  /** Committed operations are never lost or reordered. */
  lemma {:induction false} LogOnlyGrows(h: History, i: nat, j: nat)
    requires Possible(h) && i <= j <= |h.events|
    ensures h.states[i].run.ops <= h.states[j].run.ops
    decreases j
  {
    hide ProtocolInv, Enabled, Step, Commits;
    if i < j {
      LogOnlyGrows(h, i, j - 1);
      Reachable(h, j - 1);
      assert EventAt(h, j - 1);
      VersionStep(h.states[j - 1], h.events[j - 1]);
    }
  }

  /** At most one operation commits per loaded version: of two commits, the later read a later version. */
  lemma OneCommitPerVersion(h: History, i: nat, j: nat)
    requires Possible(h) && i < j < |h.events|
    requires Commits(h.states[i], h.events[i]) && Commits(h.states[j], h.events[j])
    ensures At(h.states[i], h.events[i].c).read.version < At(h.states[j], h.events[j].c).read.version
  {
    hide ProtocolInv, Enabled, Step, Commits;
    LogOnlyGrows(h, i + 1, j);
    Reachable(h, i);
    Reachable(h, j);
    assert EventAt(h, i) && EventAt(h, j);
    VersionStep(h.states[i], h.events[i]);
    VersionStep(h.states[j], h.events[j]);
  }

  /** Every ledger row belongs to one committed operation of its player, its version is one above the
      client's, and no two rows share a version, whichever rows are missing. */
  lemma LedgerDiscipline(h: History, at: nat)
    requires Possible(h) && at <= |h.events|
    ensures var s := h.states[at];
            && (forall i :: 0 <= i < |s.ledger| ==>
                  var r := s.ledger[i];
                  r.version == r.clientVersion + 1 && 2 <= r.version <= |s.run.ops| + 1
                      && s.run.ops[r.version - 2].id == r.player)
            && (forall i, j :: 0 <= i < j < |s.ledger| ==> s.ledger[i].version != s.ledger[j].version)
  {
    hide ProtocolInv;
    Reachable(h, at);
    PartsOf(h.states[at], 0);
  }

  // ----- the lock

  /** No step of another client takes the lock away from its owner; only expiry does. */
  lemma OnlyOwnerReleases(h: History, at: nat, owner: int)
    requires Possible(h) && at < |h.events|
    requires h.events[at].Create? || h.events[at].Expire? || h.events[at].c != owner
    requires !At(h.states[at], owner).Idle? && h.states[at].store.lock == Some(At(h.states[at], owner).token)
    ensures h.states[at + 1].store.lock == h.states[at].store.lock <==> !h.events[at].Expire?
  {
    hide Makes, Known, LedgerInv, LockInv, Decide, StoreInv, ClientInv, ProtocolInv, Grown;
    var s, e := h.states[at], h.events[at];
    Reachable(h, at);
    PartsOf(s, 0);
    assert EventAt(h, at);
    if !e.Create? && !e.Expire? { assert Disjoint(At(s, owner), At(s, e.c)); }
  }

  /** As long as no lock has expired, at most one client is between acquiring and releasing it. */
  lemma MutualExclusion(h: History, at: nat, c: int, d: int)
    requires Possible(h) && at <= |h.events| && !h.states[at].expired
    requires Inside(At(h.states[at], c)) && Inside(At(h.states[at], d))
    ensures c == d
  {
    hide ProtocolInv;
    Reachable(h, at);
    PartsOf(h.states[at], 0);
    AloneInside(h.states[at], c, d);
  }

  /** Whoever has loaded the game holds the stored state. */
  ghost predicate Fresh(s: Sys) {
    !s.expired ==> forall c :: FreshAt(s, At(s, c))
  }

  predicate FreshAt(s: Sys, k: Client) {
    (k.Loaded? ==> s.store.state == Some(k.g)) && (k.Ready? ==> s.store.state == Some(k.read))
  }

  lemma AloneInside(s: Sys, c: int, d: int)
    requires LockInv(s) && Apart(s) && !s.expired && Inside(At(s, c)) && Inside(At(s, d))
    ensures c == d
  {
    assert c != d ==> Disjoint(At(s, c), At(s, d));
  }

  lemma FreshKept(s: Sys, e: Event)
    requires Fresh(s)
    requires ProtocolInv(s)
    ensures Fresh(Step(s, e))
  {
    hide Makes, Known, LedgerInv, LockInv, Apart, Decide, ProtocolInv, Grown, ReadyInv, NoRow, RowOf, Legal, NewGame;
    var s1 := Step(s, e);
    VersionStep(s, e);
    forall d | !s1.expired ensures FreshAt(s1, At(s1, d)) {
      assert FreshAt(s, At(s, d));
      PartsOf(s, d);
      if e.Save? && At(s, e.c).Ready? && d != e.c && Inside(At(s, d)) { AloneInside(s, e.c, d); }
    }
  }

  lemma {:induction false} FreshAlways(h: History, at: nat)
    requires Possible(h) && at <= |h.events|
    ensures Fresh(h.states[at])
  {
    hide ProtocolInv, Enabled, Step;
    if at > 0 {
      FreshAlways(h, at - 1);
      Reachable(h, at - 1);
      assert EventAt(h, at - 1);
      FreshKept(h.states[at - 1], h.events[at - 1]);
    }
  }

  /** As long as no lock has expired, no save is refused as stale. */
  lemma NoStaleSave(h: History, at: nat, c: int)
    requires Possible(h) && at <= |h.events| && !h.states[at].expired && At(h.states[at], c).Ready?
    ensures Commits(h.states[at], Save(c))
  {
    hide ProtocolInv;
    var s := h.states[at];
    Reachable(h, at);
    FreshAlways(h, at);
    PartsOf(s, 0);
    assert FreshAt(s, At(s, c));
  }

  // ----- one request on its own

  /** The steps of one request up to its decision, and from there to the release of the lock. */
  function Entered(s: Sys, c: int, req: Request, token: Token, deck: seq<Card>): Sys {
    Step(Step(Step(Step(s, Begin(c, req, token)), TryLock(c)), Load(c)), Work(c, deck))
  }

  function Answering(s: Sys, c: int, ledgerUp: bool): Sys { Step(Step(s, Save(c)), Record(c, ledgerUp)) }

  function Finished(s: Sys, c: int, ledgerUp: bool): Sys { Step(Answering(s, c, ledgerUp), Release(c)) }

  lemma Enters(s: Sys, c: int, req: Request, token: Token, deck: seq<Card>)
    requires At(s, c).Idle? && s.store.lock.None?
    ensures var t := Entered(s, c, req, token, deck);
            && t.store == s.store.(lock := Some(token)) && t.ledger == s.ledger
            && At(t, c) == if s.store.state.None? then Releasing(req, token, GameNotFound)
                           else
                             var d := Decide(req, s.store.state.value, deck);
                             if d.Refuse? then Releasing(req, token, d.outcome)
                             else Ready(req, token, s.store.state.value, OpOf(req, deck), d.g, d.row)
  {
    hide Decide;
  }

  function Answer(t: Sys, k: Client, ledgerUp: bool): Outcome
    requires k.Ready? || k.Releasing?
  {
    if k.Releasing? then k.outcome
    else if !Current(t.store, k.read.version) then StaleVersion
    else if k.row.Some? && !ledgerUp then LedgerFailed
    else Replied(k.write)
  }

  lemma Finishes(t: Sys, c: int, ledgerUp: bool)
    requires (At(t, c).Ready? || At(t, c).Releasing?) && t.store.lock == Some(At(t, c).token)
    ensures var k, r := At(t, c), Finished(t, c, ledgerUp);
            && At(r, c).Idle? && r.store.lock.None?
            && (k.Releasing? ==> r.store == t.store.(lock := None) && r.ledger == t.ledger)
            && (k.Ready? && !Current(t.store, k.read.version) ==>
               r.store == t.store.(lock := None) && r.ledger == t.ledger)
            && (k.Ready? && Current(t.store, k.read.version) ==>
                  && r.store == Saved(t.store, k.write, k.read.version).(lock := None)
                  && r.ledger == t.ledger + (if k.row.Some? && ledgerUp then [k.row.value] else []))
    ensures At(Answering(t, c, ledgerUp), c) == Releasing(At(t, c).req, At(t, c).token, Answer(t, At(t, c), ledgerUp))
  {
  }

  /** Uninterrupted, the steps of a request do what the service does in one call. */
  lemma StepsServe(s: Sys, c: int, req: Request, token: Token, deck: seq<Card>, ledgerUp: bool)
    requires At(s, c).Idle? && s.store.lock.None?
    ensures var t, r := Finished(Entered(s, c, req, token, deck), c, ledgerUp),
            Serve(s.store, s.ledger, req, deck, ledgerUp);
            t.store == r.store && t.ledger == r.ledger && At(t, c).Idle?
    ensures At(Answering(Entered(s, c, req, token, deck), c, ledgerUp), c)
            == Releasing(req, token, Serve(s.store, s.ledger, req, deck, ledgerUp).outcome)
  {
    hide Decide, Entered, Finished, Answering;
    Enters(s, c, req, token, deck);
    Finishes(Entered(s, c, req, token, deck), c, ledgerUp);
  }
}
