/** One game's keys in the store (internal/store/redis/redis.go): its state, its version and its lock. */
module GameStore {
  import opened Wrappers
  import opened State

  // Lock tokens are random; only whether two of them are equal matters.
  type Token = int

  datatype Store = Store(state: Option<GameState>, version: Option<int>, lock: Option<Token>)

  const EMPTY := Store(None, None, None)

  /** The stored version is the expected one; a missing version counts as 0. */
  predicate Current(st: Store, expected: int) {
    if st.version.None? then expected == 0 else st.version.value == expected
  }

  /** Compare and swap. */
  function Saved(st: Store, g: GameState, expected: int): Store {
    if Current(st, expected) then st.(state := Some(g), version := Some(g.version)) else st
  }

  function Locked(st: Store, token: Token): Store { if st.lock.None? then st.(lock := Some(token)) else st }

  function Unlocked(st: Store, token: Token): Store { if st.lock == Some(token) then st.(lock := None) else st }

  const RETRIES := 3

  // What an attempt meets: the lock as others left it, or an error, which leaves some lock behind.
  datatype Try = Sees(lock: Option<Token>) | Fails(lock: Option<Token>)

  datatype Acquired = Got | LockFailed | GaveUp | StoreError

  predicate Busy(t: Try) { t.Sees? && t.lock.Some? }

  /** The attempt k is made: all before it found the lock taken, and nobody gave up in between. */
  predicate Reaches(tries: seq<Try>, cancelled: seq<bool>, k: int) {
    && |tries| == RETRIES + 1 && |cancelled| == RETRIES && 0 <= k <= RETRIES
    && forall j :: 0 <= j < k ==> Busy(tries[j]) && !cancelled[j]
  }

  class RedisStore {
    var state: Option<GameState>
    var version: Option<int>
    var lock: Option<Token>

    function Abs(): Store
      reads this
    {
      Store(state, version, lock)
    }

    method SaveGame(g: GameState, expected: int) returns (ok: bool)
      modifies this`state, this`version
      ensures ok == Current(old(Abs()), expected)
      ensures Abs() == Saved(old(Abs()), g, expected)
    {
      if (version.None? && expected == 0) || version == Some(expected) {
        state, version := Some(g), Some(g.version);
        return true;
      }
      ok := false;
    }

    method LoadGame() returns (g: Option<GameState>)
      ensures g == Abs().state
    {
      g := state;
    }

    method SetNX(token: Token) returns (ok: bool)
      modifies this`lock
      ensures ok == old(lock).None?
      ensures Abs() == Locked(old(Abs()), token)
    {
      ok := lock.None?;
      if ok { lock := Some(token); }
    }

    /** Tries once and then after each pause. While the caller waits others release, expire and take the
        lock: `tries` is what each attempt meets, `cancelled` whether the caller gives up in each pause. */
    method AcquireLock(token: Token, tries: seq<Try>, cancelled: seq<bool>) returns (r: Acquired)
      requires |tries| == RETRIES + 1 && |cancelled| == RETRIES && tries[0].lock == lock
      modifies this`lock
      ensures r.Got? <==> exists k :: Reaches(tries, cancelled, k) && tries[k] == Sees(None)
      ensures r.StoreError? <==> exists k :: Reaches(tries, cancelled, k) && tries[k].Fails?
      ensures r.GaveUp? <==> exists k :: k < RETRIES && Reaches(tries, cancelled, k) && Busy(tries[k]) && cancelled[k]
      ensures r.LockFailed? <==> Reaches(tries, cancelled, RETRIES) && Busy(tries[RETRIES])
      ensures r.Got? ==> lock == Some(token)
      ensures !r.Got? ==> exists k :: Reaches(tries, cancelled, k) && lock == tries[k].lock
    {
      var attempt := 0;
      while true
        invariant Reaches(tries, cancelled, attempt)
        invariant lock == tries[attempt].lock
        decreases RETRIES - attempt
      {
        if tries[attempt].Fails? { return StoreError; }
        var ok := SetNX(token);
        if ok { return Got; }
        if attempt >= RETRIES { return LockFailed; }
        if cancelled[attempt] { return GaveUp; }
        attempt := attempt + 1;
        lock := tries[attempt].lock;
      }
    }

    method ReleaseLock(token: Token)
      modifies this`lock
      ensures Abs() == Unlocked(old(Abs()), token)
    {
      if lock == Some(token) { lock := None; }
    }
  }
}
