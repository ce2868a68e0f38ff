/** The two rate limiters: the script and client of internal/ratelimit/limiter.go, and the in-process
    bucket of internal/ratelimit/bucket.go. */
module RateLimit {
  import opened Wrappers
  import opened TokenBucket
  import opened Clocks

  /** The hash one limiter key holds in the store. */
  class Key {
    var tokens: Option<real>
    var ts: Option<int>
    var ttl: int

    function Stored(): Option<Hash>
      reads this
    {
      if tokens.Some? && ts.Some? then Some(Hash(tokens.value, ts.value)) else None
    }

    /** The server-side script. */
    method Run(rule: Rule, now: int) returns (r: Reply)
      requires rule.refill > 0.0
      modifies this
      ensures r == Call(rule, old(Stored()), now).reply
      ensures Stored() == Some(Call(rule, old(Stored()), now).hash) && ttl == Ttl(rule)
    {
      hide Ceil, Gain;
      var have, at, nowMs := rule.capacity, now, now;
      if tokens.Some? && ts.Some? { have, at := tokens.value, ts.value; }
      Elapsed(rule, nowMs - at);
      var elapsed := (nowMs - at) as real / 1000.0;
      if elapsed > 0.0 {
        have := Min(rule.capacity, have + elapsed * rule.refill);
      } else {
        nowMs := at;
      }
      var allowed, retryMs := false, 0;
      if have >= 1.0 {
        allowed, have := true, have - 1.0;
      } else {
        retryMs := Ceil((1.0 - have) / rule.refill * 1000.0);
      }
      tokens, ts := Some(have), Some(nowMs);
      ttl := Ceil(rule.capacity / rule.refill * 1000.0) + 1000;
      r := Reply(allowed, retryMs);
    }
  }

  lemma Elapsed(rule: Rule, ms: int)
    ensures ms as real / 1000.0 > 0.0 <==> ms > 0
    ensures ms as real / 1000.0 * rule.refill == Gain(rule, ms)
  {
  }

  // How the store answers: properly, after running the script but with an unusable reply, or not at all.
  datatype Link = Up | Garbled | Down

  /** Fails open: a rule that makes no sense, or a store that does not answer, lets the call through. */
  method Allow(key: Key?, rule: Rule, now: int, link: Link) returns (r: Reply)
    modifies key
    ensures !r.allowed <==>
              key != null && rule.Sensible() && link.Up? && !Enough(Refilled(rule, old(key.Stored()), now))
    ensures !r.allowed ==> r == Call(rule, old(key.Stored()), now).reply
    ensures key != null && (!rule.Sensible() || link.Down?) ==> key.Stored() == old(key.Stored())
    ensures key != null && rule.Sensible() && !link.Down? ==>
            key.Stored() == Some(Call(rule, old(key.Stored()), now).hash)
  {
    if key == null || rule.refill <= 0.0 || rule.capacity <= 0.0 || link.Down? { return Reply(true, 0); }
    r := key.Run(rule, now);
    if link.Garbled? { return Reply(true, 0); }
  }

  /** The in-process bucket; its times are in nanoseconds. */
  class Bucket {
    const capacity: real
    const refill: real
    var tokens: real
    var last: int

    ghost function Held(): Hash
      reads this
    {
      Hash(tokens, last)
    }

    constructor (capacity: real, refillPerSec: real, now: int)
      ensures this.capacity == capacity && refill == refillPerSec
      ensures Some(Held()) == Fresh(Rule(capacity, refillPerSec), now)
    {
      this.capacity, refill, tokens, last := capacity, refillPerSec, capacity, now;
    }

    method Allow(now: int) returns (ok: bool)
      modifies this
      ensures var h := Refilled(Nanos(Rule(capacity, refill)), Some(old(Held())), now);
              ok == Enough(h) && Held() == Spent(h)
    {
      hide Gain;
      ElapsedNanos(Rule(capacity, refill), now - last);
      var elapsed := (now - last) as real / 1_000_000_000.0;
      if elapsed > 0.0 {
        tokens := tokens + elapsed * refill;
        if tokens > capacity { tokens := capacity; }
        last := now;
      }
      if tokens < 1.0 { return false; }
      tokens := tokens - 1.0;
      ok := true;
    }
  }

  lemma ElapsedNanos(rule: Rule, ns: int)
    ensures ns as real / 1_000_000_000.0 > 0.0 <==> ns > 0
    ensures ns as real / 1_000_000_000.0 * rule.refill == Gain(Nanos(rule), ns)
  {
    assert ns as real / 1000.0 * (rule.refill / 1_000_000.0) == ns as real * rule.refill / 1_000_000_000.0;
  }
}
