/** The token bucket both rate limiters implement (internal/ratelimit), over real-valued tokens and
    whole units of time: milliseconds for the shared limiter, nanoseconds for the in-process bucket. */
module TokenBucket {
  import opened Wrappers

  datatype Rule = Rule(capacity: real, refill: real) {
    predicate Sensible() { capacity > 0.0 && refill > 0.0 }
  }

  datatype Hash = Hash(tokens: real, ts: int)

  datatype Reply = Reply(allowed: bool, retryMs: int)

  datatype Result = Result(hash: Hash, reply: Reply)

  function Min(a: real, b: real): real { if a <= b then a else b }

  function Ceil(x: real): (r: int)
    ensures (r - 1) as real < x <= r as real
  {
    -((-x).Floor)
  }

  /** Tokens earned in some milliseconds. A clock of finer units has a rule with a smaller refill. */
  function Gain(rule: Rule, ms: int): real { ms as real / 1000.0 * rule.refill }

  /** A missing bucket is full; an earlier time than the stored one changes nothing. */
  function Refilled(rule: Rule, st: Option<Hash>, now: int): Hash {
    if st.None? then Hash(rule.capacity, now)
    else if now > st.value.ts then Hash(Min(rule.capacity, st.value.tokens + Gain(rule, now - st.value.ts)), now)
    else st.value
  }

  /** Milliseconds until one token is there. */
  function RetryMs(rule: Rule, tokens: real): int
    requires rule.refill > 0.0
  {
    Ceil((1.0 - tokens) / rule.refill * 1000.0)
  }

  predicate Enough(h: Hash) { h.tokens >= 1.0 }

  function Spent(h: Hash): Hash { if Enough(h) then h.(tokens := h.tokens - 1.0) else h }

  function Call(rule: Rule, st: Option<Hash>, now: int): Result
    requires rule.refill > 0.0
  {
    var h := Refilled(rule, st, now);
    Result(Spent(h), if Enough(h) then Reply(true, 0) else Reply(false, RetryMs(rule, h.tokens)))
  }

  /** How long an idle key is kept. */
  function Ttl(rule: Rule): int
    requires rule.refill > 0.0
  {
    Ceil(rule.capacity / rule.refill * 1000.0) + 1000
  }

  // ----- arithmetic of the refill

  lemma GainAdds(rule: Rule, a: int, b: int)
    ensures Gain(rule, a + b) == Gain(rule, a) + Gain(rule, b)
  {
    assert (a + b) as real / 1000.0 == a as real / 1000.0 + b as real / 1000.0;
  }

  lemma GainSign(rule: Rule, ms: int)
    requires rule.refill > 0.0 && ms >= 0
    ensures Gain(rule, ms) >= 0.0
    ensures ms == 0 ==> Gain(rule, ms) == 0.0
    ensures ms > 0 ==> Gain(rule, ms) > 0.0
  {
    var x := ms as real / 1000.0;
    assert x >= 0.0;
    Product(x, rule.refill);
  }

  lemma Product(x: real, y: real)
    requires x >= 0.0 && y > 0.0
    ensures x * y >= 0.0 && (x > 0.0 ==> x * y > 0.0) && (x == 0.0 ==> x * y == 0.0)
  {
  }

  /** The waiting time for an amount of tokens is exact to the millisecond. */
  lemma WaitExact(rule: Rule, amount: real, ms: int)
    requires rule.refill > 0.0
    ensures Gain(rule, ms) >= amount <==> ms >= Ceil(amount / rule.refill * 1000.0)
  {
    var need := amount / rule.refill * 1000.0;
    assert amount == need / 1000.0 * rule.refill by {
      assert need / 1000.0 == amount / rule.refill;
      Cancel(amount, rule.refill);
    }
    Scales(ms as real / 1000.0, need / 1000.0, rule.refill);
    assert ms as real >= need <==> ms >= Ceil(need);
  }

  lemma Cancel(a: real, b: real)
    requires b > 0.0
    ensures a / b * b == a
  {
  }

  lemma Scales(x: real, y: real, k: real)
    requires k > 0.0
    ensures x * k >= y * k <==> x >= y
  {
    assert x * k - y * k == (x - y) * k;
    if x >= y { Product(x - y, k); } else { Product(y - x, k); assert (y - x) * k == -((x - y) * k); }
  }

  // ----- any sequence of calls

  /** The bucket after calls at the given times, in order of arrival, from a bucket or from none. */
  function After(rule: Rule, st: Option<Hash>, times: seq<int>): Option<Hash> {
    if times == [] then st else Some(Spent(Refilled(rule, After(rule, st, times[..|times| - 1]), times[|times| - 1])))
  }

  predicate Decision(rule: Rule, st: Option<Hash>, times: seq<int>, i: nat)
    requires i < |times|
  {
    Enough(Refilled(rule, After(rule, st, times[..i]), times[i]))
  }

  /** Calls allowed among those from i up to, not including, j. */
  function Allowed(rule: Rule, st: Option<Hash>, times: seq<int>, i: nat, j: nat): nat
    requires i <= j <= |times|
    decreases j
  {
    if i == j then 0 else Allowed(rule, st, times, i, j - 1) + (if Decision(rule, st, times, j - 1) then 1 else 0)
  }

  function Latest(st: Option<Hash>, times: seq<int>): int
    requires st.Some? || times != []
  {
    if times == [] then st.value.ts
    else
      var last := times[|times| - 1];
      if |times| == 1 && st.None? then last
      else
        var m := Latest(st, times[..|times| - 1]);
        if last > m then last else m
  }

  predicate Within(rule: Rule, st: Option<Hash>) { st.Some? ==> 0.0 <= st.value.tokens <= rule.capacity }

  /** Whatever the order of the timestamps, the tokens stay between zero and the capacity and the stored
      time is the latest seen. */
  lemma {:induction false} BucketInv(rule: Rule, st: Option<Hash>, times: seq<int>)
    requires rule.Sensible() && Within(rule, st) && (st.Some? || times != [])
    ensures var h := After(rule, st, times);
            h.Some? && 0.0 <= h.value.tokens <= rule.capacity && h.value.ts == Latest(st, times)
  {
    hide Gain;
    if times != [] {
      var init, last := times[..|times| - 1], times[|times| - 1];
      if st.Some? || init != [] {
        BucketInv(rule, st, init);
        var h := After(rule, st, init).value;
        if last > h.ts { GainSign(rule, last - h.ts); }
      }
    }
  }

  /** What overflows the bucket h when it is refilled. */
  function Overflow(rule: Rule, h: Hash, now: int): (r: real)
    ensures r >= 0.0
  {
    var full := h.tokens + Gain(rule, now - h.ts);
    if now > h.ts && full > rule.capacity then full - rule.capacity else 0.0
  }

  lemma OneCall(rule: Rule, h: Hash, now: int, since: int)
    ensures var r := Refilled(rule, Some(h), now);
            h.tokens + Gain(rule, r.ts - since) == r.tokens + Gain(rule, h.ts - since) + Overflow(rule, h, now)
  {
    hide Gain;
    if now > h.ts { GainAdds(rule, h.ts - since, now - h.ts); }
  }

  /** What overflowed in calls i + 1 to j - 1. */
  function Lost(rule: Rule, st: Option<Hash>, times: seq<int>, i: nat, j: nat): (r: real)
    requires i < j <= |times|
    ensures r >= 0.0
    decreases j
  {
    if j == i + 1 then 0.0
    else
      var h := After(rule, st, times[..j - 1]);
      Lost(rule, st, times, i, j - 1) + (if h.Some? then Overflow(rule, h.value, times[j - 1]) else 0.0)
  }

  lemma Spends(h: Hash)
    ensures Spent(h).ts == h.ts && Spent(h).tokens == h.tokens - (if Enough(h) then 1.0 else 0.0)
  {
  }

  /** Tokens are conserved: what the bucket held when call i was decided, plus what was earned since,
      is what is left, was spent, or overflowed. */
  lemma {:induction false} TokensConserved(rule: Rule, st: Option<Hash>, times: seq<int>, i: nat, j: nat)
    requires rule.Sensible() && i < j <= |times|
    ensures After(rule, st, times[..j]).Some?
    ensures var start := Refilled(rule, After(rule, st, times[..i]), times[i]);
            var end := After(rule, st, times[..j]).value;
            start.tokens + Gain(rule, end.ts - start.ts)
            == end.tokens + Allowed(rule, st, times, i, j) as real + Lost(rule, st, times, i, j)
    decreases j
  {
    hide Gain, Overflow, Refilled, Spent, Enough;
    assert times[..j][..j - 1] == times[..j - 1];
    var start := Refilled(rule, After(rule, st, times[..i]), times[i]);
    if j == i + 1 {
      GainSign(rule, 0);
      assert Allowed(rule, st, times, i, i) == 0;
      Spends(start);
    } else {
      TokensConserved(rule, st, times, i, j - 1);
      var h := After(rule, st, times[..j - 1]).value;
      OneCall(rule, h, times[j - 1], start.ts);
      Spends(Refilled(rule, Some(h), times[j - 1]));
    }
  }

  lemma GainBound(rule: Rule, st: Option<Hash>, times: seq<int>, i: nat, j: nat)
    requires rule.Sensible() && Within(rule, st) && i < j <= |times|
    ensures Allowed(rule, st, times, i, j) as real
            <= rule.capacity + Gain(rule, Latest(st, times[..j]) - Latest(st, times[..i + 1]))
  {
    hide Gain, Lost;
    TokensConserved(rule, st, times, i, j);
    BucketInv(rule, st, times[..j]);
    BucketInv(rule, st, times[..i + 1]);
    assert times[..i + 1][..i] == times[..i];
    StartBelow(rule, st, times, i);
  }

  /** Between any two calls no more is allowed than the capacity plus what is earned meanwhile. */
  lemma RateBound(rule: Rule, st: Option<Hash>, times: seq<int>, i: nat, j: nat)
    requires rule.Sensible() && Within(rule, st) && i < j <= |times|
    ensures Allowed(rule, st, times, i, j) as real
            <= rule.capacity + (Latest(st, times[..j]) - Latest(st, times[..i + 1])) as real / 1000.0 * rule.refill
  {
    hide Allowed, Latest, Within;
    GainBound(rule, st, times, i, j);
  }

  lemma StartBelow(rule: Rule, st: Option<Hash>, times: seq<int>, i: nat)
    requires rule.Sensible() && Within(rule, st) && i < |times|
    ensures var start := Refilled(rule, After(rule, st, times[..i]), times[i]);
            start.tokens <= rule.capacity && After(rule, st, times[..i + 1]).Some?
                && start.ts == After(rule, st, times[..i + 1]).value.ts
  {
    hide Gain;
    assert times[..i + 1][..i] == times[..i];
    if i > 0 || st.Some? { BucketInv(rule, st, times[..i]); }
  }

  // ----- the retry hint

  /** After a refusal, the next call is allowed exactly when the hinted time has passed since the stored
      time, and never if the bucket cannot hold one token. */
  lemma RetryExact(rule: Rule, st: Option<Hash>, now: int, next: int)
    requires rule.Sensible() && (st.Some? ==> st.value.tokens <= rule.capacity)
    requires !Call(rule, st, now).reply.allowed
    ensures var r := Call(rule, st, now);
            Call(rule, Some(r.hash), next).reply.allowed <==>
                rule.capacity >= 1.0 && next - r.hash.ts >= r.reply.retryMs
    ensures Call(rule, st, now).reply.retryMs > 0
  {
    hide Gain;
    var r := Call(rule, st, now);
    WaitExact(rule, 1.0 - r.hash.tokens, next - r.hash.ts);
    WaitExact(rule, 1.0 - r.hash.tokens, 0);
    GainSign(rule, 0);
  }

  // ----- forgetting an idle bucket

  /** Milliseconds until the bucket is full again. */
  function FullMs(rule: Rule, tokens: real): int
    requires rule.refill > 0.0
  {
    Ceil((rule.capacity - tokens) / rule.refill * 1000.0)
  }

  /** A forgotten bucket answers the next call as the kept one would exactly when it had filled up. */
  lemma ForgettingExact(rule: Rule, h: Hash, now: int)
    requires rule.Sensible() && 0.0 <= h.tokens <= rule.capacity
    ensures Call(rule, None, now) == Call(rule, Some(h), now) <==> now - h.ts >= FullMs(rule, h.tokens)
  {
    hide Gain;
    WaitExact(rule, rule.capacity - h.tokens, now - h.ts);
    WaitExact(rule, rule.capacity - h.tokens, -1);
    GainSign(rule, 0);
    GainSign(rule, 1);
    GainAdds(rule, 1, -1);
    if now == h.ts { assert Gain(rule, now - h.ts) == Gain(rule, 0); }
  }

  // A call carries the client's timestamp and reaches the store a little later.
  datatype Timed = Timed(stamp: int, served: int)

  datatype Entry = Entry(hash: Hash, deadline: int)

  /** What the store still holds for a call served at this time. */
  function Visible(e: Option<Entry>, served: int): Option<Hash> {
    if e.Some? && served <= e.value.deadline then Some(e.value.hash) else None
  }

  /** The stored entry after some calls, when idle keys expire. */
  function Expiring(rule: Rule, calls: seq<Timed>): Option<Entry>
    requires rule.refill > 0.0
  {
    if calls == [] then None
    else
      var c := calls[|calls| - 1];
      Some(Entry(Spent(Refilled(rule, Visible(Expiring(rule, calls[..|calls| - 1]), c.served), c.stamp)),
          c.served + Ttl(rule)))
  }

  function Stamps(calls: seq<Timed>): seq<int> { seq(|calls|, i requires 0 <= i < |calls| => calls[i].stamp) }

  /** One clock: calls are served in order, each after its stamp and at most so many milliseconds late. */
  ghost predicate Timely(calls: seq<Timed>, late: int) {
    && (forall i :: 0 <= i < |calls| ==> calls[i].stamp <= calls[i].served <= calls[i].stamp + late)
    && (forall i, j :: 0 <= i < j < |calls| ==> calls[i].served <= calls[j].served)
  }

  lemma {:induction false} NoStampAhead(calls: seq<Timed>, late: int)
    requires Timely(calls, late) && calls != []
    ensures Latest(None, Stamps(calls)) <= calls[|calls| - 1].served
  {
    if |calls| > 1 {
      assert Stamps(calls)[..|calls| - 1] == Stamps(calls[..|calls| - 1]);
      NoStampAhead(calls[..|calls| - 1], late);
    }
  }

  /** A key that has expired would be full by the time the next call was stamped. */
  lemma ExpiredIsFull(rule: Rule, h: Hash, last: int, c: Timed)
    requires rule.Sensible() && 0.0 <= h.tokens <= rule.capacity && h.ts <= last
    requires c.served > last + Ttl(rule) && c.served <= c.stamp + 1001
    ensures Refilled(rule, None, c.stamp) == Refilled(rule, Some(h), c.stamp)
  {
    hide Gain;
    WaitExact(rule, rule.capacity, c.stamp - h.ts);
    WaitExact(rule, rule.capacity, 0);
    GainSign(rule, 0);
  }

  /** The last call finds an expiring key as it would find one that is kept. */
  predicate Unaffected(rule: Rule, calls: seq<Timed>)
    requires rule.refill > 0.0 && calls != []
  {
    var e, c := Expiring(rule, calls[..|calls| - 1]), calls[|calls| - 1];
    Refilled(rule, Visible(e, c.served), c.stamp)
        == Refilled(rule, After(rule, None, Stamps(calls)[..|calls| - 1]), c.stamp)
  }

  /** Expiring idle keys changes no later answer. */
  lemma {:induction false} ExpiryTransparent(rule: Rule, calls: seq<Timed>, late: int)
    requires rule.Sensible() && Timely(calls, late) && late <= 1001 && calls != []
    ensures Unaffected(rule, calls)
    ensures Expiring(rule, calls).value.hash == After(rule, None, Stamps(calls)).value
  {
    hide Gain, Ttl;
    var init, c := calls[..|calls| - 1], calls[|calls| - 1];
    assert Stamps(calls)[..|calls| - 1] == Stamps(init);
    if init != [] {
      ExpiryTransparent(rule, init, late);
      NoStampAhead(init, late);
      BucketInv(rule, None, Stamps(init));
      var e := Expiring(rule, init).value;
      if c.served > e.deadline { ExpiredIsFull(rule, e.hash, init[|init| - 1].served, c); }
    }
  }

  /** A call that takes 1002 milliseconds to arrive can find the key gone too early. */
  lemma LateCallDiffers()
    ensures var rule, calls := Rule(1.0, 1.0), [Timed(0, 0), Timed(999, 2001)];
            && Timely(calls, 1002) && !Unaffected(rule, calls)
            && Enough(Refilled(rule, Visible(Expiring(rule, calls[..1]), 2001), 999))
            && !Decision(rule, None, Stamps(calls), 1)
  {
    var rule, calls := Rule(1.0, 1.0), [Timed(0, 0), Timed(999, 2001)];
    assert calls[..1] == [Timed(0, 0)] && Stamps(calls) == [0, 999] && [0, 999][..1] == [0];
    assert [Timed(0, 0)][..0] == [] && [0][..0] == [];
    assert Expiring(rule, []) == None && After(rule, None, []) == None;
    assert Expiring(rule, calls[..1]).value.deadline == 2000;
  }

  ghost predicate Harmless(late: int) {
    forall rule: Rule, calls: seq<Timed> ::
      rule.Sensible() && calls != [] && Timely(calls, late) ==> Unaffected(rule, calls)
  }

  /** Expiry is harmless, under every rule and every sequence of calls at most so late, exactly up to 1001
      milliseconds. */
  lemma LatenessExact(late: int)
    ensures Harmless(late) <==> late <= 1001
  {
    if late <= 1001 {
      forall rule: Rule, calls: seq<Timed> | rule.Sensible() && calls != [] && Timely(calls, late)
        ensures Unaffected(rule, calls)
      {
        ExpiryTransparent(rule, calls, late);
      }
    } else {
      LateCallDiffers();
      var rule, calls := Rule(1.0, 1.0), [Timed(0, 0), Timed(999, 2001)];
      assert Timely(calls, late) && !Unaffected(rule, calls);
    }
  }

  // ----- draining a full bucket

  function Repeat(t: int, n: nat): seq<int> { seq(n, _ => t) }

  /** A bucket that has had time to fill up is full. */
  lemma FillsUp(rule: Rule, h: Hash, now: int)
    requires rule.Sensible() && 0.0 <= h.tokens <= rule.capacity && now > h.ts && now - h.ts >= FullMs(rule, 0.0)
    ensures Refilled(rule, Some(h), now) == Hash(rule.capacity, now)
  {
    hide Gain;
    WaitExact(rule, rule.capacity, now - h.ts);
  }

  /** Calls at one time, not after the stored one, empty a full bucket down to a fraction. */
  lemma {:induction false} Drain(rule: Rule, st: Option<Hash>, before: seq<int>, now: int, ts: int, n: nat)
    requires n as real <= rule.capacity && now <= ts
    requires Refilled(rule, After(rule, st, before), now) == Hash(rule.capacity, ts)
    ensures n > 0 ==> After(rule, st, before + Repeat(now, n)) == Some(Hash(rule.capacity - n as real, ts))
  {
    hide Gain;
    if n > 0 {
      var times := before + Repeat(now, n);
      assert times[..|times| - 1] == before + Repeat(now, n - 1);
      if n == 1 { assert before + Repeat(now, 0) == before; } else { Drain(rule, st, before, now, ts, n - 1); }
    }
  }

  /** Below one token the next call is allowed exactly when the waiting time has passed. */
  lemma NextExact(rule: Rule, h: Hash, next: int)
    requires rule.Sensible() && rule.capacity >= 1.0 && 0.0 <= h.tokens < 1.0
    ensures Enough(Refilled(rule, Some(h), next)) <==> next - h.ts >= RetryMs(rule, h.tokens)
    ensures RetryMs(rule, h.tokens) > 0
  {
    hide Gain;
    WaitExact(rule, 1.0 - h.tokens, next - h.ts);
    WaitExact(rule, 1.0 - h.tokens, 0);
    GainSign(rule, 0);
  }
}
