/** The two limiters side by side. The in-process bucket (internal/ratelimit/bucket.go) measures nanoseconds;
    the shared limiter (internal/ratelimit/limiter.go) is given the same times cut to milliseconds. */
module Clocks {
  import opened Wrappers
  import opened TokenBucket

  const NANOS := 1_000_000  // nanoseconds in a millisecond

  /** The same rule for a clock of nanoseconds. */
  function Nanos(rule: Rule): Rule { rule.(refill := rule.refill / 1_000_000.0) }

  /** A bucket as created: full. */
  function Fresh(rule: Rule, created: int): Option<Hash> { Some(Hash(rule.capacity, created)) }

  function Millis(times: seq<int>): seq<int> { seq(|times|, i requires 0 <= i < |times| => times[i] / NANOS) }

  /** Both limiters, called at the same times, decide call i alike. */
  predicate Agrees(rule: Rule, created: int, times: seq<int>, i: nat)
    requires i < |times|
  {
    Decision(Nanos(rule), Fresh(rule, created), times, i) == Decision(rule, None, Millis(times), i)
  }

  predicate Steady(times: seq<int>) { forall i, j :: 0 <= i < j < |times| ==> times[i] <= times[j] }

  /** They agree on every continuation of the first call by a clock that never runs backwards. */
  ghost predicate AgreeFrom(rule: Rule, created: int, first: int) {
    forall times: seq<int>, i: nat :: i < |times| && times[0] == first && Steady(times) ==>
           Agrees(rule, created, times, i)
  }

  lemma NanosSensible(rule: Rule)
    requires rule.Sensible()
    ensures Nanos(rule).Sensible() && Nanos(rule).capacity == rule.capacity
  {
  }

  /** A bucket that cannot hold one token never lets a call through. */
  lemma NeverAllowed(rule: Rule, st: Option<Hash>, times: seq<int>, i: nat)
    requires rule.Sensible() && Within(rule, st) && rule.capacity < 1.0 && i < |times|
    ensures !Decision(rule, st, times, i)
  {
    hide Gain;
    StartBelow(rule, st, times, i);
  }

  /** On nanosecond clocks the two limiters agree on every continuation, of any first call and any creation
      time, exactly when neither can ever allow a call. */
  lemma ClocksAgreeExactly(rule: Rule, created: int, first: int)
    requires rule.Sensible()
    ensures AgreeFrom(rule, created, first) <==> rule.capacity < 1.0
    ensures rule.capacity < 1.0 ==> forall times: seq<int>, i: nat :: i < |times| ==> Agrees(rule, created, times, i)
  {
    NanosSensible(rule);
    if rule.capacity < 1.0 {
      forall times: seq<int>, i: nat | i < |times| ensures Agrees(rule, created, times, i) {
        NeverAllowed(Nanos(rule), Fresh(rule, created), times, i);
        NeverAllowed(rule, None, Millis(times), i);
      }
    } else {
      var times, i := Parting(rule, created, first);
      assert !Agrees(rule, created, times, i);
    }
  }

  /** Far enough on both buckets are full. Drained at a whole millisecond, or a nanosecond after it, they are
      due their next token at different times. */
  lemma Parting(rule: Rule, created: int, first: int) returns (times: seq<int>, i: nat)
    requires rule.Sensible() && rule.capacity >= 1.0
    ensures i < |times| && times[0] == first && Steady(times) && !Agrees(rule, created, times, i)
  {
    hide RetryMs, FullMs, Gain, Nanos;
    NanosSensible(rule);
    var n := rule.capacity.Floor;
    var part := rule.capacity - n as real;
    var k := FarOff(rule, created, first);
    var waitMs, waitNs := RetryMs(rule, part), RetryMs(Nanos(rule), part);
    var late := if waitNs < NANOS * waitMs then 0 else 1;
    var at := NANOS * k + late;
    var next := if waitNs < NANOS * waitMs then NANOS * k + waitNs else NANOS * (k + waitMs);
    Drained(rule, created, first, k, late, n);
    NextExact(rule, Hash(part, k), next / NANOS);
    NextExact(Nanos(rule), Hash(part, at), next);
    Cut(k, late, waitMs, waitNs);
    var before := [first] + Repeat(at, n);
    times, i := before + [next], n + 1;
    assert times[..i] == before;
    assert Millis(times)[..i] == Millis(before);
  }

  /** A millisecond by which both buckets have filled up whatever the first call left. */
  lemma FarOff(rule: Rule, created: int, first: int) returns (k: int)
    requires rule.Sensible() && Nanos(rule).Sensible()
    ensures k > first / NANOS && k - first / NANOS >= FullMs(rule, 0.0)
    ensures NANOS * k > created && NANOS * k > first
    ensures NANOS * k - created >= FullMs(Nanos(rule), 0.0) && NANOS * k - first >= FullMs(Nanos(rule), 0.0)
  {
    hide FullMs, Nanos;
    var a, b := FullMs(rule, 0.0), FullMs(Nanos(rule), 0.0);
    k := Abs(created) + Abs(first) + Abs(a) + Abs(b) + 1;
    assert first / NANOS <= Abs(first);
    assert NANOS * k >= k;
  }

  function Abs(x: int): nat { if x < 0 then -x else x }

  lemma Cut(k: int, late: int, waitMs: int, waitNs: int)
    requires waitMs > 0 && waitNs > 0 && late == if waitNs < NANOS * waitMs then 0 else 1
    ensures var next := if waitNs < NANOS * waitMs then NANOS * k + waitNs else NANOS * (k + waitMs);
            && (next / NANOS - k >= waitMs <==> late == 1) && (next - (NANOS * k + late) >= waitNs <==> late == 0)
            && next >= NANOS * k + late
  {
  }

  /** The buckets after the first call and n calls at the far-off time. */
  lemma Drained(rule: Rule, created: int, first: int, k: int, late: int, n: nat)
    requires rule.Sensible() && Nanos(rule).Sensible() && Nanos(rule).capacity == rule.capacity && rule.capacity >= 1.0
    requires 0 < n && n as real <= rule.capacity && 0 <= late < NANOS
    requires k > first / NANOS && k - first / NANOS >= FullMs(rule, 0.0) && NANOS * k > created && NANOS * k > first
    requires NANOS * k - created >= FullMs(Nanos(rule), 0.0) && NANOS * k - first >= FullMs(Nanos(rule), 0.0)
    ensures var before := [first] + Repeat(NANOS * k + late, n);
            && After(rule, None, Millis(before)) == Some(Hash(rule.capacity - n as real, k))
            && After(Nanos(rule), Fresh(rule, created), before)
               == Some(Hash(rule.capacity - n as real, NANOS * k + late))
  {
    hide FullMs, Gain, Nanos;
    var at := NANOS * k + late;
    var before := [first] + Repeat(at, n);
    assert at / NANOS == k;
    assert Millis(before) == [first / NANOS] + Repeat(k, n);
    FullAfterOne(rule, None, first / NANOS, k);
    Drain(rule, None, [first / NANOS], k, k, n);
    FullAfterOne(Nanos(rule), Fresh(rule, created), first, at);
    Drain(Nanos(rule), Fresh(rule, created), [first], at, at, n);
  }

  lemma FullAfterOne(rule: Rule, st: Option<Hash>, first: int, now: int)
    requires rule.Sensible() && Within(rule, st) && now > first && now - first >= FullMs(rule, 0.0)
    requires st.Some? ==> now > st.value.ts && now - st.value.ts >= FullMs(rule, 0.0)
    ensures Refilled(rule, After(rule, st, [first]), now) == Hash(rule.capacity, now)
  {
    hide FullMs, Gain, Refilled;
    BucketInv(rule, st, [first]);
    assert [first][..0] == [];
    FillsUp(rule, After(rule, st, [first]).value, now);
  }

  /** A failing input with the bucket created no later than the first call: calls at 0.9 and 1000 milliseconds. */
  lemma FractionDiffers()
    ensures var rule, times := Rule(1.0, 1.0), [900_000, 1_000_000_000];
            !Decision(Nanos(rule), Fresh(rule, 0), times, 1) && Decision(rule, None, Millis(times), 1)
  {
    var rule, times := Rule(1.0, 1.0), [900_000, 1_000_000_000];
    assert Millis(times) == [0, 1000];
    assert times[..1] == [900_000] && [900_000][..0] == [] && [0, 1000][..1] == [0] && [0][..0] == [];
    assert After(Nanos(rule), Fresh(rule, 0), []) == Fresh(rule, 0);
    assert After(rule, None, []) == None;
    assert Refilled(Nanos(rule), Fresh(rule, 0), 900_000) == Hash(1.0, 900_000);
    assert After(Nanos(rule), Fresh(rule, 0), [900_000]) == Some(Hash(0.0, 900_000));
    assert After(rule, None, [0]) == Some(Hash(0.0, 0));
    assert Gain(Nanos(rule), 999_100_000) == 0.9991;
  }

  // ----- whole milliseconds

  function Whole(ms: seq<int>): seq<int> { seq(|ms|, i requires 0 <= i < |ms| => NANOS * ms[i]) }

  /** Creation and every call fall on whole milliseconds. */
  ghost predicate AgreeWhole(rule: Rule, created: int, first: int) {
    forall ms: seq<int>, i: nat :: i < |ms| && ms[0] == first ==> Agrees(rule, NANOS * created, Whole(ms), i)
  }

  lemma WholeGain(rule: Rule, d: int)
    ensures Gain(Nanos(rule), NANOS * d) == Gain(rule, d)
  {
    var x := d as real / 1000.0;
    assert (NANOS * d) as real / 1000.0 == 1_000_000.0 * x;
    assert 1_000_000.0 * x * (rule.refill / 1_000_000.0) == x * rule.refill;
  }

  function Scaled(h: Hash): Hash { h.(ts := NANOS * h.ts) }

  lemma WholeRefill(rule: Rule, h: Hash, now: int)
    ensures Refilled(Nanos(rule), Some(Scaled(h)), NANOS * now) == Scaled(Refilled(rule, Some(h), now))
  {
    hide Gain;
    WholeGain(rule, now - h.ts);
    assert NANOS * now - NANOS * h.ts == NANOS * (now - h.ts);
  }

  lemma {:induction false} WholeAfter(rule: Rule, created: int, ms: seq<int>)
    ensures After(rule, Fresh(rule, created), ms).Some?
    ensures After(Nanos(rule), Fresh(rule, NANOS * created), Whole(ms))
            == Some(Scaled(After(rule, Fresh(rule, created), ms).value))
  {
    hide Gain, Nanos, Refilled;
    if ms != [] {
      var init := ms[..|ms| - 1];
      WholeAfter(rule, created, init);
      assert Whole(ms)[..|ms| - 1] == Whole(init);
      WholeRefill(rule, After(rule, Fresh(rule, created), init).value, ms[|ms| - 1]);
    }
  }

  lemma WholeDecision(rule: Rule, created: int, ms: seq<int>, i: nat)
    requires i < |ms|
    ensures |Whole(ms)| == |ms|
    ensures Agrees(rule, NANOS * created, Whole(ms), i)
            <==> (Decision(rule, Fresh(rule, created), ms, i) == Decision(rule, None, ms, i))
  {
    hide Gain, Nanos, Refilled;
    WholeAfter(rule, created, ms[..i]);
    assert Whole(ms)[..i] == Whole(ms[..i]);
    assert Millis(Whole(ms)) == ms;
    WholeRefill(rule, After(rule, Fresh(rule, created), ms[..i]).value, ms[i]);
  }

  /** Not created after the first call, a full bucket is as good as none. */
  lemma {:induction false} SameBucket(rule: Rule, created: int, ms: seq<int>)
    requires rule.Sensible() && ms != [] && created <= ms[0]
    ensures Refilled(rule, After(rule, Fresh(rule, created), ms[..|ms| - 1]), ms[|ms| - 1])
            == Refilled(rule, After(rule, None, ms[..|ms| - 1]), ms[|ms| - 1])
    ensures After(rule, Fresh(rule, created), ms) == After(rule, None, ms)
  {
    hide Gain;
    if |ms| > 1 {
      SameBucket(rule, created, ms[..|ms| - 1]);
    } else {
      if ms[0] > created { GainSign(rule, ms[0] - created); }
    }
  }

  /** On whole milliseconds the two limiters agree on every continuation exactly when the bucket is not created
      after the first call (or neither can ever allow one). */
  lemma WholeAgreeExactly(rule: Rule, created: int, first: int)
    requires rule.Sensible()
    ensures AgreeWhole(rule, created, first) <==> created <= first || rule.capacity < 1.0
  {
    if created <= first || rule.capacity < 1.0 {
      forall ms: seq<int>, i: nat | i < |ms| && ms[0] == first ensures Agrees(rule, NANOS * created, Whole(ms), i) {
        WholeAgreement(rule, created, ms, i);
      }
    } else {
      WholeParting(rule, created, first);
    }
  }

  lemma WholeAgreement(rule: Rule, created: int, ms: seq<int>, i: nat)
    requires rule.Sensible() && i < |ms| && (created <= ms[0] || rule.capacity < 1.0)
    ensures Agrees(rule, NANOS * created, Whole(ms), i)
  {
    hide Gain, RetryMs;
    WholeDecision(rule, created, ms, i);
    if created <= ms[0] {
      SameBucket(rule, created, ms[..i + 1]);
      assert ms[..i + 1][..i] == ms[..i];
    } else {
      NeverAllowed(rule, Fresh(rule, created), ms, i);
      NeverAllowed(rule, None, ms, i);
    }
  }

  /** Drained at the first call, the two buckets are due their next token at different times. */
  lemma WholeParted(rule: Rule, created: int, first: int) returns (ms: seq<int>, i: nat)
    requires rule.Sensible() && created > first && rule.capacity >= 1.0
    ensures i < |ms| && ms[0] == first
    ensures Decision(rule, Fresh(rule, created), ms, i) != Decision(rule, None, ms, i)
  {
    hide Gain, RetryMs, Refilled;
    var n := rule.capacity.Floor;
    var part := rule.capacity - n as real;
    WholeDrain(rule, created, first, n);
    var wait := RetryMs(rule, part);
    NextExact(rule, Hash(part, created), first + wait);
    NextExact(rule, Hash(part, first), first + wait);
    ms, i := Repeat(first, n) + [first + wait], n;
    assert ms[..n] == Repeat(first, n);
  }

  lemma WholeDrain(rule: Rule, created: int, first: int, n: nat)
    requires rule.Sensible() && created > first && n as real <= rule.capacity && n > 0
    ensures After(rule, Fresh(rule, created), Repeat(first, n)) == Some(Hash(rule.capacity - n as real, created))
    ensures After(rule, None, Repeat(first, n)) == Some(Hash(rule.capacity - n as real, first))
  {
    hide Gain;
    Drain(rule, Fresh(rule, created), [], first, created, n);
    Drain(rule, None, [], first, first, n);
    assert [] + Repeat(first, n) == Repeat(first, n);
  }

  lemma WholeParting(rule: Rule, created: int, first: int)
    requires rule.Sensible() && created > first && rule.capacity >= 1.0
    ensures !AgreeWhole(rule, created, first)
  {
    hide Agrees, Decision, Whole;
    var ms, i := WholeParted(rule, created, first);
    WholeDecision(rule, created, ms, i);
    assert !Agrees(rule, NANOS * created, Whole(ms), i);
  }
}
