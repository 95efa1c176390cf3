/** The Redis token bucket that caps the rate of Stripe calls. Tokens are reals,
    times are whole milliseconds. */
module TokenBucket {
  import opened Domain

  /** `capacity` tokens at most, `refill` tokens per second. */
  datatype Limits = Limits(capacity: nat, refill: real)

  predicate Sane(k: Limits) { k.refill > 0.0 }

  /** The two hash fields of the key. */
  datatype Bucket = Bucket(tokens: real, ts: int)

  function MinReal(a: real, b: real): real { if a <= b then a else b }

  function Ceil(x: real): int { -((-x).Floor) }

  function Max0(x: int): nat { if x < 0 then 0 else x }

  /** Tokens gained in `ms` milliseconds. */
  function Gain(k: Limits, ms: int): real { Max0(ms) as real / 1000.0 * k.refill }

  /** Tokens on hand at `now`; a missing key counts as full. */
  function Level(k: Limits, b: Option<Bucket>, now: int): real {
    match b
    case None => k.capacity as real
    case Some(Bucket(tokens, ts)) => MinReal(k.capacity as real, tokens + Gain(k, now - ts))
  }

  function Admits(k: Limits, b: Option<Bucket>, now: int): bool { Level(k, b, now) >= 1.0 }

  /** What a call leaves in the key. */
  function After(k: Limits, b: Option<Bucket>, now: int): Bucket {
    Bucket(if Admits(k, b, now) then Level(k, b, now) - 1.0 else Level(k, b, now), now)
  }

  function WaitMs(k: Limits, b: Option<Bucket>, now: int): int
    requires Sane(k)
  {
    if Admits(k, b, now) then 0 else Ceil((1.0 - Level(k, b, now)) / k.refill * 1000.0)
  }

  ghost predicate InBounds(k: Limits, b: Option<Bucket>) {
    b.Some? ==> 0.0 <= b.value.tokens <= k.capacity as real
  }

  /** The key and the script that reads, refills, spends and rewrites it. */
  class BucketKey {
    var data: Option<Bucket>

    constructor ()
      ensures data == None
    {
      data := None;
    }

    method Eval(k: Limits, now: int) returns (allowed: bool, waitMs: int)
      requires Sane(k) && InBounds(k, data)
      modifies this
      ensures InBounds(k, data)
      ensures data == Some(After(k, old(data), now))
      ensures allowed == Admits(k, old(data), now) && waitMs == WaitMs(k, old(data), now)
    {
      var tokens := if data.None? then k.capacity as real else data.value.tokens;
      var ts := if data.None? then now else data.value.ts;
      var elapsed := Max0(now - ts) as real / 1000.0;
      LevelInBounds(k, data, now);
      tokens := MinReal(k.capacity as real, tokens + elapsed * k.refill);
      allowed, waitMs := false, 0;
      if tokens >= 1.0 {
        tokens := tokens - 1.0;
        allowed := true;
      } else {
        waitMs := Ceil((1.0 - tokens) / k.refill * 1000.0);
      }
      data := Some(Bucket(tokens, now));
    }
  }

  lemma GainIsLinear(k: Limits, a: int, b: int)
    requires Sane(k) && 0 <= a && 0 <= b
    ensures 0.0 <= Gain(k, a) && 0.0 <= Gain(k, b) && Gain(k, a + b) == Gain(k, a) + Gain(k, b)
  {
    assert (a + b) as real == a as real + b as real;
    assert (a as real + b as real) / 1000.0 == a as real / 1000.0 + b as real / 1000.0;
  }

  /** No more than a full bucket and `ms` milliseconds at `refill` tokens per second. */
  predicate WithinRate(k: Limits, x: real, ms: int) {
    x <= k.capacity as real + k.refill * ms as real / 1000.0
  }

  lemma GainIsRefill(k: Limits, x: real, ms: int)
    requires ms >= 0
    ensures WithinRate(k, x, ms) <==> x <= k.capacity as real + Gain(k, ms)
  {
  }

  lemma LevelInBounds(k: Limits, b: Option<Bucket>, now: int)
    requires Sane(k) && InBounds(k, b)
    ensures 0.0 <= Level(k, b, now) <= k.capacity as real
    ensures InBounds(k, Some(After(k, b, now)))
  {
    if b.Some? {
      GainIsLinear(k, Max0(now - b.value.ts), 0);
    }
  }

  // --- runs ------------------------------------------------------------------

  /** The bucket after the first `n` calls of a run made at the given times. */
  function At(k: Limits, b: Option<Bucket>, times: seq<int>, n: nat): Option<Bucket>
    requires n <= |times|
  {
    if n == 0 then b else Some(After(k, At(k, b, times, n - 1), times[n - 1]))
  }

  /** Whether call `n` of the run is admitted. */
  predicate Admitted(k: Limits, b: Option<Bucket>, times: seq<int>, n: nat)
    requires n < |times|
  {
    Admits(k, At(k, b, times, n), times[n])
  }

  /** How many of the calls from `i` up to `j` are admitted. */
  function Count(k: Limits, b: Option<Bucket>, times: seq<int>, i: nat, j: nat): nat
    requires i <= j <= |times|
  {
    if i == j then 0 else Count(k, b, times, i, j - 1) + if Admitted(k, b, times, j - 1) then 1 else 0
  }

  ghost predicate Nondecreasing(times: seq<int>) {
    forall i, j | 0 <= i <= j < |times| :: times[i] <= times[j]
  }

  /** In every run the tokens stay between zero and the capacity. */
  lemma {:induction false} TokensStayInBounds(k: Limits, b: Option<Bucket>, times: seq<int>, n: nat)
    requires Sane(k) && InBounds(k, b) && n <= |times|
    ensures InBounds(k, At(k, b, times, n))
  {
    if n > 0 {
      TokensStayInBounds(k, b, times, n - 1);
      LevelInBounds(k, At(k, b, times, n - 1), times[n - 1]);
    }
  }

  /** Accounting from call `i` to call `j`: what is left plus what was spent is no more
      than a full bucket plus what flowed in. */
  lemma TokensAreAccountedFor(k: Limits, b: Option<Bucket>, times: seq<int>, i: nat, j: nat)
    requires Sane(k) && InBounds(k, b) && Nondecreasing(times) && i <= j < |times|
    ensures WithinRate(k, LeftAndSpent(k, b, times, i, j + 1), times[j] - times[i])
  {
    TokensAndGain(k, b, times, i, j);
    GainIsRefill(k, LeftAndSpent(k, b, times, i, j + 1), times[j] - times[i]);
  }

  /** Tokens left after the first `j` calls, and the calls admitted from `i` on. */
  function LeftAndSpent(k: Limits, b: Option<Bucket>, times: seq<int>, i: nat, j: nat): real
    requires i < j <= |times|
  {
    At(k, b, times, j).value.tokens + Count(k, b, times, i, j) as real
  }

  lemma {:induction false} TokensAndGain(k: Limits, b: Option<Bucket>, times: seq<int>, i: nat, j: nat)
    requires Sane(k) && InBounds(k, b) && Nondecreasing(times) && i <= j < |times|
    ensures LeftAndSpent(k, b, times, i, j + 1) <= k.capacity as real + Gain(k, times[j] - times[i])
    decreases j - i
  {
    TokensStayInBounds(k, b, times, j);
    LevelInBounds(k, At(k, b, times, j), times[j]);
    if i == j {
      assert Count(k, b, times, i, i + 1) == if Admitted(k, b, times, i) then 1 else 0;
    } else {
      TokensAndGain(k, b, times, i, j - 1);
      GainIsLinear(k, times[j - 1] - times[i], times[j] - times[j - 1]);
      assert At(k, b, times, j).value.ts == times[j - 1];
    }
  }

  /** The rate: the calls admitted at times within any interval of `ms` milliseconds
      number at most the capacity plus what `ms` milliseconds refill. */
  lemma RateIsBounded(k: Limits, b: Option<Bucket>, times: seq<int>, i: nat, j: nat, ms: nat)
    requires Sane(k) && InBounds(k, b) && Nondecreasing(times) && i < j <= |times|
    requires times[j - 1] - times[i] <= ms
    ensures WithinRate(k, Count(k, b, times, i, j) as real, ms)
  {
    RateAndGain(k, b, times, i, j, ms);
    GainIsRefill(k, Count(k, b, times, i, j) as real, ms);
  }

  lemma RateAndGain(k: Limits, b: Option<Bucket>, times: seq<int>, i: nat, j: nat, ms: nat)
    requires Sane(k) && InBounds(k, b) && Nondecreasing(times) && i < j <= |times|
    requires times[j - 1] - times[i] <= ms
    ensures Count(k, b, times, i, j) as real <= k.capacity as real + Gain(k, ms)
  {
    TokensAndGain(k, b, times, i, j - 1);
    TokensStayInBounds(k, b, times, j);
    var used := times[j - 1] - times[i];
    assert times[i] <= times[j - 1];
    GainIsLinear(k, used, ms - used);
    assert used + (ms - used) == ms;
  }

  /** What is left for call `n` of a bucket that was full at call `i`, if the calls since then
      never found it full again. */
  function Allowance(k: Limits, times: seq<int>, i: nat, n: nat): real
    requires i <= n < |times|
  {
    k.capacity as real + Gain(k, times[n] - times[i]) - Count(k, None, times, i, n) as real
  }

  lemma AllowanceStep(k: Limits, times: seq<int>, i: nat, n: nat)
    requires Sane(k) && Nondecreasing(times) && i < n < |times|
    ensures Allowance(k, times, i, n)
            == Allowance(k, times, i, n - 1) + Gain(k, times[n] - times[n - 1])
               - if Admitted(k, None, times, n - 1) then 1.0 else 0.0
  {
    GainIsLinear(k, times[n - 1] - times[i], times[n] - times[n - 1]);
  }

  /** The level at call `n` is the least allowance. */
  lemma {:induction false} LevelIsLeastAllowance(k: Limits, times: seq<int>, n: nat) returns (least: nat)
    requires Sane(k) && Nondecreasing(times) && n < |times|
    ensures forall i: nat | i <= n :: Level(k, At(k, None, times, n), times[n]) <= Allowance(k, times, i, n)
    ensures least <= n && Level(k, At(k, None, times, n), times[n]) == Allowance(k, times, least, n)
  {
    least := n;
    if n > 0 {
      var before := LevelIsLeastAllowance(k, times, n - 1);
      forall i: nat | i < n
        ensures Allowance(k, times, i, n)
                == Allowance(k, times, i, n - 1) + Gain(k, times[n] - times[n - 1])
                   - if Admitted(k, None, times, n - 1) then 1.0 else 0.0
      {
        AllowanceStep(k, times, i, n);
      }
      if Level(k, At(k, None, times, n), times[n]) < k.capacity as real {
        least := before;
      }
    }
  }

  /** One more call at `times[n]` keeps the calls from `i` on within the capacity plus the
      refill since then. */
  predicate RoomSince(k: Limits, times: seq<int>, i: nat, n: nat)
    requires i <= n < |times|
  {
    WithinRate(k, Count(k, None, times, i, n) as real + 1.0, times[n] - times[i])
  }

  lemma RoomIsAllowance(k: Limits, times: seq<int>, i: nat, n: nat)
    requires Nondecreasing(times) && i <= n < |times|
    ensures RoomSince(k, times, i, n) <==> Allowance(k, times, i, n) >= 1.0
  {
    GainIsRefill(k, Count(k, None, times, i, n) as real + 1.0, times[n] - times[i]);
  }

  /** The exact law from an absent key: a call is admitted if and only if there is room for
      it counted from every earlier call on. */
  lemma AdmittedIff(k: Limits, times: seq<int>, n: nat)
    requires Sane(k) && Nondecreasing(times) && n < |times|
    ensures Admitted(k, None, times, n) <==> forall i: nat | i <= n :: RoomSince(k, times, i, n)
  {
    var least := LevelIsLeastAllowance(k, times, n);
    forall i: nat | i <= n ensures RoomSince(k, times, i, n) <==> Allowance(k, times, i, n) >= 1.0 {
      RoomIsAllowance(k, times, i, n);
    }
  }

  // --- the wait --------------------------------------------------------------

  lemma CeilIsLeast(x: real, w: int)
    ensures w >= Ceil(x) <==> w as real >= x
  {
    assert (-x).Floor as real <= -x < (-x).Floor as real + 1.0;
    if w as real >= x {
      assert (-w) as real <= -x;
      assert -w <= (-x).Floor;
    }
  }

  /** After a refusal, a next call `w` milliseconds later with none in between is
      admitted iff `w` is at least the reported wait. */
  lemma WaitIsLeast(k: Limits, b: Option<Bucket>, now: int, w: nat)
    requires Sane(k) && InBounds(k, b) && k.capacity >= 1 && !Admits(k, b, now)
    ensures Admits(k, Some(After(k, b, now)), now + w) <==> w >= WaitMs(k, b, now)
    ensures WaitMs(k, b, now) > 0
  {
    LevelInBounds(k, b, now);
    var missing := 1.0 - Level(k, b, now);
    CeilIsLeast(missing / k.refill * 1000.0, w);
    CeilIsLeast(missing / k.refill * 1000.0, 0);
    ScaleWait(k.refill, missing, w as real);
    ScaleWait(k.refill, missing, 0.0);
  }

  /** A call `w` milliseconds after a refused one, with none between, would be admitted. */
  predicate AdmitsAfter(k: Limits, b: Option<Bucket>, now: int, w: nat) {
    Admits(k, Some(After(k, b, now)), now + w)
  }

  /** The reported wait tells which later call would be admitted exactly when the bucket can
      hold a token at all. */
  lemma WaitIsRightIff(k: Limits, b: Option<Bucket>, now: int)
    requires Sane(k) && InBounds(k, b) && !Admits(k, b, now)
    ensures k.capacity >= 1 <==> forall w: nat :: AdmitsAfter(k, b, now, w) <==> w >= WaitMs(k, b, now)
  {
    if k.capacity >= 1 {
      forall w: nat ensures AdmitsAfter(k, b, now, w) <==> w >= WaitMs(k, b, now) {
        WaitIsLeast(k, b, now, w);
      }
    } else {
      var w := Max0(WaitMs(k, b, now));
      LevelInBounds(k, Some(After(k, b, now)), now + w);
      LevelInBounds(k, b, now);
      assert !AdmitsAfter(k, b, now, w);
    }
  }

  lemma ScaleWait(refill: real, missing: real, w: real)
    requires refill > 0.0
    ensures w >= missing / refill * 1000.0 <==> w / 1000.0 * refill >= missing
  {
    var q := missing / refill;
    assert q * refill == missing;
    assert w / 1000.0 * refill - missing == (w / 1000.0 - q) * refill;
    if w / 1000.0 >= q {
      assert (w / 1000.0 - q) * refill >= 0.0;
    } else {
      assert (w / 1000.0 - q) * refill < 0.0;
    }
  }

  // --- refused calls leave no trace ------------------------------------------

  /** Two keys that will answer every call from `t` on alike. */
  ghost predicate Alike(k: Limits, b: Option<Bucket>, c: Option<Bucket>, t: int) {
    forall now | t <= now :: Level(k, b, now) == Level(k, c, now)
  }

  /** A refused call changes nothing a later call can see. */
  lemma RefusalIsInvisible(k: Limits, b: Option<Bucket>, t: int)
    requires Sane(k) && InBounds(k, b) && (b.Some? ==> b.value.ts <= t) && !Admits(k, b, t)
    ensures Alike(k, b, Some(After(k, b, t)), t)
  {
    LevelInBounds(k, b, t);
    forall now | t <= now ensures Level(k, b, now) == Level(k, Some(After(k, b, t)), now) {
      GainIsLinear(k, now - t, 0);
      if b.Some? {
        GainIsLinear(k, t - b.value.ts, now - t);
        assert t - b.value.ts + (now - t) == now - b.value.ts;
      }
    }
  }

  /** Keep the calls marked true. */
  function Keep(times: seq<int>, kept: seq<bool>): seq<int>
    requires |times| == |kept|
  {
    if times == [] then [] else (if kept[0] then [times[0]] else []) + Keep(times[1..], kept[1..])
  }

  /** The decisions of a run, in order. */
  function Decisions(k: Limits, b: Option<Bucket>, times: seq<int>): (d: seq<bool>)
    ensures |d| == |times|
    decreases times
  {
    if times == [] then [] else [Admits(k, b, times[0])] + Decisions(k, Some(After(k, b, times[0])), times[1..])
  }

  lemma {:induction false} DecisionsAreAdmissions(k: Limits, b: Option<Bucket>, times: seq<int>, n: nat)
    requires n < |times|
    ensures Decisions(k, b, times)[n] == Admitted(k, b, times, n)
    decreases times
  {
    if n > 0 {
      DecisionsAreAdmissions(k, Some(After(k, b, times[0])), times[1..], n - 1);
      FirstCallFirst(k, b, times, n - 1);
    }
  }

  lemma {:induction false} FirstCallFirst(k: Limits, b: Option<Bucket>, times: seq<int>, n: nat)
    requires n < |times|
    ensures At(k, b, times, n + 1) == At(k, Some(After(k, b, times[0])), times[1..], n)
  {
    if n > 0 {
      FirstCallFirst(k, b, times, n - 1);
    }
  }

  function KeepDecisions(d: seq<bool>, kept: seq<bool>): seq<bool>
    requires |d| == |kept|
  {
    if d == [] then [] else (if kept[0] then [d[0]] else []) + KeepDecisions(d[1..], kept[1..])
  }

  ghost predicate Starts(b: Option<Bucket>, times: seq<int>) {
    b.Some? && times != [] ==> b.value.ts <= times[0]
  }

  /** Take any refused calls out of a run: every other call is decided as before. */
  lemma {:induction false} RefusedCallsDoNotMatter(k: Limits, b: Option<Bucket>, c: Option<Bucket>, times: seq<int>,
                                                   kept: seq<bool>, t: int)
    requires Sane(k) && InBounds(k, b) && InBounds(k, c) && Alike(k, b, c, t)
    requires Nondecreasing(times) && Starts(b, times) && (times != [] ==> t <= times[0])
    requires |kept| == |times| && forall i | 0 <= i < |times| && !kept[i] :: !Decisions(k, b, times)[i]
    ensures Decisions(k, c, Keep(times, kept)) == KeepDecisions(Decisions(k, b, times), kept)
    decreases times
  {
    if times != [] {
      var now, rest, b' := times[0], times[1..], Some(After(k, b, times[0]));
      LevelInBounds(k, b, now);
      LevelInBounds(k, c, now);
      assert Level(k, b, now) == Level(k, c, now);
      forall i | 0 <= i < |rest| && !kept[1..][i] ensures !Decisions(k, b', rest)[i] {
        assert !kept[i + 1] && Decisions(k, b, times)[i + 1] == Decisions(k, b', rest)[i];
      }
      if kept[0] {
        RefusedCallsDoNotMatter(k, b', b', rest, kept[1..], now);
        assert Keep(times, kept) == [now] + Keep(rest, kept[1..]);
      } else {
        assert !Decisions(k, b, times)[0];
        RefusalIsInvisible(k, b, now);
        assert Alike(k, b', c, now);
        RefusedCallsDoNotMatter(k, b', c, rest, kept[1..], now);
        assert Keep(times, kept) == Keep(rest, kept[1..]);
      }
    }
  }

  // --- the expiring key ------------------------------------------------------

  /** One call: the caller's clock, and Redis's clock when the script runs. */
  datatype Call = Call(now: int, redis: int)

  /** A key with the Redis time its expiry was set to. */
  datatype ExpiringKey = ExpiringKey(bucket: Bucket, deadline: int)

  function Ttl(k: Limits): int
    requires Sane(k)
  {
    Ceil(k.capacity as real / k.refill * 1000.0) + 5000
  }

  function Visible(e: Option<ExpiringKey>, redis: int): Option<Bucket> {
    if e.Some? && !KeyExpired(redis, e.value.deadline) then Some(e.value.bucket) else None
  }

  function ExpiringAt(k: Limits, calls: seq<Call>, n: nat): Option<ExpiringKey>
    requires Sane(k) && n <= |calls|
  {
    if n == 0 then None
    else
      var call := calls[n - 1];
      Some(ExpiringKey(After(k, Visible(ExpiringAt(k, calls, n - 1), call.redis), call.now), call.redis + Ttl(k)))
  }

  function Times(calls: seq<Call>): seq<int> { seq(|calls|, i requires 0 <= i < |calls| => calls[i].now) }

  /** Between one call and the next, Redis's clock gains at most 5 s on the caller's. */
  ghost predicate SkewBounded(calls: seq<Call>) {
    forall i | 0 < i < |calls| :: calls[i].redis - calls[i - 1].redis <= calls[i].now - calls[i - 1].now + 5000
  }

  /** By the time the key may be gone, the bucket would be full again anyway. */
  lemma ExpiredIsFull(k: Limits, b: Bucket, now: int)
    requires Sane(k) && InBounds(k, Some(b)) && now - b.ts >= Ttl(k) - 5000
    ensures Level(k, Some(b), now) == Level(k, None, now)
  {
    var full := k.capacity as real;
    CeilIsLeast(full / k.refill * 1000.0, now - b.ts);
    CeilIsLeast(full / k.refill * 1000.0, 0);
    ScaleWait(k.refill, full, (now - b.ts) as real);
    assert full / k.refill >= 0.0;
    assert Max0(now - b.ts) == now - b.ts by {
      CeilIsLeast(full / k.refill * 1000.0, -1);
    }
  }

  /** The key that expires decides every call as one that never does, and holds the
      same fields after it, whatever the two clocks read, within the skew. */
  lemma {:induction false} ExpiryIsInvisible(k: Limits, calls: seq<Call>, n: nat)
    requires Sane(k) && SkewBounded(calls) && n < |calls|
    ensures Admits(k, Visible(ExpiringAt(k, calls, n), calls[n].redis), calls[n].now)
            == Admitted(k, None, Times(calls), n)
    ensures Some(ExpiringAt(k, calls, n + 1).value.bucket) == At(k, None, Times(calls), n + 1)
  {
    if n > 0 {
      ExpiryIsInvisible(k, calls, n - 1);
      var b := ExpiringAt(k, calls, n).value.bucket;
      TokensStayInBounds(k, None, Times(calls), n);
      if KeyExpired(calls[n].redis, calls[n - 1].redis + Ttl(k)) {
        ExpiredIsFull(k, b, calls[n].now);
      }
    }
  }
}
