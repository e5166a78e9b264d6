/** The token bucket of server/middleware/rate-limit.ts: one bucket's arithmetic, its grants over any
    window, and the Redis twin whose keys expire.

    The bucket is first described over an arbitrary earning function (tokens earned in so many
    milliseconds); `Earned(limit)` is the one the code uses. */
module TokenBucket {
  import opened Basics

  datatype Limit = Limit(capacity: real, refillPerSec: real)
  datatype Bucket = Bucket(tokens: real, updatedMs: int)
  datatype Answer = Answer(ok: bool, retryAfterMs: int)
  type Earning = int -> real

  predicate ValidLimit(limit: Limit) {
    limit.capacity > 0.0 && limit.refillPerSec > 0.0
  }

  function Ceil(x: real): int {
    -((-x).Floor)
  }

  function Earned(limit: Limit): Earning {
    (ms: int) => (ms as real / 1000.0) * limit.refillPerSec
  }

  /** Tokens on hand at `now`, before the take. */
  function Available(b: Option<Bucket>, capacity: real, earn: Earning, now: int): real {
    if b.None? then capacity
    else Min(capacity, b.value.tokens + earn(if now > b.value.updatedMs then now - b.value.updatedMs else 0))
  }

  function Draw(b: Option<Bucket>, capacity: real, earn: Earning, now: int): (Bucket, bool) {
    var tokens := Available(b, capacity, earn, now);
    if tokens < 1.0 then (Bucket(tokens, now), false) else (Bucket(tokens - 1.0, now), true)
  }

  function RetryAfterMs(tokens: real, limit: Limit): int
    requires ValidLimit(limit)
  {
    Ceil((1.0 - tokens) / limit.refillPerSec * 1000.0)
  }

  /** MemoryRateLimitStore.take on the key's own bucket. */
  function Take(b: Option<Bucket>, limit: Limit, now: int): (Bucket, Answer)
    requires ValidLimit(limit)
  {
    var (b', ok) := Draw(b, limit.capacity, Earned(limit), now);
    (b', if ok then Answer(true, 0) else Answer(false, RetryAfterMs(b'.tokens, limit)))
  }

  ghost predicate Sound(b: Option<Bucket>, capacity: real) {
    b.Some? ==> 0.0 <= b.value.tokens <= capacity
  }

  ghost predicate NonNegative(earn: Earning) {
    forall ms :: ms >= 0 ==> earn(ms) >= 0.0
  }

  lemma DrawSound(b: Option<Bucket>, capacity: real, earn: Earning, now: int)
    requires capacity > 0.0 && NonNegative(earn) && Sound(b, capacity)
    ensures 0.0 <= Available(b, capacity, earn, now) <= capacity
    ensures Sound(Some(Draw(b, capacity, earn, now).0), capacity)
  {
  }

  lemma EarnedNonNegative(limit: Limit)
    requires ValidLimit(limit)
    ensures NonNegative(Earned(limit))
  {
    forall ms | ms >= 0 ensures Earned(limit)(ms) >= 0.0 {
      MulMonotone(0.0, ms as real / 1000.0, limit.refillPerSec);
    }
  }

  lemma MulMonotone(x: real, y: real, z: real)
    requires x <= y && z >= 0.0
    ensures x * z <= y * z
  {
  }

  // ------------------------------------------------------------------ grants in a window

  predicate NonDecreasing(times: seq<int>) {
    forall i, j :: 0 <= i < j < |times| ==> times[i] <= times[j]
  }

  function Run(b: Option<Bucket>, capacity: real, earn: Earning, times: seq<int>): Option<Bucket>
    decreases |times|
  {
    if times == [] then b else Run(Some(Draw(b, capacity, earn, times[0]).0), capacity, earn, times[1..])
  }

  function Grants(b: Option<Bucket>, capacity: real, earn: Earning, times: seq<int>): nat
    decreases |times|
  {
    if times == [] then 0
    else
      var (b', ok) := Draw(b, capacity, earn, times[0]);
      (if ok then 1 else 0) + Grants(Some(b'), capacity, earn, times[1..])
  }

  /** What is earned between consecutive requests. */
  function EarnedBetween(earn: Earning, times: seq<int>): real {
    if |times| < 2 then 0.0 else earn(times[1] - times[0]) + EarnedBetween(earn, times[1..])
  }

  lemma {:induction false} GrantsBounded(b: Option<Bucket>, capacity: real, earn: Earning, times: seq<int>)
    requires capacity > 0.0 && NonNegative(earn) && Sound(b, capacity) && NonDecreasing(times) && times != []
    ensures Grants(b, capacity, earn, times) as real <=
      Available(b, capacity, earn, times[0]) + EarnedBetween(earn, times)
    decreases |times|
  {
    DrawSound(b, capacity, earn, times[0]);
    var (b', ok) := Draw(b, capacity, earn, times[0]);
    if |times| > 1 {
      GrantsBounded(Some(b'), capacity, earn, times[1..]);
    }
  }

  lemma {:induction false} RunSound(b: Option<Bucket>, capacity: real, earn: Earning, times: seq<int>)
    requires capacity > 0.0 && NonNegative(earn) && Sound(b, capacity)
    ensures Sound(Run(b, capacity, earn, times), capacity)
    decreases |times|
  {
    if times != [] {
      DrawSound(b, capacity, earn, times[0]);
      RunSound(Some(Draw(b, capacity, earn, times[0]).0), capacity, earn, times[1..]);
    }
  }

  lemma {:induction false} EarnedTelescopes(limit: Limit, times: seq<int>)
    requires times != []
    ensures EarnedBetween(Earned(limit), times) == Earned(limit)(times[|times| - 1] - times[0])
  {
    if |times| > 1 {
      EarnedTelescopes(limit, times[1..]);
      EarnedAdds(limit, times[1] - times[0], times[|times| - 1] - times[1]);
    }
  }

  lemma EarnedAdds(limit: Limit, a: int, b: int)
    ensures Earned(limit)(a) + Earned(limit)(b) == Earned(limit)(a + b)
  {
    Distribute(limit.refillPerSec, a as real / 1000.0, b as real / 1000.0);
    assert (a + b) as real / 1000.0 == a as real / 1000.0 + b as real / 1000.0;
  }

  /** Tokens refilled in so many milliseconds, at so many a second. */
  function Refill(limit: Limit, ms: int): real {
    limit.refillPerSec * ms as real / 1000.0
  }

  lemma EarnedIsRefill(limit: Limit, ms: int)
    ensures Earned(limit)(ms) == Refill(limit, ms)
  {
  }

  /** From a sound bucket, over non-decreasing times. */
  lemma SoundWindow(limit: Limit, b: Option<Bucket>, times: seq<int>)
    requires ValidLimit(limit) && Sound(b, limit.capacity) && NonDecreasing(times) && times != []
    ensures Grants(b, limit.capacity, Earned(limit), times) as real
      <= limit.capacity + Refill(limit, times[|times| - 1] - times[0])
  {
    hide Grants;
    EarnedIsRefill(limit, times[|times| - 1] - times[0]);
    EarnedNonNegative(limit);
    GrantsBounded(b, limit.capacity, Earned(limit), times);
    DrawSound(b, limit.capacity, Earned(limit), times[0]);
    EarnedTelescopes(limit, times);
  }

  /** Main result: for a stored key and non-decreasing request times, the requests granted between
      any two of them number at most the capacity plus the refill over that time. */
  lemma WindowBound(limit: Limit, times: seq<int>, i: nat, j: nat)
    requires ValidLimit(limit) && NonDecreasing(times) && i < j <= |times|
    ensures var b := Run(None, limit.capacity, Earned(limit), times[..i]);
      Grants(b, limit.capacity, Earned(limit), times[i..j]) as real
        <= limit.capacity + Refill(limit, times[j - 1] - times[i])
  {
    EarnedNonNegative(limit);
    RunSound(None, limit.capacity, Earned(limit), times[..i]);
    SoundWindow(limit, Run(None, limit.capacity, Earned(limit), times[..i]), times[i..j]);
  }

  // ------------------------------------------------------------------ which requests are granted

  /** No stretch of the requests asks for more than the capacity plus the refill over its time. */
  ghost predicate Conforms(limit: Limit, times: seq<int>) {
    forall i, j | 0 <= i <= j < |times| ::
      (j - i + 1) as real <= limit.capacity + Refill(limit, times[j] - times[i])
  }

  /** The same for the stretches from the first request on, with `x` tokens on hand at it. */
  ghost predicate ConformsFrom(limit: Limit, x: real, times: seq<int>) {
    forall j | 0 <= j < |times| :: (j + 1) as real <= x + Refill(limit, times[j] - times[0])
  }

  lemma RefillAdds(limit: Limit, a: int, b: int, c: int)
    ensures Refill(limit, b - a) + Refill(limit, c - b) == Refill(limit, c - a)
  {
  }

  lemma ConformingTail(limit: Limit, x: real, times: seq<int>)
    requires |times| > 1 && Conforms(limit, times) && ConformsFrom(limit, x, times)
    ensures Conforms(limit, times[1..])
    ensures ConformsFrom(limit, Min(limit.capacity, x - 1.0 + Refill(limit, times[1] - times[0])), times[1..])
  {
    hide Refill;
    var rest, gap := times[1..], Refill(limit, times[1] - times[0]);
    forall i, j | 0 <= i <= j < |rest|
      ensures (j - i + 1) as real <= limit.capacity + Refill(limit, rest[j] - rest[i])
    {
      assert rest[i] == times[i + 1] && rest[j] == times[j + 1];
      var i', j' := i + 1, j + 1;
      assert (j' - i' + 1) as real <= limit.capacity + Refill(limit, times[j'] - times[i']);
    }
    forall j | 0 <= j < |rest|
      ensures (j + 1) as real <= Min(limit.capacity, x - 1.0 + gap) + Refill(limit, rest[j] - rest[0])
    {
      var j' := j + 1;
      assert rest[j] == times[j'] && rest[0] == times[1];
      RefillAdds(limit, times[0], times[1], times[j']);
      assert (j' - 1 + 1) as real <= limit.capacity + Refill(limit, times[j'] - times[1]);
      assert (j' + 1) as real <= x + Refill(limit, times[j'] - times[0]);
    }
  }

  lemma {:induction false} ConformingAreGranted(limit: Limit, b: Option<Bucket>, times: seq<int>)
    requires ValidLimit(limit) && NonDecreasing(times) && Conforms(limit, times)
    requires times != [] ==> ConformsFrom(limit, Available(b, limit.capacity, Earned(limit), times[0]), times)
    ensures Grants(b, limit.capacity, Earned(limit), times) == |times|
    decreases |times|
  {
    if times != [] {
      hide Refill, Earned, Conforms;
      var x := Available(b, limit.capacity, Earned(limit), times[0]);
      RefillNothing(limit, times[0]);
      var (b', ok) := Draw(b, limit.capacity, Earned(limit), times[0]);
      assert ok && b' == Bucket(x - 1.0, times[0]);
      if |times| > 1 {
        ConformingTail(limit, x, times);
        EarnedIsRefill(limit, times[1] - times[0]);
        RefillNothing(limit, times[0]);
        EarnedIsRefill(limit, 0);
      } else {
        NothingConforms(limit, times);
      }
      ConformingAreGranted(limit, Some(b'), times[1..]);
    }
  }

  lemma NothingConforms(limit: Limit, times: seq<int>)
    requires |times| == 1
    ensures Conforms(limit, times[1..])
  {
  }

  lemma RefillNothing(limit: Limit, t: int)
    ensures Refill(limit, t - t) == 0.0
  {
  }

  lemma {:induction false} GrantsOfPrefix(b: Option<Bucket>, capacity: real, earn: Earning, times: seq<int>, k: nat)
    requires k <= |times|
    ensures Grants(b, capacity, earn, times) ==
      Grants(b, capacity, earn, times[..k]) + Grants(Run(b, capacity, earn, times[..k]), capacity, earn, times[k..])
    ensures Grants(b, capacity, earn, times) <= |times|
    decreases |times|
  {
    if times != [] {
      var b' := Some(Draw(b, capacity, earn, times[0]).0);
      if k > 0 {
        assert times[..k][1..] == times[1..][..k - 1] && times[1..][k - 1..] == times[k..];
        GrantsOfPrefix(b', capacity, earn, times[1..], k - 1);
      } else {
        assert times[..0] == [] && times[0..] == times;
        GrantsOfPrefix(b', capacity, earn, times[1..], 0);
      }
    }
  }

  /** When all requests are granted so are those of any stretch. */
  lemma StretchGranted(b: Option<Bucket>, capacity: real, earn: Earning, times: seq<int>, i: nat, j: nat)
    requires i <= j <= |times| && Grants(b, capacity, earn, times) == |times|
    ensures Grants(Run(b, capacity, earn, times[..i]), capacity, earn, times[i..j]) == j - i
  {
    hide Grants, Run;
    var b' := Run(b, capacity, earn, times[..i]);
    GrantsOfPrefix(b, capacity, earn, times, i);
    GrantsOfPrefix(b, capacity, earn, times[..i], i);
    GrantsOfPrefix(b', capacity, earn, times[i..], j - i);
    assert times[i..][..j - i] == times[i..j];
    GrantsOfPrefix(b', capacity, earn, times[i..j], j - i);
    GrantsOfPrefix(Run(b', capacity, earn, times[i..j]), capacity, earn, times[i..][j - i..], 0);
  }

  lemma FullIsConforming(limit: Limit, times: seq<int>)
    requires Conforms(limit, times)
    ensures ConformsFrom(limit, limit.capacity, times)
  {
    forall j | 0 <= j < |times| ensures (j + 1) as real <= limit.capacity + Refill(limit, times[j] - times[0]) {
      assert (j - 0 + 1) as real <= limit.capacity + Refill(limit, times[j] - times[0]);
    }
  }

  lemma GrantedStretch(limit: Limit, times: seq<int>, i: nat, j: nat)
    requires ValidLimit(limit) && NonDecreasing(times) && i <= j < |times|
    requires Grants(None, limit.capacity, Earned(limit), times) == |times|
    ensures (j - i + 1) as real <= limit.capacity + Refill(limit, times[j] - times[i])
  {
    hide Grants, Earned, Refill, Run, NonDecreasing;
    StretchGranted(None, limit.capacity, Earned(limit), times, i, j + 1);
    WindowBound(limit, times, i, j + 1);
  }

  /** Main result, exactly who is never refused: requests for a new key in time order are all granted if and
      only if no stretch of them asks for more than the capacity plus the refill over its time. */
  lemma AllGrantedExactly(limit: Limit, times: seq<int>)
    requires ValidLimit(limit) && NonDecreasing(times)
    ensures Grants(None, limit.capacity, Earned(limit), times) == |times| <==> Conforms(limit, times)
  {
    hide Grants, Earned, Refill, NonDecreasing;
    if Conforms(limit, times) {
      FullIsConforming(limit, times);
      ConformingAreGranted(limit, None, times);
    }
    if Grants(None, limit.capacity, Earned(limit), times) == |times| {
      forall i, j | 0 <= i <= j < |times|
        ensures (j - i + 1) as real <= limit.capacity + Refill(limit, times[j] - times[i])
      {
        GrantedStretch(limit, times, i, j);
      }
    }
  }

  // ------------------------------------------------------------------ the delay is honest

  lemma DelayEarnsTheRest(reported: real, limit: Limit, delay: int)
    requires ValidLimit(limit) && delay >= RetryAfterMs(reported, limit)
    ensures Earned(limit)(delay) >= 1.0 - reported
  {
    var needed := (1.0 - reported) / limit.refillPerSec;
    assert delay as real >= needed * 1000.0;
    assert delay as real / 1000.0 >= needed;
    MulMonotone(needed, delay as real / 1000.0, limit.refillPerSec);
    assert needed * limit.refillPerSec == 1.0 - reported;
  }

  /** And no whole millisecond less does. */
  lemma LessEarnsLess(reported: real, limit: Limit, delay: int)
    requires ValidLimit(limit) && delay < RetryAfterMs(reported, limit)
    ensures Earned(limit)(delay) < 1.0 - reported
  {
    var needed := (1.0 - reported) / limit.refillPerSec;
    assert needed * limit.refillPerSec == 1.0 - reported;
    assert delay as real < needed * 1000.0;
    LessTimes(delay as real / 1000.0, needed, limit.refillPerSec);
  }

  lemma LessTimes(x: real, y: real, z: real)
    requires x < y && z > 0.0
    ensures x * z < y * z
  {
  }

  lemma DelayIsPositive(reported: real, limit: Limit)
    requires ValidLimit(limit) && reported < 1.0
    ensures RetryAfterMs(reported, limit) > 0
  {
    assert (1.0 - reported) / limit.refillPerSec > 0.0;
  }

  /** An answer says what became of the request: granted, with no delay, or refused, with a positive one. */
  lemma AnswersAreGrants(b: Option<Bucket>, stored: Option<Stored>, limit: Limit, now: int, gone: bool)
    requires ValidLimit(limit)
    ensures var answer := Take(b, limit, now).1;
      && (answer.ok <==> Grants(b, limit.capacity, Earned(limit), [now]) == 1)
      && (if answer.ok then answer.retryAfterMs == 0 else answer.retryAfterMs > 0)
    ensures var answer := RedisTake(stored, limit, now, gone).1;
      && [answer.ok] == RedisGrants(stored, limit.capacity, Earned(limit), TtlMs(limit), [Request(now, gone)])
      && (if answer.ok then answer.retryAfterMs == 0 else answer.retryAfterMs > 0)
  {
    hide Earned, RetryAfterMs, TtlMs, MilliTokens;
    if !Take(b, limit, now).1.ok { DelayIsPositive(Take(b, limit, now).0.tokens, limit); }
    var left := RedisTake(stored, limit, now, gone).0;
    FloorReports(left.tokens);
    if !RedisTake(stored, limit, now, gone).1.ok { DelayIsPositive(MilliTokens(left.tokens) as real / 1000.0, limit); }
    assert [now][1..] == [] && [Request(now, gone)][1..] == [];
  }

  /** Main result, memory store: a refused caller that comes back, with no other take on the key, is granted
      exactly when the bucket can hold a whole token and the reported delay is over: the delay is the
      least whole number of milliseconds that will do. */
  lemma RefusedThenGranted(b: Option<Bucket>, limit: Limit, now: int, later: int)
    requires ValidLimit(limit) && !Take(b, limit, now).1.ok
    ensures Take(Some(Take(b, limit, now).0), limit, later).1.ok
      <==> limit.capacity >= 1.0 && later >= now + Take(b, limit, now).1.retryAfterMs
  {
    hide Earned, RetryAfterMs;
    var left := Take(b, limit, now).0;
    DelayIsPositive(left.tokens, limit);
    if later >= now + RetryAfterMs(left.tokens, limit) {
      DelayEarnsTheRest(left.tokens, limit, later - now);
      GrantedOnceEarned(left, limit.capacity, Earned(limit), later);
    } else {
      LessEarnsLess(left.tokens, limit, if later > now then later - now else 0);
    }
  }

  lemma GrantedOnceEarned(left: Bucket, capacity: real, earn: Earning, later: int)
    requires later > left.updatedMs && earn(later - left.updatedMs) >= 1.0 - left.tokens
    ensures Draw(Some(left), capacity, earn, later).1 <==> capacity >= 1.0
  {
  }

  // ------------------------------------------------------------------ Redis expiry

  datatype Stored = Stored(tokens: real, updatedMs: int, expiresAtMs: int)

  function TtlMs(limit: Limit): int
    requires ValidLimit(limit)
  {
    Ceil(limit.capacity / limit.refillPerSec * 1000.0) + 1000
  }

  /** TOKEN_BUCKET_LUA; `gone` says Redis had expired the key by now. */
  function Script(stored: Option<Stored>, capacity: real, earn: Earning, ttl: int, now: int,
                  gone: bool): (Stored, bool) {
    var tokens :=
      if stored.None? || gone then capacity
      else
        var elapsedMs := if now > stored.value.updatedMs then now - stored.value.updatedMs else 0;
        Min(capacity, stored.value.tokens + earn(elapsedMs));
    var allowed := tokens >= 1.0;
    (Stored(if allowed then tokens - 1.0 else tokens, now, now + ttl), allowed)
  }

  /** Tokens as the Lua script reports them: thousandths, rounded down. */
  function MilliTokens(tokens: real): int {
    (tokens * 1000.0).Floor
  }

  function RedisTake(stored: Option<Stored>, limit: Limit, now: int, gone: bool): (Stored, Answer)
    requires ValidLimit(limit)
  {
    var (s, allowed) := Script(stored, limit.capacity, Earned(limit), TtlMs(limit), now, gone);
    (s, if allowed then Answer(true, 0) else Answer(false, RetryAfterMs(MilliTokens(s.tokens) as real / 1000.0, limit)))
  }

  /** Main result, Redis store: the same through the script's record and its floored milli-tokens, whether
      or not Redis expires the key before the refusal or before the return. */
  lemma RedisRefusedThenGranted(stored: Option<Stored>, limit: Limit, now: int, later: int, gone: bool, goneLater: bool)
    requires ValidLimit(limit) && !RedisTake(stored, limit, now, gone).1.ok
    requires later >= now + RedisTake(stored, limit, now, gone).1.retryAfterMs
    ensures RedisTake(Some(RedisTake(stored, limit, now, gone).0), limit, later, goneLater).1.ok
      <==> limit.capacity >= 1.0
  {
    var left := RedisTake(stored, limit, now, gone).0;
    var reported := MilliTokens(left.tokens) as real / 1000.0;
    FloorReports(left.tokens);
    DelayEarnsTheRest(reported, limit, later - now);
    DelayIsPositive(reported, limit);
    ScriptGrantsOnceEarned(left, limit.capacity, Earned(limit), TtlMs(limit), later, goneLater);
  }

  lemma FloorReports(tokens: real)
    ensures MilliTokens(tokens) as real / 1000.0 <= tokens < MilliTokens(tokens) as real / 1000.0 + 0.001
  {
  }

  /** The reported delay exceeds the least one that would do by less than a millisecond for rounding up plus
      the time a thousandth of a token takes. */
  lemma ReportedDelay(tokens: real, limit: Limit)
    requires ValidLimit(limit)
    ensures RetryAfterMs(MilliTokens(tokens) as real / 1000.0, limit) as real
      < RetryAfterMs(tokens, limit) as real + 1.0 + 1.0 / limit.refillPerSec
  {
    var reported := MilliTokens(tokens) as real / 1000.0;
    FloorReports(tokens);
    var told, least := (1.0 - reported) / limit.refillPerSec, (1.0 - tokens) / limit.refillPerSec;
    assert (told - least) * limit.refillPerSec == tokens - reported;
    assert 0.001 / limit.refillPerSec * limit.refillPerSec == 0.001;
    if told - least >= 0.001 / limit.refillPerSec {
      MulMonotone(0.001 / limit.refillPerSec, told - least, limit.refillPerSec);
      assert false;
    }
    assert 0.001 / limit.refillPerSec * 1000.0 == 1.0 / limit.refillPerSec;
  }

  lemma ReportedNotShorter(tokens: real, limit: Limit)
    requires ValidLimit(limit)
    ensures RetryAfterMs(tokens, limit) <= RetryAfterMs(MilliTokens(tokens) as real / 1000.0, limit)
  {
    hide Earned, RetryAfterMs;
    var told := RetryAfterMs(MilliTokens(tokens) as real / 1000.0, limit);
    FloorReports(tokens);
    DelayEarnsTheRest(MilliTokens(tokens) as real / 1000.0, limit, told);
    if told < RetryAfterMs(tokens, limit) { LessEarnsLess(tokens, limit, told); }
  }

  /** Who waits for a whole token from a sound record never finds it expired early. */
  lemma RedisReturns(left: Stored, limit: Limit, later: int, gone: bool)
    requires ValidLimit(limit) && 0.0 <= left.tokens < 1.0
    requires left.expiresAtMs == left.updatedMs + TtlMs(limit) && CanBeGone(Some(left), Request(later, gone))
    ensures RedisTake(Some(left), limit, later, gone).1.ok
      <==> limit.capacity >= 1.0 && later >= left.updatedMs + RetryAfterMs(left.tokens, limit)
  {
    hide Earned, RetryAfterMs, TtlMs;
    DelayIsPositive(left.tokens, limit);
    ExpiredMeansFull(limit);
    var elapsed := if later > left.updatedMs then later - left.updatedMs else 0;
    if later >= left.updatedMs + RetryAfterMs(left.tokens, limit) {
      DelayEarnsTheRest(left.tokens, limit, elapsed);
      ScriptGrantsOnceEarned(left, limit.capacity, Earned(limit), TtlMs(limit), later, gone);
    } else {
      LessEarnsLess(left.tokens, limit, elapsed);
    }
  }

  /** Main result, Redis store: how honest the reported delay is. There is a least delay at which the refused
      caller is granted, and only then; the reported one is no shorter, and longer by less than one
      millisecond for rounding up plus 1 / refillPerSec milliseconds, the time a thousandth of a token takes. */
  lemma RedisRetryExactly(stored: Option<Stored>, limit: Limit, now: int, gone: bool) returns (least: int)
    requires ValidLimit(limit) && (stored.Some? ==> stored.value.tokens >= 0.0)
    requires !RedisTake(stored, limit, now, gone).1.ok
    ensures var (left, answer) := RedisTake(stored, limit, now, gone);
      && least <= answer.retryAfterMs
      && answer.retryAfterMs as real < least as real + 1.0 + 1.0 / limit.refillPerSec
      && forall later, goneLater | CanBeGone(Some(left), Request(later, goneLater)) ::
           RedisTake(Some(left), limit, later, goneLater).1.ok <==> limit.capacity >= 1.0 && later >= now + least
  {
    hide RetryAfterMs, MilliTokens, TtlMs;
    var left := RedisTake(stored, limit, now, gone).0;
    least := RetryAfterMs(left.tokens, limit);
    ReportedNotShorter(left.tokens, limit);
    ReportedDelay(left.tokens, limit);
    EarnedNonNegative(limit);
    hide Earned, RedisTake;
    forall later, goneLater | CanBeGone(Some(left), Request(later, goneLater))
      ensures RedisTake(Some(left), limit, later, goneLater).1.ok <==> limit.capacity >= 1.0 && later >= now + least
    {
      RedisReturns(left, limit, later, goneLater);
    }
  }

  lemma ScriptGrantsOnceEarned(left: Stored, capacity: real, earn: Earning, ttl: int, later: int, gone: bool)
    requires later > left.updatedMs && earn(later - left.updatedMs) >= 1.0 - left.tokens
    ensures Script(Some(left), capacity, earn, ttl, later, gone).1 <==> capacity >= 1.0
  {
  }

  datatype Request = Request(nowMs: int, gone: bool)

  /** A key can only be gone once its time to live is over, on the one clock. */
  ghost predicate CanBeGone(stored: Option<Stored>, r: Request) {
    r.gone ==> stored.Some? && r.nowMs >= stored.value.expiresAtMs
  }

  /** No request finds a key expired before its time. */
  ghost predicate Punctual(stored: Option<Stored>, capacity: real, earn: Earning, ttl: int, requests: seq<Request>)
    decreases |requests|
  {
    requests != [] ==>
      && CanBeGone(stored, requests[0])
      && Punctual(Some(Script(stored, capacity, earn, ttl, requests[0].nowMs, requests[0].gone).0),
                  capacity, earn, ttl, requests[1..])
  }

  function RedisGrants(stored: Option<Stored>, capacity: real, earn: Earning, ttl: int,
                       requests: seq<Request>): seq<bool>
    decreases |requests|
  {
    if requests == [] then []
    else
      var (s, ok) := Script(stored, capacity, earn, ttl, requests[0].nowMs, requests[0].gone);
      [ok] + RedisGrants(Some(s), capacity, earn, ttl, requests[1..])
  }

  /** The same requests on a memory bucket that is never evicted. */
  function MemoryGrants(b: Option<Bucket>, capacity: real, earn: Earning, requests: seq<Request>): seq<bool>
    decreases |requests|
  {
    if requests == [] then []
    else
      var (b', ok) := Draw(b, capacity, earn, requests[0].nowMs);
      [ok] + MemoryGrants(Some(b'), capacity, earn, requests[1..])
  }

  ghost predicate SameBucket(stored: Option<Stored>, b: Option<Bucket>, ttl: int) {
    if stored.None? then b.None?
    else
      && b == Some(Bucket(stored.value.tokens, stored.value.updatedMs))
      && stored.value.expiresAtMs == stored.value.updatedMs + ttl
  }

  ghost predicate FullAfter(earn: Earning, ttl: int, capacity: real) {
    ttl > 0 && forall ms :: ms >= ttl ==> earn(ms) >= capacity
  }

  lemma {:induction false} ExpiryIsUnobservableOf(
    stored: Option<Stored>, b: Option<Bucket>, capacity: real, earn: Earning, ttl: int, requests: seq<Request>)
    requires capacity > 0.0 && NonNegative(earn) && FullAfter(earn, ttl, capacity)
    requires SameBucket(stored, b, ttl) && Sound(b, capacity) && Punctual(stored, capacity, earn, ttl, requests)
    ensures RedisGrants(stored, capacity, earn, ttl, requests) == MemoryGrants(b, capacity, earn, requests)
    decreases |requests|
  {
    if requests != [] {
      var r := requests[0];
      DrawSound(b, capacity, earn, r.nowMs);
      ExpiryIsUnobservableOf(Some(Script(stored, capacity, earn, ttl, r.nowMs, r.gone).0),
                             Some(Draw(b, capacity, earn, r.nowMs).0), capacity, earn, ttl, requests[1..]);
    }
  }

  /** By the time a key may expire it would have earned its whole capacity. */
  lemma ExpiredMeansFull(limit: Limit)
    requires ValidLimit(limit)
    ensures FullAfter(Earned(limit), TtlMs(limit), limit.capacity)
  {
    var needed := limit.capacity / limit.refillPerSec;
    assert needed > 0.0;
    assert needed * limit.refillPerSec == limit.capacity;
    assert Ceil(needed * 1000.0) as real >= needed * 1000.0 > 0.0;
    forall ms | ms >= TtlMs(limit) ensures Earned(limit)(ms) >= limit.capacity {
      assert ms as real / 1000.0 >= needed;
      MulMonotone(needed, ms as real / 1000.0, limit.refillPerSec);
    }
  }

  /** Not a millisecond earlier, but for the one second added: the time to live is the least that does. */
  lemma TimeToLiveIsLeast(limit: Limit, ms: int)
    requires ValidLimit(limit)
    ensures Earned(limit)(ms) >= limit.capacity <==> ms >= TtlMs(limit) - 1000
  {
    var needed := limit.capacity / limit.refillPerSec;
    assert needed * limit.refillPerSec == limit.capacity;
    if ms >= TtlMs(limit) - 1000 {
      assert ms as real / 1000.0 >= needed;
      MulMonotone(needed, ms as real / 1000.0, limit.refillPerSec);
    } else {
      assert ms as real < needed * 1000.0;
      LessTimes(ms as real / 1000.0, needed, limit.refillPerSec);
    }
  }

  /** Main result: expiry is unobservable. Whichever keys Redis expires once it may, the requests
      granted are exactly those the never-evicting memory bucket grants. */
  lemma ExpiryIsUnobservable(limit: Limit, requests: seq<Request>)
    requires ValidLimit(limit)
    requires Punctual(None, limit.capacity, Earned(limit), TtlMs(limit), requests)
    ensures RedisGrants(None, limit.capacity, Earned(limit), TtlMs(limit), requests)
         == MemoryGrants(None, limit.capacity, Earned(limit), requests)
  {
    EarnedNonNegative(limit);
    ExpiredMeansFull(limit);
    ExpiryIsUnobservableOf(None, None, limit.capacity, Earned(limit), TtlMs(limit), requests);
  }
}
