/**
  The Redis token bucket: the atomic script, its policies, and what a sequence of calls to one
  bucket can and cannot get. Times and tokens are exact reals.
*/
module TokenBucket {

  datatype Policy = Policy(capacity: real, rate: real, ttl: real)

  const MESSAGE_SEND := Policy(20.0, 10.0 / 10.0, 60.0)
  const AUTH := Policy(5.0, 5.0 / 300.0, 600.0)
  const MEDIA_UPLOAD := Policy(20.0, 20.0 / 60.0, 120.0)
  const GENERAL_READ := Policy(60.0, 60.0 / 60.0, 120.0)

  /** The stored hash `{tokens, ts}`; `Cold` is a key that does not exist. */
  datatype Bucket = Cold | Warm(tokens: real, ts: real)

  datatype Decision = Decision(allowed: bool, retryAfter: int)

  function Min(a: real, b: real): real {
    if a <= b then a else b
  }

  function Max(a: int, b: int): int {
    if a >= b then a else b
  }

  function Ceil(x: real): (n: int)
    ensures x <= n as real < x + 1.0
  {
    -((-x).Floor)
  }

  /** Tokens available at `now`, before the call takes any. A clock that went back refills nothing. */
  function Available(b: Bucket, p: Policy, now: real): real {
    if b.Cold? then Min(p.capacity, p.capacity)
    else Min(p.capacity, b.tokens + (if now - b.ts < 0.0 then 0.0 else now - b.ts) * p.rate)
  }

  function After(b: Bucket, p: Policy, now: real, requested: real): Bucket {
    var tokens := Available(b, p, now);
    Warm(if tokens >= requested then tokens - requested else tokens, now)
  }

  function Verdict(b: Bucket, p: Policy, now: real, requested: real): Decision {
    var tokens := Available(b, p, now);
    if tokens >= requested then Decision(true, 0)
    else Decision(false, if p.rate > 0.0 then Max(0, Ceil((requested - tokens) / p.rate)) else 0)
  }

  /** One Redis key with its expiry time; the script runs against the key as Redis sees it. */
  class BucketKey {
    var hash: Bucket
    var expiresAt: real

    constructor ()
      ensures hash == Cold
    {
      hash, expiresAt := Cold, 0.0;
    }

    function Seen(now: real): Bucket
      reads this
    {
      if hash.Warm? && now >= expiresAt then Cold else hash
    }

    /** The script of one call, line by line. A key that has not expired is read as it was written. */
    method Consume(p: Policy, now: real, requested: real) returns (d: Decision)
      modifies this
      ensures hash == After(old(Seen(now)), p, now, requested) && expiresAt == now + p.ttl
      ensures d == Verdict(old(Seen(now)), p, now, requested)
      ensures old(hash).Cold? || now < old(expiresAt) ==> old(Seen(now)) == old(hash)
      ensures now >= old(expiresAt) ==> old(Seen(now)) == Cold
    {
      var tokens, ts;
      var live := Seen(now);
      if live.Cold? {
        tokens, ts := p.capacity, now;
      } else {
        tokens, ts := live.tokens, live.ts;
      }
      var elapsed := now - ts;
      if elapsed < 0.0 {
        elapsed := 0.0;
      }
      tokens := Min(p.capacity, tokens + elapsed * p.rate);
      var allowed, retryAfter := false, 0;
      if tokens >= requested {
        allowed := true;
        tokens := tokens - requested;
      } else {
        var deficit := requested - tokens;
        if p.rate > 0.0 {
          retryAfter := Ceil(deficit / p.rate);
        } else {
          retryAfter := -1;
        }
      }
      hash, expiresAt := Warm(tokens, now), now + p.ttl;
      d := Decision(allowed, Max(0, retryAfter));
    }
  }

  // ---------------------------------------------------------------- sequences of calls

  ghost predicate Sane(p: Policy) {
    p.capacity >= 1.0 && p.rate > 0.0
  }

  ghost predicate Monotone(times: seq<real>) {
    forall i, j | 0 <= i <= j < |times| :: times[i] <= times[j]
  }

  /** The bucket after `n` one-token calls, when the key never expires. */
  function BucketAt(p: Policy, times: seq<real>, n: nat): Bucket
    requires n <= |times|
  {
    if n == 0 then Cold else After(BucketAt(p, times, n - 1), p, times[n - 1], 1.0)
  }

  predicate Allowed(p: Policy, times: seq<real>, i: nat)
    requires i < |times|
  {
    Verdict(BucketAt(p, times, i), p, times[i], 1.0).allowed
  }

  /** How many of the calls i..j-1 are allowed. */
  function Grants(p: Policy, times: seq<real>, i: nat, j: nat): nat
    requires i <= j <= |times|
    decreases j - i
  {
    if i == j then 0 else Grants(p, times, i, j - 1) + (if Allowed(p, times, j - 1) then 1 else 0)
  }

  // The proofs measure time in refilled tokens: `u[k]` is `rate * times[k]`, which is linear.

  ghost predicate Clock(p: Policy, times: seq<real>, u: seq<real>) {
    |u| == |times| && forall k | 0 <= k < |times| :: u[k] == p.rate * times[k]
  }

  /** Tokens available to call `n`, on the refill clock. */
  function Level(capacity: real, u: seq<real>, n: nat): real
    requires n < |u|
  {
    if n == 0 then capacity else Min(capacity, Left(Level(capacity, u, n - 1)) + (u[n] - u[n - 1]))
  }

  function Left(level: real): real {
    if level >= 1.0 then level - 1.0 else level
  }

  /** How many of the calls i..j-1 are allowed, on the refill clock. */
  function Taken(capacity: real, u: seq<real>, i: nat, j: nat): nat
    requires i <= j <= |u|
    decreases j - i
  {
    if i == j then 0 else Taken(capacity, u, i, j - 1) + (if Level(capacity, u, j - 1) >= 1.0 then 1 else 0)
  }

  lemma {:induction false} LevelInRange(capacity: real, u: seq<real>, n: nat)
    requires capacity >= 1.0 && Monotone(u) && n < |u|
    ensures 0.0 <= Level(capacity, u, n) <= capacity
  {
    if n > 0 {
      LevelInRange(capacity, u, n - 1);
    }
  }

  /** Within a window the tokens taken and left are covered by a full bucket plus the refill. */
  lemma {:induction false} TakenCovered(capacity: real, u: seq<real>, i: nat, j: nat)
    requires capacity >= 1.0 && Monotone(u) && i <= j < |u|
    ensures Taken(capacity, u, i, j) as real + Level(capacity, u, j) <= capacity + (u[j] - u[i])
    decreases j - i
  {
    LevelInRange(capacity, u, j);
    if i < j {
      TakenCovered(capacity, u, i, j - 1);
    }
  }

  /** The window that starts when the bucket was last full accounts for every token. */
  lemma {:induction false} FullSince(capacity: real, u: seq<real>, j: nat) returns (i: nat)
    requires capacity >= 1.0 && Monotone(u) && j < |u|
    ensures i <= j && Level(capacity, u, j) == capacity + (u[j] - u[i]) - Taken(capacity, u, i, j) as real
  {
    if j == 0 || Level(capacity, u, j) == capacity {
      i := j;
    } else {
      i := FullSince(capacity, u, j - 1);
    }
  }

  lemma RefillSplits(rate: real, a: real, b: real)
    ensures rate * (b - a) == rate * b - rate * a
    ensures (b - a) * rate == rate * b - rate * a
  {
  }

  lemma LevelStep(p: Policy, times: seq<real>, u: seq<real>, n: nat, b: Bucket)
    requires Monotone(times) && Clock(p, times, u) && 0 < n < |times|
    ensures Available(After(b, p, times[n - 1], 1.0), p, times[n]) ==
            Min(p.capacity, Left(Available(b, p, times[n - 1])) + (u[n] - u[n - 1]))
  {
  }

  lemma {:induction false} LevelIsAvailable(p: Policy, times: seq<real>, u: seq<real>, n: nat)
    requires Monotone(times) && Clock(p, times, u) && n < |times|
    ensures Available(BucketAt(p, times, n), p, times[n]) == Level(p.capacity, u, n)
  {
    if n > 0 {
      LevelIsAvailable(p, times, u, n - 1);
      LevelStep(p, times, u, n, BucketAt(p, times, n - 1));
    }
  }

  lemma {:induction false} TakenIsGrants(p: Policy, times: seq<real>, u: seq<real>, i: nat, j: nat)
    requires Monotone(times) && Clock(p, times, u) && i <= j <= |times|
    ensures Grants(p, times, i, j) == Taken(p.capacity, u, i, j)
    decreases j - i
  {
    if i < j {
      TakenIsGrants(p, times, u, i, j - 1);
      LevelIsAvailable(p, times, u, j - 1);
    }
  }

  lemma MakeClock(p: Policy, times: seq<real>) returns (u: seq<real>)
    requires p.rate > 0.0 && Monotone(times)
    ensures Clock(p, times, u) && Monotone(u)
  {
    u := seq(|times|, k requires 0 <= k < |times| => p.rate * times[k]);
    forall i, j | 0 <= i <= j < |times| ensures u[i] <= u[j] {
      RefillMonotone(p.rate, times[i], times[j]);
    }
  }

  lemma RefillMonotone(rate: real, a: real, b: real)
    requires rate > 0.0 && a <= b
    ensures rate * a <= rate * b
  {
  }

  lemma RefillStrict(rate: real, a: real, b: real)
    requires rate > 0.0 && a < b
    ensures rate * a < rate * b
  {
  }

  /** Tokens stay between empty and full. */
  lemma TokensInRange(p: Policy, times: seq<real>, n: nat)
    requires Sane(p) && Monotone(times) && n <= |times|
    ensures BucketAt(p, times, n).Warm? ==> 0.0 <= BucketAt(p, times, n).tokens <= p.capacity
  {
  }

  /** Tokens refilled between two times. */
  function Refill(p: Policy, from: real, to: real): real {
    p.rate * (to - from)
  }

  lemma RefillOnClock(p: Policy, times: seq<real>, u: seq<real>, i: nat, j: nat)
    requires Clock(p, times, u) && i <= j < |times|
    ensures Refill(p, times[i], times[j]) == u[j] - u[i]
  {
    RefillSplits(p.rate, times[i], times[j]);
  }

  lemma TakenBound(capacity: real, u: seq<real>, i: nat, j: nat)
    requires capacity >= 1.0 && Monotone(u) && i <= j < |u|
    ensures Taken(capacity, u, i, j + 1) as real <= capacity + (u[j] - u[i])
  {
    TakenCovered(capacity, u, i, j);
    LevelInRange(capacity, u, j);
  }

  lemma SameBound(p: Policy, times: seq<real>, u: seq<real>, i: nat, j: nat)
    requires i <= j < |times| == |u|
    requires Grants(p, times, i, j + 1) == Taken(p.capacity, u, i, j + 1) && Refill(p, times[i], times[j]) == u[j] - u[i]
    requires Taken(p.capacity, u, i, j + 1) as real <= p.capacity + (u[j] - u[i])
    ensures Grants(p, times, i, j + 1) as real <= p.capacity + Refill(p, times[i], times[j])
  {
  }

  /** Never more than a full bucket plus the refill in any window of calls i..j. */
  lemma WindowBound(p: Policy, times: seq<real>, i: nat, j: nat)
    requires Sane(p) && Monotone(times) && i <= j < |times|
    ensures Grants(p, times, i, j + 1) as real <= p.capacity + Refill(p, times[i], times[j])
  {
    var u := MakeClock(p, times);
    TakenBound(p.capacity, u, i, j);
    TakenIsGrants(p, times, u, i, j + 1);
    RefillOnClock(p, times, u, i, j);
    SameBound(p, times, u, i, j);
  }

  /** Whether one more grant at call `j` would still fit the window i..j. */
  ghost predicate Fits(p: Policy, times: seq<real>, i: nat, j: nat)
    requires i <= j < |times|
  {
    Grants(p, times, i, j) as real + 1.0 <= p.capacity + Refill(p, times[i], times[j])
  }

  /** The same on the refill clock. */
  ghost predicate FitsClock(capacity: real, u: seq<real>, i: nat, j: nat)
    requires i <= j < |u|
  {
    Taken(capacity, u, i, j) as real + 1.0 <= capacity + (u[j] - u[i])
  }

  lemma SameFit(p: Policy, times: seq<real>, u: seq<real>, i: nat, j: nat)
    requires i <= j < |times| == |u|
    requires Grants(p, times, i, j) == Taken(p.capacity, u, i, j) && Refill(p, times[i], times[j]) == u[j] - u[i]
    ensures Fits(p, times, i, j) <==> FitsClock(p.capacity, u, i, j)
  {
  }

  lemma FitsOnClock(p: Policy, times: seq<real>, u: seq<real>, i: nat, j: nat)
    requires Monotone(times) && Clock(p, times, u) && i <= j < |times|
    ensures Fits(p, times, i, j) <==> FitsClock(p.capacity, u, i, j)
  {
    TakenIsGrants(p, times, u, i, j);
    RefillOnClock(p, times, u, i, j);
    SameFit(p, times, u, i, j);
  }

  lemma FullEnoughIffFits(capacity: real, u: seq<real>, j: nat)
    requires capacity >= 1.0 && Monotone(u) && j < |u|
    ensures Level(capacity, u, j) >= 1.0 <==> forall i: nat | i <= j :: FitsClock(capacity, u, i, j)
  {
    if Level(capacity, u, j) >= 1.0 {
      forall i: nat | i <= j ensures FitsClock(capacity, u, i, j) {
        TakenCovered(capacity, u, i, j);
      }
    } else {
      var i := FullSince(capacity, u, j);
      assert !FitsClock(capacity, u, i, j);
    }
  }

  /** A call is allowed exactly when granting it breaks the bound of no window ending at it. */
  lemma AllowedIffFits(p: Policy, times: seq<real>, j: nat)
    requires Sane(p) && Monotone(times) && j < |times|
    ensures Allowed(p, times, j) <==> forall i: nat | i <= j :: Fits(p, times, i, j)
  {
    var u := MakeClock(p, times);
    LevelIsAvailable(p, times, u, j);
    FullEnoughIffFits(p.capacity, u, j);
    forall i: nat | i <= j ensures Fits(p, times, i, j) <==> FitsClock(p.capacity, u, i, j) {
      FitsOnClock(p, times, u, i, j);
    }
  }

  lemma {:induction false} GrantsFit(p: Policy, times: seq<real>, i: nat, j: nat)
    requires i <= j <= |times|
    ensures Grants(p, times, i, j) <= j - i
    decreases j - i
  {
    if i < j {
      GrantsFit(p, times, i, j - 1);
    }
  }

  lemma FewCallsFit(p: Policy, times: seq<real>, i: nat, j: nat)
    requires i <= j < |times| && (j - i + 1) as real <= p.capacity + Refill(p, times[i], times[j])
    ensures Fits(p, times, i, j)
  {
    GrantsFit(p, times, i, j);
  }

  /** A caller that keeps every window of its calls within the bound is never refused. */
  lemma ConformingCallerNeverRefused(p: Policy, times: seq<real>, j: nat)
    requires Sane(p) && Monotone(times) && j < |times|
    requires forall i | 0 <= i <= j :: (j - i + 1) as real <= p.capacity + Refill(p, times[i], times[j])
    ensures Allowed(p, times, j)
  {
    forall i: nat | i <= j ensures Fits(p, times, i, j) {
      FewCallsFit(p, times, i, j);
    }
    AllowedIffFits(p, times, j);
  }

  // ---------------------------------------------------------------- Retry-After

  /** `RateLimitExceededError` never says less than one second. */
  function RetrySeconds(d: Decision): int {
    Max(1, d.retryAfter)
  }

  /** The tokens `k` seconds after a refused call. */
  lemma AvailableLater(b: Bucket, p: Policy, now: real, requested: real, k: real)
    requires !Verdict(b, p, now, requested).allowed && k >= 0.0
    ensures Available(After(b, p, now, requested), p, now + k) == Min(p.capacity, Available(b, p, now) + p.rate * k)
  {
  }

  lemma WaitFillsGap(need: real, rate: real)
    requires rate > 0.0
    ensures rate * (need / rate) == need
  {
  }

  /** Whole seconds suffice exactly from the rounded-up quotient on. */
  lemma EnoughIff(need: real, rate: real, k: nat)
    requires rate > 0.0 && need > 0.0
    ensures need / rate > 0.0
    ensures rate * k as real >= need <==> k >= Ceil(need / rate)
  {
    var wait := need / rate;
    WaitFillsGap(need, rate);
    if wait <= 0.0 {
      RefillMonotone(rate, wait, 0.0);
      assert false;
    }
    if k as real >= wait {
      RefillMonotone(rate, wait, k as real);
    } else {
      RefillStrict(rate, k as real, wait);
    }
  }

  /**
    After a refusal at `now`, a call `k` whole seconds later (with none in between) is allowed
    exactly when `k` is at least the advertised wait.
  */
  lemma RetryAfterIsLeast(b: Bucket, p: Policy, now: real, requested: real, k: nat)
    requires p.rate > 0.0 && requested <= p.capacity && !Verdict(b, p, now, requested).allowed
    ensures var d := Verdict(b, p, now, requested);
            Verdict(After(b, p, now, requested), p, now + k as real, requested).allowed <==> k >= RetrySeconds(d)
  {
    var need := requested - Available(b, p, now);
    EnoughIff(need, p.rate, k);
    assert RetrySeconds(Verdict(b, p, now, requested)) == Ceil(need / p.rate);
    AvailableLater(b, p, now, requested, k as real);
  }

  /** Asking for more than a full bucket is refused for ever, whatever wait is advertised. */
  lemma OversizeNeverAllowed(b: Bucket, p: Policy, now: real, requested: real)
    requires requested > p.capacity
    ensures !Verdict(b, p, now, requested).allowed
  {
  }

  // ---------------------------------------------------------------- expiry

  /** The bucket as call `n` finds it when, before call k, Redis has dropped the key iff `gone[k]`. */
  function SeenAt(p: Policy, times: seq<real>, gone: seq<bool>, n: nat): Bucket
    requires n < |times| && |gone| == |times|
  {
    if n == 0 || gone[n] then Cold else After(SeenAt(p, times, gone, n - 1), p, times[n - 1], 1.0)
  }

  /** Redis drops a key no sooner than its time to live after the last write. */
  ghost predicate ExpiryHonest(p: Policy, times: seq<real>, gone: seq<bool>) {
    && |gone| == |times|
    && (forall k | 0 < k < |times| :: gone[k] ==> times[k] - times[k - 1] >= p.ttl)
  }

  lemma FullAfterTtl(b: Bucket, p: Policy, now: real)
    requires Sane(p) && p.ttl * p.rate >= p.capacity && p.ttl >= 0.0
    requires b.Warm? && b.tokens >= 0.0 && now - b.ts >= p.ttl
    ensures Available(b, p, now) == p.capacity
  {
    RefillMonotone(p.rate, p.ttl, now - b.ts);
  }

  lemma SameAfter(b: Bucket, c: Bucket, p: Policy, now: real)
    requires Available(b, p, now) == Available(c, p, now)
    ensures After(b, p, now, 1.0) == After(c, p, now, 1.0)
  {
  }

  lemma {:induction false} SameTokens(p: Policy, times: seq<real>, gone: seq<bool>, n: nat)
    requires Sane(p) && p.ttl * p.rate >= p.capacity && p.ttl >= 0.0
    requires Monotone(times) && ExpiryHonest(p, times, gone) && n < |times|
    ensures Available(SeenAt(p, times, gone, n), p, times[n]) == Available(BucketAt(p, times, n), p, times[n])
  {
    if n > 0 {
      SameTokens(p, times, gone, n - 1);
      var b := BucketAt(p, times, n);
      if gone[n] {
        TokensInRange(p, times, n);
        FullAfterTtl(b, p, times[n]);
      } else {
        SameAfter(SeenAt(p, times, gone, n - 1), BucketAt(p, times, n - 1), p, times[n - 1]);
        assert SeenAt(p, times, gone, n) == b;
      }
    }
  }

  /** A key that expires is indistinguishable from one that never does. */
  lemma ExpiryIsInvisible(p: Policy, times: seq<real>, gone: seq<bool>, n: nat)
    requires Sane(p) && p.ttl * p.rate >= p.capacity
    requires Monotone(times) && ExpiryHonest(p, times, gone) && n < |times|
    ensures Verdict(SeenAt(p, times, gone, n), p, times[n], 1.0) == Verdict(BucketAt(p, times, n), p, times[n], 1.0)
  {
    TtlNotNegative(p);
    SameTokens(p, times, gone, n);
  }

  /** Before call `n` the key holds what the never-expiring bucket does, or Redis has just dropped it. */
  lemma DroppedOrNot(p: Policy, times: seq<real>, n: nat, seen: Bucket)
    requires Sane(p) && p.ttl * p.rate >= p.capacity && p.ttl >= 0.0 && Monotone(times) && n < |times|
    requires seen == BucketAt(p, times, n) || (n > 0 && seen == Cold && times[n] - times[n - 1] >= p.ttl)
    ensures Verdict(seen, p, times[n], 1.0) == Verdict(BucketAt(p, times, n), p, times[n], 1.0)
    ensures After(seen, p, times[n], 1.0) == BucketAt(p, times, n + 1)
  {
    if seen != BucketAt(p, times, n) {
      TokensInRange(p, times, n);
      FullAfterTtl(BucketAt(p, times, n), p, times[n]);
    }
  }

  lemma TtlNotNegative(p: Policy)
    requires Sane(p) && p.ttl * p.rate >= p.capacity
    ensures p.ttl >= 0.0
  {
    if p.ttl < 0.0 {
      RefillMonotone(p.rate, p.ttl, 0.0);
      assert false;
    }
  }

  /**
    The script itself, called for one token at each of these times on a new key that expires as
    Redis expires it, decides every call as the never-expiring bucket of the theorems does.
  */
  method MakeCalls(key: BucketKey, p: Policy, times: seq<real>) returns (ds: seq<Decision>)
    requires key.hash == Cold && Sane(p) && p.ttl * p.rate >= p.capacity && Monotone(times)
    modifies key
    ensures |ds| == |times|
    ensures forall k | 0 <= k < |times| :: ds[k] == Verdict(BucketAt(p, times, k), p, times[k], 1.0)
    ensures forall k | 0 <= k < |times| :: ds[k].allowed <==> Allowed(p, times, k)
  {
    TtlNotNegative(p);
    ds := [];
    for k := 0 to |times|
      invariant |ds| == k && key.hash == BucketAt(p, times, k)
      invariant k > 0 ==> key.expiresAt == times[k - 1] + p.ttl
      invariant forall j | 0 <= j < k :: ds[j] == Verdict(BucketAt(p, times, j), p, times[j], 1.0)
    {
      DroppedOrNot(p, times, k, key.Seen(times[k]));
      var d := key.Consume(p, times[k], 1.0);
      ds := ds + [d];
    }
  }

  // ---------------------------------------------------------------- clocks that go back

  /** The same calls with time standing still whenever the caller's clock goes back. */
  function Forward(times: seq<real>, n: nat): real
    requires n < |times|
  {
    if n == 0 then times[0]
    else Forward(times, n - 1) + (if times[n] < times[n - 1] then 0.0 else times[n] - times[n - 1])
  }

  function ForwardTimes(times: seq<real>): (forward: seq<real>)
    ensures |forward| == |times|
  {
    seq(|times|, k requires 0 <= k < |times| => Forward(times, k))
  }

  lemma {:induction false} ForwardClimbs(times: seq<real>, i: nat, j: nat)
    requires i <= j < |times|
    ensures Forward(times, i) <= Forward(times, j)
  {
    if i < j {
      ForwardClimbs(times, i, j - 1);
    }
  }

  lemma SameRefill(b: Bucket, c: Bucket, p: Policy, t0: real, t1: real, f0: real, f1: real)
    requires Available(b, p, t0) == Available(c, p, f0) && f1 - f0 == if t1 < t0 then 0.0 else t1 - t0
    ensures Available(After(b, p, t0, 1.0), p, t1) == Available(After(c, p, f0, 1.0), p, f1)
  {
  }

  lemma {:induction false} SameAvailable(p: Policy, times: seq<real>, n: nat)
    requires n < |times|
    ensures var f := ForwardTimes(times);
            Available(BucketAt(p, times, n), p, times[n]) == Available(BucketAt(p, f, n), p, f[n])
  {
    if n > 0 {
      var f := ForwardTimes(times);
      SameAvailable(p, times, n - 1);
      SameRefill(BucketAt(p, times, n - 1), BucketAt(p, f, n - 1), p, times[n - 1], times[n], f[n - 1], f[n]);
    }
  }

  /**
    Whatever the clocks do, every call is decided as on a clock that never goes back: the results
    above hold of any times when a window's length is counted on that clock.
  */
  lemma GoingBackIsStandingStill(p: Policy, times: seq<real>, n: nat)
    requires n < |times|
    ensures var f := ForwardTimes(times);
            && Monotone(f) && Verdict(BucketAt(p, times, n), p, times[n], 1.0) == Verdict(BucketAt(p, f, n), p, f[n], 1.0)
  {
    var f := ForwardTimes(times);
    forall i, j | 0 <= i <= j < |f| ensures f[i] <= f[j] {
      ForwardClimbs(times, i, j);
    }
    SameAvailable(p, times, n);
  }

  /** What each policy allows in a window of `length` seconds, however it is used before. */
  lemma PolicyLimits(p: Policy, times: seq<real>, i: nat, j: nat, length: real)
    requires Monotone(times) && i <= j < |times| && times[j] - times[i] == length
    ensures p == MESSAGE_SEND ==> Grants(p, times, i, j + 1) as real <= 20.0 + length
    ensures p == AUTH ==> Grants(p, times, i, j + 1) as real <= 5.0 + length / 60.0
    ensures p == MEDIA_UPLOAD ==> Grants(p, times, i, j + 1) as real <= 20.0 + length / 3.0
    ensures p == GENERAL_READ ==> Grants(p, times, i, j + 1) as real <= 60.0 + length
  {
    if p in {MESSAGE_SEND, AUTH, MEDIA_UPLOAD, GENERAL_READ} {
      PoliciesQualify(p);
      WindowBound(p, times, i, j);
    }
  }

  /** Every shipped policy is one the theorems apply to. */
  lemma PoliciesQualify(p: Policy)
    requires p in {MESSAGE_SEND, AUTH, MEDIA_UPLOAD, GENERAL_READ}
    ensures Sane(p) && p.ttl * p.rate >= p.capacity
  {
  }
}
