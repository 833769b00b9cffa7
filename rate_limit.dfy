/**
 * The token-bucket rate limiter of src/middleware/rateLimit.ts: one bucket per
 * `ip:path` key, created lazily with the path's configuration, refilled in
 * proportion to the time elapsed, and pruned after an hour without use.
 * Token counts are `real` (an idealisation of JavaScript numbers); the clock
 * is the `now` parameter (milliseconds).
 */
module RateLimit {
  import opened Common

  // ---------------------------------------------------------------------------
  // Configuration
  // ---------------------------------------------------------------------------

  datatype RateLimitConfig = RateLimitConfig(tokensPerInterval: int, interval: int, maxBurst: Option<int>)

  const DefaultLimit: RateLimitConfig := RateLimitConfig(60, 60000, Some(10))
  const LeadsLimit: RateLimitConfig := RateLimitConfig(30, 60000, Some(5))
  const PagesLimit: RateLimitConfig := RateLimitConfig(20, 60000, Some(3))

  /** `rateLimitConfig`. */
  const RateLimitConfigs: map<string, RateLimitConfig> := map[
    "default" := DefaultLimit,
    "/api/facebook/leads" := LeadsLimit,
    "/api/facebook/pages" := PagesLimit
  ]

  /** `rateLimitConfig[path] || rateLimitConfig.default`. */
  function ConfigFor(path: string): (c: RateLimitConfig)
    ensures path in RateLimitConfigs ==> c == RateLimitConfigs[path]
    ensures path !in RateLimitConfigs ==> c == DefaultLimit
    ensures c.interval == 60000
  {
    if path in RateLimitConfigs then RateLimitConfigs[path] else RateLimitConfigs["default"]
  }

  /** The constants of one bucket. */
  datatype BucketParams = BucketParams(tokensPerInterval: real, interval: real, maxTokens: real)

  /** `maxBurst || tokensPerInterval` as the capacity. */
  function ParamsOf(c: RateLimitConfig): (p: BucketParams)
    ensures p.tokensPerInterval == c.tokensPerInterval as real && p.interval == c.interval as real
    ensures p.maxTokens == if c.maxBurst.Some? && c.maxBurst.value != 0 then c.maxBurst.value as real else c.tokensPerInterval as real
  {
    BucketParams(c.tokensPerInterval as real, c.interval as real,
                 if c.maxBurst.Some? && c.maxBurst.value != 0 then c.maxBurst.value as real else c.tokensPerInterval as real)
  }

  /** The capacity of the buckets for each configured path. */
  lemma ConfiguredCapacities()
    ensures ParamsOf(ConfigFor("/api/facebook/leads")).maxTokens == 5.0
    ensures ParamsOf(ConfigFor("/api/facebook/pages")).maxTokens == 3.0
    ensures forall path :: path !in RateLimitConfigs ==> ParamsOf(ConfigFor(path)).maxTokens == 10.0
    ensures forall path :: ParamsOf(ConfigFor(path)).interval > 0.0
  {
  }

  // ---------------------------------------------------------------------------
  // Bucket arithmetic
  // ---------------------------------------------------------------------------

  datatype BucketState = BucketState(tokens: real, lastRefill: int)

  function MinReal(a: real, b: real): real {
    if a <= b then a else b
  }

  /** A new bucket: full. */
  function InitialState(p: BucketParams, now: int): (st: BucketState)
    ensures st.tokens == p.maxTokens && st.lastRefill == now
  {
    BucketState(p.maxTokens, now)
  }

  /** `refill()` at time `now`. */
  function Refill(st: BucketState, now: int, p: BucketParams): (r: BucketState)
    requires p.interval > 0.0
    ensures r.lastRefill == now
    ensures r.tokens <= p.maxTokens
    ensures r.tokens == p.maxTokens || r.tokens == st.tokens + ((now - st.lastRefill) as real / p.interval) * p.tokensPerInterval
    ensures r.tokens <= st.tokens + ((now - st.lastRefill) as real / p.interval) * p.tokensPerInterval
  {
    BucketState(MinReal(p.maxTokens, st.tokens + ((now - st.lastRefill) as real / p.interval) * p.tokensPerInterval), now)
  }

  datatype ConsumeResult = ConsumeResult(allowed: bool, state: BucketState)

  /** `tryConsume(n)` at time `now`. */
  function TryConsume(st: BucketState, n: real, now: int, p: BucketParams): (r: ConsumeResult)
    requires p.interval > 0.0
    ensures r.allowed <==> Refill(st, now, p).tokens >= n
    ensures r.state.lastRefill == now
    ensures r.state.tokens == if r.allowed then Refill(st, now, p).tokens - n else Refill(st, now, p).tokens
  {
    var refilled := Refill(st, now, p);
    if refilled.tokens >= n then ConsumeResult(true, refilled.(tokens := refilled.tokens - n))
    else ConsumeResult(false, refilled)
  }

  lemma NonNegativeProduct(x: real, y: real)
    requires x >= 0.0 && y >= 0.0
    ensures x * y >= 0.0
  {
  }

  /**
   * With a clock that does not go back, a non-negative refill rate and
   * capacity, and a non-negative request, a bucket never goes below zero.
   */
  lemma TokensStayNonNegative(st: BucketState, n: real, now: int, p: BucketParams)
    requires p.interval > 0.0 && p.tokensPerInterval >= 0.0 && p.maxTokens >= 0.0
    requires st.tokens >= 0.0 && now >= st.lastRefill && n >= 0.0
    ensures TryConsume(st, n, now, p).state.tokens >= 0.0
    ensures Refill(st, now, p).tokens >= 0.0
  {
    var elapsed := (now - st.lastRefill) as real / p.interval;
    assert elapsed >= 0.0;
    NonNegativeProduct(elapsed, p.tokensPerInterval);
  }

  /** `count` requests of one token each, all at time `now`; the number allowed. */
  function AllowedInBurst(st: BucketState, count: nat, now: int, p: BucketParams): nat
    requires p.interval > 0.0
    decreases count
  {
    if count == 0 then 0
    else
      var r := TryConsume(st, 1.0, now, p);
      (if r.allowed then 1 else 0) + AllowedInBurst(r.state, count - 1, now, p)
  }

  /**
   * A bucket holding m whole tokens, last refilled at `now`, lets exactly
   * min(count, m) of `count` simultaneous requests through: the burst the
   * configuration names.
   */
  lemma {:induction false} BurstAllowance(st: BucketState, m: nat, count: nat, now: int, p: BucketParams)
    requires p.interval > 0.0 && st.lastRefill == now && st.tokens == m as real && st.tokens <= p.maxTokens
    ensures AllowedInBurst(st, count, now, p) == if count < m then count else m
    decreases count
  {
    if count > 0 {
      var r := TryConsume(st, 1.0, now, p);
      assert Refill(st, now, p).tokens == st.tokens;
      if m > 0 {
        BurstAllowance(r.state, m - 1, count - 1, now, p);
      } else {
        BurstAllowance(r.state, 0, count - 1, now, p);
      }
    }
  }

  /** A fresh bucket for the leads route admits five simultaneous requests and refuses the sixth. */
  lemma LeadsBurstIsFive(now: int)
    ensures AllowedInBurst(InitialState(ParamsOf(ConfigFor("/api/facebook/leads")), now), 6, now,
                           ParamsOf(ConfigFor("/api/facebook/leads"))) == 5
  {
    var p := ParamsOf(ConfigFor("/api/facebook/leads"));
    BurstAllowance(InitialState(p, now), 5, 6, now, p);
  }

  // ---------------------------------------------------------------------------
  // Objects
  // ---------------------------------------------------------------------------

  class TokenBucket {
    var tokens: real
    var lastRefill: int
    const params: BucketParams

    function State(): BucketState
      reads this
    {
      BucketState(tokens, lastRefill)
    }

    ghost predicate Valid()
      reads this
    {
      params.interval > 0.0
    }

    constructor (config: RateLimitConfig, now: int)
      requires config.interval > 0
      ensures Valid() && params == ParamsOf(config) && State() == InitialState(ParamsOf(config), now)
    {
      params := ParamsOf(config);
      tokens := ParamsOf(config).maxTokens;
      lastRefill := now;
    }

    method RefillAt(now: int)
      requires Valid()
      modifies this
      ensures Valid() && State() == Refill(old(State()), now, params)
    {
      var timePassed := now - lastRefill;
      var newTokens := (timePassed as real / params.interval) * params.tokensPerInterval;
      tokens := MinReal(params.maxTokens, tokens + newTokens);
      lastRefill := now;
    }

    method TryConsumeAt(n: real, now: int) returns (allowed: bool)
      requires Valid()
      modifies this
      ensures Valid()
      ensures ConsumeResult(allowed, State()) == TryConsume(old(State()), n, now, params)
    {
      RefillAt(now);
      if tokens >= n {
        tokens := tokens - n;
        return true;
      }
      return false;
    }
  }

  /** `${ip}:${path}`. */
  function LimiterKey(ip: string, path: string): string {
    ip + ":" + path
  }

  /** `req.ip || 'anonymous'`. */
  function ClientIp(ip: Option<string>): (r: string)
    ensures ip.Some? && ip.value != "" ==> r == ip.value
    ensures !(ip.Some? && ip.value != "") ==> r == "anonymous"
  {
    if ip.Some? && ip.value != "" then ip.value else "anonymous"
  }

  const IdleLimit: int := 3600000

  datatype Decision = TooManyRequests | Next {
    function Status(): int {
      if TooManyRequests? then 429 else 200
    }
  }

  /** Distinct keys hold distinct buckets, so consuming from one leaves the others alone. */
  ghost predicate DistinctBuckets(m: map<string, TokenBucket>) {
    forall k1, k2 :: k1 in m && k2 in m && k1 != k2 ==> m[k1] != m[k2]
  }

  /** The module-level `rateLimiters` map. */
  class RateLimiterRegistry {
    var buckets: map<string, TokenBucket>

    ghost predicate Valid()
      reads this, buckets.Values
    {
      && (forall k :: k in buckets ==> buckets[k].Valid())
      && DistinctBuckets(buckets)
    }

    constructor ()
      ensures Valid() && buckets == map[]
    {
      buckets := map[];
    }

    /** `getRateLimiter(ip, path)`: the stored bucket for the key, or a new full one with the path's configuration. */
    method GetRateLimiter(ip: string, path: string, now: int) returns (b: TokenBucket)
      requires Valid()
      modifies this
      ensures Valid()
      ensures LimiterKey(ip, path) in buckets && b == buckets[LimiterKey(ip, path)]
      ensures LimiterKey(ip, path) in old(buckets) ==> buckets == old(buckets)
      ensures LimiterKey(ip, path) !in old(buckets) ==>
        fresh(b) && buckets == old(buckets)[LimiterKey(ip, path) := b] &&
        b.params == ParamsOf(ConfigFor(path)) && b.State() == InitialState(ParamsOf(ConfigFor(path)), now)
    {
      var key := LimiterKey(ip, path);
      if key !in buckets {
        var bucket := new TokenBucket(ConfigFor(path), now);
        buckets := buckets[key := bucket];
      }
      b := buckets[key];
    }

    /** `rateLimiter(req)`: 429 exactly when the key's bucket refuses one token. */
    method RateLimiter(ip: Option<string>, path: string, now: int) returns (d: Decision)
      requires Valid()
      modifies this, buckets.Values
      ensures Valid()
      ensures var key := LimiterKey(ClientIp(ip), path);
        var before := if key in old(buckets) then old(buckets[key].State()) else InitialState(ParamsOf(ConfigFor(path)), now);
        key in buckets && (d == TooManyRequests <==> !TryConsume(before, 1.0, now, buckets[key].params).allowed) &&
        buckets[key].State() == TryConsume(before, 1.0, now, buckets[key].params).state
    ensures var key := LimiterKey(ClientIp(ip), path);
      buckets.Keys == old(buckets).Keys + {key} &&
      (key !in old(buckets) ==> buckets[key].params == ParamsOf(ConfigFor(path)))
    ensures forall k :: k in old(buckets) ==> buckets[k] == old(buckets)[k]
    ensures forall k :: k in old(buckets) && k != LimiterKey(ClientIp(ip), path) ==>
      buckets[k].State() == old(buckets[k].State())
    {
      var limiter := GetRateLimiter(ClientIp(ip), path, now);
      var allowed := limiter.TryConsumeAt(1.0, now);
      d := if allowed then Next else TooManyRequests;
    }

    /** The hourly sweep: drops exactly the buckets idle for more than an hour. */
    method Cleanup(now: int)
      requires Valid()
      modifies this
      ensures Valid()
      ensures buckets == map k | k in old(buckets) && now - old(buckets)[k].lastRefill <= IdleLimit :: old(buckets)[k]
    {
      var pending := buckets.Keys;
      ghost var b0 := buckets;
      while pending != {}
        invariant pending <= b0.Keys
        invariant buckets == map k | k in b0 && (k in pending || now - b0[k].lastRefill <= IdleLimit) :: b0[k]
        invariant forall k :: k in buckets ==> buckets[k].Valid()
        invariant DistinctBuckets(buckets)
        decreases |pending|
      {
        var key :| key in pending;
        if now - buckets[key].lastRefill > IdleLimit {
          buckets := buckets - {key};
        }
        pending := pending - {key};
      }
    }
  }
}
