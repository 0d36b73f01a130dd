/**
 * The rate limiting of app/api/middleware.py: the token-bucket
 * RateLimiter, the middleware that picks an endpoint's limit by path
 * prefix, and the sliding-window SimpleRateLimiter.  Clock readings are
 * whole seconds passed in as `now`; the asyncio lock is left out, since
 * every method here runs to completion on its own.
 */
module RateLimiting {
  import opened Wrappers
  import opened PyValue
  import Text

  // ---------------------------------------------------------------------
  // Token bucket

  /** The tokens left for one client and when they were last refilled. */
  datatype Bucket = Bucket(tokens: int, lastRefill: int)

  /** The answer of is_rate_limited and the bucket stored afterwards. */
  datatype LimitCheck = LimitCheck(limited: bool, remaining: int, retryAfter: int, bucket: Bucket)

  /** int(elapsed / window * rate), taken exactly and truncated toward zero. */
  function Refill(elapsed: int, window: int, rate: int): int
    requires window > 0
  {
    var x := elapsed * rate;
    if x >= 0 then x / window else -((-x) / window)
  }

  /** The bucket of a client; a client seen for the first time starts full. */
  function BucketOf(tokens: map<string, Bucket>, ip: string, rate: int, now: int): Bucket
  {
    if ip in tokens then tokens[ip] else Bucket(rate, now)
  }

  /**
   * One is_rate_limited decision on a client's bucket: refill by the
   * elapsed time, capped at the rate; refuse when nothing is left,
   * otherwise take one token.
   */
  function Check(b: Bucket, rate: int, window: int, now: int): (c: LimitCheck)
    requires window > 0
    ensures c.remaining >= 0 && c.retryAfter >= 0
    ensures c.limited ==> c.bucket == b && c.remaining == 0
    ensures !c.limited ==> c.bucket.tokens == c.remaining < rate && c.retryAfter == 0
  {
    var refill := Refill(now - b.lastRefill, window, rate);
    var t := if rate < b.tokens + refill then rate else b.tokens + refill;
    var last := if refill > 0 then now else b.lastRefill;
    if t <= 0 then LimitCheck(true, 0, if window - (now - last) > 0 then window - (now - last) else 0, b)
    else LimitCheck(false, t - 1, 0, Bucket(t - 1, last))
  }

  /**
   * The refill is capped at the rate, a request is refused exactly when
   * no token is left after the refill, and the refill time moves to now
   * only when tokens were added.
   */
  lemma {:induction false} CheckRefills(b: Bucket, rate: int, window: int, now: int)
    requires window > 0
    ensures var refill := Refill(now - b.lastRefill, window, rate);
            var t := if rate < b.tokens + refill then rate else b.tokens + refill;
            var c := Check(b, rate, window, now);
            t <= rate
            && (c.limited <==> t <= 0)
            && (!c.limited ==> c.remaining == t - 1 && c.bucket.lastRefill == (if refill > 0 then now else b.lastRefill))
  {
  }

  /** A client's first request is admitted whenever the rate is positive. */
  lemma {:induction false} NewClientAdmitted(rate: int, window: int, now: int)
    requires window > 0 && rate >= 1
    ensures Check(Bucket(rate, now), rate, window, now) == LimitCheck(false, rate - 1, 0, Bucket(rate - 1, now))
  {
    assert Refill(0, window, rate) == 0;
  }

  /** A refused client waits at most one window. */
  lemma {:induction false} RetryWithinWindow(b: Bucket, rate: int, window: int, now: int)
    requires window > 0 && now >= b.lastRefill
    ensures Check(b, rate, window, now).retryAfter <= window
  {
  }

  lemma {:induction false} DivAtLeast(x: int, window: int, rate: int)
    requires window > 0 && x >= window * rate
    ensures x / window >= rate
  {
    var q, r := x / window, x % window;
    assert x == q * window + r;
    assert (q + 1 - rate) * window == x - r + window - window * rate;
    PositiveFactor(q + 1 - rate, window);
  }

  lemma {:induction false} PositiveFactor(a: int, w: int)
    requires w > 0 && a * w > 0
    ensures a > 0
  {
  }

  /** A whole window's elapsed time refills at least the rate. */
  lemma {:induction false} RefillAtLeastRate(elapsed: int, window: int, rate: int)
    requires window > 0 && rate >= 1 && elapsed >= window
    ensures Refill(elapsed, window, rate) >= rate
  {
    assert elapsed * rate >= window * rate by {
      assert (elapsed - window) * rate >= 0;
    }
    DivAtLeast(elapsed * rate, window, rate);
  }

  /** After a whole window without requests the bucket is full again. */
  lemma {:induction false} RefillAfterWindow(b: Bucket, rate: int, window: int, now: int)
    requires window > 0 && rate >= 1 && b.tokens >= 0
    requires now - b.lastRefill >= window
    ensures Check(b, rate, window, now) == LimitCheck(false, rate - 1, 0, Bucket(rate - 1, now))
  {
    RefillAtLeastRate(now - b.lastRefill, window, rate);
  }

  /** Requests repeated n times at one instant. */
  function Burst(b: Bucket, rate: int, window: int, now: int, n: nat): Bucket
    requires window > 0
    decreases n
  {
    if n == 0 then b else Burst(Check(b, rate, window, now).bucket, rate, window, now, n - 1)
  }

  /**
   * A bucket refilled at this instant admits exactly its tokens: each
   * request takes one, and then the next one is refused for a whole window.
   */
  lemma {:induction false} BurstDrains(tokens: int, rate: int, window: int, now: int, n: nat)
    requires window > 0 && 0 <= n <= tokens <= rate
    ensures Burst(Bucket(tokens, now), rate, window, now, n) == Bucket(tokens - n, now)
    ensures n < tokens ==> !Check(Bucket(tokens - n, now), rate, window, now).limited
    ensures Check(Bucket(0, now), rate, window, now) == LimitCheck(true, 0, window, Bucket(0, now))
    decreases n
  {
    assert Refill(0, window, rate) == 0;
    if n > 0 {
      assert Check(Bucket(tokens, now), rate, window, now).bucket == Bucket(tokens - 1, now);
      BurstDrains(tokens - 1, rate, window, now, n - 1);
    }
  }

  /** A RateLimiter: its limits and the bucket of every client seen. */
  class RateLimiter {
    const rateLimit: int
    const timeWindow: int
    var tokens: map<string, Bucket>

    /** Every stored bucket holds between 0 and rate_limit tokens. */
    predicate Valid()
      reads this
    {
      timeWindow > 0 && rateLimit >= 0
      && forall ip :: ip in tokens ==> 0 <= tokens[ip].tokens <= rateLimit
    }

    constructor (rateLimit: int, timeWindow: int)
      requires timeWindow > 0 && rateLimit >= 0
      ensures this.rateLimit == rateLimit && this.timeWindow == timeWindow && tokens == map[]
      ensures Valid()
    {
      this.rateLimit := rateLimit;
      this.timeWindow := timeWindow;
      tokens := map[];
    }

    /** is_rate_limited: the decision for one request from ip, stored back for the next. */
    method IsRateLimited(ip: string, now: int) returns (limited: bool, remaining: int, retryAfter: int)
      requires Valid()
      modifies this
      ensures Valid()
      ensures var c := Check(BucketOf(old(tokens), ip, rateLimit, now), rateLimit, timeWindow, now);
              limited == c.limited && remaining == c.remaining && retryAfter == c.retryAfter
              && tokens == old(tokens)[ip := c.bucket]
    {
      if ip !in tokens {
        tokens := tokens[ip := Bucket(rateLimit, now)];
      }
      var t, last := tokens[ip].tokens, tokens[ip].lastRefill;
      var refill := Refill(now - last, timeWindow, rateLimit);
      t := if rateLimit < t + refill then rateLimit else t + refill;
      if refill > 0 {
        last := now;
      }
      if t <= 0 {
        limited, remaining := true, 0;
        retryAfter := if timeWindow - (now - last) > 0 then timeWindow - (now - last) else 0;
        return;
      }
      t := t - 1;
      tokens := tokens[ip := Bucket(t, last)];
      limited, remaining, retryAfter := false, t, 0;
    }
  }

  // ---------------------------------------------------------------------
  // The rate-limit middleware

  /** The per-endpoint limits of RateLimitMiddleware, in their insertion order. */
  const PublicEndpoints: seq<(string, int)> := [
    ("/health", 200), ("/legislation", 100), ("/legislation/search", 50),
    ("/texas/health-legislation", 50), ("/texas/local-govt-legislation", 50),
    ("/bills/", 100), ("/states/", 200), ("/dashboard/impact-summary", 50),
    ("/dashboard/recent-activity", 50), ("/search/advanced", 30)]

  /** The first endpoint, in table order, that the path starts with. */
  function FirstMatch(path: string, endpoints: seq<(string, int)>): (m: Option<(string, int)>)
    ensures m.Some? ==> m.value in endpoints && m.value.0 <= path
    ensures m.None? ==> forall i :: 0 <= i < |endpoints| ==> !(endpoints[i].0 <= path)
  {
    if endpoints == [] then None
    else if endpoints[0].0 <= path then Some(endpoints[0])
    else FirstMatch(path, endpoints[1..])
  }

  /** The match is the entry at the least index whose key the path starts with. */
  lemma {:induction false} FirstMatchIsFirst(path: string, endpoints: seq<(string, int)>, i: nat)
    requires i < |endpoints| && endpoints[i].0 <= path
    requires forall j :: 0 <= j < i ==> !(endpoints[j].0 <= path)
    ensures FirstMatch(path, endpoints) == Some(endpoints[i])
    decreases i
  {
    if i > 0 {
      assert endpoints[1..][i - 1] == endpoints[i];
      assert forall j :: 0 <= j < i - 1 ==> endpoints[1..][j] == endpoints[j + 1];
      FirstMatchIsFirst(path, endpoints[1..], i - 1);
    }
  }

  /** The endpoint with the longest key the path starts with; the first of equals. */
  function LongestMatch(path: string, endpoints: seq<(string, int)>): (m: Option<(string, int)>)
    ensures m.Some? ==> m.value in endpoints && m.value.0 <= path
    ensures m.Some? ==> forall i :: 0 <= i < |endpoints| && endpoints[i].0 <= path ==> |endpoints[i].0| <= |m.value.0|
    ensures m.None? ==> forall i :: 0 <= i < |endpoints| ==> !(endpoints[i].0 <= path)
  {
    if endpoints == [] then None
    else
      var rest := LongestMatch(path, endpoints[1..]);
      assert forall i :: 1 <= i < |endpoints| ==> endpoints[i] == endpoints[1..][i - 1];
      if endpoints[0].0 <= path && (rest.None? || |rest.value.0| <= |endpoints[0].0|) then Some(endpoints[0])
      else rest
  }

  /** What the middleware does with a request. */
  datatype RateOutcome =
    | Unlimited                                       // no endpoint matched: passed on untouched
    | TooManyRequests(retryAfter: int)                // the 429 answer
    | Admitted(limit: int, remaining: int, reset: int) // passed on, with the three X-RateLimit headers

  /** The outcome of one check against the matched endpoint's limit. */
  function OutcomeOf(limit: int, c: LimitCheck, now: int): RateOutcome
  {
    if c.limited then TooManyRequests(c.retryAfter) else Admitted(limit, c.remaining, now + c.retryAfter)
  }

  /** request.client.host, or "unknown" without a client. */
  function ClientIp(client: Option<string>): string
  {
    if client.Some? then client.value else "unknown"
  }

  predicate NonNegativeLimits(endpoints: seq<(string, int)>)
  {
    forall i :: 0 <= i < |endpoints| ==> endpoints[i].1 >= 0
  }

  /** Every entry of the table has a non-empty prefix and a limit of at least 30. */
  predicate UsableTable(endpoints: seq<(string, int)>)
  {
    forall i :: 0 <= i < |endpoints| ==> endpoints[i].0 != [] && endpoints[i].1 >= 30
  }

  lemma {:induction false} PublicEndpointsUsable()
    ensures UsableTable(PublicEndpoints) && NonNegativeLimits(PublicEndpoints)
  {
  }

  /**
   * RateLimitMiddleware.dispatch as written: the first matching prefix
   * picks the limit, and a new RateLimiter checks the request, so every
   * request meets a full bucket.
   */
  function FreshDispatch(endpoints: seq<(string, int)>, path: string, client: Option<string>, now: int): RateOutcome
  {
    var m := FirstMatch(path, endpoints);
    if m.None? || m.value.0 == [] then Unlimited
    else OutcomeOf(m.value.1, Check(BucketOf(map[], ClientIp(client), m.value.1, now), m.value.1, 60, now), now)
  }

  /**
   * As written, the middleware never refuses a request: with every limit
   * positive, whatever came before, each request is admitted with one
   * token taken from a full bucket.
   */
  lemma {:induction false} FreshDispatchNeverLimits(path: string, client: Option<string>, now: int)
    ensures var o := FreshDispatch(PublicEndpoints, path, client, now);
            o.Unlimited? || (o.Admitted? && o.remaining == o.limit - 1 && o.reset == now)
  {
    var m := FirstMatch(path, PublicEndpoints);
    PublicEndpointsUsable();
    if m.Some? && m.value.0 != [] {
      var i :| 0 <= i < |PublicEndpoints| && PublicEndpoints[i] == m.value;
      NewClientAdmitted(m.value.1, 60, now);
    }
  }

  /** As written, a search path takes the /legislation limit: the /legislation/search entry is never used. */
  lemma {:induction false} SearchEntryShadowed(path: string)
    requires "/legislation/search" <= path
    ensures FirstMatch(path, PublicEndpoints) == Some(("/legislation", 100))
  {
    var s := "/legislation/search";
    assert "/legislation" == s[..12];
    assert PublicEndpoints[1].0 <= path;
    assert !(PublicEndpoints[0].0 <= path) by {
      assert PublicEndpoints[0].0[1] == 'h' && path[1] == 'l';
    }
  }

  /** The corrected dispatch with the longest match gives search paths their own limit. */
  lemma {:induction false} SearchEntryUsed(path: string)
    requires "/legislation/search" <= path
    ensures LongestMatch(path, PublicEndpoints).Some?
    ensures LongestMatch(path, PublicEndpoints).value.1 == 50
  {
    var m := LongestMatch(path, PublicEndpoints);
    assert PublicEndpoints[2].0 <= path;
    assert |m.value.0| >= 19;
    var i :| 0 <= i < |PublicEndpoints| && PublicEndpoints[i] == m.value;
    assert PublicEndpoints[i].0 <= path;
    LongEndpointsFromSearch(path, i);
  }

  /** The only table entries of 19 characters or more that a search path can start with. */
  lemma {:induction false} LongEndpointsFromSearch(path: string, i: nat)
    requires "/legislation/search" <= path
    requires i < |PublicEndpoints| && PublicEndpoints[i].0 <= path && |PublicEndpoints[i].0| >= 19
    ensures i == 2
  {
    var e := PublicEndpoints[i].0;
    assert e[1] == path[1] == 'l';
  }

  /** The rate-limit middleware, with the shared buckets of the corrected dispatch. */
  class RateLimitMiddleware {
    const endpoints: seq<(string, int)>
    /** The corrected dispatch's buckets, one per (endpoint, client). */
    var shared: map<string, map<string, Bucket>>

    constructor ()
      ensures endpoints == PublicEndpoints && shared == map[]
    {
      endpoints := PublicEndpoints;
      shared := map[];
    }

    /** The loop over the endpoint table that stops at the first prefix of the path. */
    method MatchingEndpoint(path: string) returns (m: Option<(string, int)>)
      ensures m == FirstMatch(path, endpoints)
    {
      var i := 0;
      m := None;
      while i < |endpoints|
        invariant 0 <= i <= |endpoints|
        invariant FirstMatch(path, endpoints) == FirstMatch(path, endpoints[i..])
      {
        assert endpoints[i..][1..] == endpoints[i + 1..];
        if endpoints[i].0 <= path {
          m := Some(endpoints[i]);
          return;
        }
        i := i + 1;
      }
    }

    /** dispatch as written: a new RateLimiter for the matched limit on every request. */
    method Dispatch(path: string, client: Option<string>, now: int) returns (o: RateOutcome)
      requires NonNegativeLimits(endpoints)
      ensures o == FreshDispatch(endpoints, path, client, now)
    {
      var m := MatchingEndpoint(path);
      if m.None? || m.value.0 == [] {
        return Unlimited;
      }
      var ip := if client.Some? then client.value else "unknown";
      var limit := m.value.1;
      var limiter := new RateLimiter(limit, 60);
      var limited, remaining, retryAfter := limiter.IsRateLimited(ip, now);
      if limited {
        return TooManyRequests(retryAfter);
      }
      return Admitted(limit, remaining, now + retryAfter);
    }

    /**
     * The evidently intended dispatch: the longest matching prefix picks
     * the limit, and one bucket per endpoint and client lasts across requests.
     */
    method DispatchShared(path: string, client: Option<string>, now: int) returns (o: RateOutcome)
      modifies this
      ensures var st := SharedDispatch(old(shared), endpoints, path, client, now);
              o == st.0 && shared == st.1
    {
      var m := LongestMatch(path, endpoints);
      if m.None? || m.value.0 == [] {
        return Unlimited;
      }
      var ip := ClientIp(client);
      var limit := m.value.1;
      var buckets := if m.value.0 in shared then shared[m.value.0] else map[];
      var c := Check(BucketOf(buckets, ip, limit, now), limit, 60, now);
      shared := shared[m.value.0 := buckets[ip := c.bucket]];
      o := OutcomeOf(limit, c, now);
    }
  }

  /** One corrected dispatch on the shared buckets. */
  function SharedDispatch(shared: map<string, map<string, Bucket>>, endpoints: seq<(string, int)>,
                          path: string, client: Option<string>, now: int): (RateOutcome, map<string, map<string, Bucket>>)
  {
    var m := LongestMatch(path, endpoints);
    if m.None? || m.value.0 == [] then (Unlimited, shared)
    else
      var buckets := if m.value.0 in shared then shared[m.value.0] else map[];
      var c := Check(BucketOf(buckets, ClientIp(client), m.value.1, now), m.value.1, 60, now);
      (OutcomeOf(m.value.1, c, now), shared[m.value.0 := buckets[ClientIp(client) := c.bucket]])
  }

  /**
   * With shared buckets, a client that has used up an endpoint's tokens
   * within this instant is refused and told to retry after the window.
   */
  lemma {:induction false} SharedDispatchRefusesDrained(shared: map<string, map<string, Bucket>>, path: string, client: Option<string>, now: int)
    requires LongestMatch(path, PublicEndpoints).Some?
    requires var e := LongestMatch(path, PublicEndpoints).value.0;
             e in shared && ClientIp(client) in shared[e] && shared[e][ClientIp(client)] == Bucket(0, now)
    ensures SharedDispatch(shared, PublicEndpoints, path, client, now).0 == TooManyRequests(60)
  {
    var m := LongestMatch(path, PublicEndpoints);
    PublicEndpointsUsable();
    var i :| 0 <= i < |PublicEndpoints| && PublicEndpoints[i] == m.value;
    BurstDrains(0, m.value.1, 60, now, 0);
  }

  // ---------------------------------------------------------------------
  // Sliding window

  /** [t for t in ts if t >= start]. */
  function InWindow(ts: seq<int>, start: int): (r: seq<int>)
    ensures |r| <= |ts|
    ensures forall i :: 0 <= i < |r| ==> r[i] >= start && r[i] in ts
    ensures forall i :: 0 <= i < |ts| && ts[i] >= start ==> ts[i] in r
  {
    if ts == [] then []
    else
      var rest := InWindow(ts[1..], start);
      assert forall i :: 1 <= i < |ts| ==> ts[i] == ts[1..][i - 1];
      if ts[0] >= start then [ts[0]] + rest else rest
  }

  /** SimpleRateLimiter.check on the request log: the answer and the new log. */
  function SlidingCheck(requests: map<string, seq<int>>, key: string, limit: int, window: int, now: int): (bool, map<string, seq<int>>)
  {
    if key !in requests then (true, requests[key := [now]])
    else
      var kept := InWindow(requests[key], now - window);
      if |kept| < limit then (true, requests[key := kept + [now]]) else (false, requests[key := kept])
  }

  /** A key's log never holds more than max(1, limit) timestamps. */
  predicate LogsBounded(requests: map<string, seq<int>>, limit: int)
  {
    forall k :: k in requests ==> |requests[k]| <= if limit > 1 then limit else 1
  }

  /**
   * A request is admitted exactly when its key is new or fewer than limit
   * of its requests lie in the window; the log stays bounded and keeps
   * only in-window requests of that key.
   */
  lemma {:induction false} SlidingCheckAdmits(requests: map<string, seq<int>>, key: string, limit: int, window: int, now: int)
    requires LogsBounded(requests, limit)
    ensures var r := SlidingCheck(requests, key, limit, window, now);
            (r.0 <==> key !in requests || |InWindow(requests[key], now - window)| < limit)
            && LogsBounded(r.1, limit)
            && (key in requests ==> forall i :: 0 <= i < |r.1[key]| ==> r.1[key][i] >= now - window || r.1[key][i] == now)
            && (r.0 ==> r.1[key][|r.1[key]| - 1] == now)
  {
  }

  /** The remaining count of get_headers: max(0, limit - requests in the window). */
  function Remaining(requests: map<string, seq<int>>, key: string, limit: int, window: int, now: int): (n: int)
    ensures (key in requests || limit >= 0) ==> 0 <= n
    ensures limit >= 0 ==> n <= limit
  {
    if key !in requests then limit
    else
      var m := limit - |InWindow(requests[key], now - window)|;
      if m > 0 then m else 0
  }

  /** A key whose window is full is refused, and nothing is added to its log. */
  lemma {:induction false} FullWindowRefused(requests: map<string, seq<int>>, key: string, limit: int, window: int, now: int)
    requires key in requests && Remaining(requests, key, limit, window, now) == 0
    ensures !SlidingCheck(requests, key, limit, window, now).0
    ensures SlidingCheck(requests, key, limit, window, now).1[key] == InWindow(requests[key], now - window)
  {
  }

  /** The SimpleRateLimiter: a log of request times per key. */
  class SimpleRateLimiter {
    const limit: int
    const windowSeconds: int
    var requests: map<string, seq<int>>

    constructor (limit: int, windowSeconds: int)
      ensures this.limit == limit && this.windowSeconds == windowSeconds && requests == map[]
    {
      this.limit := limit;
      this.windowSeconds := windowSeconds;
      requests := map[];
    }

    /** check: admit and log the request while the window has room. */
    method Check(key: string, now: int) returns (ok: bool)
      modifies this
      ensures (ok, requests) == SlidingCheck(old(requests), key, limit, windowSeconds, now)
    {
      if key !in requests {
        requests := requests[key := [now]];
        ok := true;
        return;
      }
      var kept := InWindow(requests[key], now - windowSeconds);
      requests := requests[key := kept];
      if |requests[key]| < limit {
        requests := requests[key := requests[key] + [now]];
        assert requests == old(requests)[key := kept + [now]];
        return true;
      }
      return false;
    }

    /** get_headers: the limit, what is left of it in the window, and when the window ends. */
    method GetHeaders(key: string, now: int) returns (h: seq<(string, Value)>)
      ensures h == [("X-RateLimit-Limit", PyStr(Text.IntToString(limit))),
                    ("X-RateLimit-Remaining", PyStr(Text.IntToString(Remaining(requests, key, limit, windowSeconds, now)))),
                    ("X-RateLimit-Reset", PyStr(Text.IntToString(now + windowSeconds)))]
    {
      var remaining := limit;
      if key in requests {
        var current := InWindow(requests[key], now - windowSeconds);
        remaining := if limit - |current| > 0 then limit - |current| else 0;
      }
      h := [("X-RateLimit-Limit", PyStr(Text.IntToString(limit))),
            ("X-RateLimit-Remaining", PyStr(Text.IntToString(remaining))),
            ("X-RateLimit-Reset", PyStr(Text.IntToString(now + windowSeconds)))];
    }
  }
}
