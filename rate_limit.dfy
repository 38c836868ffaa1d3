/**
  The in-memory fixed-window rate limiter of frontend/lib/rate-limit.ts and
  its two configured instances. Each identifier owns an entry {count,
  resetAt}; a call inside the window (now <= resetAt) spends one of
  `maxRequests` permits, a call after it opens a new window.

  The clock is a parameter: `now` is the millisecond timestamp the source
  reads from `Date.now()`.
  */
module RateLimit {

  /** `RateLimitEntry` */
  datatype Entry = Entry(count: int, resetAt: int)

  /** What `check` resolves to. */
  datatype LimitResult = LimitResult(success: bool, limit: int, remaining: int, resetAt: int)

  /** One request against an identifier. */
  datatype Call = Call(id: string, now: int)

  function Max(a: int, b: int): int {
    if a < b then b else a
  }

  /** The new state and the answer of one `check(id)` at time `now`. */
  function Step(limits: map<string, Entry>, maxRequests: int, windowMs: int, id: string, now: int)
    : (map<string, Entry>, LimitResult)
  {
    if id !in limits || now > limits[id].resetAt then
      (limits[id := Entry(1, now + windowMs)], LimitResult(true, maxRequests, maxRequests - 1, now + windowMs))
    else if limits[id].count < maxRequests then
      var e := limits[id];
      (limits[id := Entry(e.count + 1, e.resetAt)], LimitResult(true, maxRequests, maxRequests - (e.count + 1), e.resetAt))
    else
      (limits, LimitResult(false, maxRequests, 0, limits[id].resetAt))
  }

  /** Every stored count is at least 1 and never above the limit (or 1, for a
      limiter configured with no permits at all). */
  predicate Bounded(limits: map<string, Entry>, maxRequests: int) {
    forall id :: id in limits ==> 1 <= limits[id].count <= Max(maxRequests, 1)
  }

  class InMemoryRateLimiter {
    var limits: map<string, Entry>
    const maxRequests: int
    const windowMs: int

    predicate Valid()
      reads this
    {
      Bounded(limits, maxRequests)
    }

    constructor(maxRequests: int, windowMs: int)
      ensures this.maxRequests == maxRequests && this.windowMs == windowMs
      ensures limits == map[]
      ensures Valid()
    {
      this.maxRequests := maxRequests;
      this.windowMs := windowMs;
      limits := map[];
    }

    /** `check(identifier)`: opens a new window for an unseen or expired
        identifier, spends a permit inside the window, or refuses. */
    method Check(identifier: string, now: int) returns (res: LimitResult)
      requires Valid()
      modifies this
      ensures Valid()
      ensures (limits, res) == Step(old(limits), maxRequests, windowMs, identifier, now)
    {
      if identifier !in limits || now > limits[identifier].resetAt {
        var resetAt := now + windowMs;
        limits := limits[identifier := Entry(1, resetAt)];
        return LimitResult(true, maxRequests, maxRequests - 1, resetAt);
      }
      var entry := limits[identifier];
      if entry.count < maxRequests {
        entry := entry.(count := entry.count + 1);
        limits := limits[identifier := entry];
        return LimitResult(true, maxRequests, maxRequests - entry.count, entry.resetAt);
      }
      return LimitResult(false, maxRequests, 0, entry.resetAt);
    }
  }

  /** An unseen or expired identifier gets a fresh window with count 1. */
  lemma StepOpensWindow(limits: map<string, Entry>, maxRequests: int, windowMs: int, id: string, now: int)
    requires id !in limits || now > limits[id].resetAt
    ensures var (next, r) := Step(limits, maxRequests, windowMs, id, now);
      next == limits[id := Entry(1, now + windowMs)] &&
      r.success && r.remaining == maxRequests - 1 && r.resetAt == now + windowMs
  {
  }

  /** Inside the window with permits left, the count grows by one, the
      window end stays, and `remaining` is what is left after this call. */
  lemma StepSpendsPermit(limits: map<string, Entry>, maxRequests: int, windowMs: int, id: string, now: int)
    requires id in limits && now <= limits[id].resetAt && limits[id].count < maxRequests
    ensures var (next, r) := Step(limits, maxRequests, windowMs, id, now);
      id in next && next[id].count == limits[id].count + 1 && next[id].resetAt == limits[id].resetAt &&
      r.success && r.remaining == maxRequests - next[id].count && r.remaining >= 0
  {
  }

  /** Inside the window with no permit left, the call fails and nothing changes. */
  lemma StepRefuses(limits: map<string, Entry>, maxRequests: int, windowMs: int, id: string, now: int)
    requires id in limits && now <= limits[id].resetAt && limits[id].count >= maxRequests
    ensures var (next, r) := Step(limits, maxRequests, windowMs, id, now);
      next == limits && !r.success && r.remaining == 0 && r.resetAt == limits[id].resetAt
  {
  }

  /** The comparison is strict: a call at exactly `resetAt` is still inside
      the old window, one millisecond later opens a new one. */
  lemma StepBoundary(limits: map<string, Entry>, maxRequests: int, windowMs: int, id: string)
    requires id in limits && limits[id].count >= maxRequests
    ensures !Step(limits, maxRequests, windowMs, id, limits[id].resetAt).1.success
    ensures Step(limits, maxRequests, windowMs, id, limits[id].resetAt + 1).1.success
  {
  }

  /** A check touches only its own identifier's entry. */
  lemma StepOthersUnchanged(limits: map<string, Entry>, maxRequests: int, windowMs: int, id: string, now: int, other: string)
    requires other != id
    ensures var next := Step(limits, maxRequests, windowMs, id, now).0;
      (other in next <==> other in limits) && (other in limits ==> next[other] == limits[other])
  {
  }

  /** The `limit` reported is always the configured one, `remaining` is
      never negative for a limiter with permits, and success is reported
      exactly when the identifier's count went up or a window opened. */
  lemma StepReports(limits: map<string, Entry>, maxRequests: int, windowMs: int, id: string, now: int)
    requires Bounded(limits, maxRequests) && maxRequests >= 1
    ensures var (next, r) := Step(limits, maxRequests, windowMs, id, now);
      r.limit == maxRequests && 0 <= r.remaining < maxRequests &&
      id in next && r.resetAt == next[id].resetAt &&
      (r.success <==> next != limits || (id in limits && now > limits[id].resetAt) || id !in limits)
  {
    var (next, r) := Step(limits, maxRequests, windowMs, id, now);
    if id in limits && now <= limits[id].resetAt && limits[id].count < maxRequests {
      assert next[id].count != limits[id].count;
    }
  }

  /** Counts stay within the limit. */
  lemma StepKeepsBounded(limits: map<string, Entry>, maxRequests: int, windowMs: int, id: string, now: int)
    requires Bounded(limits, maxRequests)
    ensures Bounded(Step(limits, maxRequests, windowMs, id, now).0, maxRequests)
  {
  }

  /** The answers to a sequence of calls, threaded through the state. */
  function Run(limits: map<string, Entry>, maxRequests: int, windowMs: int, calls: seq<Call>): (r: seq<LimitResult>)
    ensures |r| == |calls|
    decreases |calls|
  {
    if calls == [] then []
    else
      var (next, res) := Step(limits, maxRequests, windowMs, calls[0].id, calls[0].now);
      [res] + Run(next, maxRequests, windowMs, calls[1..])
  }

  /** How many of the calls on `id` in a run succeed. */
  function Successes(calls: seq<Call>, results: seq<LimitResult>, id: string): nat
    requires |results| == |calls|
    decreases |calls|
  {
    if calls == [] then 0
    else (if calls[0].id == id && results[0].success then 1 else 0) + Successes(calls[1..], results[1..], id)
  }

  /** While every call on `id` stays inside its current window, at most the
      permits not yet spent in that window succeed. */
  lemma {:induction false} WithinWindowBound(limits: map<string, Entry>, maxRequests: int, windowMs: int, id: string, calls: seq<Call>)
    requires id in limits
    requires forall k :: 0 <= k < |calls| && calls[k].id == id ==> calls[k].now <= limits[id].resetAt
    ensures Successes(calls, Run(limits, maxRequests, windowMs, calls), id) <= Max(maxRequests - limits[id].count, 0)
    decreases |calls|
  {
    if calls != [] {
      var (next, res) := Step(limits, maxRequests, windowMs, calls[0].id, calls[0].now);
      assert Run(limits, maxRequests, windowMs, calls) == [res] + Run(next, maxRequests, windowMs, calls[1..]);
      if calls[0].id != id {
        StepOthersUnchanged(limits, maxRequests, windowMs, calls[0].id, calls[0].now, id);
      }
      assert id in next && next[id].resetAt == limits[id].resetAt;
      forall k | 0 <= k < |calls[1..]| && calls[1..][k].id == id
        ensures calls[1..][k].now <= next[id].resetAt
      {
        assert calls[1..][k] == calls[k + 1];
      }
      WithinWindowBound(next, maxRequests, windowMs, id, calls[1..]);
    }
  }

  /** A window opened by a call succeeds at most `maxRequests` times in
      total, counting the call that opened it. */
  lemma FreshWindowBound(limits: map<string, Entry>, maxRequests: int, windowMs: int, id: string, calls: seq<Call>)
    requires maxRequests >= 1
    requires |calls| >= 1 && calls[0].id == id
    requires id !in limits || calls[0].now > limits[id].resetAt
    requires forall k :: 1 <= k < |calls| && calls[k].id == id ==> calls[k].now <= calls[0].now + windowMs
    ensures Successes(calls, Run(limits, maxRequests, windowMs, calls), id) <= maxRequests
  {
    var (next, res) := Step(limits, maxRequests, windowMs, id, calls[0].now);
    assert Run(limits, maxRequests, windowMs, calls) == [res] + Run(next, maxRequests, windowMs, calls[1..]);
    forall k | 0 <= k < |calls[1..]| && calls[1..][k].id == id
      ensures calls[1..][k].now <= next[id].resetAt
    {
      assert calls[1..][k] == calls[k + 1];
    }
    WithinWindowBound(next, maxRequests, windowMs, id, calls[1..]);
  }

  /** `NODE_ENV`-dependent permit count of the model-call limiter. */
  function ClaudeLimit(nodeEnv: string): (n: int)
    ensures n == 20 <==> nodeEnv == "production"
    ensures n == 100 <==> nodeEnv != "production"
  {
    if nodeEnv != "production" then 100 else 20
  }

  const ClaudeWindowMs: int := 60 * 60 * 1000
  const ApiLimit: int := 100
  const ApiWindowMs: int := 60 * 1000

  /** The limiter guarding model calls: 20 or 100 per hour. */
  method NewClaudeLimiter(nodeEnv: string) returns (l: InMemoryRateLimiter)
    ensures fresh(l) && l.Valid() && l.limits == map[]
    ensures l.maxRequests == ClaudeLimit(nodeEnv) && l.windowMs == 3600000
  {
    l := new InMemoryRateLimiter(ClaudeLimit(nodeEnv), ClaudeWindowMs);
  }

  /** The limiter guarding the other endpoints: 100 per minute. */
  method NewApiLimiter() returns (l: InMemoryRateLimiter)
    ensures fresh(l) && l.Valid() && l.limits == map[]
    ensures l.maxRequests == 100 && l.windowMs == 60000
  {
    l := new InMemoryRateLimiter(ApiLimit, ApiWindowMs);
  }
}
