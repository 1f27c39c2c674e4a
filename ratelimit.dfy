/** The proxy's per-identity request quota (lib/ratelimit.ts). */
module RateLimit {
  import opened Wrappers

  /** What a limiter call resolves to: allowed or not, and the quota figures to report. */
  datatype Decision = Decision(success: bool, limit: int, remaining: int, reset: int)

  /** A call into the Upstash limiter either resolves or rejects (an unreachable Redis, say). */
  datatype Check = Checked(decision: Decision) | Rejected

  /** The configured limiter: `requests` per sliding window of `windowMs`, keys under `prefix`. */
  datatype Limiter = SlidingWindow(requests: nat, windowMs: nat, prefix: string)

  const ConfiguredLimiter: Limiter := SlidingWindow(10, 10000, "@upstash/ratelimit")

  /** Quota figures reported when no limiter is configured. */
  const FailOpenLimit := 10
  const FailOpenWindowMs := 10000

  /** An environment variable that is set to a non-empty string (JavaScript truthiness). */
  predicate EnvSet(v: Option<string>) {
    v.Some? && v.value != ""
  }

  class RateLimiter {
    /** The module-level `ratelimit`, assigned once when the module is loaded. */
    const limiter: Option<Limiter>

    /** Module load: a limiter exists only when both Upstash variables are set and its
        construction did not throw; otherwise rate limiting is disabled. */
    constructor (url: Option<string>, token: Option<string>, constructionThrows: bool)
      ensures limiter.Some? <==> EnvSet(url) && EnvSet(token) && !constructionThrows
      ensures limiter.Some? ==> limiter.value == ConfiguredLimiter
    {
      if EnvSet(url) && EnvSet(token) && !constructionThrows {
        limiter := Some(ConfiguredLimiter);
      } else {
        limiter := None;
      }
    }

    /** `checkRateLimit(identifier)` at time `now` (`Date.now()`); `upstash` is the opaque
        sliding-window service. Without a limiter every call is allowed (fail-open). */
    function CheckRateLimit(identifier: string, now: int, upstash: (Limiter, string) -> Check): (r: Check)
      ensures limiter.None? ==> r.Checked? && r.decision.success
      ensures limiter.None? ==> r.decision.limit == FailOpenLimit && r.decision.remaining == FailOpenLimit
      ensures limiter.None? ==> r.decision.reset == now + FailOpenWindowMs
      ensures limiter.Some? ==> r == upstash(limiter.value, identifier)
    {
      if limiter.None? then Checked(Decision(true, FailOpenLimit, FailOpenLimit, now + FailOpenWindowMs))
      else upstash(limiter.value, identifier)
    }
  }
}
