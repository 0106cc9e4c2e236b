/**
  One credential of the back-office pool: the secret sent on the wire, when it
  was last handed out and when the server last rejected it. Times are
  nanoseconds on the caller's clock, the resolution of Go's `time.Duration`.
 */
module AuthTokens {
  import opened Wrappers

  const Second: int := 1_000_000_000
  const Minute: int := 60 * Second
  /** `AuthTokenRateLimitDuration`: how long a rejected token stays out of rotation. */
  const RateLimitDuration: int := 4 * Minute

  datatype AuthToken = AuthToken(token: string, lastUsed: Option<int>, rateLimitedAt: Option<int>)
  {
    /** The secret, as sent in the `Authentication` header. */
    function String(): string {
      token
    }

    /** Stamped, and the stamp is less than the cooldown old at `now`. */
    predicate IsRateLimited(now: int) {
      rateLimitedAt.Some? && now - rateLimitedAt.value < RateLimitDuration
    }

    /** `setLastUsed`: overwrites the last-use stamp and nothing else. */
    function WithLastUsed(at: int): (r: AuthToken)
      ensures r.lastUsed == Some(at)
      ensures r.token == token && r.rateLimitedAt == rateLimitedAt
      ensures forall now :: r.IsRateLimited(now) == IsRateLimited(now)
    {
      this.(lastUsed := Some(at))
    }

    /** `setRateLimited`: overwrites the rate-limit stamp and nothing else. */
    function WithRateLimited(at: int): (r: AuthToken)
      ensures r.rateLimitedAt == Some(at)
      ensures r.token == token && r.lastUsed == lastUsed
      ensures forall now :: r.IsRateLimited(now) <==> now < at + RateLimitDuration
    {
      this.(rateLimitedAt := Some(at))
    }
  }

  /** `NewAuthToken`: a token never used and never rejected. */
  function NewAuthToken(token: string): (r: AuthToken)
    ensures r.String() == token
    ensures forall now :: !r.IsRateLimited(now)
    ensures r.lastUsed.None?
  {
    AuthToken(token, None, None)
  }

  /**
    The cooldown boundary: a token stamped at `at` is excluded strictly before
    `at + 4 minutes` and selectable again from that instant on.
   */
  lemma CooldownBoundary(a: AuthToken, at: int)
    ensures a.WithRateLimited(at).IsRateLimited(at)
    ensures a.WithRateLimited(at).IsRateLimited(at + RateLimitDuration - 1)
    ensures !a.WithRateLimited(at).IsRateLimited(at + RateLimitDuration)
  {
  }
}
