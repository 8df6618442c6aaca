/** The decisions `TokenManager` takes about one token (`src/auth/token.rs`), as values. */
module TokenRules {
  import opened Prelude
  import opened Timestamps
  import opened Tables

  const SECOND: int := NANOS_PER_SECOND
  const HOUR: int := 3600 * SECOND
  const DAY: int := 24 * HOUR

  /** How far ahead of its expiry a cached token counts as expired. */
  const EXPIRY_SKEW: int := 5 * 60 * SECOND

  /** A cache hit rewrites `last_used_at` only when it is older than this. */
  const USAGE_WRITE_INTERVAL: int := 6 * HOUR

  /** `Utc::now() - Duration::days(inactivity_days)`. */
  function Cutoff(now: int, days: int): int {
    now - days * DAY
  }

  /** A token set granted by the provider; a refresh need not bring a new refresh token. */
  datatype Grant = Grant(access: Secret, refresh: Option<Secret>, scope: Option<string>, expiresAt: Option<Instant>)

  datatype Reply = Refused | Granted(grant: Grant)

  /** Still usable: it has an expiry, and that is beyond the safety margin. */
  predicate CacheHit(token: StoredToken, now: Instant) {
    token.expiresAt.Some? && token.expiresAt.value > now + EXPIRY_SKEW
  }

  predicate BumpDue(token: StoredToken, now: Instant) {
    token.lastUsedAt.None? || now - token.lastUsedAt.value > USAGE_WRITE_INTERVAL
  }

  /** The row a cache hit writes back: the token as it was read, with new times. */
  function Bumped(token: StoredToken, now: Instant): StoredToken {
    token.(lastUsedAt := Some(now), updatedAt := now)
  }

  /** The row a refresh writes: the old refresh token survives if none came back. */
  function Renewed(current: StoredToken, grant: Grant, now: Instant): StoredToken {
    StoredToken(grant.access, if grant.refresh.Some? then grant.refresh.value else current.refresh,
                grant.scope, grant.expiresAt, Some(now), now)
  }

  /** The provider replaced the refresh token, so the one presented is spent (RFC 6749, section 6). */
  predicate Rotates(current: StoredToken, grant: Grant) {
    grant.refresh.Some? && grant.refresh.value != current.refresh
  }
}
