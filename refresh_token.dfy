/** Stored refresh tokens and the two validity properties the record computes. The clock is a
    parameter; the stored expiry is compared as a naive date-time. */
module RefreshTokens {
  import opened Timestamps

  datatype RefreshToken = RefreshToken(userId: int, tokenHash: string, expiresAt: Instant, isRevoked: bool)

  /** A token created with only its required columns is not revoked. */
  function NewRefreshToken(userId: int, tokenHash: string, expiresAt: Instant): (t: RefreshToken)
    ensures !t.isRevoked
    ensures forall now :: IsValid(t, now) <==> now <= expiresAt
  {
    RefreshToken(userId, tokenHash, expiresAt, false)
  }

  /** A token has expired once the current time is strictly past its expiry. */
  function IsExpired(t: RefreshToken, now: Instant): (b: bool)
    ensures b <==> now > t.expiresAt
  {
    now > t.expiresAt
  }

  /** A token can be used when it is neither revoked nor expired. */
  function IsValid(t: RefreshToken, now: Instant): (b: bool)
    ensures b ==> !t.isRevoked
    ensures b ==> now <= t.expiresAt
    ensures !t.isRevoked && !IsExpired(t, now) ==> b
  {
    !t.isRevoked && !IsExpired(t, now)
  }

  /** A token valid now was valid at every earlier instant: validity only ever ends. */
  lemma ValidityIsMonotone(t: RefreshToken, earlier: Instant, now: Instant)
    requires earlier <= now && IsValid(t, now)
    ensures IsValid(t, earlier)
  {
  }

  /** Revoking a token invalidates it at every instant. */
  lemma RevokedIsNeverValid(t: RefreshToken, now: Instant)
    ensures !IsValid(t.(isRevoked := true), now)
  {
  }
}
