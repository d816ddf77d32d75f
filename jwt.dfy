/**
 * The token helpers: reading the token out of an `Authorization` header and
 * the issue and expiry times of a new token. Signing and verifying are done
 * by a library and are not part of this model; only the claims are.
 */
module Jwt {
  import opened Wrappers
  import opened Text

  const DefaultSecret := "default-secret-change-in-production"
  const DefaultExpirationHours := 24 * 7
  const BearerPrefix := "Bearer "

  /** `usize` on a 64-bit target. */
  const UsizeLimit := 0x1_0000_0000_0000_0000

  datatype JwtConfig = JwtConfig(secret: string, expiration_hours: int)

  datatype Claims = Claims(sub: string, username: string, exp: nat, iat: nat)

  /** `JwtConfig::default`: the `JWT_SECRET` variable, else the fixed secret,
      and tokens that live a week. */
  function DefaultConfig(jwtSecret: Option<string>): (c: JwtConfig)
    ensures c.expiration_hours == 168
    ensures jwtSecret.None? ==> c.secret == DefaultSecret
    ensures jwtSecret.Some? ==> c.secret == jwtSecret.value
  {
    JwtConfig(jwtSecret.UnwrapOr(DefaultSecret), DefaultExpirationHours)
  }

  /** The cast `i64 as usize`: a negative time wraps around. */
  function AsUsize(x: int): (u: nat)
    ensures u < UsizeLimit
    ensures 0 <= x < UsizeLimit ==> u == x
  {
    x % UsizeLimit
  }

  /** The claims `generate_token` signs, for a clock reading `now` in
      seconds since the epoch. */
  function TokenClaims(userId: string, username: string, config: JwtConfig, now: int): (c: Claims)
    ensures c.sub == userId && c.username == username
  {
    Claims(userId, username, AsUsize(now + config.expiration_hours * 3600), AsUsize(now))
  }

  /** A token issued at a time after the epoch, expiring before the `usize`
      range ends, is valid for exactly its configured number of hours. */
  lemma ValidForConfiguredHours(userId: string, username: string, config: JwtConfig, now: int)
    requires 0 <= now < UsizeLimit && 0 <= now + config.expiration_hours * 3600 < UsizeLimit
    ensures var c := TokenClaims(userId, username, config, now);
      c.iat == now && c.exp - c.iat == config.expiration_hours * 3600
  {
  }

  /** With the default configuration a token is valid for a week. */
  lemma DefaultValidForAWeek(jwtSecret: Option<string>, userId: string, username: string, now: int)
    requires 0 <= now && now + 604800 < UsizeLimit
    ensures var c := TokenClaims(userId, username, DefaultConfig(jwtSecret), now);
      c.exp - c.iat == 604800
  {
    ValidForConfiguredHours(userId, username, DefaultConfig(jwtSecret), now);
  }

  /** `extract_token_from_header`: what follows "Bearer " (case-sensitive). */
  function ExtractTokenFromHeader(header: string): (t: Option<string>)
    ensures t.Some? <==> StartsWith(header, BearerPrefix)
    ensures t.Some? ==> header == BearerPrefix + t.value
  {
    if StartsWith(header, BearerPrefix) then Some(header[|BearerPrefix|..]) else None
  }

  /** Every token written after "Bearer " is read back unchanged. */
  lemma BearerRoundTrip(token: string)
    ensures ExtractTokenFromHeader(BearerPrefix + token) == Some(token)
  {
    assert (BearerPrefix + token)[..|BearerPrefix|] == BearerPrefix;
    assert (BearerPrefix + token)[|BearerPrefix|..] == token;
  }

  /** The scheme is matched case-sensitively and needs its space: "bearer ",
      "BEARER " and a bare "Bearer" give no token. */
  lemma SchemeIsCaseSensitive(token: string)
    ensures ExtractTokenFromHeader("bearer " + token).None?
    ensures ExtractTokenFromHeader("BEARER " + token).None?
    ensures ExtractTokenFromHeader("Bearer").None?
  {
    assert ("bearer " + token)[0] == 'b';
    assert ("BEARER " + token)[1] == 'E';
  }
}
