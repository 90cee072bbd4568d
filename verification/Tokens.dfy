/** `HMACJWTSigner` (src/epok_auth/tokens.py): whole-second claims cut from microsecond times.
    Claim times follow sections 2 and 4.1.4 to 4.1.6 of RFC 7519. */
module Tokens {
  import opened Models
  import opened Config

  /** `int(x.timestamp())`: truncation towards zero. */
  function WholeSeconds(t: Time): int {
    if t >= 0 then t / 1_000_000 else -((-t) / 1_000_000)
  }

  function IssueAccess(cfg: Settings, p: Principal, now: Time): AccessPayload {
    AccessPayload(
      p.userId, p.sessionId, p.familyId,
      WholeSeconds(now), WholeSeconds(now),
      WholeSeconds(now + Seconds(cfg.accessTtlSeconds)),
      WholeSeconds(p.authenticatedAt))
  }

  /** `verify` on a payload whose signature, issuer, audience and shape are accepted. */
  function VerifyAccess(cfg: Settings, token: AccessPayload, now: Time): Option<Subject> {
    var issuedAt := Seconds(token.iat);
    var notBefore := Seconds(token.nbf);
    var expiresAt := Seconds(token.exp);
    var authenticatedAt := Seconds(token.authTime);
    var leeway := Seconds(cfg.jwtLeewaySeconds);
    if issuedAt > now + leeway || notBefore > now + leeway then None
    else if notBefore - issuedAt > leeway || issuedAt - notBefore > leeway then None
    else if authenticatedAt > issuedAt + leeway then None
    else if expiresAt - issuedAt > Seconds(cfg.accessTtlSeconds) + leeway then None
    else if expiresAt <= now - leeway || expiresAt <= issuedAt then None
    else Some(Subject(token.sub, token.sid, token.fid, authenticatedAt))
  }
}
