/** `passkeys/`: ceremonies with single-use challenges. */
module PasskeyRules {
  import opened Models
  import opened Config
  import opened StoreState
  import SessionRules

  /** `_require_recent_authentication`; None when the principal may go on. */
  function NotRecent(cfg: Settings, p: Principal, now: Time): Option<AuthError> {
    if p.mustChangePassword then Some(PasswordChangeRequired)
    else if now - p.authenticatedAt > Seconds(cfg.passkeyRegistrationMaxAgeSeconds) then Some(Forbidden)
    else None
  }

  predicate UserStands(s: State, user: Uuid, now: Time) {
    user in s.users && s.users[user].CanAuthenticate(now)
  }

  datatype Ceremony = Ceremony(id: Uuid, challenge: string)

  function NewChallenge(cfg: Settings, purpose: CeremonyPurpose, origin: string, user: Option<Uuid>,
                        family: Option<Uuid>, draw: Ceremony, now: Time): PasskeyChallenge
  {
    PasskeyChallenge(draw.id, purpose, draw.challenge, origin, user, family, now,
                     now + Seconds(cfg.passkeyChallengeTtlSeconds), None)
  }

  function Begin(s: State, c: PasskeyChallenge, now: Time): Reply {
    var pruned := PrunePasskeyChallenges(s, now);
    if PasskeyChallengeClashes(pruned.passkeyChallenges, c) then Reply(s, Rejected(StoreConflict))
    else Reply(PutPasskeyChallenge(pruned, c), PasskeyChallenged(c))
  }

  function BeginRegistration(cfg: Settings, s: State, p: Principal, origin: Option<string>, draw: Ceremony,
                             now: Time): Reply
  {
    var stale := NotRecent(cfg, p, now);
    if stale.Some? then Reply(s, Rejected(stale.value))
    else if origin.None? then Reply(s, Rejected(InvalidOrigin))
    else if !UserStands(s, p.userId, now) then Reply(s, Rejected(InvalidSession))
    else if |UsablePasskeys(s.passkeys, p.userId)| >= cfg.passkeyMaxCredentials
    then Reply(s, Rejected(PasskeyLimitReached))
    else Begin(s, NewChallenge(cfg, Registration, origin.value, Some(p.userId), None, draw, now), now)
  }

  function BeginAuthentication(cfg: Settings, s: State, origin: Option<string>, draw: Ceremony, now: Time): Reply {
    if origin.None? then Reply(s, Rejected(InvalidOrigin))
    else Begin(s, NewChallenge(cfg, Authentication, origin.value, None, None, draw, now), now)
  }

  function BeginReauthentication(cfg: Settings, s: State, p: Principal, origin: Option<string>,
                                 draw: Ceremony, now: Time): Reply
  {
    if origin.None? then Reply(s, Rejected(InvalidOrigin))
    else if !SessionRules.PrincipalStands(s, p, UserById(s.users, p.userId), now)
    then Reply(s, Rejected(InvalidSession))
    else Begin(s, NewChallenge(cfg, Reauthentication, origin.value, Some(p.userId), Some(p.familyId), draw, now), now)
  }

  /** `_consume_challenge`: its own transaction, committed before the ceremony goes on. */
  function Consume(s: State, id: Uuid, purpose: CeremonyPurpose, user: Option<Uuid>, family: Option<Uuid>,
                   now: Time): Reply
  {
    if !PasskeyConsumable(s.passkeyChallenges, id, purpose, now, user, family)
    then Reply(s, Rejected(PasskeyChallengeInvalid))
    else
      var spent := s.passkeyChallenges[id].(consumedAt := Some(now));
      Reply(PutPasskeyChallenge(s, spent), PasskeyChallenged(spent))
  }

  /** What the WebAuthn adapter accepts in a registration response. */
  datatype Attestation = Attestation(credentialId: string, publicKey: string, signCount: nat,
                                     deviceType: string, backedUp: bool)

  function NewPasskey(id: Uuid, user: Uuid, name: string, a: Attestation, now: Time): Passkey {
    Passkey(id, user, a.credentialId, a.publicKey, name, a.signCount, a.deviceType, a.backedUp, now, None, None)
  }

  /** The second transaction of `finish_registration`. */
  function Register(cfg: Settings, s: State, p: Principal, passkey: Passkey, now: Time): Reply {
    if !UserStands(s, p.userId, now) then Reply(s, Rejected(InvalidSession))
    else if |UsablePasskeys(s.passkeys, p.userId)| >= cfg.passkeyMaxCredentials
    then Reply(s, Rejected(PasskeyLimitReached))
    else if passkey.id in s.passkeys || CredentialTaken(s.passkeys, passkey.credentialId)
    then Reply(s, Rejected(PasskeyExists))
    else Reply(PutUser(PutPasskey(s, passkey), s.users[p.userId].AdvanceSecurityVersion(now)),
               PasskeySaved(passkey))
  }

  function FinishRegistration(cfg: Settings, s: State, p: Principal, ceremony: Uuid, name: string,
                              origin: Option<string>, response: Option<Attestation>, id: Uuid, now: Time): Reply
  {
    var stale := NotRecent(cfg, p, now);
    if stale.Some? then Reply(s, Rejected(stale.value))
    else if origin.None? then Reply(s, Rejected(InvalidOrigin))
    else
      var spent := Consume(s, ceremony, Registration, Some(p.userId), None, now);
      if spent.out.Rejected? then spent
      else if spent.out.pkChallenge.origin != origin.value then Reply(spent.st, Rejected(PasskeyChallengeInvalid))
      else if response.None? || !(1 <= |response.value.credentialId| <= 1023) || response.value.publicKey == ""
      then Reply(spent.st, Rejected(PasskeyRegistrationInvalid))
      else Register(cfg, spent.st, p, NewPasskey(id, p.userId, name, response.value, now), now)
  }

  /** A login response: the credential it names, and what the adapter verifies for that credential. */
  datatype Assertion = Unreadable | Assertion(credentialId: string, verified: Option<VerifiedAssertion>)

  datatype VerifiedAssertion = VerifiedAssertion(credentialId: string, deviceType: string,
                                                 signCount: nat, backedUp: bool)

  /** The stored credential that `verify_and_update_passkey` puts to the verifier. */
  ghost function OfferedPasskey(s: State, a: Assertion, expected: Option<Uuid>, now: Time): Option<Passkey> {
    if a.Unreadable? then None
    else
      var stored := PasskeyByCredential(s.passkeys, a.credentialId);
      if stored.None? || stored.value.revokedAt.Some?
         || (expected.Some? && stored.value.userId != expected.value)
         || !UserStands(s, stored.value.userId, now)
      then None
      else stored
  }

  /** The one it accepts, before its counter moves. */
  ghost function AcceptedPasskey(s: State, a: Assertion, expected: Option<Uuid>, now: Time): Option<Passkey> {
    var offered := OfferedPasskey(s, a, expected, now);
    if offered.None? || a.Unreadable? || a.verified.None?
       || a.verified.value.credentialId != offered.value.credentialId
       || a.verified.value.deviceType != offered.value.deviceType
    then None
    else offered
  }

  function UsedPasskey(p: Passkey, v: VerifiedAssertion, now: Time): Passkey {
    p.(signCount := v.signCount, backedUp := v.backedUp, lastUsedAt := Some(now))
  }

  /** The second transaction of `finish_authentication`. */
  ghost function LoginByPasskey(cfg: Settings, s: State, a: Assertion, now: Time, draw: Fresh): Reply {
    var passkey := AcceptedPasskey(s, a, None, now);
    if passkey.None? then Reply(s, Rejected(PasskeyAuthenticationInvalid))
    else SessionRules.OrRollback(s,
           SessionRules.Issue(cfg, PutPasskey(s, UsedPasskey(passkey.value, a.verified.value, now)),
                              s.users[passkey.value.userId], now, SessionRules.NewLogin, draw))
  }

  ghost function FinishAuthentication(cfg: Settings, s: State, ceremony: Uuid, origin: Option<string>,
                                      a: Assertion, now: Time, draw: Fresh): Reply
  {
    if origin.None? then Reply(s, Rejected(InvalidOrigin))
    else
      var spent := Consume(s, ceremony, Authentication, None, None, now);
      if spent.out.Rejected? then spent
      else if spent.out.pkChallenge.origin != origin.value then Reply(spent.st, Rejected(PasskeyChallengeInvalid))
      else LoginByPasskey(cfg, spent.st, a, now, draw)
  }

  /** The second transaction of `finish_reauthentication`: a refused session undoes the counter. */
  ghost function ConfirmByPasskey(s: State, p: Principal, a: Assertion, now: Time): Reply {
    var passkey := AcceptedPasskey(s, a, Some(p.userId), now);
    if passkey.None? then Reply(s, Rejected(PasskeyAuthenticationInvalid))
    else if !SessionRules.PrincipalStands(s, p, UserById(s.users, passkey.value.userId), now)
    then Reply(s, Rejected(InvalidSession))
    else Reply(PutPasskey(s, UsedPasskey(passkey.value, a.verified.value, now)),
               Reauthenticated(p.userId, p.sessionId, p.familyId, now))
  }

  ghost function FinishReauthentication(s: State, p: Principal, ceremony: Uuid, origin: Option<string>,
                                        a: Assertion, now: Time): Reply
  {
    if origin.None? then Reply(s, Rejected(InvalidOrigin))
    else
      var spent := Consume(s, ceremony, Reauthentication, Some(p.userId), Some(p.familyId), now);
      if spent.out.Rejected? then spent
      else if spent.out.pkChallenge.origin != origin.value then Reply(spent.st, Rejected(PasskeyChallengeInvalid))
      else ConfirmByPasskey(spent.st, p, a, now)
  }

  function RevokePasskey(cfg: Settings, s: State, p: Principal, id: Uuid, origin: Option<string>, now: Time): Reply {
    var stale := NotRecent(cfg, p, now);
    if stale.Some? then Reply(s, Rejected(stale.value))
    else if origin.None? then Reply(s, Rejected(InvalidOrigin))
    else if id !in s.passkeys || s.passkeys[id].userId != p.userId || s.passkeys[id].revokedAt.Some?
    then Reply(s, Rejected(PasskeyNotFound))
    else if !UserStands(s, p.userId, now) then Reply(s, Rejected(InvalidSession))
    else Reply(PutUser(PutPasskey(s, s.passkeys[id].(revokedAt := Some(now))),
                       s.users[p.userId].AdvanceSecurityVersion(now)), Acknowledged)
  }
}
