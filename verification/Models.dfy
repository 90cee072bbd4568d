/** The entities of `src/epok_auth/models.py`, `email_links/models.py`, `google/models.py` and
    `passkeys/models.py`, with the transitions a user account may go through. */
module Models {

  datatype Option<+T> = None | Some(value: T)

  type Uuid = nat

  // Microseconds since 1970-01-01T00:00:00Z: the resolution of Python's `datetime`.
  type Time = int

  function Seconds(n: int): Time { n * 1_000_000 }

  function Min(a: int, b: int): int { if a < b then a else b }

  function Max(a: int, b: int): int { if a < b then b else a }

  // SHA-256 of a token, taken as an injective function.
  datatype Hash = Sha256(token: string)

  datatype UserStatus = PendingActivation | Active | Disabled

  datatype User = User(
    id: Uuid,
    email: string,
    displayName: string,
    passwordHash: string,
    status: UserStatus,
    roles: seq<string>,
    scopes: seq<string>,
    mustChangePassword: bool,
    passwordLoginEnabled: bool,
    emailLinkLoginEnabled: bool,
    googleAutoLinkAllowed: bool,
    securityVersion: int,
    failedLoginAttempts: int,
    lockedUntil: Option<Time>,
    passwordChangedAt: Option<Time>,
    createdAt: Option<Time>,
    updatedAt: Option<Time>)
  {
    predicate CanAuthenticate(now: Time) {
      status == Active && !(lockedUntil.Some? && lockedUntil.value > now)
    }

    predicate HasRole(role: string) { role in roles }

    function AdvanceSecurityVersion(at: Time): User {
      this.(securityVersion := securityVersion + 1, updatedAt := Some(at))
    }

    function ReplacePassword(newHash: string, at: Time): User {
      AdvanceSecurityVersion(at).(
        passwordHash := newHash,
        googleAutoLinkAllowed := false,
        failedLoginAttempts := 0,
        lockedUntil := None,
        passwordChangedAt := Some(at))
    }

    function RequirePasswordChange(newHash: string, at: Time): User {
      ReplacePassword(newHash, at).(mustChangePassword := true, passwordLoginEnabled := true)
    }

    function ActivatePassword(newHash: string, at: Time): User {
      ReplacePassword(newHash, at).(mustChangePassword := false, passwordLoginEnabled := true)
    }

    /** `None` stands for the ValueError raised unless the account is pending. */
    function ActivateAccount(newHash: string, at: Time): Option<User> {
      if status != PendingActivation then None
      else Some(ActivatePassword(newHash, at).(status := Active))
    }

    function DisablePassword(newHash: string, at: Time): User {
      ReplacePassword(newHash, at).(mustChangePassword := false, passwordLoginEnabled := false)
    }

    function ActivateEmailLinkLogin(newHash: string, at: Time): User {
      DisablePassword(newHash, at).(emailLinkLoginEnabled := true)
    }
  }

  // The part of a Principal or of the access claims that a session is compared with.
  datatype Subject = Subject(userId: Uuid, sessionId: Uuid, familyId: Uuid, authenticatedAt: Time)

  datatype Principal = Principal(
    userId: Uuid,
    sessionId: Uuid,
    familyId: Uuid,
    email: string,
    displayName: string,
    roles: seq<string>,
    scopes: seq<string>,
    mustChangePassword: bool,
    authenticatedAt: Time)
  {
    function AsSubject(): Subject { Subject(userId, sessionId, familyId, authenticatedAt) }
  }

  datatype Session = Session(
    id: Uuid,
    userId: Uuid,
    familyId: Uuid,
    tokenHash: Hash,
    csrfHash: Hash,
    createdAt: Time,
    idleExpiresAt: Time,
    absoluteExpiresAt: Time,
    authenticatedAt: Time,
    usedAt: Option<Time>,
    revokedAt: Option<Time>,
    replacedById: Option<Uuid>)
  {
    predicate IsActive(now: Time) {
      revokedAt.None? && idleExpiresAt > now && absoluteExpiresAt > now
    }

    predicate IsValidFor(subject: Subject, now: Time) {
      && IsActive(now)
      && id == subject.sessionId
      && userId == subject.userId
      && familyId == subject.familyId
      && -Seconds(1) <= authenticatedAt - subject.authenticatedAt <= Seconds(1)
    }
  }

  function PrincipalFromSession(user: User, session: Session): Principal {
    Principal(user.id, session.id, session.familyId, user.email, user.displayName,
              user.roles, user.scopes, user.mustChangePassword, session.authenticatedAt)
  }

  datatype Purpose = Activation | LoginLink | PasswordReset | Invitation

  datatype LinkState = LinkPending | LinkActive | LinkFailed | LinkConsumed | LinkRevoked

  datatype EmailLink = EmailLink(
    id: Uuid,
    userId: Uuid,
    purpose: Purpose,
    generation: int,
    tokenHash: Hash,
    recipientHash: Hash,
    browserHash: Option<Hash>,
    securityVersion: int,
    createdAt: Time,
    expiresAt: Time,
    state: LinkState,
    deliveredAt: Option<Time>,
    consumedAt: Option<Time>,
    revokedAt: Option<Time>)
  {
    predicate For(user: Uuid, p: Purpose) { userId == user && purpose == p }

    predicate Closed() { state in {LinkFailed, LinkConsumed, LinkRevoked} }
  }

  const GOOGLE_ISSUER := "https://accounts.google.com"

  datatype Identity = Identity(
    id: Uuid,
    userId: Uuid,
    issuer: string,
    subject: string,
    email: Option<string>,
    createdAt: Time,
    lastLoginAt: Option<Time>)

  datatype GooglePurpose = GoogleLoginPurpose | GoogleLinkPurpose

  datatype GoogleChallenge = GoogleChallenge(
    id: Uuid,
    purpose: GooglePurpose,
    nonce: string,
    origin: string,
    clientId: string,
    userId: Option<Uuid>,
    createdAt: Time,
    expiresAt: Time,
    consumedAt: Option<Time>)

  /** Claims after `GoogleAccountPolicy.validate`: canonical issuer, normalised email. */
  datatype GoogleClaims = GoogleClaims(
    subject: string,
    email: Option<string>,
    emailVerified: bool,
    isGmailAddress: bool,
    hasHostedDomain: bool,
    displayName: string)

  datatype CeremonyPurpose = Registration | Authentication | Reauthentication

  datatype PasskeyChallenge = PasskeyChallenge(
    id: Uuid,
    purpose: CeremonyPurpose,
    challenge: string,
    origin: string,
    userId: Option<Uuid>,
    familyId: Option<Uuid>,
    createdAt: Time,
    expiresAt: Time,
    consumedAt: Option<Time>)

  datatype Passkey = Passkey(
    id: Uuid,
    userId: Uuid,
    credentialId: string,
    publicKey: string,
    name: string,
    signCount: int,
    deviceType: string,
    backedUp: bool,
    createdAt: Time,
    lastUsedAt: Option<Time>,
    revokedAt: Option<Time>)

  // `PasswordManager.verify` and `verify_for_login`: the verdict and an optional upgraded hash.
  datatype PasswordVerification = PasswordVerification(valid: bool, updatedHash: Option<string>)

  datatype AuthError =
    | InvalidCredentials | InvalidSession | InvalidCsrf | InvalidOrigin | PasswordInvalid
    | Forbidden | UserNotFound | UserExists | AdminExists | LastAdminRequired
    | EmailLinkInvalid | PasskeyChallengeInvalid | PasskeyLimitReached | PasskeyExists
    | PasskeyRegistrationInvalid | PasskeyAuthenticationInvalid | PasskeyNotFound
    | PasswordChangeRequired | GoogleChallengeInvalid | InvalidGoogleCredentials
    | GoogleIdentityConflict | GoogleIdentityNotFound | StoreConflict | Misconfigured

  // What `jwt.encode` signs; the constant and opaque claims are left out.
  datatype AccessPayload = AccessPayload(
    sub: Uuid, sid: Uuid, fid: Uuid, iat: int, nbf: int, exp: int, authTime: int)

  datatype SessionBundle = SessionBundle(
    access: AccessPayload,
    refreshToken: string,
    csrfToken: string,
    idleExpiresAt: Time,
    absoluteExpiresAt: Time,
    principal: Principal)

  datatype Outcome =
    | SessionIssued(bundle: SessionBundle)
    | Reauthenticated(userId: Uuid, sessionId: Uuid, familyId: Uuid, verifiedAt: Time)
    | Revoked(count: nat)
    | UserSaved(user: User)
    | AdminReady(user: User, pending: Option<Uuid>)
    | LinkIssue(pending: Option<Uuid>)
    | Delivered(delivered: bool)
    | Acknowledged
    | GoogleChallenged(gChallenge: GoogleChallenge)
    | PasskeyChallenged(pkChallenge: PasskeyChallenge)
    | PasskeySaved(passkey: Passkey)
    | IdentityLinked(identity: Identity)
    | Rejected(error: AuthError)

  /** The identifiers and secrets one call to `SessionIssuer.issue` draws. */
  datatype Fresh = Fresh(sessionId: Uuid, familyId: Uuid, refreshToken: string, csrfToken: string)

  datatype UserUpdate = UserUpdate(
    displayName: Option<string>,
    status: Option<UserStatus>,
    roles: Option<seq<string>>,
    scopes: Option<seq<string>>,
    emailLinkLoginEnabled: Option<bool>,
    googleAutoLinkAllowed: Option<bool>)
}
