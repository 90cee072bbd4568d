/** The numeric settings of `src/epok_auth/config.py` and the checks the other modules rely on. */
module Config {
  import opened Models

  datatype AccountMode = LinkedOnly | Preauthorized | Open

  datatype Settings = Settings(
    jwtLeewaySeconds: int,
    accessTtlSeconds: int,
    refreshIdleTtlSeconds: int,
    refreshAbsoluteTtlSeconds: int,
    loginMaxAttempts: int,
    lockoutSeconds: int,
    passkeyChallengeTtlSeconds: int,
    passkeyRegistrationMaxAgeSeconds: int,
    passkeyMaxCredentials: int,
    googleAccountMode: AccountMode,
    googleClientId: string,
    googleChallengeTtlSeconds: int,
    googleLinkMaxAgeSeconds: int,
    standardLinkUrls: bool,
    activationUrl: bool,
    loginTtlSeconds: int,
    resetTtlSeconds: int,
    invitationTtlSeconds: int,
    activationTtlSeconds: int,
    requestWindowSeconds: int,
    maxRequestsPerWindow: int,
    retentionSeconds: int,
    maxTokenChars: int,
    adminRole: string,
    defaultUserRole: string)
  {
    function LinkTtl(purpose: Purpose): int {
      match purpose
      case Activation => activationTtlSeconds
      case LoginLink => loginTtlSeconds
      case PasswordReset => resetTtlSeconds
      case Invitation => invitationTtlSeconds
    }

    /** Whether `email_link_url` finds a frontend URL. The three standard URLs come together. */
    predicate LinkUrl(purpose: Purpose) {
      if purpose == Activation then activationUrl else standardLinkUrls
    }

    predicate ValidLifetimes() {
      && 60 <= accessTtlSeconds < refreshIdleTtlSeconds <= refreshAbsoluteTtlSeconds
      && 0 <= jwtLeewaySeconds
    }

    /** `_validate_email_links`: retention covers every usable TTL and the rate-limit window. */
    predicate ValidEmailLinks() {
      && 0 < loginTtlSeconds <= retentionSeconds
      && 0 < resetTtlSeconds <= retentionSeconds
      && 0 < invitationTtlSeconds <= retentionSeconds
      && 0 < requestWindowSeconds <= retentionSeconds
      && (activationUrl ==> activationTtlSeconds <= retentionSeconds)
      && 0 < activationTtlSeconds
      && 1 <= maxRequestsPerWindow
    }

    predicate Valid() {
      && ValidLifetimes()
      && ValidEmailLinks()
      && 2 <= loginMaxAttempts
      && 10 <= lockoutSeconds
      && 60 <= passkeyChallengeTtlSeconds
      && 1 <= passkeyMaxCredentials
      && 60 <= googleChallengeTtlSeconds
      && (googleAccountMode == Open ==> defaultUserRole != adminRole)
    }
  }
}
