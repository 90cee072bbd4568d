/** `google/`: origin-bound challenges, linking and the account-admission modes. */
module GoogleRules {
  import opened Models
  import opened Config
  import opened StoreState
  import SessionRules
  import UserRules

  // policy.py ------------------------------------------------------------------------------------

  predicate IsAuthoritative(claims: GoogleClaims) {
    claims.emailVerified && claims.email.Some? && (claims.isGmailAddress || claims.hasHostedDomain)
  }

  predicate CanAutoLink(user: User, claims: GoogleClaims, now: Time) {
    && user.CanAuthenticate(now) && user.googleAutoLinkAllowed && user.mustChangePassword
    && Some(user.email) == claims.email
  }

  predicate CanLink(s: State, p: Principal, user: Option<User>, now: Time) {
    SessionRules.PrincipalStands(s, p, user, now) && !user.value.mustChangePassword
  }

  /** `_require_recent_authentication`. */
  predicate RecentEnough(p: Principal, maxAgeSeconds: int, now: Time) {
    !p.mustChangePassword && now - p.authenticatedAt <= Seconds(maxAgeSeconds)
  }

  // challenges.py ----------------------------------------------------------------------------------

  function NewChallenge(cfg: Settings, purpose: GooglePurpose, origin: string, user: Option<Uuid>,
                        id: Uuid, nonce: string, now: Time): GoogleChallenge
  {
    GoogleChallenge(id, purpose, nonce, origin, cfg.googleClientId, user, now,
                    now + Seconds(cfg.googleChallengeTtlSeconds), None)
  }

  /** `origin` is the canonical trusted origin, or None when `_validate_origin` raises. */
  function Begin(cfg: Settings, s: State, purpose: GooglePurpose, origin: Option<string>,
                 user: Option<Uuid>, id: Uuid, nonce: string, now: Time): Reply
  {
    if origin.None? then Reply(s, Rejected(InvalidOrigin))
    else if user.Some? && (user.value !in s.users || !s.users[user.value].CanAuthenticate(now))
    then Reply(s, Rejected(InvalidSession))
    else
      var pruned := PruneGoogleChallenges(s, now);
      var challenge := NewChallenge(cfg, purpose, origin.value, user, id, nonce, now);
      if GoogleChallengeClashes(pruned.googleChallenges, challenge) then Reply(s, Rejected(StoreConflict))
      else Reply(PutGoogleChallenge(pruned, challenge), GoogleChallenged(challenge))
  }

  function BeginLink(cfg: Settings, s: State, p: Principal, origin: Option<string>, id: Uuid,
                     nonce: string, now: Time): Reply
  {
    if !RecentEnough(p, cfg.googleLinkMaxAgeSeconds, now) then Reply(s, Rejected(Forbidden))
    else Begin(cfg, s, GoogleLinkPurpose, origin, Some(p.userId), id, nonce, now)
  }

  /** A challenge of another origin or client is spent all the same. */
  function Consume(cfg: Settings, s: State, id: Uuid, purpose: GooglePurpose, origin: Option<string>,
                   user: Option<Uuid>, now: Time): Reply
  {
    if origin.None? then Reply(s, Rejected(InvalidOrigin))
    else if !GoogleConsumable(s.googleChallenges, id, purpose, now, user)
    then Reply(s, Rejected(GoogleChallengeInvalid))
    else
      var spent := s.googleChallenges[id].(consumedAt := Some(now));
      Reply(PutGoogleChallenge(s, spent),
            if spent.origin != origin.value || spent.clientId != cfg.googleClientId
            then Rejected(GoogleChallengeInvalid) else GoogleChallenged(spent))
  }

  // service.py -------------------------------------------------------------------------------------

  datatype GoogleDraw = GoogleDraw(identityId: Uuid, userId: Uuid, passwordHash: string, session: Fresh)

  function NewIdentity(id: Uuid, user: Uuid, claims: GoogleClaims, now: Time): Identity {
    Identity(id, user, GOOGLE_ISSUER, claims.subject, claims.email, now, Some(now))
  }

  function SeenAgain(i: Identity, claims: GoogleClaims, now: Time): Identity {
    i.(email := claims.email,
       lastLoginAt := Some(Max(now, if i.lastLoginAt.Some? then i.lastLoginAt.value else i.createdAt)))
  }

  function LoginLinked(cfg: Settings, s: State, i: Identity, claims: GoogleClaims, now: Time, draw: Fresh): Reply {
    if i.userId !in s.users || !s.users[i.userId].CanAuthenticate(now)
    then Reply(s, Rejected(InvalidGoogleCredentials))
    else SessionRules.Issue(cfg, PutIdentity(s, SeenAgain(i, claims, now)), s.users[i.userId], now,
                            SessionRules.NewLogin, draw)
  }

  function InsertIdentityAndLogin(cfg: Settings, s: State, user: User, claims: GoogleClaims, now: Time,
                                  draw: GoogleDraw): Reply
  {
    var i := NewIdentity(draw.identityId, user.id, claims, now);
    if IdentityClashes(s.identities, i) then Reply(s, Rejected(StoreConflict))
    else LoginLinked(cfg, PutIdentity(s, i), i, claims, now, draw.session)
  }

  function LinkAndLogin(cfg: Settings, s: State, user: User, claims: GoogleClaims, now: Time,
                        draw: GoogleDraw): Reply
  {
    var linked := user.DisablePassword(draw.passwordHash, now);
    InsertIdentityAndLogin(cfg, PutUser(s, linked), linked, claims, now, draw)
  }

  function OpenUser(cfg: Settings, claims: GoogleClaims, now: Time, draw: GoogleDraw): User
    requires claims.email.Some?
  {
    UserRules.NewAccount(draw.userId, claims.email.value, claims.displayName, draw.passwordHash,
                         [cfg.defaultUserRole], [], now).(passwordLoginEnabled := false)
  }

  function OpenAndLogin(cfg: Settings, s: State, claims: GoogleClaims, now: Time, draw: GoogleDraw): Reply
    requires claims.email.Some?
  {
    var user := OpenUser(cfg, claims, now, draw);
    var added := UserRules.AddUser(s, user);
    if added.out.Rejected? then Reply(s, Rejected(StoreConflict))
    else InsertIdentityAndLogin(cfg, added.st, user, claims, now, draw)
  }

  ghost function LoginUnlinked(cfg: Settings, s: State, claims: GoogleClaims, now: Time, draw: GoogleDraw): Reply {
    if cfg.googleAccountMode == LinkedOnly || !IsAuthoritative(claims)
    then Reply(s, Rejected(InvalidGoogleCredentials))
    else
      var user := UserByEmail(s.users, claims.email.value);
      if user.Some? then
        if !CanAutoLink(user.value, claims, now) then Reply(s, Rejected(InvalidGoogleCredentials))
        else LinkAndLogin(cfg, s, user.value, claims, now, draw)
      else if cfg.googleAccountMode == Preauthorized then Reply(s, Rejected(InvalidGoogleCredentials))
      else OpenAndLogin(cfg, s, claims, now, draw)
  }

  /** A user who may authenticate and has just been given its identity is logged in, unless the store
      reports a conflict: the RuntimeError of `_insert_identity_and_login` is never raised. */
  lemma InsertedIsLoggedIn(cfg: Settings, s: State, user: User, claims: GoogleClaims, now: Time, draw: GoogleDraw)
    requires user.id in s.users && s.users[user.id].CanAuthenticate(now)
    ensures var out := InsertIdentityAndLogin(cfg, s, user, claims, now, draw).out;
            out.SessionIssued? || out == Rejected(StoreConflict)
  {
  }

  predicate LoggedInOrConflict(out: Outcome) { out.SessionIssued? || out == Rejected(StoreConflict) }

  lemma LinkingLogsIn(cfg: Settings, s: State, user: User, claims: GoogleClaims, now: Time, draw: GoogleDraw)
    requires user.CanAuthenticate(now)
    ensures LoggedInOrConflict(LinkAndLogin(cfg, s, user, claims, now, draw).out)
  {
    hide InsertIdentityAndLogin;
    var linked := user.DisablePassword(draw.passwordHash, now);
    InsertedIsLoggedIn(cfg, PutUser(s, linked), linked, claims, now, draw);
  }

  lemma OpeningLogsIn(cfg: Settings, s: State, claims: GoogleClaims, now: Time, draw: GoogleDraw)
    requires claims.email.Some?
    ensures LoggedInOrConflict(OpenAndLogin(cfg, s, claims, now, draw).out)
  {
    hide InsertIdentityAndLogin, EmailTaken;
    var added := OpenUser(cfg, claims, now, draw);
    InsertedIsLoggedIn(cfg, PutUser(s, added), added, claims, now, draw);
  }

  /** A login that ends without a session and without an exception has written nothing. */
  lemma RefusalWritesNothing(cfg: Settings, s: State, claims: GoogleClaims, now: Time, draw: GoogleDraw)
    ensures var r := LoginUnlinked(cfg, s, claims, now, draw);
            LoggedInOrConflict(r.out) || r == Reply(s, Rejected(InvalidGoogleCredentials))
  {
    hide LinkAndLogin, OpenAndLogin, UserByEmail;
    if IsAuthoritative(claims) {
      var user := UserByEmail(s.users, claims.email.value);
      if user.Some? && CanAutoLink(user.value, claims, now) { LinkingLogsIn(cfg, s, user.value, claims, now, draw); }
      OpeningLogsIn(cfg, s, claims, now, draw);
    }
  }

  /** `_login`: one transaction, which commits unless the store reports a conflict. */
  ghost function LoginOnce(cfg: Settings, s: State, claims: GoogleClaims, now: Time, draw: GoogleDraw): Reply {
    var i := IdentityBySubject(s.identities, GOOGLE_ISSUER, claims.subject);
    SessionRules.OrRollback(s,
      if i.Some? then LoginLinked(cfg, s, i.value, claims, now, draw.session)
      else LoginUnlinked(cfg, s, claims, now, draw))
  }

  /** `_login_linked_after_conflict`. */
  ghost function LoginAfterConflict(cfg: Settings, s: State, claims: GoogleClaims, now: Time, draw: Fresh): Reply {
    var i := IdentityBySubject(s.identities, GOOGLE_ISSUER, claims.subject);
    if i.None? then Reply(s, Rejected(InvalidGoogleCredentials))
    else SessionRules.OrRollback(s, LoginLinked(cfg, s, i.value, claims, now, draw))
  }

  ghost function LoginVerified(cfg: Settings, s: State, claims: GoogleClaims, now: Time, draw: GoogleDraw,
                               retry: Fresh): Reply
  {
    var first := LoginOnce(cfg, s, claims, now, draw);
    if first.out == Rejected(StoreConflict) then LoginAfterConflict(cfg, first.st, claims, now, retry)
    else first
  }

  /** `finish_login`, which reads the clock at `now` and again, to consume the challenge, at `spentAt`;
      `claims` is None when Google's token is refused or unverifiable. */
  ghost function FinishLogin(cfg: Settings, s: State, id: Uuid, origin: Option<string>, claims: Option<GoogleClaims>,
                             now: Time, spentAt: Time, draw: GoogleDraw, retry: Fresh): Reply
  {
    var spent := Consume(cfg, s, id, GoogleLoginPurpose, origin, None, spentAt);
    if spent.out.Rejected? then spent
    else if claims.None? then Reply(spent.st, Rejected(InvalidGoogleCredentials))
    else LoginVerified(cfg, spent.st, claims.value, now, draw, retry)
  }

  function InsertLinked(s: State, i: Identity, unlinked: User): Reply {
    if IdentityClashes(s.identities, i) then Reply(s, Rejected(StoreConflict))
    else Reply(PutUser(PutIdentity(s, i), unlinked), IdentityLinked(i))
  }

  /** `_link`. */
  ghost function LinkOnce(cfg: Settings, s: State, p: Principal, claims: GoogleClaims, now: Time, id: Uuid): Reply {
    var user := UserById(s.users, p.userId);
    if !CanLink(s, p, user, now) then Reply(s, Rejected(InvalidSession))
    else
      var owner := IdentityBySubject(s.identities, GOOGLE_ISSUER, claims.subject);
      var unlinked := user.value.(googleAutoLinkAllowed := false).AdvanceSecurityVersion(now);
      if owner.Some? && owner.value.userId == p.userId then
        Reply(if user.value.googleAutoLinkAllowed then PutUser(s, unlinked) else s, IdentityLinked(owner.value))
      else if owner.Some? || IssuerTaken(s.identities, p.userId, GOOGLE_ISSUER)
      then Reply(s, Rejected(GoogleIdentityConflict))
      else
        InsertLinked(s, NewIdentity(id, p.userId, claims, now), unlinked)
  }

  /** `_linked_after_conflict`: reads only. */
  ghost function LinkedAfterConflict(s: State, p: Principal, claims: GoogleClaims, now: Time): Reply {
    if !CanLink(s, p, UserById(s.users, p.userId), now) then Reply(s, Rejected(InvalidSession))
    else
      var owner := IdentityBySubject(s.identities, GOOGLE_ISSUER, claims.subject);
      Reply(s, if owner.Some? && owner.value.userId == p.userId then IdentityLinked(owner.value)
               else Rejected(GoogleIdentityConflict))
  }

  ghost function LinkVerified(cfg: Settings, s: State, p: Principal, claims: GoogleClaims, now: Time, id: Uuid): Reply {
    var first := LinkOnce(cfg, s, p, claims, now, id);
    if first.out == Rejected(StoreConflict) then LinkedAfterConflict(first.st, p, claims, now) else first
  }

  /** `finish_link`. */
  ghost function FinishLink(cfg: Settings, s: State, p: Principal, challenge: Uuid, origin: Option<string>,
                            claims: Option<GoogleClaims>, now: Time, spentAt: Time, id: Uuid): Reply
  {
    if !RecentEnough(p, cfg.googleLinkMaxAgeSeconds, now) then Reply(s, Rejected(Forbidden))
    else
      var spent := Consume(cfg, s, challenge, GoogleLinkPurpose, origin, Some(p.userId), spentAt);
      if spent.out.Rejected? then spent
      else if claims.None? then Reply(spent.st, Rejected(InvalidGoogleCredentials))
      else LinkVerified(cfg, spent.st, p, claims.value, now, id)
  }

  ghost function RecoverPasswordAccess(s: State, user: Uuid, hash: string, now: Time): Reply {
    var i := IdentityOfUser(s.identities, user, GOOGLE_ISSUER);
    if user !in s.users then Reply(s, Rejected(UserNotFound))
    else if i.None? then Reply(s, Rejected(GoogleIdentityNotFound))
    else
      var recovered := s.users[user].RequirePasswordChange(hash, now);
      Reply(RevokeUserSessions(DropIdentity(PutUser(s, recovered), i.value.id), user, now), UserSaved(recovered))
  }
}
