/** Whom a Google account lets in, and what linking, recovery and challenges leave, told by the stored
    rows and the verified claims. */
module GoogleOutcomes {
  import opened Models
  import opened Config
  import opened StoreState
  import opened RowFacts
  import SessionOutcomes
  import SessionRules
  import GoogleRules

  /** The identity `id` is that of the Google account `subject`. */
  predicate Is(ids: map<Uuid, Identity>, id: Uuid, subject: string) {
    id in ids && ids[id].issuer == GOOGLE_ISSUER && ids[id].subject == subject
  }

  predicate Unknown(ids: map<Uuid, Identity>, subject: string) {
    forall id :: id in ids ==> !(ids[id].issuer == GOOGLE_ISSUER && ids[id].subject == subject)
  }

  predicate Unlinked(ids: map<Uuid, Identity>, user: Uuid) {
    forall id :: id in ids ==> !(ids[id].issuer == GOOGLE_ISSUER && ids[id].userId == user)
  }

  /** Google vouches for the email: it is verified, and a Gmail address or of a hosted domain. */
  predicate Vouched(claims: GoogleClaims) {
    claims.emailVerified && claims.email.Some? && (claims.isGmailAddress || claims.hasHostedDomain)
  }

  /** The account waits for its first sign-in and was opened to Google by an administrator. */
  predicate Expects(u: User, now: Time) { Standing(u, now) && u.googleAutoLinkAllowed && u.mustChangePassword }

  lemma BySubject(ids: map<Uuid, Identity>, id: Uuid, subject: string)
    requires IdentitiesOneToOne(ids) && Is(ids, id, subject)
    ensures IdentityBySubject(ids, GOOGLE_ISSUER, subject) == Some(ids[id]) && ids[id].id == id
  {
    assert Rivals(IdentityBySubject(ids, GOOGLE_ISSUER, subject).value, ids[id]);
  }

  lemma NoneBySubject(ids: map<Uuid, Identity>, subject: string)
    ensures Unknown(ids, subject) <==> IdentityBySubject(ids, GOOGLE_ISSUER, subject).None?
    ensures IdentityTaken(ids, GOOGLE_ISSUER, subject) <==> !Unknown(ids, subject)
  {
  }

  // Logging in ----------------------------------------------------------------------------------------

  /** The identity was seen with these claims; its last login never goes back. */
  predicate Seen(a: Identity, b: Identity, claims: GoogleClaims, now: Time) {
    && b == a.(email := claims.email, lastLoginAt := b.lastLoginAt) && b.lastLoginAt.Some?
    && var before := if a.lastLoginAt.Some? then a.lastLoginAt.value else a.createdAt;
       b.lastLoginAt.value == if before < now then now else before
  }

  /** `_login_linked`. */
  lemma LinkedLogin(cfg: Settings, s: State, id: Uuid, claims: GoogleClaims, now: Time, draw: Fresh)
    requires id in s.identities && s.identities[id].id == id && forall k :: k in s.users ==> s.users[k].id == k
    ensures var i := s.identities[id];
            var r := GoogleRules.LoginLinked(cfg, s, i, claims, now, draw);
            if !StandsAt(s.users, i.userId, now) then r == Reply(s, Rejected(InvalidGoogleCredentials))
            else if !NewKeys(s.sessions, draw) then r.out == Rejected(StoreConflict)
            else && r.out.SessionIssued? && r.out.bundle.principal.userId == i.userId
                 && id in r.st.identities && Seen(i, r.st.identities[id], claims, now)
                 && r.st == s.(identities := s.identities[id := r.st.identities[id]], sessions := r.st.sessions)
                 && OneBegun(cfg, s.sessions, r.st.sessions, i.userId, now, draw)
  {
    hide SessionRules.Issue;
    var i := s.identities[id];
    if i.userId in s.users {
      SessionOutcomes.Issues(cfg, PutIdentity(s, GoogleRules.SeenAgain(i, claims, now)), s.users[i.userId], now, draw);
    }
  }

  /** What a login through a stored identity does, at the first try and after a conflict. */
  predicate KnownDecided(cfg: Settings, s: State, r: Reply, id: Uuid, claims: GoogleClaims, now: Time, draw: Fresh)
    requires id in s.identities
  {
    var i := s.identities[id];
    && (r.out.SessionIssued? <==> StandsAt(s.users, i.userId, now) && NewKeys(s.sessions, draw))
    && if r.out.SessionIssued?
       then && id in r.st.identities && Seen(i, r.st.identities[id], claims, now)
            && r.st == s.(identities := s.identities[id := r.st.identities[id]], sessions := r.st.sessions)
            && OneBegun(cfg, s.sessions, r.st.sessions, i.userId, now, draw)
       else r == Reply(s, Rejected(if StandsAt(s.users, i.userId, now) then StoreConflict
                                   else InvalidGoogleCredentials))
  }

  /** A Google account that is linked gets in exactly as the account it is linked to stands, whatever
      the mode and its email. */
  lemma KnownLoginDecided(cfg: Settings, s: State, id: Uuid, claims: GoogleClaims, now: Time,
                          draw: GoogleRules.GoogleDraw, retry: Fresh)
    requires IdentitiesOneToOne(s.identities) && UsersUnique(s.users) && Is(s.identities, id, claims.subject)
    ensures KnownDecided(cfg, s, GoogleRules.LoginOnce(cfg, s, claims, now, draw), id, claims, now, draw.session)
    ensures KnownDecided(cfg, s, GoogleRules.LoginAfterConflict(cfg, s, claims, now, retry), id, claims, now, retry)
  {
    hide IdentityBySubject, IdentitiesOneToOne, GoogleRules.LoginLinked, GoogleRules.LoginUnlinked, OneBegun, Seen;
    BySubject(s.identities, id, claims.subject);
    LinkedLogin(cfg, s, id, claims, now, draw.session);
    LinkedLogin(cfg, s, id, claims, now, retry);
  }

  lemma UnknownAfterConflict(cfg: Settings, s: State, claims: GoogleClaims, now: Time, retry: Fresh)
    requires Unknown(s.identities, claims.subject)
    ensures GoogleRules.LoginAfterConflict(cfg, s, claims, now, retry) == Reply(s, Rejected(InvalidGoogleCredentials))
  {
    NoneBySubject(s.identities, claims.subject);
  }

  /** The identity and the session that a first login stores have free keys. */
  predicate FreeKeys(s: State, user: Uuid, draw: GoogleRules.GoogleDraw) {
    draw.identityId !in s.identities && Unlinked(s.identities, user) && NewKeys(s.sessions, draw.session)
  }

  function FirstSeen(user: Uuid, claims: GoogleClaims, now: Time, draw: GoogleRules.GoogleDraw): Identity {
    Identity(draw.identityId, user, GOOGLE_ISSUER, claims.subject, claims.email, now, Some(now))
  }

  /** `_insert_identity_and_login`, for an account that stands. */
  lemma InsertedLogin(cfg: Settings, s: State, user: User, claims: GoogleClaims, now: Time,
                      draw: GoogleRules.GoogleDraw)
    requires user.id in s.users && s.users[user.id] == user && Standing(user, now)
    requires Unknown(s.identities, claims.subject)
    ensures var r := GoogleRules.InsertIdentityAndLogin(cfg, s, user, claims, now, draw);
            if !FreeKeys(s, user.id, draw) then r.out == Rejected(StoreConflict)
            else && r.out.SessionIssued? && OneBegun(cfg, s.sessions, r.st.sessions, user.id, now, draw.session)
                 && r.st == s.(identities := s.identities[draw.identityId := FirstSeen(user.id, claims, now, draw)],
                               sessions := r.st.sessions)
  {
    hide SessionRules.Issue;
    NoneBySubject(s.identities, claims.subject);
    assert IssuerTaken(s.identities, user.id, GOOGLE_ISSUER) <==> !Unlinked(s.identities, user.id);
    var i := GoogleRules.NewIdentity(draw.identityId, user.id, claims, now);
    SessionOutcomes.Issues(cfg, PutIdentity(PutIdentity(s, i), GoogleRules.SeenAgain(i, claims, now)), user, now,
                           draw.session);
  }

  /** The first login of a Google account with the email of a stored account: it must be vouched for,
      the account must expect it, and then it takes the place of the password. */
  lemma FirstLoginDecided(cfg: Settings, s: State, id: Uuid, claims: GoogleClaims, now: Time,
                          draw: GoogleRules.GoogleDraw)
    requires UsersUnique(s.users) && id in s.users && claims.email == Some(s.users[id].email)
    requires Unknown(s.identities, claims.subject)
    ensures var u := s.users[id];
            var r := GoogleRules.LoginOnce(cfg, s, claims, now, draw);
            var admitted := cfg.googleAccountMode != LinkedOnly && Vouched(claims) && Expects(u, now);
            && (r.out.SessionIssued? <==> admitted && FreeKeys(s, id, draw))
            && if r.out.SessionIssued?
               then && r.st == s.(users := s.users[id := WithPassword(u, draw.passwordHash, false, false, now)],
                                  identities := s.identities[draw.identityId := FirstSeen(id, claims, now, draw)],
                                  sessions := r.st.sessions)
                    && OneBegun(cfg, s.sessions, r.st.sessions, id, now, draw.session)
               else r == Reply(s, Rejected(if admitted then StoreConflict else InvalidGoogleCredentials))
  {
    hide UserByEmail, UsersUnique, IdentityBySubject, GoogleRules.InsertIdentityAndLogin, OneBegun, FreeKeys, Unknown;
    NoneBySubject(s.identities, claims.subject);
    SessionOutcomes.ByEmail(s, id, s.users[id].email);
    SessionOutcomes.UserKey(s, id);
    var linked := WithPassword(s.users[id], draw.passwordHash, false, false, now);
    if Standing(s.users[id], now) {
      InsertedLogin(cfg, PutUser(s, linked), linked, claims, now, draw);
      SameKeys(s, PutUser(s, linked), id, draw);
    }
  }

  lemma SameKeys(a: State, b: State, user: Uuid, draw: GoogleRules.GoogleDraw)
    requires a.identities == b.identities && a.sessions == b.sessions
    ensures FreeKeys(a, user, draw) <==> FreeKeys(b, user, draw)
  {
  }

  predicate NoAccount(users: map<Uuid, User>, email: Option<string>) {
    forall id :: id in users ==> email != Some(users[id].email)
  }

  /** The first login of a Google account whose email no account has: only the open mode creates one. */
  lemma OpenLoginDecided(cfg: Settings, s: State, claims: GoogleClaims, now: Time, draw: GoogleRules.GoogleDraw)
    requires NoAccount(s.users, claims.email) && Unknown(s.identities, claims.subject)
    ensures var r := GoogleRules.LoginOnce(cfg, s, claims, now, draw);
            var admitted := cfg.googleAccountMode == Open && Vouched(claims);
            && (r.out.SessionIssued? <==> admitted && draw.userId !in s.users && FreeKeys(s, draw.userId, draw))
            && if r.out.SessionIssued?
               then && claims.email.Some?
                    && r.st == s.(
                         users := s.users[draw.userId := Opened(cfg, claims, now, draw)],
                         identities := s.identities[draw.identityId := FirstSeen(draw.userId, claims, now, draw)],
                         sessions := r.st.sessions)
                    && OneBegun(cfg, s.sessions, r.st.sessions, draw.userId, now, draw.session)
               else r == Reply(s, Rejected(if admitted then StoreConflict else InvalidGoogleCredentials))
  {
    hide IdentityBySubject, GoogleRules.InsertIdentityAndLogin, OneBegun, FreeKeys, Unknown;
    NoneBySubject(s.identities, claims.subject);
    if claims.email.Some? {
      var user := Opened(cfg, claims, now, draw);
      InsertedLogin(cfg, PutUser(s, user), user, claims, now, draw);
      SameKeys(s, PutUser(s, user), draw.userId, draw);
    }
  }

  /** An account without a usable password, with the default role. */
  function Opened(cfg: Settings, claims: GoogleClaims, now: Time, draw: GoogleRules.GoogleDraw): User
    requires claims.email.Some?
  {
    User(draw.userId, claims.email.value, claims.displayName, draw.passwordHash, Active, [cfg.defaultUserRole], [],
         false, false, false, false, 0, 0, None, Some(now), Some(now), Some(now))
  }

  // Linking -------------------------------------------------------------------------------------------

  predicate MayLink(s: State, p: Principal, now: Time) { Accepts(s, p, now) && !s.users[p.userId].mustChangePassword }

  /** Linking closes the account to linking by email, one version later. */
  function Closed(u: User, now: Time): User { Advanced(u, now).(googleAutoLinkAllowed := false) }

  /** Linking a Google account that is linked already. */
  lemma LinkKnownDecided(cfg: Settings, s: State, p: Principal, k: Uuid, claims: GoogleClaims, now: Time, id: Uuid)
    requires IdentitiesOneToOne(s.identities) && UsersUnique(s.users) && Is(s.identities, k, claims.subject)
    ensures var r := GoogleRules.LinkOnce(cfg, s, p, claims, now, id);
            if !MayLink(s, p, now) then r == Reply(s, Rejected(InvalidSession))
            else if s.identities[k].userId != p.userId then r == Reply(s, Rejected(GoogleIdentityConflict))
            else && r.out == IdentityLinked(s.identities[k])
                 && var u := s.users[p.userId];
                    r.st == if u.googleAutoLinkAllowed then s.(users := s.users[p.userId := Closed(u, now)]) else s
    ensures var r := GoogleRules.LinkedAfterConflict(s, p, claims, now);
            r.st == s && r.out == if !MayLink(s, p, now) then Rejected(InvalidSession)
                                  else if s.identities[k].userId != p.userId then Rejected(GoogleIdentityConflict)
                                  else IdentityLinked(s.identities[k])
  {
    hide IdentitiesOneToOne, IdentityBySubject, SessionRules.RowsStand;
    BySubject(s.identities, k, claims.subject);
    SessionOutcomes.Stands(s, p, now);
    if p.userId in s.users { SessionOutcomes.UserKey(s, p.userId); }
  }

  /** Linking a Google account that is not: the account must have no other. */
  lemma LinkNewDecided(cfg: Settings, s: State, p: Principal, claims: GoogleClaims, now: Time, id: Uuid)
    requires UsersUnique(s.users) && Unknown(s.identities, claims.subject)
    ensures var r := GoogleRules.LinkOnce(cfg, s, p, claims, now, id);
            if !MayLink(s, p, now) then r == Reply(s, Rejected(InvalidSession))
            else if !Unlinked(s.identities, p.userId) then r == Reply(s, Rejected(GoogleIdentityConflict))
            else if id in s.identities then r == Reply(s, Rejected(StoreConflict))
            else var i := Identity(id, p.userId, GOOGLE_ISSUER, claims.subject, claims.email, now, Some(now));
                 r == Reply(s.(users := s.users[p.userId := Closed(s.users[p.userId], now)],
                               identities := s.identities[id := i]), IdentityLinked(i))
    ensures GoogleRules.LinkedAfterConflict(s, p, claims, now)
         == Reply(s, Rejected(if MayLink(s, p, now) then GoogleIdentityConflict else InvalidSession))
  {
    hide IdentityBySubject, SessionRules.RowsStand;
    NoneBySubject(s.identities, claims.subject);
    assert IssuerTaken(s.identities, p.userId, GOOGLE_ISSUER) <==> !Unlinked(s.identities, p.userId);
    SessionOutcomes.Stands(s, p, now);
    if p.userId in s.users { SessionOutcomes.UserKey(s, p.userId); }
  }

  /** Both halves of linking want a principal who signed in lately and need not change a password. */
  lemma LinkingWantsRecentLogin(cfg: Settings, s: State, p: Principal, id: Uuid, origin: Option<string>,
                                claims: Option<GoogleClaims>, nonce: string, now: Time, spentAt: Time, k: Uuid)
    requires p.mustChangePassword || now > p.authenticatedAt + 1_000_000 * cfg.googleLinkMaxAgeSeconds
    ensures GoogleRules.BeginLink(cfg, s, p, origin, id, nonce, now) == Reply(s, Rejected(Forbidden))
    ensures GoogleRules.FinishLink(cfg, s, p, id, origin, claims, now, spentAt, k) == Reply(s, Rejected(Forbidden))
  {
  }

  lemma RecentLoginBegins(cfg: Settings, s: State, p: Principal, id: Uuid, origin: Option<string>, nonce: string,
                          now: Time)
    requires !p.mustChangePassword && now <= p.authenticatedAt + 1_000_000 * cfg.googleLinkMaxAgeSeconds
    ensures GoogleRules.BeginLink(cfg, s, p, origin, id, nonce, now)
         == GoogleRules.Begin(cfg, s, GoogleLinkPurpose, origin, Some(p.userId), id, nonce, now)
  {
  }

  // Recovery ------------------------------------------------------------------------------------------

  /** `recover_password_access` of an account that has a Google identity. */
  lemma RecoveryDecided(s: State, user: Uuid, k: Uuid, hash: string, now: Time)
    requires IdentitiesOneToOne(s.identities) && UsersUnique(s.users) && user in s.users
    requires k in s.identities && s.identities[k].issuer == GOOGLE_ISSUER && s.identities[k].userId == user
    ensures var r := GoogleRules.RecoverPasswordAccess(s, user, hash, now);
            var u := WithPassword(s.users[user], hash, true, true, now);
            && r.out == UserSaved(u) && AccountEnded(s.sessions, r.st.sessions, user, now)
            && r.st == s.(users := s.users[user := u], identities := s.identities - {k}, sessions := r.st.sessions)
  {
    assert Rivals(IdentityOfUser(s.identities, user, GOOGLE_ISSUER).value, s.identities[k]);
    assert DropIdentity(s, k).identities == s.identities - {k};
    SessionOutcomes.Ends(DropIdentity(PutUser(s, WithPassword(s.users[user], hash, true, true, now)), k), user, 0, now);
  }

  lemma RecoveryRefused(s: State, user: Uuid, hash: string, now: Time)
    requires user !in s.users || Unlinked(s.identities, user)
    ensures GoogleRules.RecoverPasswordAccess(s, user, hash, now)
         == Reply(s, Rejected(if user in s.users then GoogleIdentityNotFound else UserNotFound))
  {
  }

  // Challenges ----------------------------------------------------------------------------------------

  lemma ChallengeDecided(cfg: Settings, s: State, purpose: GooglePurpose, origin: Option<string>, user: Option<Uuid>,
                         id: Uuid, nonce: string, now: Time)
    ensures var r := GoogleRules.Begin(cfg, s, purpose, origin, user, id, nonce, now);
            if origin.None? then r == Reply(s, Rejected(InvalidOrigin))
            else if user.Some? && !StandsAt(s.users, user.value, now) then r == Reply(s, Rejected(InvalidSession))
            else
              var kept := map k | k in s.googleChallenges && now < s.googleChallenges[k].expiresAt
                            :: s.googleChallenges[k];
              if id in kept || exists k :: k in kept && kept[k].nonce == nonce
              then r == Reply(s, Rejected(StoreConflict))
              else var c := GoogleChallenge(id, purpose, nonce, origin.value, cfg.googleClientId, user, now,
                                            now + 1_000_000 * cfg.googleChallengeTtlSeconds, None);
                   r == Reply(s.(googleChallenges := kept[id := c]), GoogleChallenged(c))
  {
    assert PruneGoogleChallenges(s, now).googleChallenges
        == map k | k in s.googleChallenges && now < s.googleChallenges[k].expiresAt :: s.googleChallenges[k];
  }

  /** A challenge is spent exactly for its own purpose and user, unspent and in time, and then accepted
      exactly for its own origin and client. */
  lemma ConsumptionDecided(cfg: Settings, s: State, id: Uuid, purpose: GooglePurpose, origin: string,
                           user: Option<Uuid>, now: Time)
    requires ChallengesKeyed(s)
    ensures var r := GoogleRules.Consume(cfg, s, id, purpose, Some(origin), user, now);
            var cs := s.googleChallenges;
            if id in cs && cs[id].purpose == purpose && cs[id].userId == user && cs[id].consumedAt.None?
               && now < cs[id].expiresAt
            then var spent := cs[id].(consumedAt := Some(now));
                 && r.st == s.(googleChallenges := cs[id := spent])
                 && r.out == if cs[id].origin == origin && cs[id].clientId == cfg.googleClientId
                             then GoogleChallenged(spent) else Rejected(GoogleChallengeInvalid)
            else r == Reply(s, Rejected(GoogleChallengeInvalid))
    ensures GoogleRules.Consume(cfg, s, id, purpose, None, user, now) == Reply(s, Rejected(InvalidOrigin))
  {
  }

  // Finishing a ceremony ------------------------------------------------------------------------------

  predicate Spendable(s: State, id: Uuid, purpose: GooglePurpose, user: Option<Uuid>, now: Time) {
    && id in s.googleChallenges
    && var c := s.googleChallenges[id];
       c.purpose == purpose && c.userId == user && c.consumedAt.None? && now < c.expiresAt
  }

  /** The challenge may be spent, and was begun from this origin for this client. */
  predicate Answers(cfg: Settings, s: State, id: Uuid, purpose: GooglePurpose, user: Option<Uuid>, origin: string,
                    now: Time)
  {
    && Spendable(s, id, purpose, user, now)
    && s.googleChallenges[id].origin == origin && s.googleChallenges[id].clientId == cfg.googleClientId
  }

  /** What the first transaction leaves: the challenge is spent whatever comes of it. */
  function AfterFirst(s: State, id: Uuid, purpose: GooglePurpose, user: Option<Uuid>, now: Time): State {
    if Spendable(s, id, purpose, user, now)
    then s.(googleChallenges := s.googleChallenges[id := s.googleChallenges[id].(consumedAt := Some(now))])
    else s
  }

  lemma NoOrigin(cfg: Settings, s: State, p: Principal, id: Uuid, claims: Option<GoogleClaims>, now: Time,
                 spentAt: Time, draw: GoogleRules.GoogleDraw, retry: Fresh, k: Uuid)
    ensures GoogleRules.FinishLogin(cfg, s, id, None, claims, now, spentAt, draw, retry)
         == Reply(s, Rejected(InvalidOrigin))
    ensures GoogleRules.FinishLink(cfg, s, p, id, None, claims, now, spentAt, k)
         == Reply(s, Rejected(if p.mustChangePassword
                                 || now > p.authenticatedAt + 1_000_000 * cfg.googleLinkMaxAgeSeconds
                              then Forbidden else InvalidOrigin))
  {
  }

  /** Once its challenge answered, a linked Google account gets in exactly as the account it is linked to
      stands, if one of the two draws is free. */
  lemma FinishKnownDecided(cfg: Settings, s: State, k: Uuid, id: Uuid, origin: string, claims: Option<GoogleClaims>,
                           now: Time, spentAt: Time, draw: GoogleRules.GoogleDraw, retry: Fresh)
    requires Unique(s) && (claims.Some? ==> Is(s.identities, k, claims.value.subject))
    ensures var r := GoogleRules.FinishLogin(cfg, s, id, Some(origin), claims, now, spentAt, draw, retry);
            var spent := AfterFirst(s, id, GoogleLoginPurpose, None, spentAt);
            if !Answers(cfg, s, id, GoogleLoginPurpose, None, origin, spentAt)
            then r == Reply(spent, Rejected(GoogleChallengeInvalid))
            else if claims.None? then r == Reply(spent, Rejected(InvalidGoogleCredentials))
            else KnownDecided(cfg, spent, r, k, claims.value, now,
                              if NewKeys(s.sessions, draw.session) then draw.session else retry)
  {
    hide GoogleRules.Consume, GoogleRules.LoginOnce, GoogleRules.LoginAfterConflict, IdentitiesOneToOne, UsersUnique;
    hide OneBegun, Seen;
    ConsumptionDecided(cfg, s, id, GoogleLoginPurpose, origin, None, spentAt);
    if claims.Some? {
      KnownLoginDecided(cfg, AfterFirst(s, id, GoogleLoginPurpose, None, spentAt), k, claims.value, now, draw, retry);
    }
  }

  /** Google's token was refused. */
  lemma FinishUnverified(cfg: Settings, s: State, id: Uuid, origin: string, now: Time, spentAt: Time,
                         draw: GoogleRules.GoogleDraw, retry: Fresh)
    requires Unique(s)
    ensures GoogleRules.FinishLogin(cfg, s, id, Some(origin), None, now, spentAt, draw, retry)
         == Reply(AfterFirst(s, id, GoogleLoginPurpose, None, spentAt),
                  Rejected(if Answers(cfg, s, id, GoogleLoginPurpose, None, origin, spentAt)
                           then InvalidGoogleCredentials else GoogleChallengeInvalid))
  {
    hide GoogleRules.Consume;
    ConsumptionDecided(cfg, s, id, GoogleLoginPurpose, origin, None, spentAt);
  }

  /** An unknown one gets in exactly by its first try. */
  lemma FinishUnknownDecided(cfg: Settings, s: State, id: Uuid, origin: string, claims: GoogleClaims,
                             now: Time, spentAt: Time, draw: GoogleRules.GoogleDraw, retry: Fresh)
    requires Unique(s) && Unknown(s.identities, claims.subject)
    ensures var r := GoogleRules.FinishLogin(cfg, s, id, Some(origin), Some(claims), now, spentAt, draw, retry);
            var spent := AfterFirst(s, id, GoogleLoginPurpose, None, spentAt);
            var first := GoogleRules.LoginOnce(cfg, spent, claims, now, draw);
            if !Answers(cfg, s, id, GoogleLoginPurpose, None, origin, spentAt)
            then r == Reply(spent, Rejected(GoogleChallengeInvalid))
            else if first.out.SessionIssued? then r == first
            else r == Reply(spent, Rejected(InvalidGoogleCredentials))
  {
    hide GoogleRules.Consume, GoogleRules.LoginOnce, GoogleRules.LoginAfterConflict, Unknown, UsersUnique;
    ConsumptionDecided(cfg, s, id, GoogleLoginPurpose, origin, None, spentAt);
    var spent := AfterFirst(s, id, GoogleLoginPurpose, None, spentAt);
    UnknownAfterConflict(cfg, spent, claims, now, retry);
    UnknownTried(cfg, spent, claims, now, draw);
  }

  /** The first try of an unknown Google account issues a session, reports a conflict or refuses it, and
      leaves the store as it was unless it issues one. */
  lemma UnknownTried(cfg: Settings, s: State, claims: GoogleClaims, now: Time, draw: GoogleRules.GoogleDraw)
    requires UsersUnique(s.users) && Unknown(s.identities, claims.subject)
    ensures var r := GoogleRules.LoginOnce(cfg, s, claims, now, draw);
            || r.out.SessionIssued? || r == Reply(s, Rejected(StoreConflict))
            || r == Reply(s, Rejected(InvalidGoogleCredentials))
  {
    hide GoogleRules.LoginOnce, UsersUnique, Unknown, OneBegun, FreeKeys;
    if id: Uuid :| id in s.users && claims.email == Some(s.users[id].email) {
      FirstLoginDecided(cfg, s, id, claims, now, draw);
    } else {
      OpenLoginDecided(cfg, s, claims, now, draw);
    }
  }

  /** `finish_link`: the challenge is the principal's own; after a conflict the outcome is read back. */
  lemma FinishLinkDecided(cfg: Settings, s: State, p: Principal, challenge: Uuid, origin: string,
                          claims: Option<GoogleClaims>, now: Time, spentAt: Time, id: Uuid)
    requires Unique(s)
    requires !p.mustChangePassword && now <= p.authenticatedAt + 1_000_000 * cfg.googleLinkMaxAgeSeconds
    ensures var r := GoogleRules.FinishLink(cfg, s, p, challenge, Some(origin), claims, now, spentAt, id);
            var spent := AfterFirst(s, challenge, GoogleLinkPurpose, Some(p.userId), spentAt);
            if !Answers(cfg, s, challenge, GoogleLinkPurpose, Some(p.userId), origin, spentAt)
            then r == Reply(spent, Rejected(GoogleChallengeInvalid))
            else if claims.None? then r == Reply(spent, Rejected(InvalidGoogleCredentials))
            else var first := GoogleRules.LinkOnce(cfg, spent, p, claims.value, now, id);
                 r == if first.out == Rejected(StoreConflict)
                      then GoogleRules.LinkedAfterConflict(first.st, p, claims.value, now) else first
  {
    hide GoogleRules.Consume, GoogleRules.LinkOnce, GoogleRules.LinkedAfterConflict;
    ConsumptionDecided(cfg, s, challenge, GoogleLinkPurpose, origin, Some(p.userId), spentAt);
  }
}
