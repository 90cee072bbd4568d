/** From an issued access token back to its session: when it verifies, and whom it authenticates.
    The claim times are those of sections 2 and 4.1.4 to 4.1.6 of RFC 7519. */
module TokenRoundTrip {
  import opened Models
  import opened Config
  import opened StoreState
  import opened Tokens
  import opened SessionRules
  import opened Invariant
  import opened Machine
  import SessionSafety
  import UserRules
  import LinkRules
  import GoogleRules
  import PasskeyRules
  import Preservation
  import Runs

  // Claim times ----------------------------------------------------------------------------------

  lemma WholeSecondsBounds(t: Time)
    ensures t >= 0 ==> Seconds(WholeSeconds(t)) <= t < Seconds(WholeSeconds(t)) + Seconds(1)
    ensures t < 0 ==> t <= Seconds(WholeSeconds(t)) < t + Seconds(1)
  {
  }

  lemma WholeSecondsMonotone(a: Time, b: Time)
    requires a <= b
    ensures WholeSeconds(a) <= WholeSeconds(b)
  {
  }

  lemma WholeSecondsShift(t: Time, n: nat)
    ensures WholeSeconds(t + Seconds(n)) <= WholeSeconds(t) + n <= WholeSeconds(t + Seconds(n)) + 1
    ensures t >= 0 || t + Seconds(n) <= 0 ==> WholeSeconds(t + Seconds(n)) == WholeSeconds(t) + n
  {
  }

  /** When a token verifies, for any issuing time and any clock of the verifier. */
  lemma VerifiesExactly(cfg: Settings, p: Principal, now: Time, t: Time)
    requires cfg.Valid()
    ensures var leeway := Seconds(cfg.jwtLeewaySeconds);
            VerifyAccess(cfg, IssueAccess(cfg, p, now), t).Some? <==>
              && Seconds(WholeSeconds(now)) - leeway <= t
              && t < Seconds(WholeSeconds(now + Seconds(cfg.accessTtlSeconds))) + leeway
              && Seconds(WholeSeconds(p.authenticatedAt)) <= Seconds(WholeSeconds(now)) + leeway
  {
    WholeSecondsShift(now, cfg.accessTtlSeconds);
  }

  /** From the start of the second in which a token was issued, less the leeway, up to its lifetime
      plus the leeway after it. */
  predicate Alive(cfg: Settings, issuedAt: Time, t: Time) {
    var second, leeway := Seconds(issuedAt / 1_000_000), Seconds(cfg.jwtLeewaySeconds);
    second - leeway <= t < second + Seconds(cfg.accessTtlSeconds) + leeway
  }

  /** The login is not claimed to lie after the second of issuing, but for the leeway. */
  predicate LoginBefore(cfg: Settings, authenticatedAt: Time, issuedAt: Time) {
    Seconds(WholeSeconds(authenticatedAt)) <= Seconds(issuedAt / 1_000_000) + Seconds(cfg.jwtLeewaySeconds)
  }

  /** Epoch or later, a token verifies exactly while it is alive, if its login comes first. */
  lemma VerifiesWithinLifetime(cfg: Settings, p: Principal, now: Time, t: Time)
    requires cfg.Valid() && 0 <= now
    ensures VerifyAccess(cfg, IssueAccess(cfg, p, now), t).Some? <==>
              Alive(cfg, now, t) && LoginBefore(cfg, p.authenticatedAt, now)
    ensures p.authenticatedAt <= now ==> LoginBefore(cfg, p.authenticatedAt, now)
  {
    VerifiesExactly(cfg, p, now, t);
    WholeSecondsShift(now, cfg.accessTtlSeconds);
    if p.authenticatedAt <= now { WholeSecondsMonotone(p.authenticatedAt, now); }
  }

  /** Cutting `auth_time` to whole seconds stays inside the tolerance of `is_valid_for`. */
  lemma SubjectSurvives(cfg: Settings, p: Principal, now: Time, t: Time)
    requires VerifyAccess(cfg, IssueAccess(cfg, p, now), t).Some?
    ensures var subject := VerifyAccess(cfg, IssueAccess(cfg, p, now), t).value;
            && subject == Subject(p.userId, p.sessionId, p.familyId, subject.authenticatedAt)
            && -Seconds(1) < p.authenticatedAt - subject.authenticatedAt < Seconds(1)
  {
    WholeSecondsBounds(p.authenticatedAt);
  }

  // Authentication -------------------------------------------------------------------------------

  /** `authenticate`: verify the token on one reading of the clock, then look its session and user
      up on the next. */
  function AuthenticateToken(cfg: Settings, s: State, token: AccessPayload, verifiedAt: Time,
                             now: Time): Option<Principal> {
    var subject := VerifyAccess(cfg, token, verifiedAt);
    if subject.None? then None else Authenticate(s, subject.value, now)
  }

  predicate Describes(p: Principal, x: Session) {
    p.sessionId == x.id && p.userId == x.userId && p.familyId == x.familyId && p.authenticatedAt == x.authenticatedAt
  }

  /** A token made for a session is accepted exactly while that session is active, its user may
      authenticate and the token lives; it then yields the stored user and session. */
  lemma TokenMatchesSession(cfg: Settings, s: State, p: Principal, now: Time, t: Time, later: Time)
    requires cfg.Valid() && 0 <= now
    requires p.sessionId in s.sessions && Describes(p, s.sessions[p.sessionId])
    ensures var x := s.sessions[p.sessionId];
            var r := AuthenticateToken(cfg, s, IssueAccess(cfg, p, now), t, later);
            && (r.Some? <==>
                  && Alive(cfg, now, t) && LoginBefore(cfg, x.authenticatedAt, now)
                  && x.IsActive(later) && x.userId in s.users && s.users[x.userId].CanAuthenticate(later))
            && (r.Some? ==> r.value == PrincipalFromSession(s.users[x.userId], x))
  {
    hide VerifyAccess, IssueAccess;
    VerifiesWithinLifetime(cfg, p, now, t);
    if VerifyAccess(cfg, IssueAccess(cfg, p, now), t).Some? { SubjectSurvives(cfg, p, now, t); }
  }

  // Every bundle handed out ------------------------------------------------------------------------

  /** What a session bundle says about the store it comes from. */
  predicate BundleFits(cfg: Settings, s: State, b: SessionBundle, now: Time) {
    && b.principal.sessionId in s.sessions
    && var x := s.sessions[b.principal.sessionId];
    && Describes(b.principal, x) && b.access == IssueAccess(cfg, b.principal, now)
    && x.tokenHash == Sha256(b.refreshToken) && x.csrfHash == Sha256(b.csrfToken)
    && x.createdAt == now && x.usedAt.None? && x.revokedAt.None? && x.replacedById.None?
    && x.idleExpiresAt == b.idleExpiresAt && x.absoluteExpiresAt == b.absoluteExpiresAt
  }

  predicate Fits(cfg: Settings, r: Reply, now: Time) {
    r.out.SessionIssued? ==> BundleFits(cfg, r.st, r.out.bundle, now)
  }

  lemma IssueFits(cfg: Settings, s: State, u: User, now: Time, lineage: Lineage, draw: Fresh)
    ensures Fits(cfg, Issue(cfg, s, u, now, lineage, draw), now)
  {
    hide IssueAccess;
  }

  lemma RefreshFits(cfg: Settings, s: State, hash: Hash, user: Option<User>, row: Option<Session>, csrf: string,
                    now: Time, draw: Fresh)
    requires row.Some? ==> row.value.id in s.sessions
    ensures Fits(cfg, DecideRefresh(cfg, s, hash, user, row, csrf, now, draw), now)
  {
    hide IssueAccess, User.CanAuthenticate, RevokeFamily;
    if row.Some? && user.Some? {
      var x := row.value;
      IssueFits(cfg, s, user.value, now, Rotation(x.familyId, x.absoluteExpiresAt, x.authenticatedAt), draw);
    }
  }

  lemma SessionOpFits(cfg: Settings, s: State, op: SessionOp, now: Time)
    requires Inv(cfg, s)
    ensures Fits(cfg, ApplySession(cfg, s, op, now), now)
  {
    hide Inv, Issue, DecideRefresh, Fits, RecordPasswordFailure, User.CanAuthenticate, Session.IsValidFor;
    hide UserByEmail, SessionByToken, RevokeFamily, LiveInFamily, RevokeUserSessions, User.ActivatePassword;
    RefusalsFit(cfg, now);
    match op
    case Login(email, v, draw) =>
      var user := UserByEmail(s.users, email);
      if user.Some? {
        var verified := AfterVerification(user.value, v, now);
        IssueFits(cfg, PutUser(s, verified), verified, now, NewLogin, draw);
      }
    case Reauthenticate(p, v) =>
    case Refresh(token, cookie, _, _, draw) =>
      Preservation.FoundByToken(cfg, s, Sha256(token));
      var x := SessionByToken(s.sessions, Sha256(token));
      if x.Some? {
        RefreshFits(cfg, s, Sha256(token), UserById(s.users, x.value.userId), SessionById(s.sessions, x.value.id),
                    cookie, now, draw);
      }
    case Logout(token, cookie, _, _) =>
    case ChangePassword(p, c, draw) =>
      if p.userId in s.users {
        var changed := s.users[p.userId].ActivatePassword(c.newHash, now);
        IssueFits(cfg, RevokeUserSessions(PutUser(s, changed), changed.id, now), changed, now, NewLogin, draw);
      }
  }

  lemma RefusalsFit(cfg: Settings, now: Time)
    ensures forall r: Reply {:trigger Fits(cfg, r, now)} :: !r.out.SessionIssued? ==> Fits(cfg, r, now)
  {
  }

  lemma LinkOpFits(cfg: Settings, retain: bool, s: State, op: LinkOp, now: Time)
    ensures Fits(cfg, ApplyLink(cfg, retain, s, op, now), now)
  {
    hide LinkRules.IssueLink, LinkRules.Redeem, Issue, LinkRules.CanRequest, LinkRules.Deliverable, InRole, UserByEmail;
    hide LinkRules.ActiveLinkExists, UserRules.AddUser, RevokeOtherActive, LinkRules.RevokeLink, BundleFits;
    match op
    case LoginByLink(token, nonce, draw) =>
      var found := LinkRules.Redeem(cfg, s, token, LoginLink, Some(nonce), now);
      if found.user.Some? { IssueFits(cfg, found.st, found.user.value, now, NewLogin, draw); }
    case ResetByLink(token, acceptable, hash) =>
    case ActivateInvitation(token, hash) =>
    case ActivateAccount(token, acceptable, hash) =>
    case _ => LinkIssuesNoSession(cfg, retain, s, op, now);
  }

  lemma LinkIssuesNoSession(cfg: Settings, retain: bool, s: State, op: LinkOp, now: Time)
    requires !op.LoginByLink? && !op.ResetByLink? && !op.ActivateInvitation? && !op.ActivateAccount?
    ensures !ApplyLink(cfg, retain, s, op, now).out.SessionIssued?
  {
    hide LinkRules.CanRequest, LinkRules.Deliverable, InRole, UserByEmail, RevokeOtherActive, LinkRules.RevokeLink;
    hide LinkRules.RateLimited, LinkClashes, LinkRules.NewLink, EmailTaken;
  }

  lemma LoginLinkedFits(cfg: Settings, s: State, i: Identity, claims: GoogleClaims, now: Time, draw: Fresh)
    ensures Fits(cfg, GoogleRules.LoginLinked(cfg, s, i, claims, now, draw), now)
  {
    hide Issue, BundleFits, User.CanAuthenticate;
    if i.userId in s.users {
      IssueFits(cfg, PutIdentity(s, GoogleRules.SeenAgain(i, claims, now)), s.users[i.userId], now, NewLogin, draw);
    }
  }

  lemma InsertIdentityFits(cfg: Settings, s: State, u: User, claims: GoogleClaims, now: Time,
                           draw: GoogleRules.GoogleDraw)
    ensures Fits(cfg, GoogleRules.InsertIdentityAndLogin(cfg, s, u, claims, now, draw), now)
  {
    hide GoogleRules.LoginLinked, BundleFits, IdentityClashes;
    var i := GoogleRules.NewIdentity(draw.identityId, u.id, claims, now);
    LoginLinkedFits(cfg, PutIdentity(s, i), i, claims, now, draw.session);
  }

  lemma GoogleOpFits(cfg: Settings, s: State, op: GoogleOp, now: Time)
    ensures Fits(cfg, ApplyGoogle(cfg, s, op, now), now)
  {
    hide GoogleRules.LoginLinked, GoogleRules.InsertIdentityAndLogin, IdentityBySubject, IdentityOfUser, UserByEmail;
    hide User.CanAuthenticate, GoogleRules.CanLink, GoogleRules.CanAutoLink, User.DisablePassword, EmailTaken;
    hide BundleFits;
    match op
    case GoogleLogin(claims, draw) =>
      var i := IdentityBySubject(s.identities, GOOGLE_ISSUER, claims.subject);
      if i.Some? {
        LoginLinkedFits(cfg, s, i.value, claims, now, draw.session);
      } else if GoogleRules.IsAuthoritative(claims) {
        var user := UserByEmail(s.users, claims.email.value);
        if user.Some? {
          var linked := user.value.DisablePassword(draw.passwordHash, now);
          InsertIdentityFits(cfg, PutUser(s, linked), linked, claims, now, draw);
        } else {
          var added := GoogleRules.OpenUser(cfg, claims, now, draw);
          InsertIdentityFits(cfg, PutUser(s, added), added, claims, now, draw);
        }
      }
    case GoogleLoginAfterConflict(claims, draw) =>
      var i := IdentityBySubject(s.identities, GOOGLE_ISSUER, claims.subject);
      if i.Some? { LoginLinkedFits(cfg, s, i.value, claims, now, draw); }
    case _ =>
  }

  lemma PasskeyOpFits(cfg: Settings, s: State, op: PasskeyOp, now: Time)
    ensures Fits(cfg, ApplyPasskey(cfg, s, op, now), now)
  {
    hide Issue, BundleFits, User.CanAuthenticate, Session.IsValidFor, PasskeyByCredential, UsablePasskeys;
    if op.LoginByPasskey? {
      var k := PasskeyRules.AcceptedPasskey(s, op.assertion, None, now);
      if k.Some? {
        IssueFits(cfg, PutPasskey(s, PasskeyRules.UsedPasskey(k.value, op.assertion.verified.value, now)),
                  s.users[k.value.userId], now, NewLogin, op.draw);
      }
    }
  }

  lemma StepFits(cfg: Settings, retain: bool, s: State, op: Op, now: Time)
    requires Inv(cfg, s)
    ensures Fits(cfg, Apply(cfg, retain, s, op, now), now)
  {
    hide Inv, Fits, ApplySession, ApplyUser, ApplyLink, ApplyGoogle, ApplyPasskey;
    match op
    case OnSessions(x) => SessionOpFits(cfg, s, x, now);
    case OnUsers(x) => UserOpFits(cfg, s, x, now);
    case OnLinks(x) => LinkOpFits(cfg, retain, s, x, now);
    case OnGoogle(x) => GoogleOpFits(cfg, s, x, now);
    case OnPasskeys(x) => PasskeyOpFits(cfg, s, x, now);
  }

  lemma UserOpFits(cfg: Settings, s: State, op: UserOp, now: Time)
    ensures Fits(cfg, ApplyUser(cfg, s, op, now), now)
  {
    hide BundleFits, EmailTaken, InRole, LiveOfUser;
  }

  // Runs -------------------------------------------------------------------------------------------

  ghost predicate IssuesAt(cfg: Settings, retain: bool, ws: seq<World>, ops: seq<Op>, k: nat, b: SessionBundle) {
    k < |ops| && k + 1 < |ws| && Apply(cfg, retain, ws[k].st, ops[k], ws[k + 1].at).out == SessionIssued(b)
  }

  /** The access token of any bundle handed out in a run is accepted, at any later moment, exactly
      while it lives, its session is active and its user may authenticate; only a clock that went
      back by more than the leeway since the login can make it unacceptable from the start. */
  lemma IssuedTokenRoundTrip(cfg: Settings, retain: bool, ws: seq<World>, ops: seq<Op>, k: nat, j: nat,
                             b: SessionBundle, t: Time, later: Time)
    requires cfg.Valid() && IsRun(cfg, retain, ws, ops) && k < j < |ws| && IssuesAt(cfg, retain, ws, ops, k, b)
    requires 0 <= ws[k + 1].at
    ensures var id, s, now := b.principal.sessionId, ws[j].st, ws[k + 1].at;
            && id in s.sessions && s.sessions[id].userId in s.users
            && (AuthenticateToken(cfg, s, b.access, t, later).Some? <==>
                  && Alive(cfg, now, t) && LoginBefore(cfg, s.sessions[id].authenticatedAt, now)
                  && s.sessions[id].IsActive(later) && s.users[s.sessions[id].userId].CanAuthenticate(later))
            && (Monotone(ws) ==> LoginBefore(cfg, s.sessions[id].authenticatedAt, now))
  {
    hide Inv, Apply, AuthenticateToken, IssueAccess, Alive, LoginBefore;
    var id, now := b.principal.sessionId, ws[k + 1].at;
    Runs.Reachable(cfg, retain, ws, ops, k);
    Runs.StepEvolves(cfg, retain, ws, ops, k);
    StepFits(cfg, retain, ws[k].st, ops[k], now);
    Runs.Reachable(cfg, retain, ws, ops, j);
    Runs.RunEvolves(cfg, retain, ws, ops, k + 1, j);
    assert SessionSafety.SessionEvolves(ws[k + 1].st.sessions[id], ws[j].st.sessions[id]);
    OwnerStored(cfg, ws[j].st, id);
    TokenMatchesSession(cfg, ws[j].st, b.principal, now, t, later);
    if Monotone(ws) {
      assert Recent(ws[k + 1], 0);
      Runs.ReachableInOrder(cfg, retain, ws, ops, k + 1);
      LoginComesFirst(ws[k + 1].st, id, ws[k + 1].now);
      VerifiesWithinLifetime(cfg, b.principal, now, t);
    }
  }

  lemma OwnerStored(cfg: Settings, s: State, id: Uuid)
    requires Inv(cfg, s) && id in s.sessions
    ensures s.sessions[id].userId in s.users
  {
  }

  lemma LoginComesFirst(s: State, id: Uuid, now: Time)
    requires InOrder(s, now) && id in s.sessions
    ensures s.sessions[id].authenticatedAt <= now
  {
    assert SessionSafety.InSequence(s.sessions, s.sessions[id], now);
  }
}
