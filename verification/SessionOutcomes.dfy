/** When the operations of `_service_sessions.py` succeed and what they leave, told by the stored rows
    alone: each outcome has its condition in fields, and the store after it is given row by row. */
module SessionOutcomes {
  import opened Models
  import opened Config
  import opened StoreState
  import opened RowFacts
  import SessionRules

  /** Both stores agree but for users and sessions. */
  predicate RestSame(a: State, b: State) { b == a.(users := b.users, sessions := b.sessions) }

  /** The account `id` has been saved as `u`, and no other. */
  predicate Saved(a: State, b: State, id: Uuid, u: User) { id in a.users && b.users == a.users[id := u] }

  lemma Ends(s: State, user: Uuid, family: Uuid, at: Time)
    ensures RevokeUserSessions(s, user, at) == s.(sessions := RevokeUserSessions(s, user, at).sessions)
    ensures AccountEnded(s.sessions, RevokeUserSessions(s, user, at).sessions, user, at)
    ensures FamilyEnded(s.sessions, RevokeFamily(s, family, at).sessions, family, at)
  {
  }

  /** `SessionIssuer.issue` for a login succeeds exactly when neither drawn key is taken. */
  lemma Issues(cfg: Settings, s: State, user: User, now: Time, draw: Fresh)
    ensures var r := SessionRules.Issue(cfg, s, user, now, SessionRules.NewLogin, draw);
            if NewKeys(s.sessions, draw)
            then r.out.SessionIssued? && r.out.bundle.principal.userId == user.id
                 && r.st == s.(sessions := r.st.sessions)
                 && OneBegun(cfg, s.sessions, r.st.sessions, user.id, now, draw)
            else r == Reply(s, Rejected(StoreConflict))
  {
  }

  // login ---------------------------------------------------------------------------------------------

  lemma ByEmail(s: State, id: Uuid, email: string)
    requires UsersUnique(s.users) && id in s.users && s.users[id].email == email
    ensures UserByEmail(s.users, email) == Some(s.users[id])
  {
    assert SameEmail(UserByEmail(s.users, email).value, s.users[id]);
  }

  lemma UserKey(s: State, id: Uuid)
    requires UsersUnique(s.users) && id in s.users
    ensures s.users[id].id == id
  {
  }

  predicate MayLogIn(u: User, v: PasswordVerification, now: Time) {
    v.valid && u.passwordLoginEnabled && Standing(u, now)
  }

  /** A failed check counted against an account: at the limit its sessions end. */
  predicate Counted(cfg: Settings, a: State, b: State, id: Uuid, now: Time) {
    && RestSame(a, b) && id in a.users && Saved(a, b, id, Missed(cfg, a.users[id], now))
    && if Missed(cfg, a.users[id], now).lockedUntil.Some? then AccountEnded(a.sessions, b.sessions, id, now)
       else b.sessions == a.sessions
  }

  lemma Counts(cfg: Settings, s: State, id: Uuid, now: Time)
    requires UsersUnique(s.users) && id in s.users
    ensures var u := s.users[id];
            var after := SessionRules.RecordPasswordFailure(cfg, s, Some(u), now);
            if u.passwordLoginEnabled && Standing(u, now) then Counted(cfg, s, after, id, now) else after == s
  {
    var u := s.users[id];
    Ends(PutUser(s, SessionRules.AfterFailure(cfg, u, now)), id, 0, now);
  }

  /** A login for the email of a stored account. */
  lemma LoginDecided(cfg: Settings, s: State, id: Uuid, v: PasswordVerification, now: Time, draw: Fresh)
    requires UsersUnique(s.users) && id in s.users
    ensures var u := s.users[id];
            var r := SessionRules.Login(cfg, s, u.email, v, now, draw);
            && (r.out.SessionIssued? <==> MayLogIn(u, v, now) && NewKeys(s.sessions, draw))
            && (r.out.SessionIssued? ==>
                  && RestSame(s, r.st) && OneBegun(cfg, s.sessions, r.st.sessions, id, now, draw)
                  && Saved(s, r.st, id, u.(passwordHash := if v.updatedHash.Some? then v.updatedHash.value
                                                           else u.passwordHash,
                                           failedLoginAttempts := 0, lockedUntil := None, updatedAt := Some(now))))
            && (MayLogIn(u, v, now) && !r.out.SessionIssued? ==> r == Reply(s, Rejected(StoreConflict)))
            && (!MayLogIn(u, v, now) ==>
                  && r.out == Rejected(InvalidCredentials)
                  && if u.passwordLoginEnabled && Standing(u, now) then Counted(cfg, s, r.st, id, now) else r.st == s)
  {
    hide UserByEmail, SessionRules.Issue, SessionRules.RecordPasswordFailure;
    var u := s.users[id];
    ByEmail(s, id, u.email);
    Counts(cfg, s, id, now);
    var verified := SessionRules.AfterVerification(u, v, now);
    Issues(cfg, PutUser(s, verified), verified, now, draw);
  }

  lemma LoginUnknown(cfg: Settings, s: State, email: string, v: PasswordVerification, now: Time, draw: Fresh)
    requires forall id :: id in s.users ==> s.users[id].email != email
    ensures SessionRules.Login(cfg, s, email, v, now, draw) == Reply(s, Rejected(InvalidCredentials))
  {
  }

  // reauthenticate_password ---------------------------------------------------------------------------

  lemma Stands(s: State, p: Principal, now: Time)
    ensures SessionRules.RowsStand(p, UserById(s.users, p.userId), SessionById(s.sessions, p.sessionId), now)
       <==> Accepts(s, p, now)
  {
  }

  lemma ReauthenticationDecided(cfg: Settings, s: State, p: Principal, v: PasswordVerification, now: Time)
    requires UsersUnique(s.users)
    ensures var r := SessionRules.Reauthenticate(cfg, s, p, v, now);
            && (r.out.Reauthenticated? <==>
                  Accepts(s, p, now) && s.users[p.userId].passwordLoginEnabled && v.valid)
            && (r.out.Reauthenticated? ==>
                  && r.out == Reauthenticated(p.userId, p.sessionId, p.familyId, now)
                  && var u := s.users[p.userId];
                     r.st == s.(users := s.users[p.userId := u.(
                       passwordHash := if v.updatedHash.Some? then v.updatedHash.value else u.passwordHash,
                       failedLoginAttempts := 0, lockedUntil := None, updatedAt := Some(now))]))
            && (!Accepts(s, p, now) ==> r == Reply(s, Rejected(InvalidSession)))
            && (Accepts(s, p, now) && !r.out.Reauthenticated? ==>
                  && r.out == Rejected(InvalidCredentials)
                  && if s.users[p.userId].passwordLoginEnabled then Counted(cfg, s, r.st, p.userId, now)
                     else r.st == s)
  {
    hide SessionRules.RowsStand, SessionRules.RecordPasswordFailure;
    Stands(s, p, now);
    if p.userId in s.users { Counts(cfg, s, p.userId, now); }
  }

  /** `authenticate`, for claims that an access token was verified into. */
  lemma AuthenticationDecided(s: State, p: Principal, now: Time)
    ensures var r := SessionRules.Authenticate(s, p.AsSubject(), now);
            && (r.Some? <==> Accepts(s, p, now))
            && (r.Some? ==> var u, x := s.users[p.userId], s.sessions[p.sessionId];
                            r.value == Principal(u.id, x.id, x.familyId, u.email, u.displayName, u.roles, u.scopes,
                                                 u.mustChangePassword, x.authenticatedAt))
  {
  }

  // refresh -------------------------------------------------------------------------------------------

  lemma ByToken(s: State, id: Uuid, token: string)
    requires SessionsUnique(s.sessions) && id in s.sessions && s.sessions[id].tokenHash == Sha256(token)
    ensures SessionByToken(s.sessions, Sha256(token)) == Some(s.sessions[id])
  {
    assert SameToken(SessionByToken(s.sessions, Sha256(token)).value, s.sessions[id]);
  }

  lemma KeyOf(s: State, id: Uuid)
    requires SessionsUnique(s.sessions) && id in s.sessions
    ensures s.sessions[id].id == id
  {
  }

  lemma KeysFree(s: State, draw: Fresh)
    ensures NewKeys(s.sessions, draw)
       <==> !(draw.sessionId in s.sessions || TokenTaken(s.sessions, Sha256(draw.refreshToken)))
  {
  }

  /** The Origin and double-submit checks let the request through. */
  predicate Guarded(cookie: string, header: string, originOk: bool) { originOk && cookie == header && |cookie| > 0 }

  /** The session and its account let the token be used. */
  predicate MayRotate(s: State, x: Session, cookie: string, now: Time) {
    Live(x, now) && x.usedAt.None? && x.csrfHash == Sha256(cookie) && StandsAt(s.users, x.userId, now)
  }

  /** A refresh by the token of a stored session, which its request's checks let through. */
  lemma RefreshDecided(cfg: Settings, s: State, id: Uuid, token: string, cookie: string, header: string,
                       originOk: bool, now: Time, draw: Fresh)
    requires SessionsUnique(s.sessions) && UsersUnique(s.users)
    requires id in s.sessions && s.sessions[id].tokenHash == Sha256(token)
    ensures var x := s.sessions[id];
            var r := SessionRules.GuardedRefresh(cfg, s, token, cookie, header, originOk, now, draw);
            && (r.out.SessionIssued? <==>
                  Guarded(cookie, header, originOk) && MayRotate(s, x, cookie, now) && NewKeys(s.sessions, draw))
            && (r.out.SessionIssued? ==>
                  && r.st == s.(sessions := r.st.sessions) && draw.sessionId in r.st.sessions
                  && Succeeds(cfg, r.st.sessions[draw.sessionId], x, now, draw)
                  && r.st.sessions == s.sessions[draw.sessionId := r.st.sessions[draw.sessionId]]
                                                [id := x.(usedAt := Some(now), replacedById := Some(draw.sessionId))])
  {
    hide SessionsUnique, SessionByToken, TokenTaken;
    ByToken(s, id, token);
    KeyOf(s, id);
    KeysFree(s, draw);
  }

  /** And what every other refresh by such a token leaves: reuse, expiry and an account that does not
      stand end the family, and nothing else is written. */
  lemma RefreshRefused(cfg: Settings, s: State, id: Uuid, token: string, cookie: string, header: string,
                       originOk: bool, now: Time, draw: Fresh)
    requires SessionsUnique(s.sessions) && UsersUnique(s.users)
    requires id in s.sessions && s.sessions[id].tokenHash == Sha256(token)
    ensures var x := s.sessions[id];
            var r := SessionRules.GuardedRefresh(cfg, s, token, cookie, header, originOk, now, draw);
            if !originOk then r == Reply(s, Rejected(InvalidOrigin))
            else if !Guarded(cookie, header, originOk) then r == Reply(s, Rejected(InvalidCsrf))
            else if x.revokedAt.Some? then r == Reply(s, Rejected(InvalidSession))
            else if x.usedAt.None? && Live(x, now) && x.csrfHash != Sha256(cookie)
            then r == Reply(s, Rejected(InvalidCsrf))
            else if !MayRotate(s, x, cookie, now)
            then r.out == Rejected(InvalidSession) && r.st == s.(sessions := r.st.sessions)
                 && FamilyEnded(s.sessions, r.st.sessions, x.familyId, now)
            else r.out.SessionIssued? || r == Reply(s, Rejected(StoreConflict))
  {
    hide SessionsUnique, SessionByToken, TokenTaken;
    ByToken(s, id, token);
    KeyOf(s, id);
    Ends(s, 0, s.sessions[id].familyId, now);
  }

  predicate TokenUnknown(s: State, token: string) {
    forall id :: id in s.sessions ==> s.sessions[id].tokenHash != Sha256(token)
  }

  lemma RefreshUnknown(cfg: Settings, s: State, token: string, cookie: string, header: string,
                       originOk: bool, now: Time, draw: Fresh)
    requires TokenUnknown(s, token)
    ensures var r := SessionRules.GuardedRefresh(cfg, s, token, cookie, header, originOk, now, draw);
            r.st == s && r.out == Rejected(if !originOk then InvalidOrigin
                                           else if !Guarded(cookie, header, originOk) then InvalidCsrf
                                           else InvalidSession)
  {
  }

  // logout --------------------------------------------------------------------------------------------

  /** A logout by the token of a stored session ends its family exactly when the request's checks let
      it through and the cookie is the session's own; it counts the sessions it ends. */
  lemma LogoutDecided(s: State, id: Uuid, token: string, cookie: string, header: string, originOk: bool, now: Time)
    requires SessionsUnique(s.sessions) && |token| > 0
    requires id in s.sessions && s.sessions[id].tokenHash == Sha256(token) && s.sessions[id].userId in s.users
    ensures var x := s.sessions[id];
            var r := SessionRules.GuardedLogout(s, token, cookie, header, originOk, now);
            if !originOk then r == Reply(s, Rejected(InvalidOrigin))
            else if !Guarded(cookie, header, originOk) then r == Reply(s, Rejected(InvalidCsrf))
            else if x.revokedAt.Some? then r == Reply(s, Revoked(0))
            else if x.csrfHash != Sha256(cookie) then r == Reply(s, Rejected(InvalidCsrf))
            else r.out == Revoked(|set k | k in s.sessions && s.sessions[k].familyId == x.familyId
                                           && s.sessions[k].revokedAt.None?|)
                 && r.st == s.(sessions := r.st.sessions)
                 && FamilyEnded(s.sessions, r.st.sessions, x.familyId, now)
  {
    hide SessionsUnique, SessionByToken;
    ByToken(s, id, token);
    KeyOf(s, id);
    Ends(s, 0, s.sessions[id].familyId, now);
    assert LiveInFamily(s.sessions, s.sessions[id].familyId)
        == set k | k in s.sessions && s.sessions[k].familyId == s.sessions[id].familyId
                   && s.sessions[k].revokedAt.None?;
  }

  lemma LogoutUnknown(s: State, token: string, cookie: string, header: string, originOk: bool, now: Time)
    requires TokenUnknown(s, token) || token == ""
    ensures var r := SessionRules.GuardedLogout(s, token, cookie, header, originOk, now);
            r.st == s && r.out == if !originOk then Rejected(InvalidOrigin)
                                  else if token == "" || Guarded(cookie, header, originOk) then Revoked(0)
                                  else Rejected(InvalidCsrf)
  {
  }

  // change_password -----------------------------------------------------------------------------------

  lemma KeysFreeAfter(a: map<Uuid, Session>, b: map<Uuid, Session>, user: Uuid, at: Time, draw: Fresh)
    requires AccountEnded(a, b, user, at)
    ensures NewKeys(b, draw) <==> NewKeys(a, draw)
  {
    forall id | id in a ensures b[id].tokenHash == a[id].tokenHash { }
  }

  /** The new session is the only one of the account that is not revoked, and no other account's changes. */
  predicate OneLeft(cfg: Settings, a: map<Uuid, Session>, b: map<Uuid, Session>, user: Uuid, now: Time, draw: Fresh) {
    && draw.sessionId in b && draw.sessionId !in a && Begins(cfg, b[draw.sessionId], user, now, draw)
    && AccountEnded(a, b - {draw.sessionId}, user, now)
  }

  lemma ChangeDecided(cfg: Settings, s: State, p: Principal, c: SessionRules.PasswordChange, now: Time, draw: Fresh)
    requires UsersUnique(s.users)
    ensures var r := SessionRules.ChangePassword(cfg, s, p, c, now, draw);
            && (r.out.SessionIssued? <==> c.acceptable && c.currentOk && !c.repeated && Accepts(s, p, now)
                                          && NewKeys(s.sessions, draw))
            && (if r.out.SessionIssued?
                then RestSame(s, r.st) && OneLeft(cfg, s.sessions, r.st.sessions, p.userId, now, draw)
                     && Saved(s, r.st, p.userId, WithPassword(s.users[p.userId], c.newHash, false, true, now))
                else r.st == s
                     && r.out == Rejected(if !c.acceptable then PasswordInvalid
                                          else if !Accepts(s, p, now) then InvalidSession
                                          else if !c.currentOk then InvalidCredentials
                                          else if c.repeated then PasswordInvalid
                                          else StoreConflict))
  {
    hide SessionRules.RowsStand, SessionRules.Issue, RevokeUserSessions, AccountEnded, Begins, NewKeys;
    hide Session.IsValidFor, User.CanAuthenticate;
    Stands(s, p, now);
    if p.userId in s.users {
      var changed := s.users[p.userId].ActivatePassword(c.newHash, now);
      var saved := PutUser(s, changed);
      var cleared := RevokeUserSessions(saved, changed.id, now);
      Ends(saved, changed.id, 0, now);
      KeysFreeAfter(s.sessions, cleared.sessions, p.userId, now, draw);
      Issues(cfg, cleared, changed, now, draw);
      if NewKeys(s.sessions, draw) { Left(cfg, s.sessions, cleared.sessions, p.userId, now, draw); }
    }
  }

  lemma Left(cfg: Settings, a: map<Uuid, Session>, b: map<Uuid, Session>, user: Uuid, now: Time, draw: Fresh)
    requires AccountEnded(a, b, user, now) && NewKeys(b, draw)
    ensures forall c: map<Uuid, Session> :: OneBegun(cfg, b, c, user, now, draw) ==> OneLeft(cfg, a, c, user, now, draw)
  {
    forall c: map<Uuid, Session> | OneBegun(cfg, b, c, user, now, draw) ensures OneLeft(cfg, a, c, user, now, draw) {
      assert c - {draw.sessionId} == b;
    }
  }
}
