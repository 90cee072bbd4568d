/** `sessions.py` and `_service_sessions.py` as they run: reads and writes on the store, one after
    another, inside transactions. Each method does to the store what its rule says, gives the same
    answer, and locks its rows in order. */
module SessionService {
  import opened Models
  import opened Config
  import opened StoreState
  import opened Statements
  import opened MemoryStore
  import opened SessionRules
  import Tokens

  lemma OwnEmail(users: map<Uuid, User>, u: User)
    requires UsersUnique(users) && u.id in users && users[u.id].email == u.email
    ensures !EmailTaken(users, u.email, Some(u.id))
  {
    forall id | id in users && users[id].email == u.email ensures id == u.id {
      assert SameEmail(users[id], users[u.id]);
    }
  }

  /** The parts of `Fit` that the look-ups ask for. */
  lemma FitParts(s: State)
    requires Fit(s)
    ensures UsersUnique(s.users) && SessionsUnique(s.sessions) && LinksUnique(s.links) && PasskeysUnique(s.passkeys)
    ensures IdentitiesOneToOne(s.identities) && ChallengesKeyed(s)
  {
  }

  /** A session found by its token is the stored row with its id, of a stored account. */
  lemma FoundByToken(s: State, hash: Hash)
    requires Fit(s)
    ensures var x := SessionByToken(s.sessions, hash);
            x.Some? ==> x.value.id in s.sessions && s.sessions[x.value.id] == x.value && x.value.userId in s.users
  {
  }

  /** A user found by email is stored under its id. */
  lemma FoundByEmail(s: State, email: string)
    requires Fit(s)
    ensures var u := UserByEmail(s.users, email);
            u.Some? ==> u.value.id in s.users && s.users[u.value.id] == u.value && u.value.email == email
  {
  }

  lemma SameAddress(u: User, hash: string, now: Time)
    ensures u.ActivatePassword(hash, now).id == u.id && u.ActivatePassword(hash, now).email == u.email
  {
  }

  lemma UserKey(s: State, id: Uuid)
    requires Fit(s) && id in s.users
    ensures s.users[id].id == id
  {
  }

  class SessionIssuer {
    const cfg: Settings

    constructor (cfg: Settings)
      ensures this.cfg == cfg
    {
      this.cfg := cfg;
    }

    /** `issue`; None when the store reports a conflict. */
    method Issue(store: MemoryAuthStore, user: User, now: Time, lineage: Lineage, draw: Fresh)
      returns (bundle: Option<SessionBundle>)
      modifies store
      ensures var r := SessionRules.Issue(cfg, old(store.View()), user, now, lineage, draw);
              && store.View() == r.st
              && r.out == if bundle.Some? then SessionIssued(bundle.value) else Rejected(StoreConflict)
      ensures store.began == old(store.began)
      ensures store.log == if bundle.Some? then old(store.log) + [AddSession(draw.sessionId, user.id)]
                           else old(store.log)
      ensures Has(old(store.log), user.id) ==> store.Went()
    {
      var familyId := if lineage.Rotation? then lineage.familyId else draw.familyId;
      var authenticatedAt := if lineage.Rotation? then lineage.authenticatedAt else now;
      var absolute := if lineage.Rotation? then lineage.absoluteExpiresAt
                      else now + Seconds(cfg.refreshAbsoluteTtlSeconds);
      var idle := Min(now + Seconds(cfg.refreshIdleTtlSeconds), absolute);
      var session := Session(draw.sessionId, user.id, familyId, Sha256(draw.refreshToken), Sha256(draw.csrfToken),
                             now, idle, absolute, authenticatedAt, None, None, None);
      var stored := store.InsertSession(session);
      if !stored { return None; }
      var principal := PrincipalFromSession(user, session);
      var access := Tokens.IssueAccess(cfg, principal, now);
      return Some(SessionBundle(access, draw.refreshToken, draw.csrfToken, idle, absolute, principal));
    }
  }

  /** `require_principal_user`: None stands for the invalid-session error. */
  method RequirePrincipalUser(store: MemoryAuthStore, p: Principal, now: Time, forUpdate: bool)
    returns (user: Option<User>)
    requires Fit(store.View()) && store.Begun(store.View())
    modifies store
    ensures store.View() == old(store.View()) && store.began == old(store.began)
    ensures user == if PrincipalStands(old(store.View()), p, UserById(old(store.users), p.userId), now)
                    then UserById(old(store.users), p.userId) else None
    ensures user.Some? ==> store.log == if forUpdate then [OnUser(p.userId), OnSession(p.sessionId)] else []
    ensures user.Some? || Genuine(old(store.View()), p) ==> store.InOrder()
  {
    hide Orderly, Unique, FamiliesOwned, User.CanAuthenticate, HasSome, OwnFamily;
    user := store.GetUserById(p.userId, forUpdate);
    var session := store.GetSessionById(p.sessionId, forUpdate);
    assert session.Some? && session.value.userId == p.userId ==> store.InOrder();
    if user.None? || session.None? || !user.value.CanAuthenticate(now) || !session.value.IsValidFor(p.AsSubject(),
                                                                                                    now) {
      user := None;
    }
  }

  /** `update_user` and `revoke_user_sessions`, one after the other, as several services do. */
  method SaveAndRevoke(store: MemoryAuthStore, u: User, now: Time)
    requires UsersUnique(store.users) && u.id in store.users && store.users[u.id].email == u.email
    requires Has(store.log, u.id)
    modifies store
    ensures store.View() == RevokeUserSessions(PutUser(old(store.View()), u), u.id, now)
    ensures store.Went() && store.log == old(store.log) + [OnUser(u.id), OnAccount(u.id)]
  {
    OwnEmail(store.users, u);
    var _ := store.UpdateUser(u);
    var _ := store.RevokeUserSessions(u.id, now);
  }

  class SessionService {
    const store: MemoryAuthStore
    const cfg: Settings
    const issuer: SessionIssuer

    constructor (store: MemoryAuthStore, cfg: Settings)
      ensures this.store == store && this.cfg == cfg && issuer.cfg == cfg
    {
      this.store, this.cfg := store, cfg;
      issuer := new SessionIssuer(cfg);
    }

    /** `_record_password_failure`. */
    method RecordPasswordFailure(user: Option<User>, now: Time)
      requires Fit(store.View())
      requires user.Some? ==> user.value.id in store.users && store.users[user.value.id] == user.value
      requires user.Some? ==> Has(store.log, user.value.id)
      modifies store
      ensures store.View() == SessionRules.RecordPasswordFailure(cfg, old(store.View()), user, now)
      ensures store.Went()
    {
      if user.Some? && user.value.passwordLoginEnabled && user.value.CanAuthenticate(now) {
        var u := user.value;
        var previous := if u.lockedUntil.Some? && u.lockedUntil.value <= now then 0 else u.failedLoginAttempts;
        var attempts := previous + 1;
        var lockedUntil := if attempts >= cfg.loginMaxAttempts then Some(now + Seconds(cfg.lockoutSeconds)) else None;
        u := u.(failedLoginAttempts := attempts, lockedUntil := lockedUntil, updatedAt := Some(now));
        if lockedUntil.Some? {
          u := u.AdvanceSecurityVersion(now);
          SaveAndRevoke(store, u, now);
        } else {
          OwnEmail(store.users, u);
          var _ := store.UpdateUser(u);
        }
      }
    }

    method Login(email: string, verification: PasswordVerification, now: Time, draw: Fresh) returns (out: Outcome)
      requires Fit(store.View()) && issuer.cfg == cfg
      modifies store
      ensures Reply(store.View(), out) == SessionRules.Login(cfg, old(store.View()), email, verification, now, draw)
      ensures store.Ran(old(store.View()))
    {
      hide Orderly, MayFollow, User.CanAuthenticate, SessionRules.RecordPasswordFailure, SessionRules.Issue;
      hide Fit, UsersUnique;
      FitParts(store.View());
      FoundByEmail(store.View(), email);
      var snapshot := store.Begin();
      var user := store.GetUserByEmail(email, true);
      if user.Some? { MayOpen(snapshot, [], OnUser(user.value.id)); }
      var unavailable := user.None? || !user.value.passwordLoginEnabled || !user.value.CanAuthenticate(now);
      if unavailable || !verification.valid {
        RecordPasswordFailure(user, now);
        return Rejected(InvalidCredentials);
      }
      var verified := ApplyPasswordVerification(user.value, verification, now);
      var result := issuer.Issue(store, verified, now, NewLogin, draw);
      if result.None? {
        store.Rollback(snapshot);
        return Rejected(StoreConflict);
      }
      return SessionIssued(result.value);
    }

    /** `_apply_password_verification`. */
    method ApplyPasswordVerification(user: User, v: PasswordVerification, now: Time) returns (updated: User)
      requires UsersUnique(store.users) && user.id in store.users && store.users[user.id] == user
      requires Has(store.log, user.id)
      modifies store
      ensures updated == AfterVerification(user, v, now)
      ensures store.View() == PutUser(old(store.View()), updated)
      ensures store.Went()
    {
      updated := user.(passwordHash := if v.updatedHash.Some? then v.updatedHash.value else user.passwordHash,
                       failedLoginAttempts := 0, lockedUntil := None, updatedAt := Some(now));
      OwnEmail(store.users, updated);
      var _ := store.UpdateUser(updated);
    }

    method ReauthenticatePassword(p: Principal, verification: PasswordVerification, now: Time) returns (out: Outcome)
      requires Fit(store.View())
      modifies store
      ensures Reply(store.View(), out) == SessionRules.Reauthenticate(cfg, old(store.View()), p, verification, now)
      ensures Genuine(old(store.View()), p) ==> store.Ran(old(store.View()))
    {
      var snapshot := store.Begin();
      var user := RequirePrincipalUser(store, p, now, true);
      if user.None? {
        store.Rollback(snapshot);
        return Rejected(InvalidSession);
      }
      if !user.value.passwordLoginEnabled || !verification.valid {
        RecordPasswordFailure(user, now);
        return Rejected(InvalidCredentials);
      }
      var _ := ApplyPasswordVerification(user.value, verification, now);
      return Reauthenticated(p.userId, p.sessionId, p.familyId, now);
    }

    /** `authenticate`, from the verified claims on; None stands for the invalid-session error. */
    method Authenticate(claims: Subject, now: Time) returns (principal: Option<Principal>)
      modifies store
      ensures principal == SessionRules.Authenticate(old(store.View()), claims, now)
      ensures store.View() == old(store.View()) && store.Ran(old(store.View())) && store.log == []
    {
      var _ := store.Begin();
      var user := store.GetUserById(claims.userId, false);
      var session := store.GetSessionById(claims.sessionId, false);
      if user.None? || session.None? || !user.value.CanAuthenticate(now) || !session.value.IsValidFor(claims, now) {
        return None;
      }
      return Some(PrincipalFromSession(user.value, session.value));
    }

    method RevokeFamilyOf(session: Session, now: Time) returns (count: nat)
      requires Fit(store.View()) && session.id in store.sessions && store.sessions[session.id] == session
      requires store.began == store.View() && Has(store.log, session.userId)
      modifies store
      ensures store.View() == RevokeFamily(old(store.View()), session.familyId, now)
      ensures count == |LiveInFamily(old(store.sessions), session.familyId)|
      ensures store.Went()
    {
      assert FamilyOf(store.began, session.familyId, session.id);
      count := store.RevokeFamily(session.familyId, now);
    }

    /** The branch of `refresh` that succeeds, unless the store reports a conflict. */
    method Rotate(snapshot: State, user: User, session: Session, now: Time, draw: Fresh) returns (out: Outcome)
      requires issuer.cfg == cfg && snapshot == store.View() && user.id == session.userId
      requires session.id in store.sessions && store.sessions[session.id] == session
      requires store.began == snapshot && store.log == [OnUser(session.userId), OnSession(session.id)]
      modifies store
      ensures var lineage := Rotation(session.familyId, session.absoluteExpiresAt, session.authenticatedAt);
              var r := Issue(cfg, old(store.View()), user, now, lineage, draw);
              Reply(store.View(), out)
                == if r.out.Rejected? then Reply(old(store.View()), r.out)
                   else Reply(PutSession(r.st, session.(usedAt := Some(now), replacedById := Some(draw.sessionId))),
                              r.out)
      ensures store.Went()
    {
      var lineage := Rotation(session.familyId, session.absoluteExpiresAt, session.authenticatedAt);
      var result := issuer.Issue(store, user, now, lineage, draw);
      if result.None? {
        store.Rollback(snapshot);
        return Rejected(StoreConflict);
      }
      store.UpdateSession(session.(usedAt := Some(now), replacedById := Some(result.value.principal.sessionId)));
      return SessionIssued(result.value);
    }

    method Refresh(token: string, cookie: string, header: string, originOk: bool, now: Time, draw: Fresh)
      returns (out: Outcome)
      requires Fit(store.View()) && issuer.cfg == cfg
      modifies store
      ensures Reply(store.View(), out) == GuardedRefresh(cfg, old(store.View()), token, cookie, header, originOk, now,
                                                         draw)
      ensures old(store.InOrder()) ==> store.InOrder()
    {
      hide Fit, SessionsUnique, UsersUnique, LinksUnique, PasskeysUnique, IdentitiesOneToOne, ChallengesKeyed;
      hide SessionByToken, Issue, StoreState.RevokeFamily, User.CanAuthenticate;
      if !originOk { return Rejected(InvalidOrigin); }
      if cookie == "" || header == "" || cookie != header { return Rejected(InvalidCsrf); }
      var snapshot := store.Begin();
      FitParts(store.View());
      FoundByToken(store.View(), Sha256(token));
      var candidate := store.GetSessionByTokenHash(Sha256(token));
      if candidate.None? { return Rejected(InvalidSession); }
      UserKey(store.View(), candidate.value.userId);
      var user := store.GetUserById(candidate.value.userId, true);
      var row := store.GetSessionById(candidate.value.id, true);
      if row.None? || row.value.tokenHash != Sha256(token) || row.value.revokedAt.Some? {
        return Rejected(InvalidSession);
      }
      var session := row.value;
      if session.usedAt.Some? {
        var _ := RevokeFamilyOf(session, now);
        out := Rejected(InvalidSession);
      } else if session.idleExpiresAt <= now || session.absoluteExpiresAt <= now {
        var _ := RevokeFamilyOf(session, now);
        out := Rejected(InvalidSession);
      } else if session.csrfHash != Sha256(cookie) {
        out := Rejected(InvalidCsrf);
      } else if user.None? || !user.value.CanAuthenticate(now) {
        var _ := RevokeFamilyOf(session, now);
        out := Rejected(InvalidSession);
      } else {
        out := Rotate(snapshot, user.value, session, now, draw);
      }
    }

    method Logout(token: string, cookie: string, header: string, originOk: bool, now: Time) returns (out: Outcome)
      requires Fit(store.View())
      modifies store
      ensures Reply(store.View(), out) == GuardedLogout(old(store.View()), token, cookie, header, originOk, now)
      ensures old(store.InOrder()) ==> store.InOrder()
    {
      hide Fit, SessionsUnique, UsersUnique, LinksUnique, PasskeysUnique, IdentitiesOneToOne, ChallengesKeyed;
      hide SessionByToken, StoreState.RevokeFamily;
      if !originOk { return Rejected(InvalidOrigin); }
      if token == "" { return Revoked(0); }
      if cookie == "" || header == "" || cookie != header { return Rejected(InvalidCsrf); }
      var snapshot := store.Begin();
      out := Revoked(0);
      FitParts(store.View());
      FoundByToken(store.View(), Sha256(token));
      var candidate := store.GetSessionByTokenHash(Sha256(token));
      if candidate.None? || candidate.value.revokedAt.Some? { return; }
      var user := store.GetUserById(candidate.value.userId, true);
      var row := store.GetSessionById(candidate.value.id, true);
      if user.None? || row.None? || row.value.revokedAt.Some? { return; }
      if row.value.tokenHash != Sha256(token) { return; }
      if row.value.csrfHash != Sha256(cookie) {
        store.Rollback(snapshot);
        return Rejected(InvalidCsrf);
      }
      var count := RevokeFamilyOf(row.value, now);
      return Revoked(count);
    }

    method ChangePassword(p: Principal, change: PasswordChange, now: Time, draw: Fresh) returns (out: Outcome)
      requires Fit(store.View()) && issuer.cfg == cfg
      modifies store
      ensures Reply(store.View(), out) == SessionRules.ChangePassword(cfg, old(store.View()), p, change, now, draw)
      ensures old(store.InOrder()) && Genuine(old(store.View()), p) ==> store.InOrder()
    {
      hide StoreState.RevokeUserSessions, User.ActivatePassword, Issue, Unique, User.CanAuthenticate;
      hide Orderly, MayFollow, UsersUnique, FamiliesOwned, Session.IsValidFor;
      if !change.acceptable { return Rejected(PasswordInvalid); }
      var snapshot := store.Begin();
      FitParts(store.View());
      var user := RequirePrincipalUser(store, p, now, true);
      if user.None? {
        store.Rollback(snapshot);
        return Rejected(InvalidSession);
      }
      if !change.currentOk {
        store.Rollback(snapshot);
        return Rejected(InvalidCredentials);
      }
      if change.repeated {
        store.Rollback(snapshot);
        return Rejected(PasswordInvalid);
      }
      UserKey(store.View(), p.userId);
      var changed := user.value.ActivatePassword(change.newHash, now);
      SameAddress(user.value, change.newHash, now);
      SaveAndRevoke(store, changed, now);
      var result := issuer.Issue(store, changed, now, NewLogin, draw);
      if result.None? {
        store.Rollback(snapshot);
        return Rejected(StoreConflict);
      }
      return SessionIssued(result.value);
    }
  }
}
