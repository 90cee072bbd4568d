/** `google/` as it runs: `challenges.py` and `service.py`. */
module GoogleService {
  import opened Models
  import opened Config
  import opened StoreState
  import opened Statements
  import opened MemoryStore
  import opened GoogleRules
  import Ceremonies
  import SessionRules
  import SessionService

  class GoogleChallengeService {
    const store: MemoryAuthStore
    const cfg: Settings

    constructor (store: MemoryAuthStore, cfg: Settings)
      ensures this.store == store && this.cfg == cfg
    {
      this.store, this.cfg := store, cfg;
    }

    method Begin(purpose: GooglePurpose, origin: Option<string>, user: Option<Uuid>, id: Uuid, nonce: string, now: Time)
      returns (out: Outcome)
      modifies store
      ensures Reply(store.View(), out) == GoogleRules.Begin(cfg, old(store.View()), purpose, origin, user, id, nonce,
                                                            now)
      ensures old(store.InOrder()) ==> store.InOrder()
    {
      hide User.CanAuthenticate;
      if origin.None? { return Rejected(InvalidOrigin); }
      var challenge := NewChallenge(cfg, purpose, origin.value, user, id, nonce, now);
      var snapshot := store.Begin();
      if user.Some? {
        var found := store.GetUserById(user.value, false);
        if found.None? || !found.value.CanAuthenticate(now) {
          store.Rollback(snapshot);
          return Rejected(InvalidSession);
        }
      }
      var _ := store.DeleteExpiredGoogleChallenges(now);
      var stored := store.InsertGoogleChallenge(challenge);
      if !stored {
        store.Rollback(snapshot);
        return Rejected(StoreConflict);
      }
      return GoogleChallenged(challenge);
    }

    method Consume(id: Uuid, purpose: GooglePurpose, origin: Option<string>, user: Option<Uuid>, now: Time)
      returns (out: Outcome)
      requires ChallengesKeyed(store.View())
      modifies store
      ensures Reply(store.View(), out) == GoogleRules.Consume(cfg, old(store.View()), id, purpose, origin, user, now)
      ensures old(store.InOrder()) ==> store.InOrder()
    {
      if origin.None? { return Rejected(InvalidOrigin); }
      var _ := store.Begin();
      var challenge := store.ConsumeGoogleChallenge(id, purpose, now, user);
      if challenge.None? || challenge.value.origin != origin.value || challenge.value.clientId != cfg.googleClientId {
        return Rejected(GoogleChallengeInvalid);
      }
      return GoogleChallenged(challenge.value);
    }
  }

  /** An identity found is stored under its id. */
  lemma FoundIdentity(s: State, subject: string, user: Uuid)
    requires Fit(s)
    ensures var i := IdentityBySubject(s.identities, GOOGLE_ISSUER, subject);
            i.Some? ==> i.value.id in s.identities && s.identities[i.value.id] == i.value
    ensures var i := IdentityOfUser(s.identities, user, GOOGLE_ISSUER);
            i.Some? ==> i.value.id in s.identities && s.identities[i.value.id] == i.value
  {
  }

  class GoogleLoginService {
    const store: MemoryAuthStore
    const cfg: Settings
    const issuer: SessionService.SessionIssuer
    const challenges: GoogleChallengeService

    constructor (store: MemoryAuthStore, cfg: Settings)
      ensures this.store == store && this.cfg == cfg && Ready()
    {
      this.store, this.cfg := store, cfg;
      issuer := new SessionService.SessionIssuer(cfg);
      challenges := new GoogleChallengeService(store, cfg);
    }

    predicate Ready() { issuer.cfg == cfg && challenges.cfg == cfg && challenges.store == store }

    /** `_login_linked`; a conflict leaves the identity written, which the caller undoes. */
    method LoginLinked(identity: Identity, claims: GoogleClaims, now: Time, draw: Fresh) returns (out: Outcome)
      requires Ready() && identity.id in store.identities
      requires forall id :: id in store.users ==> store.users[id].id == id
      requires OnIdentity(identity.id) in store.log || AddIdentity(identity.id) in store.log
      requires store.log == [OnIdentity(identity.id)] || Has(store.log, identity.userId)
      modifies store
      ensures Reply(store.View(), out)
           == GoogleRules.LoginLinked(cfg, old(store.View()), identity, claims, now, draw)
      ensures store.Went()
    {
      hide SessionRules.Issue, User.CanAuthenticate, Orderly, MayFollow, Belongs, Opens;
      MayReadOwner(store.began, store.log, identity.id, identity.userId);
      var user := store.GetUserById(identity.userId, true);
      if user.None? || !user.value.CanAuthenticate(now) { return Rejected(InvalidGoogleCredentials); }
      MayTouchIdentity(store.began, store.log, identity.id);
      store.UpdateExternalIdentity(SeenAgain(identity, claims, now));
      var result := issuer.Issue(store, user.value, now, SessionRules.NewLogin, draw);
      if result.None? { return Rejected(StoreConflict); }
      return SessionIssued(result.value);
    }

    method InsertIdentityAndLogin(user: User, claims: GoogleClaims, now: Time, draw: GoogleDraw) returns (out: Outcome)
      requires Ready() && Has(store.log, user.id)
      requires forall id :: id in store.users ==> store.users[id].id == id
      modifies store
      ensures Reply(store.View(), out)
           == GoogleRules.InsertIdentityAndLogin(cfg, old(store.View()), user, claims, now, draw)
      ensures store.Went()
    {
      hide GoogleRules.LoginLinked, IdentityClashes;
      var identity := NewIdentity(draw.identityId, user.id, claims, now);
      var stored := store.InsertExternalIdentity(identity);
      if !stored { return Rejected(StoreConflict); }
      out := LoginLinked(identity, claims, now, draw.session);
    }

    /** `_link_and_login`: the password is disabled before the identity may prove to be taken. */
    method LinkAndLogin(user: User, claims: GoogleClaims, now: Time, draw: GoogleDraw) returns (out: Outcome)
      requires Ready() && UsersUnique(store.users) && Has(store.log, user.id)
      requires user.id in store.users && store.users[user.id] == user
      modifies store
      ensures Reply(store.View(), out)
           == GoogleRules.LinkAndLogin(cfg, old(store.View()), user, claims, now, draw)
      ensures store.Went()
    {
      hide GoogleRules.InsertIdentityAndLogin;
      var linked := user.DisablePassword(draw.passwordHash, now);
      SessionService.OwnEmail(store.users, linked);
      var _ := store.UpdateUser(linked);
      out := InsertIdentityAndLogin(linked, claims, now, draw);
    }

    /** `_login_open` without an account of that email. */
    method OpenAndLogin(claims: GoogleClaims, now: Time, draw: GoogleDraw) returns (out: Outcome)
      requires Ready() && UsersUnique(store.users) && store.log == [] && claims.email.Some?
      modifies store
      ensures Reply(store.View(), out)
           == GoogleRules.OpenAndLogin(cfg, old(store.View()), claims, now, draw)
      ensures store.Went()
    {
      hide GoogleRules.InsertIdentityAndLogin;
      var user := OpenUser(cfg, claims, now, draw);
      var stored := store.InsertUser(user);
      if !stored { return Rejected(StoreConflict); }
      out := InsertIdentityAndLogin(user, claims, now, draw);
    }

    /** `_login_unlinked`, through its account modes. */
    method LoginUnlinked(claims: GoogleClaims, now: Time, draw: GoogleDraw) returns (out: Outcome)
      requires Ready() && Fit(store.View()) && store.log == []
      modifies store
      ensures Reply(store.View(), out)
           == GoogleRules.LoginUnlinked(cfg, old(store.View()), claims, now, draw)
      ensures store.Went()
    {
      hide Fit, GoogleRules.LinkAndLogin, GoogleRules.OpenAndLogin, CanAutoLink, UserByEmail;
      SessionService.FitParts(store.View());
      if cfg.googleAccountMode == LinkedOnly { return Rejected(InvalidGoogleCredentials); }
      if !IsAuthoritative(claims) { return Rejected(InvalidGoogleCredentials); }
      SessionService.FoundByEmail(store.View(), claims.email.value);
      var user := store.GetUserByEmail(claims.email.value, true);
      if user.Some? {
        if !CanAutoLink(user.value, claims, now) { return Rejected(InvalidGoogleCredentials); }
        out := LinkAndLogin(user.value, claims, now, draw);
      } else if cfg.googleAccountMode == Preauthorized {
        return Rejected(InvalidGoogleCredentials);
      } else {
        out := OpenAndLogin(claims, now, draw);
      }
    }

    /** `_login`. */
    method LoginOnce(claims: GoogleClaims, now: Time, draw: GoogleDraw) returns (out: Outcome)
      requires Ready() && Fit(store.View())
      modifies store
      ensures Reply(store.View(), out) == GoogleRules.LoginOnce(cfg, old(store.View()), claims, now, draw)
      ensures store.Ran(old(store.View()))
    {
      hide Fit, GoogleRules.LoginLinked, GoogleRules.LoginUnlinked, IdentityBySubject, Orderly, MayFollow;
      SessionService.FitParts(store.View());
      UserKeys(store.View());
      FoundIdentity(store.View(), claims.subject, 0);
      var snapshot := store.Begin();
      var identity := store.GetExternalIdentity(GOOGLE_ISSUER, claims.subject, true);
      if identity.Some? {
        MayOpen(snapshot, [], OnIdentity(identity.value.id));
        out := LoginLinked(identity.value, claims, now, draw.session);
      } else {
        out := LoginUnlinked(claims, now, draw);
      }
      if out == Rejected(StoreConflict) { store.Rollback(snapshot); }
    }

    /** `_login_linked_after_conflict`. */
    method LoginAfterConflict(claims: GoogleClaims, now: Time, draw: Fresh) returns (out: Outcome)
      requires Ready() && Fit(store.View())
      modifies store
      ensures Reply(store.View(), out) == GoogleRules.LoginAfterConflict(cfg, old(store.View()), claims, now, draw)
      ensures store.Ran(old(store.View()))
    {
      hide Fit, GoogleRules.LoginLinked, IdentityBySubject;
      SessionService.FitParts(store.View());
      UserKeys(store.View());
      FoundIdentity(store.View(), claims.subject, 0);
      var snapshot := store.Begin();
      var identity := store.GetExternalIdentity(GOOGLE_ISSUER, claims.subject, true);
      if identity.None? {
        store.Rollback(snapshot);
        return Rejected(InvalidGoogleCredentials);
      }
      out := LoginLinked(identity.value, claims, now, draw);
      if out == Rejected(StoreConflict) { store.Rollback(snapshot); }
    }

    method FinishLogin(id: Uuid, origin: Option<string>, claims: Option<GoogleClaims>, now: Time, spentAt: Time,
                       draw: GoogleDraw, retry: Fresh) returns (out: Outcome)
      requires Ready() && Fit(store.View())
      modifies store
      ensures Reply(store.View(), out)
           == GoogleRules.FinishLogin(cfg, old(store.View()), id, origin, claims, now, spentAt, draw, retry)
      ensures old(store.InOrder()) ==> store.InOrder()
    {
      hide Fit, GoogleRules.LoginOnce, GoogleRules.LoginAfterConflict, GoogleRules.Consume;
      SessionService.FitParts(store.View());
      ConsumingKeepsFit(cfg, store.View(), id, GoogleLoginPurpose, origin, None, spentAt);
      out := challenges.Consume(id, GoogleLoginPurpose, origin, None, spentAt);
      if out.Rejected? { return; }
      if claims.None? { return Rejected(InvalidGoogleCredentials); }
      var spent := store.View();
      out := LoginOnce(claims.value, now, draw);
      if out == Rejected(StoreConflict) {
        ConflictChangesNothing(cfg, spent, claims.value, now, draw);
        out := LoginAfterConflict(claims.value, now, retry);
      }
    }

    // Linking --------------------------------------------------------------------------------------------

    /** The account that may link, both its row and the principal's session locked. */
    method LinkingUser(p: Principal, now: Time) returns (user: Option<User>)
      requires Fit(store.View()) && store.Begun(store.View())
      modifies store
      ensures store.View() == old(store.View()) && store.began == old(store.began)
      ensures user == if CanLink(old(store.View()), p, UserById(old(store.users), p.userId), now)
                      then UserById(old(store.users), p.userId) else None
      ensures user.Some? ==> store.log == [OnUser(p.userId), OnSession(p.sessionId)]
      ensures user.Some? || SessionRules.Genuine(old(store.View()), p) ==> store.InOrder()
    {
      hide User.CanAuthenticate, Unique;
      user := store.GetUserById(p.userId, true);
      var session := store.GetSessionById(p.sessionId, true);
      if !(user.Some? && session.Some? && user.value.CanAuthenticate(now) && !user.value.mustChangePassword
           && session.value.IsValidFor(p.AsSubject(), now)) {
        user := None;
      }
    }

    /** `_link`. */
    method LinkOnce(p: Principal, claims: GoogleClaims, now: Time, id: Uuid) returns (out: Outcome)
      requires Fit(store.View())
      modifies store
      ensures Reply(store.View(), out) == GoogleRules.LinkOnce(cfg, old(store.View()), p, claims, now, id)
      ensures SessionRules.Genuine(old(store.View()), p) ==> store.Ran(old(store.View()))
    {
      hide Fit, IdentityBySubject, IssuerTaken, IdentityClashes, CanLink, UsersUnique, IdentitiesOneToOne;
      hide SessionsUnique, LinksUnique, PasskeysUnique, ChallengesKeyed, Orderly, MayFollow;
      SessionService.FitParts(store.View());
      var snapshot := store.Begin();
      var user := LinkingUser(p, now);
      LinkingIsStored(snapshot, p, now);
      if user.None? { return Rejected(InvalidSession); }
      SessionService.UserKey(store.View(), p.userId);
      var owner := store.GetExternalIdentity(GOOGLE_ISSUER, claims.subject, false);
      var own := store.GetExternalIdentityForUser(p.userId, GOOGLE_ISSUER, false);
      var unlinked := user.value.(googleAutoLinkAllowed := false).AdvanceSecurityVersion(now);
      if owner.Some? && owner.value.userId == p.userId {
        if user.value.googleAutoLinkAllowed { SaveUser(unlinked); }
        return IdentityLinked(owner.value);
      }
      if owner.Some? || own.Some? { return Rejected(GoogleIdentityConflict); }
      var identity := NewIdentity(id, p.userId, claims, now);
      MayAdd(snapshot, store.log, p.userId, AddIdentity(id));
      var stored := store.InsertExternalIdentity(identity);
      if !stored {
        store.Rollback(snapshot);
        return Rejected(StoreConflict);
      }
      SaveUser(unlinked);
      return IdentityLinked(identity);
    }

    method SaveUser(u: User)
      requires UsersUnique(store.users) && u.id in store.users && store.users[u.id].email == u.email
      requires Has(store.log, u.id)
      modifies store
      ensures store.View() == PutUser(old(store.View()), u)
      ensures store.Went()
    {
      SessionService.OwnEmail(store.users, u);
      var _ := store.UpdateUser(u);
    }

    /** `_linked_after_conflict`. */
    method LinkedAfterConflict(p: Principal, claims: GoogleClaims, now: Time) returns (out: Outcome)
      requires Fit(store.View())
      modifies store
      ensures Reply(store.View(), out) == GoogleRules.LinkedAfterConflict(old(store.View()), p, claims, now)
      ensures SessionRules.Genuine(old(store.View()), p) ==> store.Ran(old(store.View()))
    {
      hide Fit, IdentityBySubject, CanLink;
      SessionService.FitParts(store.View());
      LinkingIsStored(store.View(), p, now);
      var _ := store.Begin();
      var user := LinkingUser(p, now);
      if user.None? { return Rejected(InvalidSession); }
      var owner := store.GetExternalIdentity(GOOGLE_ISSUER, claims.subject, false);
      if owner.Some? && owner.value.userId == p.userId { return IdentityLinked(owner.value); }
      return Rejected(GoogleIdentityConflict);
    }

    method FinishLink(p: Principal, challenge: Uuid, origin: Option<string>, claims: Option<GoogleClaims>,
                      now: Time, spentAt: Time, id: Uuid) returns (out: Outcome)
      requires Ready() && Fit(store.View())
      modifies store
      ensures Reply(store.View(), out)
           == GoogleRules.FinishLink(cfg, old(store.View()), p, challenge, origin, claims, now, spentAt, id)
      ensures old(store.InOrder()) && SessionRules.Genuine(old(store.View()), p) ==> store.InOrder()
    {
      hide Fit, GoogleRules.LinkOnce, GoogleRules.LinkedAfterConflict, GoogleRules.Consume;
      if !RecentEnough(p, cfg.googleLinkMaxAgeSeconds, now) { return Rejected(Forbidden); }
      SessionService.FitParts(store.View());
      ConsumingKeepsFit(cfg, store.View(), challenge, GoogleLinkPurpose, origin, Some(p.userId), spentAt);
      out := challenges.Consume(challenge, GoogleLinkPurpose, origin, Some(p.userId), spentAt);
      if out.Rejected? { return; }
      if claims.None? { return Rejected(InvalidGoogleCredentials); }
      var spent := store.View();
      out := LinkOnce(p, claims.value, now, id);
      if out == Rejected(StoreConflict) {
        Ceremonies.RefusedLinkChangesNothing(cfg, spent, p, claims.value, now, id);
        out := LinkedAfterConflict(p, claims.value, now);
      }
    }

    method RecoverPasswordAccess(user: Uuid, hash: string, now: Time) returns (out: Outcome)
      requires Fit(store.View())
      modifies store
      ensures Reply(store.View(), out) == GoogleRules.RecoverPasswordAccess(old(store.View()), user, hash, now)
      ensures store.Ran(old(store.View()))
    {
      hide Fit, IdentityOfUser, RevokeUserSessions, Orderly, MayFollow, UsersUnique;
      SessionService.FitParts(store.View());
      FoundIdentity(store.View(), "", user);
      var snapshot := store.Begin();
      var identity := store.GetExternalIdentityForUser(user, GOOGLE_ISSUER, true);
      if identity.Some? { MayOpen(snapshot, [], OnIdentity(identity.value.id)); }
      MayOpen(snapshot, store.log, OnUser(user));
      var found := store.GetUserById(user, true);
      if found.None? {
        store.Rollback(snapshot);
        return Rejected(UserNotFound);
      }
      if identity.None? {
        store.Rollback(snapshot);
        return Rejected(GoogleIdentityNotFound);
      }
      SessionService.UserKey(snapshot, user);
      var recovered := found.value.RequirePasswordChange(hash, now);
      Recover(recovered, identity.value.id, now);
      return UserSaved(recovered);
    }

    /** The writes of a recovery. */
    method Recover(u: User, identity: Uuid, now: Time)
      requires UsersUnique(store.users) && u.id in store.users && store.users[u.id].email == u.email
      requires identity in store.identities && OnIdentity(identity) in store.log && Has(store.log, u.id)
      modifies store
      ensures store.View() == RevokeUserSessions(DropIdentity(PutUser(old(store.View()), u), identity), u.id, now)
      ensures store.Went()
    {
      SaveUser(u);
      store.DeleteExternalIdentity(identity);
      var _ := store.RevokeUserSessions(u.id, now);
    }
  }

  lemma LinkingIsStored(s: State, p: Principal, now: Time)
    ensures CanLink(s, p, UserById(s.users, p.userId), now) ==> p.userId in s.users
  {
  }

  lemma UserKeys(s: State)
    requires Fit(s)
    ensures forall id :: id in s.users ==> s.users[id].id == id
  {
  }

  lemma ConsumingKeepsFit(cfg: Settings, s: State, id: Uuid, purpose: GooglePurpose, origin: Option<string>,
                          user: Option<Uuid>, now: Time)
    requires Fit(s)
    ensures var after := GoogleRules.Consume(cfg, s, id, purpose, origin, user, now).st;
            Fit(after) && after.sessions == s.sessions
  {
  }

  lemma ConflictChangesNothing(cfg: Settings, s: State, claims: GoogleClaims, now: Time, draw: GoogleDraw)
    ensures GoogleRules.LoginOnce(cfg, s, claims, now, draw).out == Rejected(StoreConflict) ==>
              GoogleRules.LoginOnce(cfg, s, claims, now, draw).st == s
  {
    hide GoogleRules.LoginLinked, GoogleRules.LoginUnlinked;
  }
}
