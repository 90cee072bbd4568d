/** `passkeys/` as it runs: `service.py` and `_authentication.py`. */
module PasskeyService {
  import opened Models
  import opened Config
  import opened StoreState
  import opened Statements
  import opened MemoryStore
  import opened PasskeyRules
  import SessionRules
  import SessionService

  class PasskeyService {
    const store: MemoryAuthStore
    const cfg: Settings
    const issuer: SessionService.SessionIssuer

    constructor (store: MemoryAuthStore, cfg: Settings)
      ensures this.store == store && this.cfg == cfg && issuer.cfg == cfg
    {
      this.store, this.cfg := store, cfg;
      issuer := new SessionService.SessionIssuer(cfg);
    }

    // Beginning a ceremony -----------------------------------------------------------------------------------

    /** Storing a new challenge, in the caller's transaction that began at `snapshot`. */
    method StoreChallenge(snapshot: State, challenge: PasskeyChallenge, now: Time) returns (out: Outcome)
      requires snapshot == store.View()
      modifies store
      ensures Reply(store.View(), out) == PasskeyRules.Begin(old(store.View()), challenge, now)
      ensures store.Went()
    {
      var _ := store.DeleteExpiredPasskeyChallenges(now);
      var stored := store.InsertPasskeyChallenge(challenge);
      if !stored {
        store.Rollback(snapshot);
        return Rejected(StoreConflict);
      }
      return PasskeyChallenged(challenge);
    }

    method BeginRegistration(p: Principal, origin: Option<string>, draw: Ceremony, now: Time) returns (out: Outcome)
      modifies store
      ensures Reply(store.View(), out) == PasskeyRules.BeginRegistration(cfg, old(store.View()), p, origin, draw, now)
      ensures old(store.InOrder()) ==> store.InOrder()
    {
      hide PasskeyRules.Begin, PasskeyRules.NewChallenge, UsablePasskeys, User.CanAuthenticate;
      var stale := NotRecent(cfg, p, now);
      if stale.Some? { return Rejected(stale.value); }
      if origin.None? { return Rejected(InvalidOrigin); }
      var snapshot := store.Begin();
      var user := store.GetUserById(p.userId, false);
      if user.None? || !user.value.CanAuthenticate(now) {
        store.Rollback(snapshot);
        return Rejected(InvalidSession);
      }
      var count := store.CountPasskeys(p.userId);
      if count >= cfg.passkeyMaxCredentials {
        store.Rollback(snapshot);
        return Rejected(PasskeyLimitReached);
      }
      out := StoreChallenge(snapshot,
        PasskeyRules.NewChallenge(cfg, Registration, origin.value, Some(p.userId), None, draw, now), now);
    }

    method BeginAuthentication(origin: Option<string>, draw: Ceremony, now: Time) returns (out: Outcome)
      modifies store
      ensures Reply(store.View(), out) == PasskeyRules.BeginAuthentication(cfg, old(store.View()), origin, draw, now)
      ensures old(store.InOrder()) ==> store.InOrder()
    {
      hide PasskeyRules.Begin, PasskeyRules.NewChallenge;
      if origin.None? { return Rejected(InvalidOrigin); }
      var snapshot := store.Begin();
      out := StoreChallenge(snapshot,
        PasskeyRules.NewChallenge(cfg, Authentication, origin.value, None, None, draw, now), now);
    }

    method BeginReauthentication(p: Principal, origin: Option<string>, draw: Ceremony, now: Time) returns (out: Outcome)
      requires Fit(store.View())
      modifies store
      ensures Reply(store.View(), out) == PasskeyRules.BeginReauthentication(cfg, old(store.View()), p, origin, draw,
                                                                             now)
      ensures old(store.InOrder()) && SessionRules.Genuine(old(store.View()), p) ==> store.InOrder()
    {
      hide Fit, PasskeyRules.Begin, PasskeyRules.NewChallenge, SessionRules.PrincipalStands;
      if origin.None? { return Rejected(InvalidOrigin); }
      var snapshot := store.Begin();
      StandingIsStored(snapshot, p, now);
      var user := SessionService.RequirePrincipalUser(store, p, now, false);
      if user.None? {
        store.Rollback(snapshot);
        return Rejected(InvalidSession);
      }
      out := StoreChallenge(snapshot,
        PasskeyRules.NewChallenge(cfg, Reauthentication, origin.value,
                                  Some(p.userId), Some(p.familyId), draw, now), now);
    }

    /** `_consume_challenge`. */
    method Consume(id: Uuid, purpose: CeremonyPurpose, user: Option<Uuid>, family: Option<Uuid>, now: Time)
      returns (out: Outcome)
      requires ChallengesKeyed(store.View())
      modifies store
      ensures Reply(store.View(), out) == PasskeyRules.Consume(old(store.View()), id, purpose, user, family, now)
      ensures out == Rejected(PasskeyChallengeInvalid) || out.PasskeyChallenged?
      ensures store.Ran(old(store.View()))
    {
      var _ := store.Begin();
      var challenge := store.ConsumePasskeyChallenge(id, purpose, now, user, family);
      if challenge.None? { return Rejected(PasskeyChallengeInvalid); }
      return PasskeyChallenged(challenge.value);
    }

    // Registration ---------------------------------------------------------------------------------------------

    /** The second transaction of `finish_registration`. */
    method Register(p: Principal, passkey: Passkey, now: Time) returns (out: Outcome)
      requires Fit(store.View())
      modifies store
      ensures Reply(store.View(), out) == PasskeyRules.Register(cfg, old(store.View()), p, passkey, now)
      ensures store.Ran(old(store.View()))
    {
      hide Fit, UsablePasskeys, CredentialTaken, User.CanAuthenticate, Orderly, MayFollow, UsersUnique;
      SessionService.FitParts(store.View());
      var snapshot := store.Begin();
      MayOpen(snapshot, [], OnUser(p.userId));
      var user := store.GetUserById(p.userId, true);
      if user.None? || !user.value.CanAuthenticate(now) {
        store.Rollback(snapshot);
        return Rejected(InvalidSession);
      }
      SessionService.UserKey(snapshot, p.userId);
      var count := store.CountPasskeys(p.userId);
      if count >= cfg.passkeyMaxCredentials {
        store.Rollback(snapshot);
        return Rejected(PasskeyLimitReached);
      }
      MayAdd(snapshot, store.log, p.userId, AddPasskey(passkey.id));
      var stored := store.InsertPasskey(passkey);
      if !stored {
        store.Rollback(snapshot);
        return Rejected(PasskeyExists);
      }
      AdvanceUser(user.value, now);
      return PasskeySaved(passkey);
    }

    method AdvanceUser(user: User, now: Time)
      requires UsersUnique(store.users) && user.id in store.users && store.users[user.id] == user
      requires Has(store.log, user.id)
      modifies store
      ensures store.View() == PutUser(old(store.View()), user.AdvanceSecurityVersion(now))
      ensures store.Went()
    {
      var updated := user.AdvanceSecurityVersion(now);
      SessionService.OwnEmail(store.users, updated);
      var _ := store.UpdateUser(updated);
    }

    method FinishRegistration(p: Principal, ceremony: Uuid, name: string, origin: Option<string>,
                              response: Option<Attestation>, id: Uuid, now: Time) returns (out: Outcome)
      requires Fit(store.View())
      modifies store
      ensures Reply(store.View(), out)
           == PasskeyRules.FinishRegistration(cfg, old(store.View()), p, ceremony, name, origin, response, id, now)
      ensures old(store.InOrder()) ==> store.InOrder()
    {
      hide Fit, PasskeyRules.Register, PasskeyRules.Consume;
      SessionService.FitParts(store.View());
      ConsumingKeepsFit(store.View(), ceremony, Registration, Some(p.userId), None, now);
      var stale := NotRecent(cfg, p, now);
      if stale.Some? { return Rejected(stale.value); }
      if origin.None? { return Rejected(InvalidOrigin); }
      out := Consume(ceremony, Registration, Some(p.userId), None, now);
      if out.Rejected? { return; }
      if out.pkChallenge.origin != origin.value { return Rejected(PasskeyChallengeInvalid); }
      if response.None? { return Rejected(PasskeyRegistrationInvalid); }
      if !(1 <= |response.value.credentialId| <= 1023) || response.value.publicKey == "" {
        return Rejected(PasskeyRegistrationInvalid);
      }
      out := Register(p, NewPasskey(id, p.userId, name, response.value, now), now);
    }

    // Authentication -------------------------------------------------------------------------------------------

    /** `verify_and_update_passkey`: the passkey's row is locked before its account's. */
    method VerifyAndUpdate(a: Assertion, expected: Option<Uuid>, now: Time)
      returns (user: Option<User>, passkey: Option<Passkey>)
      requires Fit(store.View()) && store.Begun(store.View())
      modifies store
      ensures var accepted := AcceptedPasskey(old(store.View()), a, expected, now);
              && (passkey.Some? <==> accepted.Some?)
              && (passkey.Some? ==> passkey.value == UsedPasskey(accepted.value, a.verified.value, now))
              && store.View() == (if accepted.Some?
                                  then PutPasskey(old(store.View()), UsedPasskey(accepted.value, a.verified.value, now))
                                  else old(store.View()))
      ensures var offered := OfferedPasskey(old(store.View()), a, expected, now);
              && user == (if offered.Some? then UserById(old(store.users), offered.value.userId) else None)
      ensures passkey.Some? ==> user.Some? && user.value.id == passkey.value.userId
      ensures store.Went() && (user.Some? ==> Has(store.log, user.value.id))
    {
      hide Fit, PasskeyByCredential, User.CanAuthenticate, Orderly, MayFollow;
      SessionService.FitParts(store.View());
      user, passkey := None, None;
      if a.Unreadable? { return; }
      FoundPasskey(store.View(), a.credentialId);
      var stored := store.GetPasskeyByCredentialId(a.credentialId, true);
      if stored.Some? { MayOpen(store.began, [], OnPasskey(stored.value.id)); }
      if stored.None? || stored.value.revokedAt.Some? || (expected.Some? && stored.value.userId != expected.value) {
        return;
      }
      MayOpen(store.began, store.log, OnUser(stored.value.userId));
      user := store.GetUserById(stored.value.userId, true);
      if user.None? || !user.value.CanAuthenticate(now) { return None, None; }
      SessionService.UserKey(store.View(), stored.value.userId);
      if a.verified.None? { return; }
      var v := a.verified.value;
      if v.credentialId != stored.value.credentialId || v.deviceType != stored.value.deviceType { return; }
      var updated := stored.value.(signCount := v.signCount, backedUp := v.backedUp, lastUsedAt := Some(now));
      MayTouch(store.began, store.log, OnPasskey(updated.id));
      store.UpdatePasskey(updated);
      passkey := Some(updated);
    }

    method FinishAuthentication(ceremony: Uuid, origin: Option<string>, a: Assertion, now: Time, draw: Fresh)
      returns (out: Outcome)
      requires Fit(store.View()) && issuer.cfg == cfg
      modifies store
      ensures Reply(store.View(), out)
           == PasskeyRules.FinishAuthentication(cfg, old(store.View()), ceremony, origin, a, now, draw)
      ensures old(store.InOrder()) ==> store.InOrder()
    {
      hide Fit, PasskeyRules.Consume, PasskeyRules.LoginByPasskey;
      SessionService.FitParts(store.View());
      ConsumingKeepsFit(store.View(), ceremony, Authentication, None, None, now);
      if origin.None? { return Rejected(InvalidOrigin); }
      out := Consume(ceremony, Authentication, None, None, now);
      if out.Rejected? { return; }
      if out.pkChallenge.origin != origin.value { return Rejected(PasskeyChallengeInvalid); }
      out := LoginByPasskey(a, now, draw);
    }

    method LoginByPasskey(a: Assertion, now: Time, draw: Fresh) returns (out: Outcome)
      requires Fit(store.View()) && issuer.cfg == cfg
      modifies store
      ensures Reply(store.View(), out) == PasskeyRules.LoginByPasskey(cfg, old(store.View()), a, now, draw)
      ensures store.Ran(old(store.View()))
    {
      hide Fit, OfferedPasskey, SessionRules.Issue, Orderly, MayFollow;
      var snapshot := store.Begin();
      var user, passkey := VerifyAndUpdate(a, None, now);
      if passkey.None? { return Rejected(PasskeyAuthenticationInvalid); }
      var result := issuer.Issue(store, user.value, now, SessionRules.NewLogin, draw);
      if result.None? {
        store.Rollback(snapshot);
        return Rejected(StoreConflict);
      }
      return SessionIssued(result.value);
    }

    method FinishReauthentication(p: Principal, ceremony: Uuid, origin: Option<string>, a: Assertion, now: Time)
      returns (out: Outcome)
      requires Fit(store.View())
      modifies store
      ensures Reply(store.View(), out)
           == PasskeyRules.FinishReauthentication(old(store.View()), p, ceremony, origin, a, now)
      ensures old(store.InOrder()) && SessionRules.Genuine(old(store.View()), p) ==> store.InOrder()
    {
      hide Fit, PasskeyRules.Consume, PasskeyRules.ConfirmByPasskey;
      SessionService.FitParts(store.View());
      ConsumingKeepsFit(store.View(), ceremony, Reauthentication, Some(p.userId), Some(p.familyId), now);
      if origin.None? { return Rejected(InvalidOrigin); }
      out := Consume(ceremony, Reauthentication, Some(p.userId), Some(p.familyId), now);
      if out.Rejected? { return; }
      if out.pkChallenge.origin != origin.value { return Rejected(PasskeyChallengeInvalid); }
      out := ConfirmByPasskey(p, a, now);
    }

    /** The counter moves first; a session that no longer stands takes it back. */
    method ConfirmByPasskey(p: Principal, a: Assertion, now: Time) returns (out: Outcome)
      requires Fit(store.View())
      modifies store
      ensures Reply(store.View(), out) == PasskeyRules.ConfirmByPasskey(old(store.View()), p, a, now)
      ensures SessionRules.Genuine(old(store.View()), p) ==> store.Ran(old(store.View()))
    {
      hide Fit, OfferedPasskey, User.CanAuthenticate, Session.IsValidFor, Orderly, MayFollow;
      var snapshot := store.Begin();
      AcceptedOwner(snapshot, a, p.userId, now);
      var user, passkey := VerifyAndUpdate(a, Some(p.userId), now);
      if passkey.None? { return Rejected(PasskeyAuthenticationInvalid); }
      if SessionRules.Genuine(snapshot, p) && p.sessionId in snapshot.sessions {
        MayTouch(snapshot, store.log, OnSession(p.sessionId));
      }
      var session := store.GetSessionById(p.sessionId, true);
      if session.None? || !user.value.CanAuthenticate(now) || !session.value.IsValidFor(p.AsSubject(), now) {
        store.Rollback(snapshot);
        return Rejected(InvalidSession);
      }
      return Reauthenticated(p.userId, p.sessionId, p.familyId, now);
    }

    method RevokePasskey(p: Principal, id: Uuid, origin: Option<string>, now: Time) returns (out: Outcome)
      requires Fit(store.View())
      modifies store
      ensures Reply(store.View(), out) == PasskeyRules.RevokePasskey(cfg, old(store.View()), p, id, origin, now)
      ensures old(store.InOrder()) ==> store.InOrder()
    {
      hide Fit, User.CanAuthenticate, Orderly, MayFollow, UsersUnique;
      SessionService.FitParts(store.View());
      var stale := NotRecent(cfg, p, now);
      if stale.Some? { return Rejected(stale.value); }
      if origin.None? { return Rejected(InvalidOrigin); }
      var snapshot := store.Begin();
      MayOpen(snapshot, [], OnPasskey(id));
      var credential := store.GetPasskeyById(id, p.userId, true);
      if credential.None? || credential.value.revokedAt.Some? {
        store.Rollback(snapshot);
        return Rejected(PasskeyNotFound);
      }
      PasskeyKey(snapshot, id);
      MayOpen(snapshot, store.log, OnUser(p.userId));
      var user := store.GetUserById(p.userId, true);
      if user.None? || !user.value.CanAuthenticate(now) {
        store.Rollback(snapshot);
        return Rejected(InvalidSession);
      }
      SessionService.UserKey(snapshot, p.userId);
      MayTouch(snapshot, store.log, OnPasskey(id));
      store.UpdatePasskey(credential.value.(revokedAt := Some(now)));
      AdvanceUser(user.value, now);
      return Acknowledged;
    }
  }

  lemma StandingIsStored(s: State, p: Principal, now: Time)
    ensures SessionRules.PrincipalStands(s, p, UserById(s.users, p.userId), now) ==> p.userId in s.users
  {
  }

  lemma PasskeyKey(s: State, id: Uuid)
    requires Fit(s) && id in s.passkeys
    ensures s.passkeys[id].id == id
  {
  }

  /** A passkey found by its credential is the stored row with its id. */
  lemma FoundPasskey(s: State, credential: string)
    requires Fit(s)
    ensures var k := PasskeyByCredential(s.passkeys, credential);
            k.Some? ==> k.value.id in s.passkeys && s.passkeys[k.value.id] == k.value
  {
  }

  lemma AcceptedOwner(s: State, a: Assertion, user: Uuid, now: Time)
    ensures AcceptedPasskey(s, a, Some(user), now).Some? ==> AcceptedPasskey(s, a, Some(user), now).value.userId == user
  {
  }

  lemma ConsumingKeepsFit(s: State, id: Uuid, purpose: CeremonyPurpose, user: Option<Uuid>, family: Option<Uuid>,
                          now: Time)
    requires Fit(s)
    ensures var after := PasskeyRules.Consume(s, id, purpose, user, family, now).st;
            Fit(after) && after.sessions == s.sessions
  {
  }
}
