/** When the passkey ceremonies of `passkeys/` succeed and what they leave, told by the stored rows and
    by what the WebAuthn adapter reports. */
module PasskeyOutcomes {
  import opened Models
  import opened Config
  import opened StoreState
  import opened RowFacts
  import SessionOutcomes
  import SessionRules
  import PasskeyRules

  // Using a passkey -----------------------------------------------------------------------------------

  /** The response names the stored passkey `k`. */
  predicate Names(s: State, k: Uuid, a: PasskeyRules.Assertion) {
    k in s.passkeys && a.Assertion? && s.passkeys[k].credentialId == a.credentialId
  }

  predicate NamesNone(s: State, a: PasskeyRules.Assertion) {
    a.Assertion? ==> forall k :: k in s.passkeys ==> s.passkeys[k].credentialId != a.credentialId
  }

  /** It is not revoked, its account stands, and the adapter verified it for this very credential. */
  predicate Proves(s: State, k: Uuid, a: PasskeyRules.Assertion, now: Time)
    requires Names(s, k, a)
  {
    var x := s.passkeys[k];
    && x.revokedAt.None? && StandsAt(s.users, x.userId, now)
    && a.verified.Some? && a.verified.value.credentialId == x.credentialId
    && a.verified.value.deviceType == x.deviceType
  }

  /** The passkey after its use: the counter is the one the authenticator reported. */
  predicate Used(x: Passkey, y: Passkey, v: PasskeyRules.VerifiedAssertion, now: Time) {
    y == Passkey(x.id, x.userId, x.credentialId, x.publicKey, x.name, v.signCount, x.deviceType, v.backedUp,
                 x.createdAt, Some(now), x.revokedAt)
  }

  lemma ByCredential(s: State, k: Uuid, credential: string)
    requires PasskeysUnique(s.passkeys) && k in s.passkeys && s.passkeys[k].credentialId == credential
    ensures PasskeyByCredential(s.passkeys, credential) == Some(s.passkeys[k]) && s.passkeys[k].id == k
  {
    assert SameCredential(PasskeyByCredential(s.passkeys, credential).value, s.passkeys[k]);
  }

  lemma AcceptanceDecided(s: State, k: Uuid, a: PasskeyRules.Assertion, expected: Option<Uuid>, now: Time)
    requires PasskeysUnique(s.passkeys) && Names(s, k, a)
    ensures var own := expected.None? || expected.value == s.passkeys[k].userId;
            PasskeyRules.AcceptedPasskey(s, a, expected, now)
              == if own && Proves(s, k, a, now) then Some(s.passkeys[k]) else None
  {
    hide PasskeysUnique, PasskeyByCredential;
    ByCredential(s, k, a.credentialId);
  }

  lemma NothingAccepted(s: State, a: PasskeyRules.Assertion, expected: Option<Uuid>, now: Time)
    requires NamesNone(s, a)
    ensures PasskeyRules.AcceptedPasskey(s, a, expected, now).None?
  {
  }

  /** The second half of a login with the passkey `k`. */
  lemma PasskeyLoginDecided(cfg: Settings, s: State, k: Uuid, a: PasskeyRules.Assertion, now: Time, draw: Fresh)
    requires PasskeysUnique(s.passkeys) && UsersUnique(s.users) && Names(s, k, a)
    ensures var r := PasskeyRules.LoginByPasskey(cfg, s, a, now, draw);
            && (r.out.SessionIssued? <==> Proves(s, k, a, now) && NewKeys(s.sessions, draw))
            && if r.out.SessionIssued?
               then && k in r.st.passkeys && Used(s.passkeys[k], r.st.passkeys[k], a.verified.value, now)
                    && r.st == s.(passkeys := s.passkeys[k := r.st.passkeys[k]], sessions := r.st.sessions)
                    && OneBegun(cfg, s.sessions, r.st.sessions, s.passkeys[k].userId, now, draw)
               else r == Reply(s, Rejected(if Proves(s, k, a, now) then StoreConflict
                                           else PasskeyAuthenticationInvalid))
  {
    hide PasskeysUnique, PasskeyRules.AcceptedPasskey, SessionRules.Issue, OneBegun;
    AcceptanceDecided(s, k, a, None, now);
    ByCredential(s, k, a.credentialId);
    if Proves(s, k, a, now) {
      var owner := s.passkeys[k].userId;
      SessionOutcomes.UserKey(s, owner);
      var used := PasskeyRules.UsedPasskey(s.passkeys[k], a.verified.value, now);
      SessionOutcomes.Issues(cfg, PutPasskey(s, used), s.users[owner], now, draw);
    }
  }

  /** The second half of a reauthentication: it wants the principal's own passkey and its session. */
  lemma ConfirmationDecided(s: State, p: Principal, k: Uuid, a: PasskeyRules.Assertion, now: Time)
    requires PasskeysUnique(s.passkeys) && Names(s, k, a)
    ensures var r := PasskeyRules.ConfirmByPasskey(s, p, a, now);
            if s.passkeys[k].userId != p.userId || !Proves(s, k, a, now)
            then r == Reply(s, Rejected(PasskeyAuthenticationInvalid))
            else if !Accepts(s, p, now) then r == Reply(s, Rejected(InvalidSession))
            else && r.out == Reauthenticated(p.userId, p.sessionId, p.familyId, now)
                 && k in r.st.passkeys && Used(s.passkeys[k], r.st.passkeys[k], a.verified.value, now)
                 && r.st == s.(passkeys := s.passkeys[k := r.st.passkeys[k]])
  {
    hide PasskeysUnique, PasskeyRules.AcceptedPasskey, SessionRules.RowsStand;
    AcceptanceDecided(s, k, a, Some(p.userId), now);
    ByCredential(s, k, a.credentialId);
    SessionOutcomes.Stands(s, p, now);
  }

  lemma UnknownPasskey(cfg: Settings, s: State, p: Principal, a: PasskeyRules.Assertion, now: Time, draw: Fresh)
    requires NamesNone(s, a)
    ensures PasskeyRules.LoginByPasskey(cfg, s, a, now, draw) == Reply(s, Rejected(PasskeyAuthenticationInvalid))
    ensures PasskeyRules.ConfirmByPasskey(s, p, a, now) == Reply(s, Rejected(PasskeyAuthenticationInvalid))
  {
    hide PasskeyRules.AcceptedPasskey;
    NothingAccepted(s, a, None, now);
    NothingAccepted(s, a, Some(p.userId), now);
  }

  // Registering and revoking --------------------------------------------------------------------------

  /** The account has as many unrevoked passkeys as it may have. */
  predicate Full(cfg: Settings, passkeys: map<Uuid, Passkey>, user: Uuid) {
    cfg.passkeyMaxCredentials <= |set k | k in passkeys && passkeys[k].userId == user && passkeys[k].revokedAt.None?|
  }

  lemma FullMeans(cfg: Settings, passkeys: map<Uuid, Passkey>, user: Uuid)
    ensures Full(cfg, passkeys, user) <==> |UsablePasskeys(passkeys, user)| >= cfg.passkeyMaxCredentials
  {
    assert UsablePasskeys(passkeys, user)
        == set k | k in passkeys && passkeys[k].userId == user && passkeys[k].revokedAt.None?;
  }

  /** The second half of a registration stores the passkey and moves the account's version on. */
  lemma RegistrationDecided(cfg: Settings, s: State, p: Principal, x: Passkey, now: Time)
    requires UsersUnique(s.users)
    ensures var r := PasskeyRules.Register(cfg, s, p, x, now);
            if !StandsAt(s.users, p.userId, now) then r == Reply(s, Rejected(InvalidSession))
            else if Full(cfg, s.passkeys, p.userId) then r == Reply(s, Rejected(PasskeyLimitReached))
            else if x.id in s.passkeys || exists k :: k in s.passkeys && s.passkeys[k].credentialId == x.credentialId
            then r == Reply(s, Rejected(PasskeyExists))
            else r == Reply(s.(passkeys := s.passkeys[x.id := x],
                               users := s.users[p.userId := Advanced(s.users[p.userId], now)]), PasskeySaved(x))
  {
    hide Full, UsablePasskeys;
    FullMeans(cfg, s.passkeys, p.userId);
    if p.userId in s.users { SessionOutcomes.UserKey(s, p.userId); }
  }

  /** The principal signed in lately and need not change a password. */
  predicate Lately(cfg: Settings, p: Principal, now: Time) {
    !p.mustChangePassword && now <= p.authenticatedAt + 1_000_000 * cfg.passkeyRegistrationMaxAgeSeconds
  }

  function Stale(p: Principal): AuthError { if p.mustChangePassword then PasswordChangeRequired else Forbidden }

  lemma RevocationDecided(cfg: Settings, s: State, p: Principal, k: Uuid, origin: Option<string>, now: Time)
    requires PasskeysUnique(s.passkeys) && UsersUnique(s.users)
    ensures var r := PasskeyRules.RevokePasskey(cfg, s, p, k, origin, now);
            if !Lately(cfg, p, now) then r == Reply(s, Rejected(Stale(p)))
            else if origin.None? then r == Reply(s, Rejected(InvalidOrigin))
            else if !(k in s.passkeys && s.passkeys[k].userId == p.userId && s.passkeys[k].revokedAt.None?)
            then r == Reply(s, Rejected(PasskeyNotFound))
            else if !StandsAt(s.users, p.userId, now) then r == Reply(s, Rejected(InvalidSession))
            else r == Reply(s.(passkeys := s.passkeys[k := s.passkeys[k].(revokedAt := Some(now))],
                               users := s.users[p.userId := Advanced(s.users[p.userId], now)]), Acknowledged)
  {
    if p.userId in s.users { SessionOutcomes.UserKey(s, p.userId); }
  }

  // Challenges ----------------------------------------------------------------------------------------

  /** A challenge for the purpose is stored, after the expired ones were deleted. */
  predicate Challenged(cfg: Settings, s: State, r: Reply, purpose: CeremonyPurpose, origin: string, user: Option<Uuid>,
                       family: Option<Uuid>, draw: PasskeyRules.Ceremony, now: Time)
  {
    var kept := map k | k in s.passkeyChallenges && now < s.passkeyChallenges[k].expiresAt :: s.passkeyChallenges[k];
    if draw.id in kept || exists k :: k in kept && kept[k].challenge == draw.challenge
    then r == Reply(s, Rejected(StoreConflict))
    else var c := PasskeyChallenge(draw.id, purpose, draw.challenge, origin, user, family, now,
                                   now + 1_000_000 * cfg.passkeyChallengeTtlSeconds, None);
         r == Reply(s.(passkeyChallenges := kept[draw.id := c]), PasskeyChallenged(c))
  }

  lemma Begins(cfg: Settings, s: State, purpose: CeremonyPurpose, origin: string, user: Option<Uuid>,
               family: Option<Uuid>, draw: PasskeyRules.Ceremony, now: Time)
    ensures Challenged(cfg, s, PasskeyRules.Begin(s, PasskeyRules.NewChallenge(cfg, purpose, origin, user, family, draw,
                                                                              now), now),
                       purpose, origin, user, family, draw, now)
  {
    assert PrunePasskeyChallenges(s, now).passkeyChallenges
        == map k | k in s.passkeyChallenges && now < s.passkeyChallenges[k].expiresAt :: s.passkeyChallenges[k];
  }

  lemma CeremonyBegun(cfg: Settings, s: State, p: Principal, origin: string, draw: PasskeyRules.Ceremony, now: Time)
    ensures var r := PasskeyRules.BeginRegistration(cfg, s, p, Some(origin), draw, now);
            if !Lately(cfg, p, now) then r == Reply(s, Rejected(Stale(p)))
            else if !StandsAt(s.users, p.userId, now) then r == Reply(s, Rejected(InvalidSession))
            else if Full(cfg, s.passkeys, p.userId) then r == Reply(s, Rejected(PasskeyLimitReached))
            else Challenged(cfg, s, r, Registration, origin, Some(p.userId), None, draw, now)
    ensures Challenged(cfg, s, PasskeyRules.BeginAuthentication(cfg, s, Some(origin), draw, now),
                       Authentication, origin, None, None, draw, now)
    ensures var r := PasskeyRules.BeginReauthentication(cfg, s, p, Some(origin), draw, now);
            if !Accepts(s, p, now) then r == Reply(s, Rejected(InvalidSession))
            else Challenged(cfg, s, r, Reauthentication, origin, Some(p.userId), Some(p.familyId), draw, now)
  {
    hide Full, UsablePasskeys, Challenged, PasskeyRules.Begin, SessionRules.RowsStand;
    FullMeans(cfg, s.passkeys, p.userId);
    SessionOutcomes.Stands(s, p, now);
    Begins(cfg, s, Registration, origin, Some(p.userId), None, draw, now);
    Begins(cfg, s, Authentication, origin, None, None, draw, now);
    Begins(cfg, s, Reauthentication, origin, Some(p.userId), Some(p.familyId), draw, now);
  }

  /** From an origin that is not trusted no ceremony begins or ends. */
  lemma NoOrigin(cfg: Settings, s: State, p: Principal, draw: PasskeyRules.Ceremony, ceremony: Uuid, name: string,
                 response: Option<PasskeyRules.Attestation>, id: Uuid, a: PasskeyRules.Assertion, session: Fresh,
                 now: Time)
    ensures PasskeyRules.BeginRegistration(cfg, s, p, None, draw, now)
         == Reply(s, Rejected(if Lately(cfg, p, now) then InvalidOrigin else Stale(p)))
    ensures PasskeyRules.BeginAuthentication(cfg, s, None, draw, now) == Reply(s, Rejected(InvalidOrigin))
    ensures PasskeyRules.BeginReauthentication(cfg, s, p, None, draw, now) == Reply(s, Rejected(InvalidOrigin))
    ensures PasskeyRules.FinishRegistration(cfg, s, p, ceremony, name, None, response, id, now)
         == Reply(s, Rejected(if Lately(cfg, p, now) then InvalidOrigin else Stale(p)))
    ensures PasskeyRules.FinishAuthentication(cfg, s, ceremony, None, a, now, session)
         == Reply(s, Rejected(InvalidOrigin))
    ensures PasskeyRules.FinishReauthentication(s, p, ceremony, None, a, now) == Reply(s, Rejected(InvalidOrigin))
  {
  }

  /** The stored challenge may be spent for this purpose, account and family. */
  predicate Spendable(s: State, id: Uuid, purpose: CeremonyPurpose, user: Option<Uuid>, family: Option<Uuid>,
                      now: Time)
  {
    && id in s.passkeyChallenges
    && var c := s.passkeyChallenges[id];
       c.purpose == purpose && c.userId == user && c.familyId == family && c.consumedAt.None? && now < c.expiresAt
  }

  function SpentAt(s: State, id: Uuid, now: Time): State
    requires id in s.passkeyChallenges
  {
    s.(passkeyChallenges := s.passkeyChallenges[id := s.passkeyChallenges[id].(consumedAt := Some(now))])
  }

  lemma ConsumptionDecided(s: State, id: Uuid, purpose: CeremonyPurpose, user: Option<Uuid>, family: Option<Uuid>,
                           now: Time)
    requires ChallengesKeyed(s)
    ensures var r := PasskeyRules.Consume(s, id, purpose, user, family, now);
            r == if Spendable(s, id, purpose, user, family, now)
                 then Reply(SpentAt(s, id, now), PasskeyChallenged(SpentAt(s, id, now).passkeyChallenges[id]))
                 else Reply(s, Rejected(PasskeyChallengeInvalid))
  {
  }

  // Finishing a ceremony ------------------------------------------------------------------------------

  /** The challenge may be spent, and was begun from this origin. */
  predicate Answers(s: State, id: Uuid, purpose: CeremonyPurpose, user: Option<Uuid>, family: Option<Uuid>,
                    origin: string, now: Time)
  {
    Spendable(s, id, purpose, user, family, now) && s.passkeyChallenges[id].origin == origin
  }

  /** What the first transaction leaves: the challenge is spent whatever comes of it. */
  function AfterFirst(s: State, id: Uuid, purpose: CeremonyPurpose, user: Option<Uuid>, family: Option<Uuid>,
                      now: Time): State
  {
    if Spendable(s, id, purpose, user, family, now) then SpentAt(s, id, now) else s
  }

  /** A login by passkey succeeds exactly when its challenge answers and the passkey proves. */
  lemma FinishAuthenticationDecided(cfg: Settings, s: State, k: Uuid, ceremony: Uuid, origin: string,
                                    a: PasskeyRules.Assertion, now: Time, draw: Fresh)
    requires Unique(s) && Names(s, k, a)
    ensures var r := PasskeyRules.FinishAuthentication(cfg, s, ceremony, Some(origin), a, now, draw);
            var spent := AfterFirst(s, ceremony, Authentication, None, None, now);
            var answers := Answers(s, ceremony, Authentication, None, None, origin, now);
            && (r.out.SessionIssued? <==> answers && Proves(s, k, a, now) && NewKeys(s.sessions, draw))
            && (r.out.SessionIssued? ==>
                  && k in r.st.passkeys && Used(s.passkeys[k], r.st.passkeys[k], a.verified.value, now)
                  && r.st == spent.(passkeys := s.passkeys[k := r.st.passkeys[k]], sessions := r.st.sessions)
                  && OneBegun(cfg, s.sessions, r.st.sessions, s.passkeys[k].userId, now, draw))
            && (!r.out.SessionIssued? ==> r == Reply(spent, Rejected(if !answers then PasskeyChallengeInvalid
                                                                     else if !Proves(s, k, a, now)
                                                                     then PasskeyAuthenticationInvalid
                                                                     else StoreConflict)))
  {
    hide PasskeyRules.Consume, PasskeyRules.LoginByPasskey, OneBegun, PasskeysUnique, UsersUnique, SessionsUnique;
    ConsumptionDecided(s, ceremony, Authentication, None, None, now);
    PasskeyLoginDecided(cfg, AfterFirst(s, ceremony, Authentication, None, None, now), k, a, now, draw);
  }

  lemma LoginWithUnknown(cfg: Settings, s: State, ceremony: Uuid, origin: string, a: PasskeyRules.Assertion, now: Time,
                         draw: Fresh)
    requires Unique(s) && NamesNone(s, a)
    ensures PasskeyRules.FinishAuthentication(cfg, s, ceremony, Some(origin), a, now, draw)
         == Reply(AfterFirst(s, ceremony, Authentication, None, None, now),
                  Rejected(if Answers(s, ceremony, Authentication, None, None, origin, now)
                           then PasskeyAuthenticationInvalid else PasskeyChallengeInvalid))
  {
    hide PasskeyRules.Consume, PasskeyRules.AcceptedPasskey;
    ConsumptionDecided(s, ceremony, Authentication, None, None, now);
    NothingAccepted(AfterFirst(s, ceremony, Authentication, None, None, now), a, None, now);
  }

  /** A reauthentication by passkey also wants the principal's session; where that no longer stands the
      challenge is spent, and the passkey as it was. */
  lemma FinishReauthenticationDecided(s: State, p: Principal, k: Uuid, ceremony: Uuid, origin: string,
                                      a: PasskeyRules.Assertion, now: Time)
    requires Unique(s) && Names(s, k, a)
    ensures var r := PasskeyRules.FinishReauthentication(s, p, ceremony, Some(origin), a, now);
            var spent := AfterFirst(s, ceremony, Reauthentication, Some(p.userId), Some(p.familyId), now);
            if !Answers(s, ceremony, Reauthentication, Some(p.userId), Some(p.familyId), origin, now)
            then r == Reply(spent, Rejected(PasskeyChallengeInvalid))
            else if s.passkeys[k].userId != p.userId || !Proves(s, k, a, now)
            then r == Reply(spent, Rejected(PasskeyAuthenticationInvalid))
            else if !Accepts(s, p, now) then r == Reply(spent, Rejected(InvalidSession))
            else && r.out == Reauthenticated(p.userId, p.sessionId, p.familyId, now)
                 && k in r.st.passkeys && Used(s.passkeys[k], r.st.passkeys[k], a.verified.value, now)
                 && r.st == spent.(passkeys := s.passkeys[k := r.st.passkeys[k]])
  {
    hide PasskeyRules.Consume, PasskeyRules.ConfirmByPasskey, PasskeysUnique, UsersUnique, SessionsUnique;
    ConsumptionDecided(s, ceremony, Reauthentication, Some(p.userId), Some(p.familyId), now);
    ConfirmationDecided(AfterFirst(s, ceremony, Reauthentication, Some(p.userId), Some(p.familyId), now), p, k, a, now);
  }

  lemma ReauthenticationWithUnknown(s: State, p: Principal, ceremony: Uuid, origin: string, a: PasskeyRules.Assertion,
                                    now: Time)
    requires Unique(s) && NamesNone(s, a)
    ensures PasskeyRules.FinishReauthentication(s, p, ceremony, Some(origin), a, now)
         == Reply(AfterFirst(s, ceremony, Reauthentication, Some(p.userId), Some(p.familyId), now),
                  Rejected(if Answers(s, ceremony, Reauthentication, Some(p.userId), Some(p.familyId), origin, now)
                           then PasskeyAuthenticationInvalid else PasskeyChallengeInvalid))
  {
    hide PasskeyRules.Consume, PasskeyRules.AcceptedPasskey;
    ConsumptionDecided(s, ceremony, Reauthentication, Some(p.userId), Some(p.familyId), now);
    NothingAccepted(AfterFirst(s, ceremony, Reauthentication, Some(p.userId), Some(p.familyId), now), a,
                    Some(p.userId), now);
  }

  /** What the adapter accepted, stored for the principal's account. */
  function Stored(id: Uuid, p: Principal, name: string, a: PasskeyRules.Attestation, now: Time): Passkey {
    Passkey(id, p.userId, a.credentialId, a.publicKey, name, a.signCount, a.deviceType, a.backedUp, now, None, None)
  }

  predicate WellFormed(a: PasskeyRules.Attestation) {
    1 <= |a.credentialId| && |a.credentialId| <= 1023 && |a.publicKey| > 0
  }

  lemma FinishRegistrationDecided(cfg: Settings, s: State, p: Principal, ceremony: Uuid, name: string, origin: string,
                                  response: Option<PasskeyRules.Attestation>, id: Uuid, now: Time)
    requires Unique(s)
    ensures var r := PasskeyRules.FinishRegistration(cfg, s, p, ceremony, name, Some(origin), response, id, now);
            var spent := AfterFirst(s, ceremony, Registration, Some(p.userId), None, now);
            if !Lately(cfg, p, now) then r == Reply(s, Rejected(Stale(p)))
            else if !Answers(s, ceremony, Registration, Some(p.userId), None, origin, now)
            then r == Reply(spent, Rejected(PasskeyChallengeInvalid))
            else if response.None? || !WellFormed(response.value)
            then r == Reply(spent, Rejected(PasskeyRegistrationInvalid))
            else r == PasskeyRules.Register(cfg, spent, p, Stored(id, p, name, response.value, now), now)
  {
    hide PasskeyRules.Consume, PasskeyRules.Register;
    ConsumptionDecided(s, ceremony, Registration, Some(p.userId), None, now);
  }
}
