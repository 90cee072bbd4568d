/** The inductive invariant of the whole store, what a step may change, and the proof that every
    write keeps the one and respects the other. */
module Invariant {
  import opened Models
  import opened Config
  import opened StoreState
  import opened SessionSafety
  import opened LinkSafety
  import SessionRules
  import UserRules
  import LinkRules

  // Users --------------------------------------------------------------------------------------

  /** The counter reaches its limit exactly while a lock is recorded; versions count from zero. */
  predicate CountersFit(cfg: Settings, u: User) {
    && 0 <= u.securityVersion
    && 0 <= u.failedLoginAttempts <= cfg.loginMaxAttempts
    && (u.failedLoginAttempts == cfg.loginMaxAttempts <==> u.lockedUntil.Some?)
  }

  predicate UsersSound(cfg: Settings, users: map<Uuid, User>) {
    && UsersUnique(users)
    && forall id :: id in users ==> CountersFit(cfg, users[id])
  }

  /** Identity and email stay, the security version never falls, a pending account is never re-entered. */
  predicate UserEvolves(a: User, b: User) {
    && a.id == b.id && a.email == b.email
    && a.securityVersion <= b.securityVersion
    && (a.status != PendingActivation ==> b.status != PendingActivation)
  }

  predicate UsersEvolve(a: map<Uuid, User>, b: map<Uuid, User>) {
    forall id :: id in a ==> id in b && UserEvolves(a[id], b[id])
  }

  predicate HasActiveAdmin(cfg: Settings, users: map<Uuid, User>) {
    exists id :: id in users && UserRules.IsActiveAdmin(cfg, users[id])
  }

  // Identities and passkeys ----------------------------------------------------------------------

  predicate IdentitiesSound(users: map<Uuid, User>, ids: map<Uuid, Identity>) {
    IdentitiesOneToOne(ids) && forall id :: id in ids ==> ids[id].userId in users
  }

  ghost predicate PasskeysSound(cfg: Settings, passkeys: map<Uuid, Passkey>) {
    && PasskeysUnique(passkeys)
    && forall u: Uuid :: |UsablePasskeys(passkeys, u)| <= cfg.passkeyMaxCredentials
  }

  /** A spent challenge stays spent; nothing else about a stored challenge changes. */
  predicate ChallengesEvolve(a: State, b: State) {
    && (forall id :: id in a.googleChallenges && id in b.googleChallenges ==>
          b.googleChallenges[id] == a.googleChallenges[id]
          || (a.googleChallenges[id].consumedAt.None?
              && b.googleChallenges[id] == a.googleChallenges[id].(consumedAt := b.googleChallenges[id].consumedAt)))
    && (forall id :: id in a.passkeyChallenges && id in b.passkeyChallenges ==>
          b.passkeyChallenges[id] == a.passkeyChallenges[id]
          || (a.passkeyChallenges[id].consumedAt.None?
              && b.passkeyChallenges[id] == a.passkeyChallenges[id].(consumedAt := b.passkeyChallenges[id].consumedAt)))
  }

  // The invariant ----------------------------------------------------------------------------

  /** Whatever the clock does. */
  ghost predicate Inv(cfg: Settings, s: State) {
    && SessionsSound(cfg, s.users, s.sessions)
    && UsersSound(cfg, s.users)
    && LinksSound(s.users, s.links)
    && IdentitiesSound(s.users, s.identities)
    && PasskeysSound(cfg, s.passkeys)
    && ChallengesKeyed(s)
  }

  /** What a clock that does not go back adds, up to the latest reading `now`. */
  predicate InOrder(s: State, now: Time) { SessionsInOrder(s.sessions, now) && LinksInOrder(s.links, now) }

  ghost predicate Evolves(cfg: Settings, a: State, b: State) {
    && UsersEvolve(a.users, b.users)
    && SessionsEvolve(a.sessions, b.sessions)
    && LinksEvolve(a.users, a.links, b.links)
    && ChallengesEvolve(a, b)
    && (HasActiveAdmin(cfg, a.users) ==> HasActiveAdmin(cfg, b.users))
  }

  /** `b` is a sound successor of `a`, by writes that carry the time `at`. */
  ghost predicate Keeps(cfg: Settings, a: State, b: State, at: Time) {
    && Inv(cfg, b) && Evolves(cfg, a, b) && StaysUnlocked(a, b, at)
    && (InOrder(a, at) ==> InOrder(b, at))
  }

  lemma InOrderLater(s: State, t: Time, now: Time)
    requires InOrder(s, t) && t <= now
    ensures InOrder(s, now)
  {
    forall id | id in s.sessions ensures InSequence(s.sessions, s.sessions[id], now) {
      assert InSequence(s.sessions, s.sessions[id], t);
    }
  }

  lemma Idle(cfg: Settings, s: State, now: Time)
    requires Inv(cfg, s)
    ensures Keeps(cfg, s, s, now)
  {
    LinksEvolveReflexive(s.users, s.links);
  }

  lemma KeepsTransitive(cfg: Settings, a: State, b: State, c: State, now: Time)
    requires Keeps(cfg, a, b, now) && Keeps(cfg, b, c, now)
    requires forall id :: id in a.links && id in c.links ==> id in b.links
    requires forall id :: id in a.googleChallenges && id in c.googleChallenges ==> id in b.googleChallenges
    requires forall id :: id in a.passkeyChallenges && id in c.passkeyChallenges ==> id in b.passkeyChallenges
    ensures Keeps(cfg, a, c, now)
  {
    SessionsEvolveTransitive(a.sessions, b.sessions, c.sessions);
    LinksEvolveTransitive(a.users, b.users, a.links, b.links, c.links);
    forall id | id in a.users ensures id in c.users && UserEvolves(a.users[id], c.users[id]) {
      assert UserEvolves(a.users[id], b.users[id]) && UserEvolves(b.users[id], c.users[id]);
    }
  }

  // Writes to users and sessions ---------------------------------------------------------------

  lemma UsersPutKeeps(cfg: Settings, s: State, u: User)
    requires UsersSound(cfg, s.users) && CountersFit(cfg, u)
    requires if u.id in s.users then UserEvolves(s.users[u.id], u) else !EmailTaken(s.users, u.email, None)
    ensures UsersSound(cfg, PutUser(s, u).users) && UsersEvolve(s.users, PutUser(s, u).users)
  {
    var after := PutUser(s, u).users;
    forall a, b | a in after && b in after && SameEmail(after[a], after[b]) ensures a == b {
      if a in s.users && b in s.users { assert SameEmail(s.users[a], s.users[b]); }
    }
  }

  predicate OnlyAccounts(a: State, b: State) { b == a.(users := b.users, sessions := b.sessions) }

  /** What a write to users and sessions owes the other tables. */
  lemma OthersKept(a: State, b: State)
    requires OnlyAccounts(a, b) && UsersEvolve(a.users, b.users)
    requires LinksSound(a.users, a.links) && IdentitiesSound(a.users, a.identities)
    ensures LinksSound(b.users, b.links) && LinksEvolve(a.users, a.links, b.links)
    ensures IdentitiesSound(b.users, b.identities) && ChallengesEvolve(a, b)
  {
    forall id | id in a.users ensures id in b.users && a.users[id].securityVersion <= b.users[id].securityVersion {
      assert UserEvolves(a.users[id], b.users[id]);
    }
    UsersAdvanceKeeps(a.users, b.users, a.links);
    LinksEvolveReflexive(a.users, a.links);
  }

  lemma AccountStep(cfg: Settings, a: State, b: State, now: Time)
    requires Inv(cfg, a) && OnlyAccounts(a, b)
    requires SessionsSound(cfg, b.users, b.sessions) && SessionsEvolve(a.sessions, b.sessions)
    requires UsersSound(cfg, b.users) && UsersEvolve(a.users, b.users)
    requires HasActiveAdmin(cfg, a.users) ==> HasActiveAdmin(cfg, b.users)
    requires StaysUnlocked(a, b, now) && (SessionsInOrder(a.sessions, now) ==> SessionsInOrder(b.sessions, now))
    ensures Keeps(cfg, a, b, now)
  {
    hide SessionsSound, SessionsEvolve, UsersSound, UsersEvolve, HasActiveAdmin, StaysUnlocked, SessionsInOrder;
    hide LinksSound, LinksEvolve, LinksInOrder, IdentitiesSound, PasskeysSound, ChallengesEvolve;
    OthersKept(a, b);
  }

  lemma UsersSame(users: map<Uuid, User>)
    ensures UsersEvolve(users, users)
  {
  }

  /** Saving or adding a user, when that takes nothing from whoever is logged in. */
  lemma SaveUser(cfg: Settings, s: State, u: User, now: Time)
    requires Inv(cfg, s) && CountersFit(cfg, u)
    requires if u.id in s.users then UserEvolves(s.users[u.id], u) else !EmailTaken(s.users, u.email, None)
    requires u.id in s.users ==> NoWorse(s.users[u.id], u)
    requires u.id in s.users && UserRules.IsActiveAdmin(cfg, s.users[u.id]) ==> UserRules.IsActiveAdmin(cfg, u)
    ensures Keeps(cfg, s, PutUser(s, u), now)
  {
    hide SessionsSound, SessionsEvolve, UsersSound, UsersEvolve, HasActiveAdmin, StaysUnlocked, SessionsInOrder, Keeps;
    hide LinksSound;
    UsersPutKeeps(cfg, s, u);
    PutUserKeeps(cfg, s, u, now);
    SessionsSame(s.sessions);
    AdminStays(cfg, s, u);
    AccountStep(cfg, s, PutUser(s, u), now);
  }

  lemma SessionsSame(sessions: map<Uuid, Session>)
    ensures SessionsEvolve(sessions, sessions)
  {
  }

  lemma AdminStays(cfg: Settings, s: State, u: User)
    requires u.id in s.users && UserRules.IsActiveAdmin(cfg, s.users[u.id]) ==> UserRules.IsActiveAdmin(cfg, u)
    ensures HasActiveAdmin(cfg, s.users) ==> HasActiveAdmin(cfg, PutUser(s, u).users)
  {
    if HasActiveAdmin(cfg, s.users) {
      var id :| id in s.users && UserRules.IsActiveAdmin(cfg, s.users[id]);
      assert id in PutUser(s, u).users && UserRules.IsActiveAdmin(cfg, PutUser(s, u).users[id]);
    }
  }

  /** Saving a user in any condition, together with revoking its sessions. */
  lemma SaveUserAndRevoke(cfg: Settings, s: State, u: User, now: Time)
    requires Inv(cfg, s) && CountersFit(cfg, u)
    requires u.id in s.users && UserEvolves(s.users[u.id], u)
    requires HasActiveAdmin(cfg, s.users) ==> HasActiveAdmin(cfg, PutUser(s, u).users)
    ensures Keeps(cfg, s, RevokeUserSessions(PutUser(s, u), u.id, now), now)
  {
    hide SessionsSound, SessionsEvolve, UsersSound, UsersEvolve, HasActiveAdmin, StaysUnlocked, SessionsInOrder, Keeps;
    hide LinksSound;
    UsersPutKeeps(cfg, s, u);
    RevokeUserKeeps(cfg, s, u, now);
    RevokeUserStays(s, u, now);
    AccountStep(cfg, s, RevokeUserSessions(PutUser(s, u), u.id, now), now);
  }

  lemma RevokeFamilyStep(cfg: Settings, s: State, family: Uuid, now: Time)
    requires Inv(cfg, s)
    ensures Keeps(cfg, s, RevokeFamily(s, family, now), now)
  {
    hide SessionsSound, SessionsEvolve, UsersSound, UsersEvolve, HasActiveAdmin, StaysUnlocked, SessionsInOrder, Keeps;
    hide LinksSound;
    UsersSame(s.users);
    RevokeFamilyKeeps(cfg, s, family, now);
    RevocationStays(s, RevokeFamily(s, family, now), now);
    AccountStep(cfg, s, RevokeFamily(s, family, now), now);
  }

  /** Starting a family for a user who may authenticate; a clash leaves the store as it was. */
  lemma IssueStep(cfg: Settings, s: State, u: User, now: Time, draw: Fresh)
    requires Inv(cfg, s) && cfg.Valid()
    requires u.id in s.users && s.users[u.id].CanAuthenticate(now)
    requires forall id :: id in s.sessions ==> s.sessions[id].familyId != draw.familyId
    ensures Keeps(cfg, s, SessionRules.Issue(cfg, s, u, now, SessionRules.NewLogin, draw).st, now)
  {
    hide SessionsSound, SessionsEvolve, UsersSound, UsersEvolve, HasActiveAdmin, StaysUnlocked, SessionsInOrder, Keeps;
    hide LinksSound;
    UsersSame(s.users);
    SessionSafety.IssueKeeps(cfg, s, u, now, draw);
    AccountStep(cfg, s, SessionRules.Issue(cfg, s, u, now, SessionRules.NewLogin, draw).st, now);
  }

  // Writes to the other tables -----------------------------------------------------------------

  predicate OnlyLinks(a: State, b: State) { b == a.(links := b.links) }

  lemma LinkStep(cfg: Settings, a: State, b: State, now: Time)
    requires Inv(cfg, a) && OnlyLinks(a, b)
    requires LinksSound(a.users, b.links) && LinksEvolve(a.users, a.links, b.links)
    requires LinksInOrder(a.links, now) ==> LinksInOrder(b.links, now)
    ensures Keeps(cfg, a, b, now)
  {
    hide UsersSound, SessionsSound, LinksSound, UsersEvolve, SessionsEvolve, LinksEvolve, HasActiveAdmin;
    hide SessionsInOrder, LinksInOrder;
    Idle(cfg, a, now);
  }

  lemma IssueLinkStep(cfg: Settings, retain: bool, s: State, user: User, p: Purpose, nonce: Option<string>,
                      draw: LinkRules.LinkDraw, now: Time)
    requires Inv(cfg, s) && user.id in s.users && s.users[user.id] == user && draw.linkId !in s.links
    ensures Keeps(cfg, s, LinkRules.IssueLink(cfg, retain, s, user, p, nonce, draw, now).st, now)
  {
    LinkSafety.IssueKeeps(cfg, retain, s, user, p, nonce, draw, now);
    LinkStep(cfg, s, LinkRules.IssueLink(cfg, retain, s, user, p, nonce, draw, now).st, now);
  }

  predicate SameKeys(a: Identity, b: Identity) {
    a.id == b.id && a.userId == b.userId && a.issuer == b.issuer && a.subject == b.subject
  }

  lemma IdentityStep(cfg: Settings, s: State, i: Identity, now: Time)
    requires Inv(cfg, s) && i.userId in s.users
    requires if i.id in s.identities then SameKeys(s.identities[i.id], i) else !IdentityClashes(s.identities, i)
    ensures Keeps(cfg, s, PutIdentity(s, i), now)
  {
    hide UsersSound, SessionsSound, LinksSound, UsersEvolve, SessionsEvolve, LinksEvolve, HasActiveAdmin;
    hide SessionsInOrder, LinksInOrder;
    Idle(cfg, s, now);
    var after := PutIdentity(s, i).identities;
    forall a, b | a in after && b in after && Rivals(after[a], after[b]) ensures a == b {
      if a in s.identities && b in s.identities { assert Rivals(s.identities[a], s.identities[b]); }
    }
  }

  lemma DropIdentityStep(cfg: Settings, s: State, id: Uuid, now: Time)
    requires Inv(cfg, s)
    ensures Keeps(cfg, s, DropIdentity(s, id), now)
  {
    hide UsersSound, SessionsSound, LinksSound, UsersEvolve, SessionsEvolve, LinksEvolve, HasActiveAdmin;
    hide SessionsInOrder, LinksInOrder;
    Idle(cfg, s, now);
  }

  /** Saving a passkey: a new one only below the limit, a stored one without un-revoking it. */
  lemma PasskeyStep(cfg: Settings, s: State, p: Passkey, now: Time)
    requires Inv(cfg, s)
    requires if p.id in s.passkeys
             then p.userId == s.passkeys[p.id].userId && p.credentialId == s.passkeys[p.id].credentialId
                  && (p.revokedAt.None? ==> s.passkeys[p.id].revokedAt.None?)
             else !CredentialTaken(s.passkeys, p.credentialId)
                  && |UsablePasskeys(s.passkeys, p.userId)| < cfg.passkeyMaxCredentials
    ensures Keeps(cfg, s, PutPasskey(s, p), now)
  {
    hide UsersSound, SessionsSound, LinksSound, UsersEvolve, SessionsEvolve, LinksEvolve, HasActiveAdmin;
    hide SessionsInOrder, LinksInOrder;
    Idle(cfg, s, now);
    var after := PutPasskey(s, p).passkeys;
    forall a, b | a in after && b in after && SameCredential(after[a], after[b]) ensures a == b {
      if a in s.passkeys && b in s.passkeys { assert SameCredential(s.passkeys[a], s.passkeys[b]); }
    }
    forall u: Uuid ensures |UsablePasskeys(after, u)| <= cfg.passkeyMaxCredentials {
      var before, later := UsablePasskeys(s.passkeys, u), UsablePasskeys(after, u);
      if p.id !in s.passkeys && u == p.userId {
        assert later <= before + {p.id};
        Cardinality(later, before + {p.id});
      } else {
        assert later <= before;
        Cardinality(later, before);
      }
    }
  }

  lemma {:induction false} Cardinality<T>(a: set<T>, b: set<T>)
    requires a <= b
    ensures |a| <= |b|
    decreases a
  {
    if a != {} {
      var x :| x in a;
      Cardinality(a - {x}, b - {x});
    }
  }

  predicate OnlyChallenges(a: State, b: State) {
    b == a.(googleChallenges := b.googleChallenges, passkeyChallenges := b.passkeyChallenges)
  }

  lemma ChallengeStep(cfg: Settings, a: State, b: State, now: Time)
    requires Inv(cfg, a) && OnlyChallenges(a, b) && ChallengesKeyed(b) && ChallengesEvolve(a, b)
    ensures Keeps(cfg, a, b, now)
  {
    hide PasskeysSound, IdentitiesSound;
    hide UsersSound, SessionsSound, LinksSound, UsersEvolve, SessionsEvolve, LinksEvolve, HasActiveAdmin;
    hide SessionsInOrder, LinksInOrder;
    Idle(cfg, a, now);
  }
}
