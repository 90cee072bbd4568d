/** Every operation keeps the invariant and only changes what `Evolves` allows. */
module Preservation {
  import opened Models
  import opened Config
  import opened StoreState
  import opened SessionRules
  import opened Invariant
  import SessionSafety
  import LinkSafety
  import UserRules
  import LinkRules
  import GoogleRules
  import PasskeyRules
  import opened Machine

  predicate FreshFamily(s: State, draw: Fresh) {
    forall id :: id in s.sessions ==> s.sessions[id].familyId != draw.familyId
  }

  predicate Stored(s: State, user: Option<User>) {
    user.Some? ==> user.value.id in s.users && s.users[user.value.id] == user.value
  }

  lemma InvParts(cfg: Settings, s: State)
    requires Inv(cfg, s)
    ensures Unique(s) && LinkSafety.LinksSound(s.users, s.links)
  {}

  lemma FoundById(cfg: Settings, s: State, id: Uuid)
    requires Inv(cfg, s) && id in s.users
    ensures s.users[id].id == id && CountersFit(cfg, s.users[id])
  {}

  lemma FoundByToken(cfg: Settings, s: State, hash: Hash)
    requires Inv(cfg, s)
    ensures var x := SessionByToken(s.sessions, hash);
            x.Some? ==> x.value.id in s.sessions && s.sessions[x.value.id] == x.value && x.value.userId in s.users
  {}

  lemma FoundByEmail(cfg: Settings, s: State, email: string)
    requires Inv(cfg, s)
    ensures Stored(s, UserByEmail(s.users, email))
  {}

  /** A write that keeps everything, followed by a new login or, on a clash, undone. */
  lemma ThenIssue(cfg: Settings, a: State, b: State, u: User, now: Time, draw: Fresh)
    requires Inv(cfg, a) && cfg.Valid() && Keeps(cfg, a, b, now) && FreshFamily(b, draw)
    requires u.id in b.users && b.users[u.id].CanAuthenticate(now)
    requires b.links.Keys == a.links.Keys
    requires b.googleChallenges == a.googleChallenges && b.passkeyChallenges == a.passkeyChallenges
    ensures Keeps(cfg, a, Issue(cfg, b, u, now, NewLogin, draw).st, now)
    ensures Keeps(cfg, a, OrRollback(a, Issue(cfg, b, u, now, NewLogin, draw)).st, now)
  {
    hide Inv, Evolves;
    Idle(cfg, a, now);
    IssueStep(cfg, b, u, now, draw);
    KeepsTransitive(cfg, a, b, Issue(cfg, b, u, now, NewLogin, draw).st, now);
  }

  // _service_sessions.py -----------------------------------------------------------------------

  lemma FailureKeeps(cfg: Settings, s: State, user: Option<User>, now: Time)
    requires Inv(cfg, s) && cfg.Valid() && Stored(s, user)
    ensures Keeps(cfg, s, RecordPasswordFailure(cfg, s, user, now), now)
  {
    hide Inv, Evolves;
    Idle(cfg, s, now);
    if Counts(user, now) {
      var failed := AfterFailure(cfg, user.value, now);
      FoundById(cfg, s, user.value.id);
      AdminStays(cfg, s, failed);
      if failed.lockedUntil.Some? { SaveUserAndRevoke(cfg, s, failed, now); } else { SaveUser(cfg, s, failed, now); }
    }
  }

  lemma LoginKeeps(cfg: Settings, s: State, email: string, v: PasswordVerification, now: Time, draw: Fresh)
    requires Inv(cfg, s) && cfg.Valid() && FreshFamily(s, draw)
    ensures Keeps(cfg, s, SessionRules.Login(cfg, s, email, v, now, draw).st, now)
  {
    hide Inv, Evolves;
    Idle(cfg, s, now);
    FoundByEmail(cfg, s, email);
    var user := UserByEmail(s.users, email);
    if LoginRefused(user, v, now) {
      FailureKeeps(cfg, s, user, now);
    } else {
      var verified := AfterVerification(user.value, v, now);
      var s1 := PutUser(s, verified);
      FoundById(cfg, s, user.value.id);
      SaveUser(cfg, s, verified, now);
      ThenIssue(cfg, s, s1, verified, now, draw);
    }
  }

  lemma ReauthenticateKeeps(cfg: Settings, s: State, p: Principal, v: PasswordVerification, now: Time)
    requires Inv(cfg, s) && cfg.Valid()
    ensures Keeps(cfg, s, SessionRules.Reauthenticate(cfg, s, p, v, now).st, now)
  {
    hide Inv, Evolves;
    Idle(cfg, s, now);
    var user := UserById(s.users, p.userId);
    if PrincipalStands(s, p, user, now) {
      FoundById(cfg, s, p.userId);
      FailureKeeps(cfg, s, user, now);
      SaveUser(cfg, s, AfterVerification(user.value, v, now), now);
    }
  }

  lemma RefreshKeeps(cfg: Settings, s: State, token: string, csrf: string, now: Time, draw: Fresh)
    requires Inv(cfg, s) && cfg.Valid()
    ensures Keeps(cfg, s, SessionRules.Refresh(cfg, s, token, csrf, now, draw).st, now)
  {
    hide Inv, Evolves;
    Idle(cfg, s, now);
    FoundByToken(cfg, s, Sha256(token));
    var candidate := SessionByToken(s.sessions, Sha256(token));
    if candidate.Some? {
      DecideRefreshKeeps(cfg, s, Sha256(token), candidate.value, csrf, now, draw);
    }
  }

  lemma RotateStep(cfg: Settings, s: State, x: Session, now: Time, draw: Fresh)
    requires Inv(cfg, s) && cfg.Valid() && SessionSafety.Rotatable(s, x, now)
    requires !SessionClashes(s.sessions, SessionSafety.NextSession(cfg, x, now, draw))
    ensures Keeps(cfg, s, SessionSafety.Rotated(cfg, s, x, now, draw), now)
  {
    hide SessionSafety.SessionsSound, SessionSafety.SessionsEvolve, SessionSafety.StaysUnlocked, Keeps, UsersSound;
    hide SessionSafety.SessionsInOrder, LinkSafety.LinksSound, UsersEvolve, HasActiveAdmin;
    SessionSafety.RotationKeeps(cfg, s, x, now, draw);
    SessionSafety.RotationEvolves(cfg, s, x, now, draw);
    UsersSame(s.users);
    AccountStep(cfg, s, SessionSafety.Rotated(cfg, s, x, now, draw), now);
  }

  lemma DecideRefreshKeeps(cfg: Settings, s: State, hash: Hash, x: Session, csrf: string, now: Time, draw: Fresh)
    requires Inv(cfg, s) && cfg.Valid() && x.id in s.sessions && s.sessions[x.id] == x
    ensures Keeps(cfg, s, DecideRefresh(cfg, s, hash, UserById(s.users, x.userId), Some(x), csrf, now, draw).st, now)
  {
    hide Inv, Evolves;
    Idle(cfg, s, now);
    RevokeFamilyStep(cfg, s, x.familyId, now);
    if x.userId in s.users { FoundById(cfg, s, x.userId); }
    var next := SessionSafety.NextSession(cfg, x, now, draw);
    if x.usedAt.None? && x.revokedAt.None? && now < x.absoluteExpiresAt && !SessionClashes(s.sessions, next) {
      RotateStep(cfg, s, x, now, draw);
    }
  }

  lemma LogoutKeeps(cfg: Settings, s: State, token: string, csrf: string, now: Time)
    requires Inv(cfg, s)
    ensures Keeps(cfg, s, SessionRules.Logout(s, token, csrf, now).st, now)
  {
    hide Inv, Evolves;
    Idle(cfg, s, now);
    var candidate := SessionByToken(s.sessions, Sha256(token));
    FoundByToken(cfg, s, Sha256(token));
    if candidate.Some? { RevokeFamilyStep(cfg, s, candidate.value.familyId, now); }
  }

  lemma ChangePasswordKeeps(cfg: Settings, s: State, p: Principal, c: PasswordChange, now: Time, draw: Fresh)
    requires Inv(cfg, s) && cfg.Valid() && FreshFamily(s, draw)
    ensures Keeps(cfg, s, SessionRules.ChangePassword(cfg, s, p, c, now, draw).st, now)
  {
    hide Inv, Evolves;
    Idle(cfg, s, now);
    var user := UserById(s.users, p.userId);
    if PrincipalStands(s, p, user, now) {
      FoundById(cfg, s, p.userId);
      var changed := user.value.ActivatePassword(c.newHash, now);
      var s1 := RevokeUserSessions(PutUser(s, changed), changed.id, now);
      ReplacePasswordKeeps(cfg, s, changed, now);
      ThenIssue(cfg, s, s1, changed, now, draw);
    }
  }

  // _service_users.py --------------------------------------------------------------------------

  lemma AddUserKeeps(cfg: Settings, s: State, u: User, now: Time)
    requires Inv(cfg, s) && CountersFit(cfg, u)
    ensures Keeps(cfg, s, UserRules.AddUser(s, u).st, now)
  {
    hide Inv, Evolves;
    Idle(cfg, s, now);
    if UserRules.AddUser(s, u).out.UserSaved? { SaveUser(cfg, s, u, now); }
  }

  lemma UpdateUserKeeps(cfg: Settings, s: State, id: Uuid, update: UserUpdate, now: Time)
    requires Inv(cfg, s)
    ensures Keeps(cfg, s, UserRules.UpdateUser(cfg, s, id, update, now).st, now)
  {
    hide Inv, Evolves;
    Idle(cfg, s, now);
    var r := UserRules.UpdateUser(cfg, s, id, update, now);
    if r.out.UserSaved? {
      var current, updated := s.users[id], r.out.user;
      FoundById(cfg, s, id);
      AnotherAdminRemains(cfg, s, id, updated);
      if updated.status == Disabled {
        SaveUserAndRevoke(cfg, s, updated, now);
      } else {
        PutUserStanding(cfg, s, updated, now);
      }
    }
  }

  /** `_update_user` never saves an account that would leave no active administrator. */
  lemma AnotherAdminRemains(cfg: Settings, s: State, id: Uuid, u: User)
    requires id in s.users && u.id == id
    requires UserRules.IsActiveAdmin(cfg, s.users[id]) && !UserRules.IsActiveAdmin(cfg, u) ==>
               |InRole(s.users, cfg.adminRole, true)| > 1
    ensures HasActiveAdmin(cfg, s.users) ==> HasActiveAdmin(cfg, PutUser(s, u).users)
  {
    var admins := InRole(s.users, cfg.adminRole, true);
    if UserRules.IsActiveAdmin(cfg, s.users[id]) && !UserRules.IsActiveAdmin(cfg, u) {
      var other := AnotherMember(admins, id);
      assert PutUser(s, u).users[other] == s.users[other];
    } else {
      AdminStays(cfg, s, u);
    }
  }

  lemma AnotherMember<T>(s: set<T>, x: T) returns (y: T)
    requires |s| > 1
    ensures y in s && y != x
  {
    if s <= {x} { Cardinality(s, {x}); }
    y :| y in s && y !in {x};
  }

  /** Saving with an unchanged lock and a status no worse than before keeps sessions standing. */
  lemma PutUserStanding(cfg: Settings, s: State, u: User, now: Time)
    requires Inv(cfg, s) && u.id in s.users && UserEvolves(s.users[u.id], u)
    requires u.lockedUntil == s.users[u.id].lockedUntil && u.failedLoginAttempts == s.users[u.id].failedLoginAttempts
    requires s.users[u.id].status == Active ==> u.status == Active
    requires HasActiveAdmin(cfg, s.users) ==> HasActiveAdmin(cfg, PutUser(s, u).users)
    ensures Keeps(cfg, s, PutUser(s, u), now)
  {
    hide SessionSafety.SessionsSound, SessionSafety.SessionsEvolve, SessionSafety.StaysUnlocked, Keeps;
    hide SessionSafety.SessionsInOrder, LinkSafety.LinksSound, UsersEvolve, HasActiveAdmin;
    assert CountersFit(cfg, s.users[u.id]);
    UsersPutKeeps(cfg, s, u);
    SessionSafety.PutUserKeeps(cfg, s, u, now);
    SessionsSame(s.sessions);
    AccountStep(cfg, s, PutUser(s, u), now);
  }

  lemma ReplacePasswordKeeps(cfg: Settings, s: State, u: User, now: Time)
    requires Inv(cfg, s) && cfg.Valid() && u.id in s.users && UserEvolves(s.users[u.id], u)
    requires u.failedLoginAttempts == 0 && u.lockedUntil.None?
    requires s.users[u.id].status == Active ==> u.status == Active
    requires u.roles == s.users[u.id].roles
    ensures Keeps(cfg, s, RevokeUserSessions(PutUser(s, u), u.id, now), now)
  {
    AdminStays(cfg, s, u);
    SaveUserAndRevoke(cfg, s, u, now);
  }

  lemma RevokeAllKeeps(cfg: Settings, s: State, id: Uuid, now: Time)
    requires Inv(cfg, s) && cfg.Valid() && id in s.users
    ensures Keeps(cfg, s, RevokeUserSessions(s, id, now), now)
  {
    assert PutUser(s, s.users[id]) == s;
    assert CountersFit(cfg, s.users[id]);
    SaveUserAndRevoke(cfg, s, s.users[id], now);
  }

  // email_links ----------------------------------------------------------------------------------

  lemma RequestLinkKeeps(cfg: Settings, retain: bool, s: State, email: string, p: Purpose, nonce: Option<string>,
                         draw: LinkRules.LinkDraw, now: Time)
    requires Inv(cfg, s) && draw.linkId !in s.links
    ensures Keeps(cfg, s, LinkRules.RequestLink(cfg, retain, s, email, p, nonce, draw, now).st, now)
  {
    hide Inv, Evolves;
    Idle(cfg, s, now);
    FoundByEmail(cfg, s, email);
    var user := UserByEmail(s.users, email);
    if user.Some? { IssueLinkStep(cfg, retain, s, user.value, p, nonce, draw, now); }
  }

  lemma IssueForUserKeeps(cfg: Settings, retain: bool, s: State, id: Uuid, p: Purpose,
                          draw: LinkRules.LinkDraw, now: Time)
    requires Inv(cfg, s) && draw.linkId !in s.links
    ensures Keeps(cfg, s, LinkRules.IssueForUser(cfg, retain, s, id, p, draw, now).st, now)
  {
    hide Inv, Evolves;
    Idle(cfg, s, now);
    if id in s.users { FoundById(cfg, s, id); IssueLinkStep(cfg, retain, s, s.users[id], p, None, draw, now); }
  }

  lemma CreatePendingKeeps(cfg: Settings, retain: bool, s: State, u: User, draw: LinkRules.LinkDraw, now: Time)
    requires Inv(cfg, s) && CountersFit(cfg, u) && draw.linkId !in s.links
    ensures Keeps(cfg, s, LinkRules.CreatePending(cfg, retain, s, u, draw, now).st, now)
  {
    hide Inv, Evolves;
    Idle(cfg, s, now);
    AddUserKeeps(cfg, s, u, now);
    var added := UserRules.AddUser(s, u);
    if added.out.UserSaved? {
      IssueLinkStep(cfg, retain, added.st, u, Activation, None, draw, now);
      KeepsTransitive(cfg, s, added.st,
                      LinkRules.IssueLink(cfg, retain, added.st, u, Activation, None, draw, now).st, now);
    }
  }

  lemma FoundLink(cfg: Settings, s: State, hash: Hash, p: Purpose)
    requires Inv(cfg, s)
    ensures var l := LinkByToken(s.links, hash, p);
            l.Some? ==> l.value.id in s.links && s.links[l.value.id] == l.value
  {}

  lemma RevokeLinkStep(cfg: Settings, s: State, id: Uuid, now: Time)
    requires Inv(cfg, s)
    ensures Keeps(cfg, s, LinkRules.RevokeLink(s, id, now), now)
  {
    LinkSafety.RevokeLinkKeeps(s, id, now);
    LinkStep(cfg, s, LinkRules.RevokeLink(s, id, now), now);
  }

  lemma ConsumableKeeps(cfg: Settings, s: State, token: string, p: Purpose, nonce: Option<string>, now: Time)
    requires Inv(cfg, s)
    ensures var found := LinkRules.Consumable(cfg, s, token, p, nonce, now);
            && Keeps(cfg, s, found.st, now) && OnlyLinks(s, found.st) && found.st.links.Keys == s.links.Keys
  {
    hide Inv, Keeps, LinkByToken, LinkRules.MatchesUser, LinkRules.ValidBrowser;
    Idle(cfg, s, now);
    FoundLink(cfg, s, Sha256(token), p);
    var candidate := LinkByToken(s.links, Sha256(token), p);
    if candidate.Some? { RevokeLinkStep(cfg, s, candidate.value.id, now); }
  }

  /** A consumable link is stored, active and current for its stored user; nothing was written. */
  lemma ConsumableIsCurrent(cfg: Settings, s: State, token: string, p: Purpose, nonce: Option<string>, now: Time)
    requires Inv(cfg, s)
    ensures var found := LinkRules.Consumable(cfg, s, token, p, nonce, now);
            found.link.Some? ==>
              && found.st == s && found.user.Some? && Stored(s, found.user)
              && found.link.value.id in s.links && s.links[found.link.value.id] == found.link.value
              && found.link.value.userId == found.user.value.id && found.link.value.purpose == p
              && found.link.value.tokenHash == Sha256(token)
              && LinkRules.MatchesUser(cfg, found.link.value, found.user.value, now)
  {}

  /** What a redeemed link was: current for its user, now consumed, nothing else changed. */
  lemma RedeemKeeps(cfg: Settings, s: State, token: string, p: Purpose, nonce: Option<string>, now: Time)
    requires Inv(cfg, s)
    ensures var found := LinkRules.Redeem(cfg, s, token, p, nonce, now);
            && Keeps(cfg, s, found.st, now) && OnlyLinks(s, found.st) && found.st.links.Keys == s.links.Keys
            && (found.link.Some? ==>
                  && found.user.Some? && Stored(s, found.user)
                  && LinkRules.CanRequest(cfg, found.user.value, p, now))
  {
    hide Inv, Evolves;
    ConsumableKeeps(cfg, s, token, p, nonce, now);
    ConsumableIsCurrent(cfg, s, token, p, nonce, now);
    var found := LinkRules.Consumable(cfg, s, token, p, nonce, now);
    if found.link.Some? { ConsumeStep(cfg, s, found.link.value, now); }
  }

  lemma ConsumeStep(cfg: Settings, s: State, link: EmailLink, now: Time)
    requires Inv(cfg, s) && link.id in s.links && s.links[link.id] == link
    requires link.userId in s.users && LinkRules.MatchesUser(cfg, link, s.users[link.userId], now)
    ensures Keeps(cfg, s, PutLink(s, Consumed(link, now)), now)
  {
    LinkSafety.ConsumeKeeps(cfg, s, link, now);
    LinkStep(cfg, s, PutLink(s, Consumed(link, now)), now);
  }

  lemma LinkLoginKeeps(cfg: Settings, s: State, token: string, nonce: string, now: Time, draw: Fresh)
    requires Inv(cfg, s) && cfg.Valid() && FreshFamily(s, draw)
    ensures Keeps(cfg, s, LinkRules.LinkLogin(cfg, s, token, nonce, now, draw).st, now)
  {
    hide Inv, Evolves;
    Idle(cfg, s, now);
    RedeemKeeps(cfg, s, token, LoginLink, Some(nonce), now);
    var found := LinkRules.Redeem(cfg, s, token, LoginLink, Some(nonce), now);
    if found.link.Some? {
      ThenIssue(cfg, s, found.st, found.user.value, now, draw);
    }
  }

  lemma ThenReplacePassword(cfg: Settings, a: State, b: State, u: User, now: Time)
    requires Inv(cfg, a) && cfg.Valid() && Keeps(cfg, a, b, now) && OnlyLinks(a, b) && b.links.Keys == a.links.Keys
    requires u.id in a.users && UserEvolves(a.users[u.id], u)
    requires u.failedLoginAttempts == 0 && u.lockedUntil.None? && u.roles == a.users[u.id].roles
    requires a.users[u.id].status == Active ==> u.status == Active
    ensures Keeps(cfg, a, RevokeUserSessions(PutUser(b, u), u.id, now), now)
  {
    hide Inv, Evolves;
    ReplacePasswordKeeps(cfg, b, u, now);
    KeepsTransitive(cfg, a, b, RevokeUserSessions(PutUser(b, u), u.id, now), now);
  }

  lemma RedeemForAccountKeeps(cfg: Settings, s: State, token: string, p: Purpose, acceptable: bool,
                              hash: string, now: Time)
    requires Inv(cfg, s) && cfg.Valid() && p != LoginLink
    ensures Keeps(cfg, s, LinkRules.RedeemForAccount(cfg, s, token, p, acceptable, hash, now).st, now)
  {
    hide Inv, Evolves;
    Idle(cfg, s, now);
    RedeemKeeps(cfg, s, token, p, None, now);
    var found := LinkRules.Redeem(cfg, s, token, p, None, now);
    if found.link.Some? {
      var updated := LinkRules.Redeemed(found.user.value, p, hash, now);
      if updated.Some? { ThenReplacePassword(cfg, s, found.st, updated.value, now); }
    }
  }

  lemma MarkDeliveredKeeps(cfg: Settings, s: State, id: Uuid, now: Time)
    requires Inv(cfg, s)
    ensures Keeps(cfg, s, LinkRules.MarkDelivered(cfg, s, id, now).st, now)
  {
    LinkSafety.DeliverKeeps(cfg, s, id, now);
    LinkStep(cfg, s, LinkRules.MarkDelivered(cfg, s, id, now).st, now);
  }

  lemma MarkDeliveryFailedKeeps(cfg: Settings, s: State, id: Uuid, now: Time)
    requires Inv(cfg, s)
    ensures Keeps(cfg, s, LinkRules.MarkDeliveryFailed(s, id, now).st, now)
  {
    LinkSafety.FailLinkKeeps(s, id, now);
    LinkStep(cfg, s, LinkRules.MarkDeliveryFailed(s, id, now).st, now);
  }

  lemma FoundIdentity(cfg: Settings, s: State, subject: string)
    requires Inv(cfg, s)
    ensures var i := IdentityBySubject(s.identities, GOOGLE_ISSUER, subject);
            i.Some? ==> i.value.id in s.identities && s.identities[i.value.id] == i.value && i.value.userId in s.users
  {}

  // google ---------------------------------------------------------------------------------------

  lemma LoginLinkedKeeps(cfg: Settings, s: State, i: Identity, claims: GoogleClaims, now: Time, draw: Fresh)
    requires Inv(cfg, s) && cfg.Valid() && FreshFamily(s, draw)
    requires i.id in s.identities && s.identities[i.id] == i
    ensures Keeps(cfg, s, GoogleRules.LoginLinked(cfg, s, i, claims, now, draw).st, now)
  {
    hide Inv, Evolves;
    Idle(cfg, s, now);
    if i.userId in s.users && s.users[i.userId].CanAuthenticate(now) {
      FoundById(cfg, s, i.userId);
      var s1 := PutIdentity(s, GoogleRules.SeenAgain(i, claims, now));
      IdentityStep(cfg, s, GoogleRules.SeenAgain(i, claims, now), now);
      ThenIssue(cfg, s, s1, s.users[i.userId], now, draw);
    }
  }

  lemma InsertIdentityAndLoginKeeps(cfg: Settings, s: State, u: User, claims: GoogleClaims, now: Time,
                                    draw: GoogleRules.GoogleDraw)
    requires Inv(cfg, s) && cfg.Valid() && FreshFamily(s, draw.session) && u.id in s.users
    ensures Keeps(cfg, s, GoogleRules.InsertIdentityAndLogin(cfg, s, u, claims, now, draw).st, now)
  {
    hide Inv, Evolves;
    Idle(cfg, s, now);
    var i := GoogleRules.NewIdentity(draw.identityId, u.id, claims, now);
    if !IdentityClashes(s.identities, i) {
      IdentityStep(cfg, s, i, now);
      LoginLinkedKeeps(cfg, PutIdentity(s, i), i, claims, now, draw.session);
      KeepsTransitive(cfg, s, PutIdentity(s, i),
                      GoogleRules.LoginLinked(cfg, PutIdentity(s, i), i, claims, now, draw.session).st, now);
    }
  }

  lemma LinkAndLoginKeeps(cfg: Settings, s: State, u: User, claims: GoogleClaims, now: Time,
                          draw: GoogleRules.GoogleDraw)
    requires Inv(cfg, s) && cfg.Valid() && FreshFamily(s, draw.session)
    requires u.id in s.users && s.users[u.id] == u && u.CanAuthenticate(now)
    ensures Keeps(cfg, s, GoogleRules.LinkAndLogin(cfg, s, u, claims, now, draw).st, now)
  {
    hide Inv, Evolves;
    var linked := u.DisablePassword(draw.passwordHash, now);
    FoundById(cfg, s, u.id);
    SaveUser(cfg, s, linked, now);
    InsertIdentityAndLoginKeeps(cfg, PutUser(s, linked), linked, claims, now, draw);
    KeepsTransitive(cfg, s, PutUser(s, linked),
      GoogleRules.InsertIdentityAndLogin(cfg, PutUser(s, linked), linked, claims, now, draw).st, now);
  }

  lemma OpenAndLoginKeeps(cfg: Settings, s: State, claims: GoogleClaims, now: Time, draw: GoogleRules.GoogleDraw)
    requires Inv(cfg, s) && cfg.Valid() && FreshFamily(s, draw.session) && claims.email.Some?
    ensures Keeps(cfg, s, GoogleRules.OpenAndLogin(cfg, s, claims, now, draw).st, now)
  {
    hide Inv, Evolves, GoogleRules.InsertIdentityAndLogin;
    Idle(cfg, s, now);
    var u := GoogleRules.OpenUser(cfg, claims, now, draw);
    AddUserKeeps(cfg, s, u, now);
    if UserRules.AddUser(s, u).out.UserSaved? {
      InsertIdentityAndLoginKeeps(cfg, PutUser(s, u), u, claims, now, draw);
      InsertIdentityLeaves(cfg, PutUser(s, u), u, claims, now, draw);
      KeepsTransitive(cfg, s, PutUser(s, u),
        GoogleRules.InsertIdentityAndLogin(cfg, PutUser(s, u), u, claims, now, draw).st, now);
    }
  }

  lemma InsertIdentityLeaves(cfg: Settings, s: State, u: User, claims: GoogleClaims, now: Time,
                             draw: GoogleRules.GoogleDraw)
    ensures var r := GoogleRules.InsertIdentityAndLogin(cfg, s, u, claims, now, draw).st;
            r.links == s.links && r.googleChallenges == s.googleChallenges && r.passkeyChallenges == s.passkeyChallenges
  {
  }

  lemma LoginUnlinkedKeeps(cfg: Settings, s: State, claims: GoogleClaims, now: Time, draw: GoogleRules.GoogleDraw)
    requires Inv(cfg, s) && cfg.Valid() && FreshFamily(s, draw.session)
    ensures Keeps(cfg, s, GoogleRules.LoginUnlinked(cfg, s, claims, now, draw).st, now)
  {
    hide Inv, Evolves;
    Idle(cfg, s, now);
    if cfg.googleAccountMode != LinkedOnly && GoogleRules.IsAuthoritative(claims) {
      FoundByEmail(cfg, s, claims.email.value);
      var user := UserByEmail(s.users, claims.email.value);
      if user.Some? {
        if GoogleRules.CanAutoLink(user.value, claims, now) {
          LinkAndLoginKeeps(cfg, s, user.value, claims, now, draw);
        }
      } else {
        OpenAndLoginKeeps(cfg, s, claims, now, draw);
      }
    }
  }

  lemma GoogleLoginKeeps(cfg: Settings, s: State, claims: GoogleClaims, now: Time, draw: GoogleRules.GoogleDraw)
    requires Inv(cfg, s) && cfg.Valid() && FreshFamily(s, draw.session)
    ensures Keeps(cfg, s, GoogleRules.LoginOnce(cfg, s, claims, now, draw).st, now)
  {
    hide Inv, Evolves;
    Idle(cfg, s, now);
    var i := IdentityBySubject(s.identities, GOOGLE_ISSUER, claims.subject);
    FoundIdentity(cfg, s, claims.subject);
    if i.Some? { LoginLinkedKeeps(cfg, s, i.value, claims, now, draw.session); }
    else { LoginUnlinkedKeeps(cfg, s, claims, now, draw); }
  }

  lemma GoogleLoginAfterConflictKeeps(cfg: Settings, s: State, claims: GoogleClaims, now: Time, draw: Fresh)
    requires Inv(cfg, s) && cfg.Valid() && FreshFamily(s, draw)
    ensures Keeps(cfg, s, GoogleRules.LoginAfterConflict(cfg, s, claims, now, draw).st, now)
  {
    hide Inv, Evolves;
    Idle(cfg, s, now);
    var i := IdentityBySubject(s.identities, GOOGLE_ISSUER, claims.subject);
    FoundIdentity(cfg, s, claims.subject);
    if i.Some? { LoginLinkedKeeps(cfg, s, i.value, claims, now, draw); }
  }

  lemma GoogleLinkKeeps(cfg: Settings, s: State, p: Principal, claims: GoogleClaims, now: Time, id: Uuid)
    requires Inv(cfg, s) && cfg.Valid()
    ensures Keeps(cfg, s, GoogleRules.LinkOnce(cfg, s, p, claims, now, id).st, now)
  {
    hide Inv, Evolves;
    Idle(cfg, s, now);
    var user := UserById(s.users, p.userId);
    if GoogleRules.CanLink(s, p, user, now) {
      var unlinked := user.value.(googleAutoLinkAllowed := false).AdvanceSecurityVersion(now);
      FoundById(cfg, s, p.userId);
      SaveUser(cfg, s, unlinked, now);
      var i := GoogleRules.NewIdentity(id, p.userId, claims, now);
      if !IdentityClashes(s.identities, i) {
        IdentityStep(cfg, s, i, now);
        SaveUser(cfg, PutIdentity(s, i), unlinked, now);
        KeepsTransitive(cfg, s, PutIdentity(s, i), PutUser(PutIdentity(s, i), unlinked), now);
      }
    }
  }

  lemma RecoverKeeps(cfg: Settings, s: State, user: Uuid, hash: string, now: Time)
    requires Inv(cfg, s) && cfg.Valid()
    ensures Keeps(cfg, s, GoogleRules.RecoverPasswordAccess(s, user, hash, now).st, now)
  {
    hide Inv, Evolves;
    Idle(cfg, s, now);
    var i := IdentityOfUser(s.identities, user, GOOGLE_ISSUER);
    if user in s.users && i.Some? {
      FoundById(cfg, s, user);
      var recovered := s.users[user].RequirePasswordChange(hash, now);
      var s1 := DropIdentity(s, i.value.id);
      DropIdentityStep(cfg, s, i.value.id, now);
      ReplacePasswordKeeps(cfg, s1, recovered, now);
      KeepsTransitive(cfg, s, s1, RevokeUserSessions(PutUser(s1, recovered), user, now), now);
      assert RevokeUserSessions(PutUser(s1, recovered), user, now)
          == RevokeUserSessions(DropIdentity(PutUser(s, recovered), i.value.id), user, now);
    }
  }

  lemma GoogleBeginKeeps(cfg: Settings, s: State, purpose: GooglePurpose, origin: Option<string>,
                         user: Option<Uuid>, id: Uuid, nonce: string, now: Time)
    requires Inv(cfg, s) && id !in s.googleChallenges
    ensures Keeps(cfg, s, GoogleRules.Begin(cfg, s, purpose, origin, user, id, nonce, now).st, now)
  {
    hide Inv, Keeps, UsersUnique, SessionsUnique, LinksUnique, PasskeysUnique, IdentitiesOneToOne, User.CanAuthenticate;
    InvParts(cfg, s);
    ChallengeStep(cfg, s, GoogleRules.Begin(cfg, s, purpose, origin, user, id, nonce, now).st, now);
  }

  lemma GoogleConsumeKeeps(cfg: Settings, s: State, purpose: GooglePurpose, origin: Option<string>,
                           user: Option<Uuid>, id: Uuid, now: Time)
    requires Inv(cfg, s)
    ensures Keeps(cfg, s, GoogleRules.Consume(cfg, s, id, purpose, origin, user, now).st, now)
  {
    ChallengeStep(cfg, s, GoogleRules.Consume(cfg, s, id, purpose, origin, user, now).st, now);
  }

  // passkeys -------------------------------------------------------------------------------------

  lemma PasskeyChallengeKeeps(cfg: Settings, s: State, c: PasskeyChallenge, now: Time)
    requires Inv(cfg, s) && c.id !in s.passkeyChallenges
    ensures Keeps(cfg, s, PasskeyRules.Begin(s, c, now).st, now)
  {
    hide Inv, Keeps, UsersUnique, SessionsUnique, LinksUnique, PasskeysUnique, IdentitiesOneToOne;
    InvParts(cfg, s);
    ChallengeStep(cfg, s, PasskeyRules.Begin(s, c, now).st, now);
  }

  lemma PasskeyConsumeKeeps(cfg: Settings, s: State, id: Uuid, purpose: CeremonyPurpose, user: Option<Uuid>,
                            family: Option<Uuid>, now: Time)
    requires Inv(cfg, s)
    ensures Keeps(cfg, s, PasskeyRules.Consume(s, id, purpose, user, family, now).st, now)
  {
    ChallengeStep(cfg, s, PasskeyRules.Consume(s, id, purpose, user, family, now).st, now);
  }

  lemma AdvanceKeeps(cfg: Settings, s: State, id: Uuid, now: Time)
    requires Inv(cfg, s) && id in s.users
    ensures Keeps(cfg, s, PutUser(s, s.users[id].AdvanceSecurityVersion(now)), now)
  {
    assert CountersFit(cfg, s.users[id]);
    SaveUser(cfg, s, s.users[id].AdvanceSecurityVersion(now), now);
  }

  lemma SavePasskeyAndAdvance(cfg: Settings, s: State, p: Passkey, id: Uuid, now: Time)
    requires Keeps(cfg, s, PutPasskey(s, p), now) && id in s.users
    ensures Keeps(cfg, s, PutUser(PutPasskey(s, p), s.users[id].AdvanceSecurityVersion(now)), now)
  {
    hide Inv, Evolves;
    AdvanceKeeps(cfg, PutPasskey(s, p), id, now);
    KeepsTransitive(cfg, s, PutPasskey(s, p),
                    PutUser(PutPasskey(s, p), s.users[id].AdvanceSecurityVersion(now)), now);
  }

  lemma RegisterKeeps(cfg: Settings, s: State, p: Principal, passkey: Passkey, now: Time)
    requires Inv(cfg, s) && passkey.userId == p.userId
    ensures Keeps(cfg, s, PasskeyRules.Register(cfg, s, p, passkey, now).st, now)
  {
    hide Inv, Evolves;
    Idle(cfg, s, now);
    if PasskeyRules.Register(cfg, s, p, passkey, now).out.PasskeySaved? {
      PasskeyStep(cfg, s, passkey, now);
      SavePasskeyAndAdvance(cfg, s, passkey, p.userId, now);
    }
  }

  lemma RevokePasskeyKeeps(cfg: Settings, s: State, p: Principal, id: Uuid, origin: Option<string>, now: Time)
    requires Inv(cfg, s)
    ensures Keeps(cfg, s, PasskeyRules.RevokePasskey(cfg, s, p, id, origin, now).st, now)
  {
    hide Inv, Evolves;
    Idle(cfg, s, now);
    if PasskeyRules.RevokePasskey(cfg, s, p, id, origin, now).out.Acknowledged? {
      InvParts(cfg, s);
      PasskeyStep(cfg, s, s.passkeys[id].(revokedAt := Some(now)), now);
      SavePasskeyAndAdvance(cfg, s, s.passkeys[id].(revokedAt := Some(now)), p.userId, now);
    }
  }

  lemma AcceptedIsStored(cfg: Settings, s: State, a: PasskeyRules.Assertion, expected: Option<Uuid>, now: Time)
    requires Inv(cfg, s)
    ensures var p := PasskeyRules.AcceptedPasskey(s, a, expected, now);
            p.Some? ==> p.value.id in s.passkeys && s.passkeys[p.value.id] == p.value && p.value.revokedAt.None?
                        && PasskeyRules.UserStands(s, p.value.userId, now) && a.Assertion? && a.verified.Some?
  {}

  lemma LoginByPasskeyKeeps(cfg: Settings, s: State, a: PasskeyRules.Assertion, now: Time, draw: Fresh)
    requires Inv(cfg, s) && cfg.Valid() && FreshFamily(s, draw)
    ensures Keeps(cfg, s, PasskeyRules.LoginByPasskey(cfg, s, a, now, draw).st, now)
  {
    hide Inv, Evolves;
    Idle(cfg, s, now);
    AcceptedIsStored(cfg, s, a, None, now);
    var p := PasskeyRules.AcceptedPasskey(s, a, None, now);
    if p.Some? {
      FoundById(cfg, s, p.value.userId);
      var s1 := PutPasskey(s, PasskeyRules.UsedPasskey(p.value, a.verified.value, now));
      PasskeyStep(cfg, s, PasskeyRules.UsedPasskey(p.value, a.verified.value, now), now);
      ThenIssue(cfg, s, s1, s.users[p.value.userId], now, draw);
    }
  }

  lemma ConfirmByPasskeyKeeps(cfg: Settings, s: State, p: Principal, a: PasskeyRules.Assertion, now: Time)
    requires Inv(cfg, s)
    ensures Keeps(cfg, s, PasskeyRules.ConfirmByPasskey(s, p, a, now).st, now)
  {
    hide Inv, Evolves;
    Idle(cfg, s, now);
    AcceptedIsStored(cfg, s, a, Some(p.userId), now);
    var k := PasskeyRules.AcceptedPasskey(s, a, Some(p.userId), now);
    if k.Some? { PasskeyStep(cfg, s, PasskeyRules.UsedPasskey(k.value, a.verified.value, now), now); }
  }

  // All of them ------------------------------------------------------------------------------------

  /** The stored identifiers are remembered. */
  predicate Remembered(h: History, s: State) {
    && (forall id :: id in s.links ==> id in h.links)
    && s.googleChallenges.Keys <= h.google && s.passkeyChallenges.Keys <= h.passkey
  }

  lemma ApplySessionKeeps(cfg: Settings, s: State, op: SessionOp, now: Time)
    requires Inv(cfg, s) && cfg.Valid()
    requires LoginDraw(OnSessions(op)).Some? ==> FreshFamily(s, LoginDraw(OnSessions(op)).value)
    ensures Keeps(cfg, s, ApplySession(cfg, s, op, now).st, now)
  {
    hide Inv, Evolves;
    match op
    case Login(email, v, draw) => LoginKeeps(cfg, s, email, v, now, draw);
    case Reauthenticate(p, v) => ReauthenticateKeeps(cfg, s, p, v, now);
    case Refresh(token, cookie, _, _, draw) =>
      Idle(cfg, s, now);
      RefreshKeeps(cfg, s, token, cookie, now, draw);
    case Logout(token, cookie, _, _) =>
      Idle(cfg, s, now);
      LogoutKeeps(cfg, s, token, cookie, now);
    case ChangePassword(p, c, draw) => ChangePasswordKeeps(cfg, s, p, c, now, draw);
  }

  lemma ApplyUserKeeps(cfg: Settings, s: State, op: UserOp, now: Time)
    requires Inv(cfg, s) && cfg.Valid()
    ensures Keeps(cfg, s, ApplyUser(cfg, s, op, now).st, now)
  {
    hide Inv, Evolves;
    Idle(cfg, s, now);
    match op
    case CreateAdmin(id, email, name, hash) =>
      AddUserKeeps(cfg, s, UserRules.NewAccount(id, email, name, hash, [cfg.adminRole], ["auth:admin"], now), now);
    case CreateUser(id, email, name, hash, roles, scopes, autoLink) =>
      AddUserKeeps(cfg, s, UserRules.NewAccount(id, email, name, hash, roles, scopes, now).(
        mustChangePassword := true, googleAutoLinkAllowed := autoLink), now);
    case UpdateUser(id, update) => UpdateUserKeeps(cfg, s, id, update, now);
    case ResetPassword(id, hash) =>
      if id in s.users {
        FoundById(cfg, s, id);
        ReplacePasswordKeeps(cfg, s, s.users[id].RequirePasswordChange(hash, now), now);
      }
    case RevokeAllSessions(id) => if id in s.users { RevokeAllKeeps(cfg, s, id, now); }
  }

  lemma ApplyLinkKeeps(cfg: Settings, retain: bool, s: State, op: LinkOp, now: Time)
    requires Inv(cfg, s) && cfg.Valid()
    requires LoginDraw(OnLinks(op)).Some? ==> FreshFamily(s, LoginDraw(OnLinks(op)).value)
    requires LinkDrawn(OnLinks(op)).Some? ==> LinkDrawn(OnLinks(op)).value.linkId !in s.links
    ensures Keeps(cfg, s, ApplyLink(cfg, retain, s, op, now).st, now)
  {
    hide Inv, Evolves;
    match op
    case RequestLoginLink(email, nonce, link) =>
      RequestLinkKeeps(cfg, retain, s, email, LoginLink, Some(nonce), link, now);
    case RequestPasswordReset(email, link) => RequestLinkKeeps(cfg, retain, s, email, PasswordReset, None, link, now);
    case Invite(id, link) => IssueForUserKeeps(cfg, retain, s, id, Invitation, link, now);
    case ReplaceActivation(id, link) =>
      Idle(cfg, s, now);
      IssueForUserKeeps(cfg, retain, s, id, Activation, link, now);
    case Provision(id, email, name, hash, roles, link) =>
      Idle(cfg, s, now);
      CreatePendingKeeps(cfg, retain, s, LinkRules.PendingUser(id, email, name, hash, roles, [], now), link, now);
    case EnsureInitialAdmin(id, email, name, hash, link) =>
      Idle(cfg, s, now);
      CreatePendingKeeps(cfg, retain, s,
        LinkRules.PendingUser(id, email, name, hash, [cfg.adminRole], ["auth:admin"], now), link, now);
    case MarkDelivered(id) => MarkDeliveredKeeps(cfg, s, id, now);
    case MarkDeliveryFailed(id) => MarkDeliveryFailedKeeps(cfg, s, id, now);
    case LoginByLink(token, nonce, draw) => LinkLoginKeeps(cfg, s, token, nonce, now, draw);
    case ResetByLink(token, acceptable, hash) =>
      RedeemForAccountKeeps(cfg, s, token, PasswordReset, acceptable, hash, now);
    case ActivateInvitation(token, hash) => RedeemForAccountKeeps(cfg, s, token, Invitation, true, hash, now);
    case ActivateAccount(token, acceptable, hash) =>
      RedeemForAccountKeeps(cfg, s, token, Activation, acceptable, hash, now);
  }

  lemma ApplyGoogleKeeps(cfg: Settings, s: State, op: GoogleOp, now: Time)
    requires Inv(cfg, s) && cfg.Valid()
    requires LoginDraw(OnGoogle(op)).Some? ==> FreshFamily(s, LoginDraw(OnGoogle(op)).value)
    requires GoogleChallengeDrawn(OnGoogle(op)).Some? ==>
               GoogleChallengeDrawn(OnGoogle(op)).value !in s.googleChallenges
    ensures Keeps(cfg, s, ApplyGoogle(cfg, s, op, now).st, now)
  {
    hide Inv, Evolves;
    match op
    case BeginGoogleLogin(origin, id, nonce) =>
      GoogleBeginKeeps(cfg, s, GoogleLoginPurpose, origin, None, id, nonce, now);
    case BeginGoogleLink(p, origin, id, nonce) =>
      Idle(cfg, s, now);
      GoogleBeginKeeps(cfg, s, GoogleLinkPurpose, origin, Some(p.userId), id, nonce, now);
    case ConsumeGoogle(id, purpose, origin, user) => GoogleConsumeKeeps(cfg, s, purpose, origin, user, id, now);
    case GoogleLogin(claims, google) => GoogleLoginKeeps(cfg, s, claims, now, google);
    case GoogleLoginAfterConflict(claims, draw) => GoogleLoginAfterConflictKeeps(cfg, s, claims, now, draw);
    case GoogleLink(p, claims, id) => GoogleLinkKeeps(cfg, s, p, claims, now, id);
    case RecoverPasswordAccess(id, hash) => RecoverKeeps(cfg, s, id, hash, now);
  }

  lemma ApplyPasskeyKeeps(cfg: Settings, s: State, op: PasskeyOp, now: Time)
    requires Inv(cfg, s) && cfg.Valid()
    requires LoginDraw(OnPasskeys(op)).Some? ==> FreshFamily(s, LoginDraw(OnPasskeys(op)).value)
    requires PasskeyChallengeDrawn(OnPasskeys(op)).Some? ==>
               PasskeyChallengeDrawn(OnPasskeys(op)).value !in s.passkeyChallenges
    ensures Keeps(cfg, s, ApplyPasskey(cfg, s, op, now).st, now)
  {
    hide Inv, Evolves;
    match op
    case BeginRegistration(p, origin, c) =>
      Idle(cfg, s, now);
      if origin.Some? {
        PasskeyChallengeKeeps(cfg, s,
          PasskeyRules.NewChallenge(cfg, Registration, origin.value, Some(p.userId), None, c, now), now);
      }
    case BeginAuthentication(origin, c) =>
      Idle(cfg, s, now);
      if origin.Some? {
        PasskeyChallengeKeeps(cfg, s,
          PasskeyRules.NewChallenge(cfg, Authentication, origin.value, None, None, c, now), now);
      }
    case BeginReauthentication(p, origin, c) =>
      Idle(cfg, s, now);
      if origin.Some? {
        PasskeyChallengeKeeps(cfg, s,
          PasskeyRules.NewChallenge(cfg, Reauthentication, origin.value,
                                    Some(p.userId), Some(p.familyId), c, now), now);
      }
    case ConsumePasskey(id, purpose, user, family) => PasskeyConsumeKeeps(cfg, s, id, purpose, user, family, now);
    case RegisterPasskey(p, id, name, response) =>
      RegisterKeeps(cfg, s, p, PasskeyRules.NewPasskey(id, p.userId, name, response, now), now);
    case LoginByPasskey(a, draw) => LoginByPasskeyKeeps(cfg, s, a, now, draw);
    case ConfirmByPasskey(p, a) => ConfirmByPasskeyKeeps(cfg, s, p, a, now);
    case RevokePasskey(p, id, origin) => RevokePasskeyKeeps(cfg, s, p, id, origin, now);
  }

  /** Every step of every service keeps the invariant. */
  lemma ApplyKeeps(cfg: Settings, retain: bool, h: History, s: State, op: Op, now: Time)
    requires Inv(cfg, s) && cfg.Valid() && Remembered(h, s) && FreshFor(h, s, op)
    ensures Keeps(cfg, s, Apply(cfg, retain, s, op, now).st, now)
  {
    hide Inv, Evolves;
    match op
    case OnSessions(x) => ApplySessionKeeps(cfg, s, x, now);
    case OnUsers(x) => ApplyUserKeeps(cfg, s, x, now);
    case OnLinks(x) => ApplyLinkKeeps(cfg, retain, s, x, now);
    case OnGoogle(x) => ApplyGoogleKeeps(cfg, s, x, now);
    case OnPasskeys(x) => ApplyPasskeyKeeps(cfg, s, x, now);
  }
}
