/** Which tables an operation reads and writes: given other contents in the tables it does not use,
    it answers the same, writes the same, and leaves those tables alone. */
module Frames {
  import opened Models
  import opened Config
  import opened StoreState
  import opened SessionRules
  import UserRules
  import LinkRules
  import GoogleRules
  import PasskeyRules
  import opened Machine

  // Sessions and accounts ------------------------------------------------------------------------

  function Accounts(s: State, o: State): State { o.(users := s.users, sessions := s.sessions) }

  /** `f`, the reply from `s`, is also the reply from the accounts of `s` among the tables of `o`. */
  predicate SameOnAccounts(f: Reply, g: Reply, o: State) { g == Reply(Accounts(f.st, o), f.out) }

  lemma RevocationsOnAccounts(s: State, o: State, id: Uuid, now: Time)
    ensures RevokeFamily(Accounts(s, o), id, now) == Accounts(RevokeFamily(s, id, now), o)
    ensures RevokeUserSessions(Accounts(s, o), id, now) == Accounts(RevokeUserSessions(s, id, now), o)
  {
    assert RevokeFamily(Accounts(s, o), id, now).sessions == RevokeFamily(s, id, now).sessions;
    assert RevokeUserSessions(Accounts(s, o), id, now).sessions == RevokeUserSessions(s, id, now).sessions;
  }

  lemma IssueOnAccounts(cfg: Settings, s: State, o: State, u: User, now: Time, lineage: Lineage, draw: Fresh)
    ensures SameOnAccounts(Issue(cfg, s, u, now, lineage, draw), Issue(cfg, Accounts(s, o), u, now, lineage, draw), o)
  {
    hide NewSession, Bundle;
  }

  lemma FailureOnAccounts(cfg: Settings, s: State, o: State, user: Option<User>, now: Time)
    ensures RecordPasswordFailure(cfg, Accounts(s, o), user, now)
            == Accounts(RecordPasswordFailure(cfg, s, user, now), o)
  {
    hide AfterFailure, RevokeUserSessions, User.CanAuthenticate;
    if Counts(user, now) {
      var failed := AfterFailure(cfg, user.value, now);
      RevocationsOnAccounts(PutUser(s, failed), o, failed.id, now);
    }
  }

  lemma LoginOnAccounts(cfg: Settings, s: State, o: State, email: string, v: PasswordVerification, now: Time,
                        draw: Fresh)
    ensures SameOnAccounts(SessionRules.Login(cfg, s, email, v, now, draw),
                           SessionRules.Login(cfg, Accounts(s, o), email, v, now, draw), o)
  {
    hide AfterVerification, Issue, RecordPasswordFailure, UserByEmail, User.CanAuthenticate;
    var user := UserByEmail(s.users, email);
    FailureOnAccounts(cfg, s, o, user, now);
    if user.Some? {
      var verified := AfterVerification(user.value, v, now);
      IssueOnAccounts(cfg, PutUser(s, verified), o, verified, now, NewLogin, draw);
    }
  }

  lemma DecideRefreshOnAccounts(cfg: Settings, s: State, o: State, hash: Hash, user: Option<User>,
                                row: Option<Session>, csrf: string, now: Time, draw: Fresh)
    ensures SameOnAccounts(DecideRefresh(cfg, s, hash, user, row, csrf, now, draw),
                           DecideRefresh(cfg, Accounts(s, o), hash, user, row, csrf, now, draw), o)
  {
    hide Issue, RevokeFamily, User.CanAuthenticate;
    if row.Some? { RevocationsOnAccounts(s, o, row.value.familyId, now); }
    if row.Some? && user.Some? {
      var x := row.value;
      IssueOnAccounts(cfg, s, o, user.value, now, Rotation(x.familyId, x.absoluteExpiresAt, x.authenticatedAt), draw);
    }
  }

  lemma RefreshOnAccounts(cfg: Settings, s: State, o: State, token: string, csrf: string, now: Time, draw: Fresh)
    ensures SameOnAccounts(SessionRules.Refresh(cfg, s, token, csrf, now, draw),
                           SessionRules.Refresh(cfg, Accounts(s, o), token, csrf, now, draw), o)
  {
    hide SessionByToken, DecideRefresh;
    var candidate := SessionByToken(s.sessions, Sha256(token));
    if candidate.Some? {
      DecideRefreshOnAccounts(cfg, s, o, Sha256(token), UserById(s.users, candidate.value.userId),
                              SessionById(s.sessions, candidate.value.id), csrf, now, draw);
    }
  }

  lemma DecideLogoutOnAccounts(s: State, o: State, hash: Hash, user: Option<User>, row: Option<Session>,
                               csrf: string, now: Time)
    ensures SameOnAccounts(DecideLogout(s, hash, user, row, csrf, now),
                           DecideLogout(Accounts(s, o), hash, user, row, csrf, now), o)
  {
    hide RevokeFamily, LiveInFamily;
    if row.Some? { RevocationsOnAccounts(s, o, row.value.familyId, now); }
  }

  lemma LogoutOnAccounts(s: State, o: State, token: string, csrf: string, now: Time)
    ensures SameOnAccounts(SessionRules.Logout(s, token, csrf, now),
                           SessionRules.Logout(Accounts(s, o), token, csrf, now), o)
  {
    hide DecideLogout, SessionByToken;
    var candidate := SessionByToken(s.sessions, Sha256(token));
    if candidate.Some? {
      DecideLogoutOnAccounts(s, o, Sha256(token), UserById(s.users, candidate.value.userId),
                             SessionById(s.sessions, candidate.value.id), csrf, now);
    }
  }

  lemma ChangePasswordOnAccounts(cfg: Settings, s: State, o: State, p: Principal, c: PasswordChange, now: Time,
                                 draw: Fresh)
    ensures SameOnAccounts(SessionRules.ChangePassword(cfg, s, p, c, now, draw),
                           SessionRules.ChangePassword(cfg, Accounts(s, o), p, c, now, draw), o)
  {
    hide Issue, RevokeUserSessions, User.CanAuthenticate, User.ActivatePassword, Session.IsValidFor;
    if p.userId in s.users {
      var changed := s.users[p.userId].ActivatePassword(c.newHash, now);
      RevocationsOnAccounts(PutUser(s, changed), o, changed.id, now);
      IssueOnAccounts(cfg, RevokeUserSessions(PutUser(s, changed), changed.id, now), o, changed, now, NewLogin, draw);
    }
  }

  lemma SessionOpsOnAccounts(cfg: Settings, s: State, o: State, op: SessionOp, now: Time)
    ensures SameOnAccounts(ApplySession(cfg, s, op, now), ApplySession(cfg, Accounts(s, o), op, now), o)
  {
    hide SessionRules.Login, SessionRules.Refresh, SessionRules.Logout, SessionRules.ChangePassword;
    hide RecordPasswordFailure, User.CanAuthenticate, Session.IsValidFor, AfterVerification;
    match op
    case Login(email, v, draw) => LoginOnAccounts(cfg, s, o, email, v, now, draw);
    case Reauthenticate(p, v) => FailureOnAccounts(cfg, s, o, UserById(s.users, p.userId), now);
    case Refresh(token, cookie, _, _, draw) => RefreshOnAccounts(cfg, s, o, token, cookie, now, draw);
    case Logout(token, cookie, _, _) => LogoutOnAccounts(s, o, token, cookie, now);
    case ChangePassword(p, c, draw) => ChangePasswordOnAccounts(cfg, s, o, p, c, now, draw);
  }

  lemma AddUserOnAccounts(s: State, o: State, u: User)
    ensures SameOnAccounts(UserRules.AddUser(s, u), UserRules.AddUser(Accounts(s, o), u), o)
  {
  }

  lemma UpdateUserOnAccounts(cfg: Settings, s: State, o: State, id: Uuid, update: UserUpdate, now: Time)
    ensures SameOnAccounts(UserRules.UpdateUser(cfg, s, id, update, now),
                           UserRules.UpdateUser(cfg, Accounts(s, o), id, update, now), o)
  {
    hide RevokeUserSessions, UserRules.Merged, InRole;
    hide User.AdvanceSecurityVersion, UserRules.SecurityChanged, UserRules.StatusChangeRefused, UserRules.IsActiveAdmin;
    if id in s.users {
      var merged := UserRules.Merged(s.users[id], update, now);
      RevocationsOnAccounts(PutUser(s, merged), o, id, now);
      RevocationsOnAccounts(PutUser(s, merged.AdvanceSecurityVersion(now)), o, id, now);
    }
  }

  lemma CreationOnAccounts(cfg: Settings, s: State, o: State, id: Uuid, email: string, name: string, hash: string,
                           roles: seq<string>, scopes: seq<string>, autoLink: bool, now: Time)
    ensures SameOnAccounts(UserRules.CreateAdmin(cfg, s, id, email, name, hash, now),
                           UserRules.CreateAdmin(cfg, Accounts(s, o), id, email, name, hash, now), o)
    ensures SameOnAccounts(UserRules.CreateUser(s, id, email, name, hash, roles, scopes, autoLink, now),
                           UserRules.CreateUser(Accounts(s, o), id, email, name, hash, roles, scopes, autoLink, now), o)
  {
    hide UserRules.NewAccount, UserRules.AddUser, InRole;
    AddUserOnAccounts(s, o, UserRules.NewAccount(id, email, name, hash, [cfg.adminRole], ["auth:admin"], now));
    AddUserOnAccounts(s, o, UserRules.NewAccount(id, email, name, hash, roles, scopes, now).(
      mustChangePassword := true, googleAutoLinkAllowed := autoLink));
  }

  lemma ResetOnAccounts(s: State, o: State, id: Uuid, hash: string, now: Time)
    ensures SameOnAccounts(UserRules.ResetPassword(s, id, hash, now),
                           UserRules.ResetPassword(Accounts(s, o), id, hash, now), o)
    ensures SameOnAccounts(UserRules.RevokeAllSessions(s, id, now),
                           UserRules.RevokeAllSessions(Accounts(s, o), id, now), o)
  {
    hide RevokeUserSessions, User.RequirePasswordChange, LiveOfUser;
    if id in s.users { RevocationsOnAccounts(PutUser(s, s.users[id].RequirePasswordChange(hash, now)), o, id, now); }
    RevocationsOnAccounts(s, o, id, now);
  }

  lemma UserOpsOnAccounts(cfg: Settings, s: State, o: State, op: UserOp, now: Time)
    ensures SameOnAccounts(ApplyUser(cfg, s, op, now), ApplyUser(cfg, Accounts(s, o), op, now), o)
  {
    hide SameOnAccounts, UserRules.CreateAdmin, UserRules.CreateUser, UserRules.UpdateUser, UserRules.ResetPassword;
    hide UserRules.RevokeAllSessions, Accounts;
    match op
    case CreateAdmin(id, email, name, hash) => CreationOnAccounts(cfg, s, o, id, email, name, hash, [], [], false, now);
    case CreateUser(id, email, name, hash, roles, scopes, autoLink) =>
      CreationOnAccounts(cfg, s, o, id, email, name, hash, roles, scopes, autoLink, now);
    case UpdateUser(id, update) => UpdateUserOnAccounts(cfg, s, o, id, update, now);
    case ResetPassword(id, hash) => ResetOnAccounts(s, o, id, hash, now);
    case RevokeAllSessions(id) => ResetOnAccounts(s, o, id, "", now);
  }

  // Email links ------------------------------------------------------------------------------------

  predicate OnlyAccountsAndLinks(a: State, b: State) {
    b == a.(users := b.users, sessions := b.sessions, links := b.links)
  }

  lemma IssueLinkFrame(cfg: Settings, retain: bool, s: State, user: User, p: Purpose, nonce: Option<string>,
                       draw: LinkRules.LinkDraw, now: Time)
    ensures OnlyAccountsAndLinks(s, LinkRules.IssueLink(cfg, retain, s, user, p, nonce, draw, now).st)
  {
    hide LinkRules.NewLink, LinkRules.RateLimited, LinkClashes, LinkRules.AfterPruning;
    PruningFrame(cfg, retain, s, now);
  }

  lemma PruningFrame(cfg: Settings, retain: bool, s: State, now: Time)
    ensures LinkRules.AfterPruning(cfg, retain, s, now)
        == s.(links := LinkRules.AfterPruning(cfg, retain, s, now).links)
  {
  }

  lemma CreatePendingFrame(cfg: Settings, retain: bool, s: State, x: User, draw: LinkRules.LinkDraw, now: Time)
    ensures OnlyAccountsAndLinks(s, LinkRules.CreatePending(cfg, retain, s, x, draw, now).st)
  {
    hide LinkRules.IssueLink, EmailTaken;
    IssueLinkFrame(cfg, retain, PutUser(s, x), x, Activation, None, draw, now);
  }

  lemma RedeemFrame(cfg: Settings, s: State, token: string, p: Purpose, nonce: Option<string>, now: Time)
    ensures OnlyAccountsAndLinks(s, LinkRules.Redeem(cfg, s, token, p, nonce, now).st)
  {
    hide LinkByToken, LinkRules.MatchesUser, LinkRules.CanRequest;
  }

  lemma LinkLoginFrame(cfg: Settings, s: State, token: string, nonce: string, now: Time, draw: Fresh)
    ensures OnlyAccountsAndLinks(s, LinkRules.LinkLogin(cfg, s, token, nonce, now, draw).st)
  {
    hide LinkRules.Redeem, NewSession, Bundle;
    RedeemFrame(cfg, s, token, LoginLink, Some(nonce), now);
  }

  lemma RedemptionFrame(cfg: Settings, s: State, token: string, p: Purpose, acceptable: bool, hash: string, now: Time)
    ensures OnlyAccountsAndLinks(s, LinkRules.RedeemForAccount(cfg, s, token, p, acceptable, hash, now).st)
  {
    hide LinkRules.Redeem, LinkRules.Redeemed, LinkRules.ActiveLinkExists;
    RedeemFrame(cfg, s, token, p, None, now);
  }

  lemma LinkOpFrame(cfg: Settings, retain: bool, s: State, op: LinkOp, now: Time)
    ensures OnlyAccountsAndLinks(s, ApplyLink(cfg, retain, s, op, now).st)
  {
    hide OnlyAccountsAndLinks, LinkRules.IssueLink, LinkRules.CreatePending, LinkRules.LinkLogin;
    hide LinkRules.RedeemForAccount, LinkRules.MarkDelivered, LinkRules.MarkDeliveryFailed, UserByEmail, InRole;
    hide LinkRules.CanRequest;
    IdleFrame(s);
    match op
    case RequestLoginLink(email, nonce, link) =>
      var user := UserByEmail(s.users, email);
      if user.Some? { IssueLinkFrame(cfg, retain, s, user.value, LoginLink, Some(nonce), link, now); }
    case RequestPasswordReset(email, link) =>
      var user := UserByEmail(s.users, email);
      if user.Some? { IssueLinkFrame(cfg, retain, s, user.value, PasswordReset, None, link, now); }
    case Invite(id, link) =>
      if id in s.users { IssueLinkFrame(cfg, retain, s, s.users[id], Invitation, None, link, now); }
    case ReplaceActivation(id, link) =>
      if id in s.users { IssueLinkFrame(cfg, retain, s, s.users[id], Activation, None, link, now); }
    case Provision(id, email, name, hash, roles, link) =>
      CreatePendingFrame(cfg, retain, s, LinkRules.PendingUser(id, email, name, hash, roles, [], now), link, now);
    case EnsureInitialAdmin(id, email, name, hash, link) =>
      CreatePendingFrame(cfg, retain, s,
        LinkRules.PendingUser(id, email, name, hash, [cfg.adminRole], ["auth:admin"], now), link, now);
    case MarkDelivered(id) => DeliveryFrame(cfg, s, id, now);
    case MarkDeliveryFailed(id) => DeliveryFrame(cfg, s, id, now);
    case LoginByLink(token, nonce, draw) => LinkLoginFrame(cfg, s, token, nonce, now, draw);
    case ResetByLink(token, acceptable, hash) => RedemptionFrame(cfg, s, token, PasswordReset, acceptable, hash, now);
    case ActivateInvitation(token, hash) => RedemptionFrame(cfg, s, token, Invitation, true, hash, now);
    case ActivateAccount(token, acceptable, hash) => RedemptionFrame(cfg, s, token, Activation, acceptable, hash, now);
  }

  lemma IdleFrame(s: State)
    ensures OnlyAccountsAndLinks(s, s)
  {
  }

  lemma DeliveryFrame(cfg: Settings, s: State, id: Uuid, now: Time)
    ensures OnlyAccountsAndLinks(s, LinkRules.MarkDelivered(cfg, s, id, now).st)
    ensures OnlyAccountsAndLinks(s, LinkRules.MarkDeliveryFailed(s, id, now).st)
  {
    hide LinkRules.Deliverable, LatestLink;
  }

  // Google -----------------------------------------------------------------------------------------

  function GoogleTables(s: State, o: State): State {
    o.(users := s.users, sessions := s.sessions, identities := s.identities, googleChallenges := s.googleChallenges)
  }

  predicate SameOnGoogle(f: Reply, g: Reply, o: State) { g == Reply(GoogleTables(f.st, o), f.out) }

  lemma IssueOnGoogle(cfg: Settings, s: State, o: State, u: User, now: Time, draw: Fresh)
    ensures SameOnGoogle(Issue(cfg, s, u, now, NewLogin, draw),
                         Issue(cfg, GoogleTables(s, o), u, now, NewLogin, draw), o)
  {
    hide NewSession, Bundle;
  }

  lemma LoginLinkedOnGoogle(cfg: Settings, s: State, o: State, i: Identity, claims: GoogleClaims, now: Time,
                            draw: Fresh)
    ensures SameOnGoogle(GoogleRules.LoginLinked(cfg, s, i, claims, now, draw),
                         GoogleRules.LoginLinked(cfg, GoogleTables(s, o), i, claims, now, draw), o)
  {
    hide Issue, GoogleRules.SeenAgain, User.CanAuthenticate;
    if i.userId in s.users {
      IssueOnGoogle(cfg, PutIdentity(s, GoogleRules.SeenAgain(i, claims, now)), o, s.users[i.userId], now, draw);
    }
  }

  lemma InsertIdentityOnGoogle(cfg: Settings, s: State, o: State, u: User, claims: GoogleClaims, now: Time,
                               draw: GoogleRules.GoogleDraw)
    ensures SameOnGoogle(GoogleRules.InsertIdentityAndLogin(cfg, s, u, claims, now, draw),
                         GoogleRules.InsertIdentityAndLogin(cfg, GoogleTables(s, o), u, claims, now, draw), o)
  {
    hide GoogleRules.LoginLinked, GoogleRules.NewIdentity, IdentityClashes;
    var i := GoogleRules.NewIdentity(draw.identityId, u.id, claims, now);
    LoginLinkedOnGoogle(cfg, PutIdentity(s, i), o, i, claims, now, draw.session);
  }

  lemma LinkAndLoginOnGoogle(cfg: Settings, s: State, o: State, u: User, claims: GoogleClaims, now: Time,
                             draw: GoogleRules.GoogleDraw)
    ensures SameOnGoogle(GoogleRules.LinkAndLogin(cfg, s, u, claims, now, draw),
                         GoogleRules.LinkAndLogin(cfg, GoogleTables(s, o), u, claims, now, draw), o)
  {
    hide GoogleRules.InsertIdentityAndLogin, User.DisablePassword;
    var linked := u.DisablePassword(draw.passwordHash, now);
    InsertIdentityOnGoogle(cfg, PutUser(s, linked), o, linked, claims, now, draw);
  }

  lemma OpenAndLoginOnGoogle(cfg: Settings, s: State, o: State, claims: GoogleClaims, now: Time,
                             draw: GoogleRules.GoogleDraw)
    requires claims.email.Some?
    ensures SameOnGoogle(GoogleRules.OpenAndLogin(cfg, s, claims, now, draw),
                         GoogleRules.OpenAndLogin(cfg, GoogleTables(s, o), claims, now, draw), o)
  {
    hide GoogleRules.InsertIdentityAndLogin, GoogleRules.OpenUser, EmailTaken;
    var added := GoogleRules.OpenUser(cfg, claims, now, draw);
    InsertIdentityOnGoogle(cfg, PutUser(s, added), o, added, claims, now, draw);
  }

  lemma LoginUnlinkedOnGoogle(cfg: Settings, s: State, o: State, claims: GoogleClaims, now: Time,
                              draw: GoogleRules.GoogleDraw)
    ensures SameOnGoogle(GoogleRules.LoginUnlinked(cfg, s, claims, now, draw),
                         GoogleRules.LoginUnlinked(cfg, GoogleTables(s, o), claims, now, draw), o)
  {
    hide GoogleRules.LinkAndLogin, GoogleRules.OpenAndLogin, GoogleRules.CanAutoLink, UserByEmail, SameOnGoogle;
    assert SameOnGoogle(Reply(s, Rejected(InvalidGoogleCredentials)),
                        Reply(GoogleTables(s, o), Rejected(InvalidGoogleCredentials)), o) by {
      RefusalOnGoogle(s, o, InvalidGoogleCredentials);
    }
    if GoogleRules.IsAuthoritative(claims) {
      var user := UserByEmail(s.users, claims.email.value);
      if user.Some? {
        LinkAndLoginOnGoogle(cfg, s, o, user.value, claims, now, draw);
      } else {
        OpenAndLoginOnGoogle(cfg, s, o, claims, now, draw);
      }
    }
  }

  lemma RefusalOnGoogle(s: State, o: State, error: AuthError)
    ensures SameOnGoogle(Reply(s, Rejected(error)), Reply(GoogleTables(s, o), Rejected(error)), o)
  {
  }

  lemma LoginOnceOnGoogle(cfg: Settings, s: State, o: State, claims: GoogleClaims, now: Time,
                          draw: GoogleRules.GoogleDraw)
    ensures SameOnGoogle(GoogleRules.LoginOnce(cfg, s, claims, now, draw),
                         GoogleRules.LoginOnce(cfg, GoogleTables(s, o), claims, now, draw), o)
    ensures SameOnGoogle(GoogleRules.LoginAfterConflict(cfg, s, claims, now, draw.session),
                         GoogleRules.LoginAfterConflict(cfg, GoogleTables(s, o), claims, now, draw.session), o)
  {
    hide GoogleRules.LoginLinked, GoogleRules.LoginUnlinked, IdentityBySubject;
    var i := IdentityBySubject(s.identities, GOOGLE_ISSUER, claims.subject);
    LoginUnlinkedOnGoogle(cfg, s, o, claims, now, draw);
    if i.Some? { LoginLinkedOnGoogle(cfg, s, o, i.value, claims, now, draw.session); }
  }

  lemma InsertLinkedOnGoogle(s: State, o: State, i: Identity, unlinked: User)
    ensures SameOnGoogle(GoogleRules.InsertLinked(s, i, unlinked),
                         GoogleRules.InsertLinked(GoogleTables(s, o), i, unlinked), o)
  {
    hide IdentityClashes;
  }

  lemma SavedOnGoogle(s: State, o: State, u: User, i: Identity)
    ensures SameOnGoogle(Reply(s, IdentityLinked(i)), Reply(GoogleTables(s, o), IdentityLinked(i)), o)
    ensures SameOnGoogle(Reply(PutUser(s, u), IdentityLinked(i)),
                         Reply(PutUser(GoogleTables(s, o), u), IdentityLinked(i)), o)
  {
  }

  lemma LinkOnceOnGoogle(cfg: Settings, s: State, o: State, p: Principal, claims: GoogleClaims, now: Time, id: Uuid)
    ensures SameOnGoogle(GoogleRules.LinkOnce(cfg, s, p, claims, now, id),
                         GoogleRules.LinkOnce(cfg, GoogleTables(s, o), p, claims, now, id), o)
  {
    hide IdentityBySubject, IssuerTaken, User.CanAuthenticate, Session.IsValidFor, GoogleRules.NewIdentity;
    hide GoogleRules.InsertLinked, User.AdvanceSecurityVersion, SameOnGoogle, PutUser;
    RefusalOnGoogle(s, o, InvalidSession);
    RefusalOnGoogle(s, o, GoogleIdentityConflict);
    if p.userId in s.users {
      var unlinked := s.users[p.userId].(googleAutoLinkAllowed := false).AdvanceSecurityVersion(now);
      var owner := IdentityBySubject(s.identities, GOOGLE_ISSUER, claims.subject);
      if owner.Some? { SavedOnGoogle(s, o, unlinked, owner.value); }
      InsertLinkedOnGoogle(s, o, GoogleRules.NewIdentity(id, p.userId, claims, now), unlinked);
    }
  }

  lemma RecoverOnGoogle(s: State, o: State, id: Uuid, hash: string, now: Time)
    ensures SameOnGoogle(GoogleRules.RecoverPasswordAccess(s, id, hash, now),
                         GoogleRules.RecoverPasswordAccess(GoogleTables(s, o), id, hash, now), o)
  {
    hide IdentityOfUser, User.RequirePasswordChange;
    var i := IdentityOfUser(s.identities, id, GOOGLE_ISSUER);
    if id in s.users && i.Some? {
      var f := GoogleRules.RecoverPasswordAccess(s, id, hash, now).st;
      var g := GoogleRules.RecoverPasswordAccess(GoogleTables(s, o), id, hash, now).st;
      assert g.sessions == f.sessions;
      assert g.identities == f.identities;
    }
  }

  lemma BeginOnGoogle(cfg: Settings, s: State, o: State, purpose: GooglePurpose, origin: Option<string>,
                      user: Option<Uuid>, id: Uuid, nonce: string, now: Time)
    ensures SameOnGoogle(GoogleRules.Begin(cfg, s, purpose, origin, user, id, nonce, now),
                         GoogleRules.Begin(cfg, GoogleTables(s, o), purpose, origin, user, id, nonce, now), o)
  {
    hide User.CanAuthenticate, GoogleRules.NewChallenge;
    assert PruneGoogleChallenges(GoogleTables(s, o), now).googleChallenges
        == PruneGoogleChallenges(s, now).googleChallenges;
  }

  lemma GoogleOpsOnGoogle(cfg: Settings, s: State, o: State, op: GoogleOp, now: Time)
    ensures SameOnGoogle(ApplyGoogle(cfg, s, op, now), ApplyGoogle(cfg, GoogleTables(s, o), op, now), o)
  {
    hide GoogleRules.LoginOnce, GoogleRules.LoginAfterConflict, GoogleRules.Begin, GoogleRules.LinkOnce;
    hide GoogleRules.RecoverPasswordAccess;
    match op
    case BeginGoogleLogin(origin, id, nonce) =>
      BeginOnGoogle(cfg, s, o, GoogleLoginPurpose, origin, None, id, nonce, now);
    case BeginGoogleLink(p, origin, id, nonce) =>
      BeginOnGoogle(cfg, s, o, GoogleLinkPurpose, origin, Some(p.userId), id, nonce, now);
    case ConsumeGoogle(id, purpose, origin, user) =>
    case GoogleLogin(claims, google) => LoginOnceOnGoogle(cfg, s, o, claims, now, google);
    case GoogleLoginAfterConflict(claims, draw) =>
      LoginOnceOnGoogle(cfg, s, o, claims, now, GoogleRules.GoogleDraw(0, 0, "", draw));
    case GoogleLink(p, claims, id) => LinkOnceOnGoogle(cfg, s, o, p, claims, now, id);
    case RecoverPasswordAccess(id, hash) => RecoverOnGoogle(s, o, id, hash, now);
  }

  // Passkeys ---------------------------------------------------------------------------------------

  function PasskeyTables(s: State, o: State): State {
    o.(users := s.users, sessions := s.sessions, passkeys := s.passkeys, passkeyChallenges := s.passkeyChallenges)
  }

  predicate SameOnPasskeys(f: Reply, g: Reply, o: State) { g == Reply(PasskeyTables(f.st, o), f.out) }

  lemma BeginOnPasskeys(s: State, o: State, c: PasskeyChallenge, now: Time)
    ensures SameOnPasskeys(PasskeyRules.Begin(s, c, now), PasskeyRules.Begin(PasskeyTables(s, o), c, now), o)
  {
    assert PrunePasskeyChallenges(PasskeyTables(s, o), now).passkeyChallenges
        == PrunePasskeyChallenges(s, now).passkeyChallenges;
  }

  lemma RegisterOnPasskeys(cfg: Settings, s: State, o: State, p: Principal, k: Passkey, now: Time)
    ensures SameOnPasskeys(PasskeyRules.Register(cfg, s, p, k, now),
                           PasskeyRules.Register(cfg, PasskeyTables(s, o), p, k, now), o)
  {
    hide User.CanAuthenticate, UsablePasskeys, CredentialTaken, User.AdvanceSecurityVersion;
  }

  lemma LoginOnPasskeys(cfg: Settings, s: State, o: State, a: PasskeyRules.Assertion, now: Time, draw: Fresh)
    ensures SameOnPasskeys(PasskeyRules.LoginByPasskey(cfg, s, a, now, draw),
                           PasskeyRules.LoginByPasskey(cfg, PasskeyTables(s, o), a, now, draw), o)
  {
    hide User.CanAuthenticate, PasskeyByCredential, NewSession, Bundle, PasskeyRules.UsedPasskey;
  }

  lemma ConfirmOnPasskeys(s: State, o: State, p: Principal, a: PasskeyRules.Assertion, now: Time)
    ensures SameOnPasskeys(PasskeyRules.ConfirmByPasskey(s, p, a, now),
                           PasskeyRules.ConfirmByPasskey(PasskeyTables(s, o), p, a, now), o)
  {
    hide User.CanAuthenticate, PasskeyByCredential, PasskeyRules.UsedPasskey, Session.IsValidFor;
  }

  lemma PasskeyOpsOnPasskeys(cfg: Settings, s: State, o: State, op: PasskeyOp, now: Time)
    ensures SameOnPasskeys(ApplyPasskey(cfg, s, op, now), ApplyPasskey(cfg, PasskeyTables(s, o), op, now), o)
  {
    hide PasskeyRules.Begin, PasskeyRules.Register, PasskeyRules.LoginByPasskey, PasskeyRules.ConfirmByPasskey;
    hide User.CanAuthenticate, UsablePasskeys, PasskeyRules.NewChallenge, Session.IsValidFor, PasskeyRules.NewPasskey;
    hide User.AdvanceSecurityVersion;
    match op
    case BeginRegistration(p, origin, c) =>
      if origin.Some? {
        BeginOnPasskeys(s, o, PasskeyRules.NewChallenge(cfg, Registration, origin.value, Some(p.userId), None, c, now),
                        now);
      }
    case BeginAuthentication(origin, c) =>
      if origin.Some? {
        BeginOnPasskeys(s, o, PasskeyRules.NewChallenge(cfg, Authentication, origin.value, None, None, c, now), now);
      }
    case BeginReauthentication(p, origin, c) =>
      if origin.Some? {
        BeginOnPasskeys(s, o, PasskeyRules.NewChallenge(cfg, Reauthentication, origin.value, Some(p.userId),
                                                        Some(p.familyId), c, now), now);
      }
    case ConsumePasskey(id, purpose, user, family) =>
    case RegisterPasskey(p, id, name, response) =>
      RegisterOnPasskeys(cfg, s, o, p, PasskeyRules.NewPasskey(id, p.userId, name, response, now), now);
    case LoginByPasskey(a, draw) => LoginOnPasskeys(cfg, s, o, a, now, draw);
    case ConfirmByPasskey(p, a) => ConfirmOnPasskeys(s, o, p, a, now);
    case RevokePasskey(p, id, origin) =>
  }
}
