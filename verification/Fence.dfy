/** Every security-sensitive change of an account advances its security version, and so cuts off the
    links issued before it. */
module Fence {
  import opened Models
  import opened Config
  import opened StoreState
  import opened Invariant
  import opened Machine
  import opened SessionRules
  import Preservation
  import UserRules
  import LinkRules
  import GoogleRules
  import PasskeyRules
  import Frames
  import Lockout
  import LinkRuns
  import Runs

  /** What decides how an account may be entered and what it may do. */
  datatype Posture = Posture(
    status: UserStatus, roles: seq<string>, scopes: seq<string>, mustChangePassword: bool,
    passwordChangedAt: Option<Time>, passwordLogin: bool, linkLogin: bool, autoLink: bool,
    passkeys: set<Uuid>, identities: set<Uuid>)

  function IdentitiesOf(ids: map<Uuid, Identity>, u: Uuid): set<Uuid> { set id | id in ids && ids[id].userId == u }

  function PostureOf(s: State, u: Uuid): Posture
    requires u in s.users
  {
    var x := s.users[u];
    Posture(x.status, x.roles, x.scopes, x.mustChangePassword, x.passwordChangedAt, x.passwordLoginEnabled,
            x.emailLinkLoginEnabled, x.googleAutoLinkAllowed, UsablePasskeys(s.passkeys, u),
            IdentitiesOf(s.identities, u))
  }

  /** Account `u` keeps its posture, or its version moves on. */
  predicate Fenced(a: State, b: State, u: Uuid) {
    u in a.users ==>
      u in b.users && (PostureOf(b, u) == PostureOf(a, u) || a.users[u].securityVersion < b.users[u].securityVersion)
  }

  // Writes -------------------------------------------------------------------------------------------------

  /** Saving `x` is no more than a change of its counters, lock, hash or name, or advances it. */
  predicate Guarded(was: User, x: User) {
    || was.securityVersion < x.securityVersion
    || (x.status == was.status && x.roles == was.roles && x.scopes == was.scopes
        && x.mustChangePassword == was.mustChangePassword && x.passwordChangedAt == was.passwordChangedAt
        && x.passwordLoginEnabled == was.passwordLoginEnabled && x.emailLinkLoginEnabled == was.emailLinkLoginEnabled
        && x.googleAutoLinkAllowed == was.googleAutoLinkAllowed)
  }

  /** The tables a posture is read from are `a`'s, but for the row of `x`. */
  lemma SavedIsFenced(a: State, b: State, x: User, u: Uuid)
    requires b.users == a.users[x.id := x] && b.passkeys == a.passkeys && b.identities == a.identities
    requires x.id in a.users ==> Guarded(a.users[x.id], x)
    ensures Fenced(a, b, u)
  {
  }

  /** With the account's version advanced, its passkeys or identities may change too. */
  lemma AdvancedIsFenced(a: State, b: State, x: User, u: Uuid)
    requires b.users == a.users[x.id := x] && x.id in a.users && a.users[x.id].securityVersion < x.securityVersion
    requires u != x.id ==> UsablePasskeys(b.passkeys, u) == UsablePasskeys(a.passkeys, u)
                           && IdentitiesOf(b.identities, u) == IdentitiesOf(a.identities, u)
    ensures Fenced(a, b, u)
  {
  }

  /** The tables that postures are read from are the same. */
  predicate SamePostures(a: State, b: State) {
    b.users == a.users && b.passkeys == a.passkeys && b.identities == a.identities
  }

  lemma GooglePruningLeaves(s: State, now: Time)
    ensures SamePostures(s, PruneGoogleChallenges(s, now))
  {
  }

  lemma PasskeyPruningLeaves(s: State, now: Time)
    ensures SamePostures(s, PrunePasskeyChallenges(s, now))
  {
  }

  lemma UntouchedIsFenced(a: State, b: State, u: Uuid)
    requires b.users == a.users && UsablePasskeys(b.passkeys, u) == UsablePasskeys(a.passkeys, u)
    requires IdentitiesOf(b.identities, u) == IdentitiesOf(a.identities, u)
    ensures Fenced(a, b, u)
  {
  }

  // Operations -----------------------------------------------------------------------------------------------

  lemma FailureFenced(cfg: Settings, s: State, user: Option<User>, now: Time, u: Uuid)
    requires user.Some? ==> user.value.id in s.users && s.users[user.value.id] == user.value
    ensures Fenced(s, RecordPasswordFailure(cfg, s, user, now), u)
  {
    hide Fenced, User.CanAuthenticate;
    UntouchedIsFenced(s, s, u);
    if Counts(user, now) {
      SavedIsFenced(s, RecordPasswordFailure(cfg, s, user, now), AfterFailure(cfg, user.value, now), u);
    }
  }

  lemma LoginFenced(cfg: Settings, s: State, email: string, v: PasswordVerification, now: Time, draw: Fresh, u: Uuid)
    requires Inv(cfg, s)
    ensures Fenced(s, SessionRules.Login(cfg, s, email, v, now, draw).st, u)
  {
    hide Inv, Fenced, Issue, RecordPasswordFailure, User.CanAuthenticate, UserByEmail;
    UntouchedIsFenced(s, s, u);
    Preservation.FoundByEmail(cfg, s, email);
    var user := UserByEmail(s.users, email);
    FailureFenced(cfg, s, user, now, u);
    if user.Some? {
      var verified := AfterVerification(user.value, v, now);
      IssueLeavesTables(cfg, PutUser(s, verified), verified, now, draw);
      SavedIsFenced(s, Issue(cfg, PutUser(s, verified), verified, now, NewLogin, draw).st, verified, u);
    }
  }

  lemma IssueLeavesTables(cfg: Settings, s: State, user: User, now: Time, draw: Fresh)
    ensures var r := Issue(cfg, s, user, now, NewLogin, draw).st;
            r.users == s.users && r.passkeys == s.passkeys && r.identities == s.identities
  {
  }

  lemma ReauthenticateFenced(cfg: Settings, s: State, p: Principal, v: PasswordVerification, now: Time, u: Uuid)
    requires Inv(cfg, s)
    ensures Fenced(s, SessionRules.Reauthenticate(cfg, s, p, v, now).st, u)
  {
    hide Inv, Fenced, RecordPasswordFailure, User.CanAuthenticate, Session.IsValidFor;
    UntouchedIsFenced(s, s, u);
    if p.userId in s.users {
      Preservation.FoundById(cfg, s, p.userId);
      var verified := AfterVerification(s.users[p.userId], v, now);
      FailureFenced(cfg, s, UserById(s.users, p.userId), now, u);
      SavedIsFenced(s, PutUser(s, verified), verified, u);
    }
  }

  lemma ChangeFenced(cfg: Settings, s: State, p: Principal, c: PasswordChange, now: Time, draw: Fresh, u: Uuid)
    requires Inv(cfg, s)
    ensures Fenced(s, SessionRules.ChangePassword(cfg, s, p, c, now, draw).st, u)
  {
    hide Inv, Fenced, Issue, User.CanAuthenticate, Session.IsValidFor;
    UntouchedIsFenced(s, s, u);
    if p.userId in s.users {
      Preservation.FoundById(cfg, s, p.userId);
      var changed := s.users[p.userId].ActivatePassword(c.newHash, now);
      var cleared := RevokeUserSessions(PutUser(s, changed), changed.id, now);
      IssueLeavesTables(cfg, cleared, changed, now, draw);
      SavedIsFenced(s, Issue(cfg, cleared, changed, now, NewLogin, draw).st, changed, u);
    }
  }

  lemma TokenOpsFenced(cfg: Settings, s: State, op: SessionOp, now: Time, u: Uuid)
    requires op.Refresh? || op.Logout?
    ensures Fenced(s, ApplySession(cfg, s, op, now).st, u)
  {
    hide Fenced, SessionByToken, NewSession, Bundle, User.CanAuthenticate, LiveInFamily;
    Frames.SessionOpsOnAccounts(cfg, s, s, op, now);
    UntouchedIsFenced(s, ApplySession(cfg, s, op, now).st, u);
  }

  lemma SessionOpFenced(cfg: Settings, s: State, op: SessionOp, now: Time, u: Uuid)
    requires Inv(cfg, s)
    ensures Fenced(s, ApplySession(cfg, s, op, now).st, u)
  {
    hide Inv, Fenced, SessionRules.Login, SessionRules.Reauthenticate, SessionRules.ChangePassword;
    hide SessionRules.GuardedRefresh, SessionRules.GuardedLogout;
    match op
    case Login(email, v, draw) => LoginFenced(cfg, s, email, v, now, draw, u);
    case Reauthenticate(p, v) => ReauthenticateFenced(cfg, s, p, v, now, u);
    case ChangePassword(p, c, draw) => ChangeFenced(cfg, s, p, c, now, draw, u);
    case _ => TokenOpsFenced(cfg, s, op, now, u);
  }

  lemma UserOpFenced(cfg: Settings, s: State, op: UserOp, now: Time, u: Uuid)
    requires Inv(cfg, s)
    ensures Fenced(s, ApplyUser(cfg, s, op, now).st, u)
  {
    hide Inv, Fenced, EmailTaken, InRole, LiveOfUser, UserRules.IsActiveAdmin;
    UntouchedIsFenced(s, s, u);
    match op
    case CreateAdmin(id, email, name, hash) =>
      var x := UserRules.NewAccount(id, email, name, hash, [cfg.adminRole], ["auth:admin"], now);
      if id !in s.users { SavedIsFenced(s, PutUser(s, x), x, u); }
    case CreateUser(id, email, name, hash, roles, scopes, autoLink) =>
      var x := UserRules.NewAccount(id, email, name, hash, roles, scopes, now).(
        mustChangePassword := true, googleAutoLinkAllowed := autoLink);
      if id !in s.users { SavedIsFenced(s, PutUser(s, x), x, u); }
    case UpdateUser(id, update) => UpdateFenced(cfg, s, id, update, now, u);
    case ResetPassword(id, hash) =>
      if id in s.users {
        Preservation.FoundById(cfg, s, id);
        var x := s.users[id].RequirePasswordChange(hash, now);
        SavedIsFenced(s, RevokeUserSessions(PutUser(s, x), id, now), x, u);
      }
    case RevokeAllSessions(id) => UntouchedIsFenced(s, RevokeUserSessions(s, id, now), u);
  }

  lemma UpdateFenced(cfg: Settings, s: State, id: Uuid, update: UserUpdate, now: Time, u: Uuid)
    requires Inv(cfg, s)
    ensures Fenced(s, UserRules.UpdateUser(cfg, s, id, update, now).st, u)
  {
    hide Inv, Fenced, InRole, UserRules.IsActiveAdmin;
    UntouchedIsFenced(s, s, u);
    var r := UserRules.UpdateUser(cfg, s, id, update, now);
    if r.out.UserSaved? {
      Preservation.FoundById(cfg, s, id);
      SavedIsFenced(s, r.st, r.out.user, u);
    }
  }

  lemma RedemptionFenced(cfg: Settings, s: State, token: string, p: Purpose, acceptable: bool, hash: string,
                         now: Time, u: Uuid)
    requires Inv(cfg, s)
    ensures Fenced(s, LinkRules.RedeemForAccount(cfg, s, token, p, acceptable, hash, now).st, u)
  {
    hide Inv, Fenced, Evolves, LinkRules.Redeem, LinkRules.ActiveLinkExists;
    UntouchedIsFenced(s, s, u);
    Preservation.RedeemKeeps(cfg, s, token, p, None, now);
    var found := LinkRules.Redeem(cfg, s, token, p, None, now);
    UntouchedIsFenced(s, found.st, u);
    if found.link.Some? {
      var updated := LinkRules.Redeemed(found.user.value, p, hash, now);
      if updated.Some? {
        SavedIsFenced(s, RevokeUserSessions(PutUser(found.st, updated.value), updated.value.id, now), updated.value, u);
      }
    }
  }

  lemma CreatePendingFenced(cfg: Settings, retain: bool, s: State, x: User, draw: LinkRules.LinkDraw, now: Time,
                            u: Uuid)
    ensures Fenced(s, LinkRules.CreatePending(cfg, retain, s, x, draw, now).st, u)
  {
    hide Fenced, LinkRules.IssueLink, EmailTaken;
    UntouchedIsFenced(s, s, u);
    Lockout.IssueLinkLeavesUsers(cfg, retain, PutUser(s, x), x, Activation, None, draw, now);
    Frames.IssueLinkFrame(cfg, retain, PutUser(s, x), x, Activation, None, draw, now);
    if x.id !in s.users {
      SavedIsFenced(s, LinkRules.IssueLink(cfg, retain, PutUser(s, x), x, Activation, None, draw, now).st, x, u);
    }
  }

  predicate SavesAccount(op: LinkOp) {
    op.Provision? || op.EnsureInitialAdmin? || op.ResetByLink? || op.ActivateInvitation? || op.ActivateAccount?
  }

  lemma LinkOpFenced(cfg: Settings, retain: bool, s: State, op: LinkOp, now: Time, u: Uuid)
    requires Inv(cfg, s)
    ensures Fenced(s, ApplyLink(cfg, retain, s, op, now).st, u)
  {
    hide Inv, Fenced, ApplyLink, LinkRules.CreatePending, LinkRules.RedeemForAccount;
    if !SavesAccount(op) {
      Frames.LinkOpFrame(cfg, retain, s, op, now);
      OtherLinkOpsLeaveUsers(cfg, retain, s, op, now);
      UntouchedIsFenced(s, ApplyLink(cfg, retain, s, op, now).st, u);
    } else {
      AccountLinkOpFenced(cfg, retain, s, op, now, u);
    }
  }

  lemma OtherLinkOpsLeaveUsers(cfg: Settings, retain: bool, s: State, op: LinkOp, now: Time)
    requires Inv(cfg, s)
    requires !SavesAccount(op)
    ensures ApplyLink(cfg, retain, s, op, now).st.users == s.users
  {
    hide Inv, LinkRules.IssueLink, LinkRules.LinkLogin, LinkRules.CanRequest, LinkRules.Deliverable;
    hide UserByEmail, LatestLink;
    match op
    case RequestLoginLink(email, nonce, link) =>
      var user := UserByEmail(s.users, email);
      if user.Some? { Lockout.IssueLinkLeavesUsers(cfg, retain, s, user.value, LoginLink, Some(nonce), link, now); }
    case RequestPasswordReset(email, link) =>
      var user := UserByEmail(s.users, email);
      if user.Some? { Lockout.IssueLinkLeavesUsers(cfg, retain, s, user.value, PasswordReset, None, link, now); }
    case Invite(id, link) =>
      if id in s.users { Lockout.IssueLinkLeavesUsers(cfg, retain, s, s.users[id], Invitation, None, link, now); }
    case ReplaceActivation(id, link) =>
      if id in s.users { Lockout.IssueLinkLeavesUsers(cfg, retain, s, s.users[id], Activation, None, link, now); }
    case LoginByLink(token, nonce, draw) => Lockout.LinkLoginLeavesUsers(cfg, s, token, nonce, now, draw);
    case _ =>
  }

  lemma AccountLinkOpFenced(cfg: Settings, retain: bool, s: State, op: LinkOp, now: Time, u: Uuid)
    requires Inv(cfg, s)
    requires SavesAccount(op)
    ensures Fenced(s, ApplyLink(cfg, retain, s, op, now).st, u)
  {
    hide Inv, Fenced, LinkRules.CreatePending, LinkRules.RedeemForAccount, UserByEmail, InRole;
    UntouchedIsFenced(s, s, u);
    match op
    case Provision(id, email, name, hash, roles, link) =>
      CreatePendingFenced(cfg, retain, s, LinkRules.PendingUser(id, email, name, hash, roles, [], now), link, now, u);
    case EnsureInitialAdmin(id, email, name, hash, link) =>
      CreatePendingFenced(cfg, retain, s,
        LinkRules.PendingUser(id, email, name, hash, [cfg.adminRole], ["auth:admin"], now), link, now, u);
    case ResetByLink(token, acceptable, hash) =>
      RedemptionFenced(cfg, s, token, PasswordReset, acceptable, hash, now, u);
    case ActivateInvitation(token, hash) => RedemptionFenced(cfg, s, token, Invitation, true, hash, now, u);
    case ActivateAccount(token, acceptable, hash) =>
      RedemptionFenced(cfg, s, token, Activation, acceptable, hash, now, u);
  }

  // Google and passkeys --------------------------------------------------------------------------------------

  lemma LinkedLoginLeaves(cfg: Settings, s: State, i: Identity, claims: GoogleClaims, now: Time, draw: Fresh, u: Uuid)
    requires i.id in s.identities && s.identities[i.id].userId == i.userId
    ensures var r := GoogleRules.LoginLinked(cfg, s, i, claims, now, draw).st;
            r.users == s.users && r.passkeys == s.passkeys
                && IdentitiesOf(r.identities, u) == IdentitiesOf(s.identities, u)
  {
    hide Issue, User.CanAuthenticate;
    if i.userId in s.users {
      IssueLeavesTables(cfg, PutIdentity(s, GoogleRules.SeenAgain(i, claims, now)), s.users[i.userId], now, draw);
    }
  }

  lemma InsertIdentityLeaves(cfg: Settings, s: State, user: User, claims: GoogleClaims, now: Time,
                             draw: GoogleRules.GoogleDraw, u: Uuid)
    ensures var r := GoogleRules.InsertIdentityAndLogin(cfg, s, user, claims, now, draw).st;
            && r.users == s.users && r.passkeys == s.passkeys
            && (u != user.id ==> IdentitiesOf(r.identities, u) == IdentitiesOf(s.identities, u))
  {
    hide GoogleRules.LoginLinked;
    var i := GoogleRules.NewIdentity(draw.identityId, user.id, claims, now);
    if !IdentityClashes(s.identities, i) {
      LinkedLoginLeaves(cfg, PutIdentity(s, i), i, claims, now, draw.session, u);
    }
  }

  lemma UnlinkedLoginFenced(cfg: Settings, s: State, claims: GoogleClaims, now: Time, draw: GoogleRules.GoogleDraw,
                            u: Uuid)
    requires Inv(cfg, s)
    ensures Fenced(s, GoogleRules.LoginUnlinked(cfg, s, claims, now, draw).st, u)
  {
    hide Inv, Fenced, GoogleRules.InsertIdentityAndLogin, GoogleRules.CanAutoLink, UserByEmail, EmailTaken;
    UntouchedIsFenced(s, s, u);
    if GoogleRules.IsAuthoritative(claims) {
      Preservation.FoundByEmail(cfg, s, claims.email.value);
      var user := UserByEmail(s.users, claims.email.value);
      if user.Some? {
        var linked := user.value.DisablePassword(draw.passwordHash, now);
        InsertIdentityLeaves(cfg, PutUser(s, linked), linked, claims, now, draw, u);
        AdvancedIsFenced(s, GoogleRules.InsertIdentityAndLogin(cfg, PutUser(s, linked), linked, claims, now, draw).st,
                         linked, u);
      } else {
        OpenLoginFenced(cfg, s, claims, now, draw, u);
      }
    }
  }

  /** A new account is fenced against nothing; the others do not notice it. */
  lemma OpenLoginFenced(cfg: Settings, s: State, claims: GoogleClaims, now: Time, draw: GoogleRules.GoogleDraw, u: Uuid)
    requires claims.email.Some?
    ensures Fenced(s, GoogleRules.OpenAndLogin(cfg, s, claims, now, draw).st, u)
  {
    hide GoogleRules.InsertIdentityAndLogin, EmailTaken;
    var added := GoogleRules.OpenUser(cfg, claims, now, draw);
    InsertIdentityLeaves(cfg, PutUser(s, added), added, claims, now, draw, u);
  }

  lemma GoogleOpFenced(cfg: Settings, s: State, op: GoogleOp, now: Time, u: Uuid)
    requires Inv(cfg, s)
    ensures Fenced(s, ApplyGoogle(cfg, s, op, now).st, u)
  {
    hide Inv, Fenced, GoogleRules.LoginUnlinked, GoogleRules.LoginLinked, GoogleRules.LinkOnce;
    hide GoogleRules.RecoverPasswordAccess, GoogleRules.Begin, GoogleRules.BeginLink, GoogleRules.Consume;
    hide IdentityBySubject;
    UntouchedIsFenced(s, s, u);
    match op
    case GoogleLogin(claims, google) =>
      UnlinkedLoginFenced(cfg, s, claims, now, google, u);
      LinkedLoginFenced(cfg, s, claims, now, google.session, u);
    case GoogleLoginAfterConflict(claims, draw) => LinkedLoginFenced(cfg, s, claims, now, draw, u);
    case GoogleLink(p, claims, id) => LinkFenced(cfg, s, p, claims, now, id, u);
    case RecoverPasswordAccess(id, hash) => RecoverFenced(cfg, s, id, hash, now, u);
    case _ =>
      GoogleChallengesLeave(cfg, s, op, now);
      UntouchedIsFenced(s, ApplyGoogle(cfg, s, op, now).st, u);
  }

  lemma GoogleChallengesLeave(cfg: Settings, s: State, op: GoogleOp, now: Time)
    requires op.BeginGoogleLogin? || op.BeginGoogleLink? || op.ConsumeGoogle?
    ensures SamePostures(s, ApplyGoogle(cfg, s, op, now).st)
  {
    hide User.CanAuthenticate, GoogleChallengeClashes, PruneGoogleChallenges, GoogleConsumable;
    GooglePruningLeaves(s, now);
  }

  lemma LinkedLoginFenced(cfg: Settings, s: State, claims: GoogleClaims, now: Time, draw: Fresh, u: Uuid)
    requires Inv(cfg, s)
    ensures var i := IdentityBySubject(s.identities, GOOGLE_ISSUER, claims.subject);
            i.Some? ==> Fenced(s, GoogleRules.LoginLinked(cfg, s, i.value, claims, now, draw).st, u)
  {
    hide Inv, Fenced, GoogleRules.LoginLinked, IdentityBySubject;
    Preservation.FoundIdentity(cfg, s, claims.subject);
    var i := IdentityBySubject(s.identities, GOOGLE_ISSUER, claims.subject);
    if i.Some? {
      LinkedLoginLeaves(cfg, s, i.value, claims, now, draw, u);
      UntouchedIsFenced(s, GoogleRules.LoginLinked(cfg, s, i.value, claims, now, draw).st, u);
    }
  }

  lemma LinkFenced(cfg: Settings, s: State, p: Principal, claims: GoogleClaims, now: Time, id: Uuid, u: Uuid)
    requires Inv(cfg, s)
    ensures Fenced(s, GoogleRules.LinkOnce(cfg, s, p, claims, now, id).st, u)
  {
    hide Inv, Fenced, IdentityBySubject, IssuerTaken, User.CanAuthenticate, Session.IsValidFor;
    UntouchedIsFenced(s, s, u);
    if p.userId in s.users {
      Preservation.FoundById(cfg, s, p.userId);
      var unlinked := s.users[p.userId].(googleAutoLinkAllowed := false).AdvanceSecurityVersion(now);
      var i := GoogleRules.NewIdentity(id, p.userId, claims, now);
      AdvancedIsFenced(s, PutUser(s, unlinked), unlinked, u);
      if i.id !in s.identities { AdvancedIsFenced(s, PutUser(PutIdentity(s, i), unlinked), unlinked, u); }
    }
  }

  lemma RecoverFenced(cfg: Settings, s: State, id: Uuid, hash: string, now: Time, u: Uuid)
    requires Inv(cfg, s)
    ensures Fenced(s, GoogleRules.RecoverPasswordAccess(s, id, hash, now).st, u)
  {
    hide Inv, Fenced;
    UntouchedIsFenced(s, s, u);
    if id in s.users {
      Preservation.FoundById(cfg, s, id);
      IdentityOwner(cfg, s, id);
      var recovered := s.users[id].RequirePasswordChange(hash, now);
      var i := IdentityOfUser(s.identities, id, GOOGLE_ISSUER);
      if i.Some? {
        AdvancedIsFenced(s, RevokeUserSessions(DropIdentity(PutUser(s, recovered), i.value.id), id, now), recovered, u);
      }
    }
  }

  lemma IdentityOwner(cfg: Settings, s: State, id: Uuid)
    requires Inv(cfg, s)
    ensures var i := IdentityOfUser(s.identities, id, GOOGLE_ISSUER);
            i.Some? ==> i.value.id in s.identities && s.identities[i.value.id] == i.value && i.value.userId == id
  {
  }

  lemma PasskeyOpFenced(cfg: Settings, s: State, op: PasskeyOp, now: Time, u: Uuid)
    requires Inv(cfg, s)
    ensures Fenced(s, ApplyPasskey(cfg, s, op, now).st, u)
  {
    hide Inv, Fenced, PasskeyRules.LoginByPasskey, PasskeyRules.ConfirmByPasskey, PasskeyRules.Register;
    hide PasskeyRules.RevokePasskey;
    hide PasskeyRules.BeginRegistration, PasskeyRules.BeginAuthentication, PasskeyRules.BeginReauthentication;
    hide PasskeyRules.Consume;
    UntouchedIsFenced(s, s, u);
    match op
    case RegisterPasskey(p, id, name, response) =>
      RegisterFenced(cfg, s, p, PasskeyRules.NewPasskey(id, p.userId, name, response, now), now, u);
    case LoginByPasskey(a, draw) => PasskeyLoginFenced(cfg, s, a, now, draw, u);
    case ConfirmByPasskey(p, a) => PasskeyProofFenced(cfg, s, p, a, now, u);
    case RevokePasskey(p, id, origin) => RevokeFenced(cfg, s, p, id, origin, now, u);
    case _ =>
      PasskeyChallengesLeave(cfg, s, op, now);
      UntouchedIsFenced(s, ApplyPasskey(cfg, s, op, now).st, u);
  }

  lemma PasskeyChallengesLeave(cfg: Settings, s: State, op: PasskeyOp, now: Time)
    requires op.BeginRegistration? || op.BeginAuthentication? || op.BeginReauthentication? || op.ConsumePasskey?
    ensures SamePostures(s, ApplyPasskey(cfg, s, op, now).st)
  {
    hide User.CanAuthenticate, Session.IsValidFor, PasskeyChallengeClashes, UsablePasskeys, PrunePasskeyChallenges;
    hide PasskeyConsumable;
    PasskeyPruningLeaves(s, now);
  }

  lemma RegisterFenced(cfg: Settings, s: State, p: Principal, k: Passkey, now: Time, u: Uuid)
    requires Inv(cfg, s) && k.userId == p.userId
    ensures Fenced(s, PasskeyRules.Register(cfg, s, p, k, now).st, u)
  {
    hide Inv, Fenced, CredentialTaken, User.CanAuthenticate;
    UntouchedIsFenced(s, s, u);
    if p.userId in s.users && k.id !in s.passkeys {
      Preservation.FoundById(cfg, s, p.userId);
      var advanced := s.users[p.userId].AdvanceSecurityVersion(now);
      AdvancedIsFenced(s, PutUser(PutPasskey(s, k), advanced), advanced, u);
    }
  }

  lemma RevokeFenced(cfg: Settings, s: State, p: Principal, id: Uuid, origin: Option<string>, now: Time, u: Uuid)
    requires Inv(cfg, s)
    ensures Fenced(s, PasskeyRules.RevokePasskey(cfg, s, p, id, origin, now).st, u)
  {
    hide Inv, Fenced, User.CanAuthenticate;
    UntouchedIsFenced(s, s, u);
    Preservation.InvParts(cfg, s);
    if p.userId in s.users && id in s.passkeys && s.passkeys[id].userId == p.userId {
      var advanced := s.users[p.userId].AdvanceSecurityVersion(now);
      AdvancedIsFenced(s, PutUser(PutPasskey(s, s.passkeys[id].(revokedAt := Some(now))), advanced), advanced, u);
    }
  }

  lemma PasskeyLoginFenced(cfg: Settings, s: State, a: PasskeyRules.Assertion, now: Time, draw: Fresh, u: Uuid)
    requires Inv(cfg, s)
    ensures Fenced(s, PasskeyRules.LoginByPasskey(cfg, s, a, now, draw).st, u)
  {
    hide Inv, Fenced, PasskeyRules.AcceptedPasskey, Issue, User.CanAuthenticate;
    UntouchedIsFenced(s, s, u);
    Preservation.AcceptedIsStored(cfg, s, a, None, now);
    var k := PasskeyRules.AcceptedPasskey(s, a, None, now);
    if k.Some? {
      var s1 := PutPasskey(s, PasskeyRules.UsedPasskey(k.value, a.verified.value, now));
      IssueLeavesTables(cfg, s1, s.users[k.value.userId], now, draw);
      UntouchedIsFenced(s, Issue(cfg, s1, s.users[k.value.userId], now, NewLogin, draw).st, u);
    }
  }

  lemma PasskeyProofFenced(cfg: Settings, s: State, p: Principal, a: PasskeyRules.Assertion, now: Time, u: Uuid)
    requires Inv(cfg, s)
    ensures Fenced(s, PasskeyRules.ConfirmByPasskey(s, p, a, now).st, u)
  {
    hide Inv, Fenced, PasskeyRules.AcceptedPasskey, User.CanAuthenticate, Session.IsValidFor;
    UntouchedIsFenced(s, s, u);
    Preservation.AcceptedIsStored(cfg, s, a, Some(p.userId), now);
    var k := PasskeyRules.AcceptedPasskey(s, a, Some(p.userId), now);
    if k.Some? { UntouchedIsFenced(s, PutPasskey(s, PasskeyRules.UsedPasskey(k.value, a.verified.value, now)), u); }
  }

  // Any step -------------------------------------------------------------------------------------------------

  /** No step changes an account's status, rights, ways in, password, passkeys or identities without
      advancing its security version. */
  lemma StepIsFenced(cfg: Settings, retain: bool, s: State, op: Op, now: Time, u: Uuid)
    requires Inv(cfg, s)
    ensures Fenced(s, Apply(cfg, retain, s, op, now).st, u)
  {
    hide Inv, Fenced, ApplySession, ApplyUser, ApplyLink, ApplyGoogle, ApplyPasskey;
    match op
    case OnSessions(x) => SessionOpFenced(cfg, s, x, now, u);
    case OnUsers(x) => UserOpFenced(cfg, s, x, now, u);
    case OnLinks(x) => LinkOpFenced(cfg, retain, s, x, now, u);
    case OnGoogle(x) => GoogleOpFenced(cfg, s, x, now, u);
    case OnPasskeys(x) => PasskeyOpFenced(cfg, s, x, now, u);
  }

  /** So whatever link an account had before its posture changed can never afterwards be used. */
  lemma ChangeCutsLinksOff(cfg: Settings, retain: bool, ws: seq<World>, ops: seq<Op>, k: nat, j: nat, u: Uuid, id: Uuid)
    requires cfg.Valid() && IsRun(cfg, retain, ws, ops) && k < j < |ws|
    requires u in ws[k].st.users && u in ws[k + 1].st.users && PostureOf(ws[k + 1].st, u) != PostureOf(ws[k].st, u)
    requires id in ws[k].st.links && ws[k].st.links[id].userId == u && id in ws[k + 1].st.links && id in ws[j].st.links
    ensures LinkRuns.Stale(ws[j].st, id)
    ensures ws[j].st.links[id].state in {LinkActive, LinkConsumed} ==>
              ws[j].st.links[id].state == ws[k + 1].st.links[id].state
  {
    hide Inv, Apply, PostureOf;
    Runs.Reachable(cfg, retain, ws, ops, k);
    Runs.StepEvolves(cfg, retain, ws, ops, k);
    StepIsFenced(cfg, retain, ws[k].st, ops[k], ws[k + 1].at, u);
    LinkRuns.VersionsBoundLinks(cfg, retain, ws, ops, k, id);
    LinkRuns.RunLinksEvolve(cfg, retain, ws, ops, k, k + 1);
    LinkRuns.StaleLinksAreDead(cfg, retain, ws, ops, k + 1, j, id);
  }
}
