/** How often a password may be guessed: the failure counter over steps and over runs. */
module Lockout {
  import opened Models
  import opened Config
  import opened StoreState
  import opened Invariant
  import opened Machine
  import opened SessionRules
  import RowFacts
  import SessionOutcomes
  import Preservation
  import UserRules
  import LinkRules
  import GoogleRules
  import PasskeyRules
  import Runs

  /** What an account remembers of failed checks; an account not yet created remembers none. */
  datatype Tally = Tally(attempts: int, lockedUntil: Option<Time>)

  const CLEAR := Tally(0, None)

  function TallyOf(users: map<Uuid, User>, u: Uuid): Tally {
    if u in users then Tally(users[u].failedLoginAttempts, users[u].lockedUntil) else CLEAR
  }

  /** The operation asks for the password of account `u`, which stands and lets it in by one. */
  predicate Asks(s: State, op: Op, now: Time, u: Uuid) {
    && RowFacts.StandsAt(s.users, u, now) && s.users[u].passwordLoginEnabled
    && match op
       case OnSessions(Login(email, _, _)) => s.users[u].email == email
       case OnSessions(Reauthenticate(p, _)) => p.userId == u && RowFacts.Accepts(s, p, now)
       case _ => false
  }

  function Verdict(op: Op): bool {
    match op
    case OnSessions(Login(_, v, _)) => v.valid
    case OnSessions(Reauthenticate(_, v)) => v.valid
    case _ => false
  }

  /** A failed check that must be counted against account `u`. */
  predicate CountsFailure(s: State, op: Op, now: Time, u: Uuid) { Asks(s, op, now, u) && !Verdict(op) }

  predicate Open(t: Tally, now: Time) { t.lockedUntil.Some? ==> t.lockedUntil.value <= now }

  /** One more failure: counting starts again after a lock has run out. */
  function AfterMiss(cfg: Settings, t: Tally, now: Time): Tally {
    var attempts := if t.lockedUntil.Some? then 1 else t.attempts + 1;
    Tally(attempts, if attempts >= cfg.loginMaxAttempts then Some(now + Seconds(cfg.lockoutSeconds)) else None)
  }

  predicate Saves(out: Outcome, u: Uuid) { out.UserSaved? && out.user.id == u }

  /** The operation, which was answered `out`, gave account `u` another password. */
  ghost predicate Replaces(s: State, op: Op, out: Outcome, u: Uuid) {
    match op
    case OnSessions(ChangePassword(p, _, _)) => out.SessionIssued? && p.userId == u
    case OnUsers(ResetPassword(_, _)) => Saves(out, u)
    case OnLinks(ResetByLink(_, _, _)) => Saves(out, u)
    case OnLinks(ActivateInvitation(_, _)) => Saves(out, u)
    case OnLinks(ActivateAccount(_, _, _)) => Saves(out, u)
    case OnGoogle(GoogleLogin(claims, _)) =>
      && out.SessionIssued? && out.bundle.principal.userId == u
      && IdentityBySubject(s.identities, GOOGLE_ISSUER, claims.subject).None?
    case OnGoogle(RecoverPasswordAccess(_, _)) => Saves(out, u)
    case _ => false
  }

  /** The tally stays, or is cleared together with a new password. */
  predicate Calm(a: map<Uuid, User>, b: map<Uuid, User>, u: Uuid, replaced: bool) {
    TallyOf(b, u) == TallyOf(a, u) || (TallyOf(b, u) == CLEAR && replaced)
  }

  lemma PutUserCalm(s: State, x: User, u: Uuid, replaced: bool)
    requires (x.id in s.users && TallyOf(s.users, x.id) == Tally(x.failedLoginAttempts, x.lockedUntil))
             || (x.failedLoginAttempts == 0 && x.lockedUntil.None? && (x.id in s.users && x.id == u ==> replaced))
    ensures Calm(s.users, PutUser(s, x).users, u, replaced)
  {
  }

  // Operations that are no password check ------------------------------------------------------------

  lemma SessionOpCalm(cfg: Settings, s: State, op: SessionOp, now: Time, u: Uuid)
    requires Inv(cfg, s) && !op.Login? && !op.Reauthenticate?
    ensures var r := ApplySession(cfg, s, op, now); Calm(s.users, r.st.users, u, Replaces(s, OnSessions(op), r.out, u))
  {
    hide Inv, SessionByToken, NewSession, Bundle, User.CanAuthenticate, Session.IsValidFor, LiveInFamily;
    if op.ChangePassword? && op.p.userId in s.users {
      Preservation.FoundById(cfg, s, op.p.userId);
      PutUserCalm(s, s.users[op.p.userId].ActivatePassword(op.change.newHash, now), u, op.p.userId == u);
    }
  }

  lemma UserOpCalm(cfg: Settings, s: State, op: UserOp, now: Time, u: Uuid)
    requires Inv(cfg, s)
    ensures var r := ApplyUser(cfg, s, op, now); Calm(s.users, r.st.users, u, Replaces(s, OnUsers(op), r.out, u))
  {
    hide Inv, EmailTaken, InRole, LiveOfUser, Calm, UserRules.IsActiveAdmin;
    var replaced := Replaces(s, OnUsers(op), ApplyUser(cfg, s, op, now).out, u);
    CalmReflexive(s.users, u, replaced);
    match op
    case CreateAdmin(id, email, name, hash) =>
      var x := UserRules.NewAccount(id, email, name, hash, [cfg.adminRole], ["auth:admin"], now);
      if id !in s.users { PutUserCalm(s, x, u, replaced); }
    case CreateUser(id, email, name, hash, roles, scopes, autoLink) =>
      var x := UserRules.NewAccount(id, email, name, hash, roles, scopes, now).(
        mustChangePassword := true, googleAutoLinkAllowed := autoLink);
      if id !in s.users { PutUserCalm(s, x, u, replaced); }
    case UpdateUser(id, update) =>
      if id in s.users {
        Preservation.FoundById(cfg, s, id);
        var merged := UserRules.Merged(s.users[id], update, now);
        PutUserCalm(s, merged, u, replaced);
        PutUserCalm(s, merged.AdvanceSecurityVersion(now), u, replaced);
      }
    case ResetPassword(id, hash) =>
      if id in s.users {
        Preservation.FoundById(cfg, s, id);
        PutUserCalm(s, s.users[id].RequirePasswordChange(hash, now), u, replaced);
      }
    case RevokeAllSessions(id) =>
  }

  lemma CalmReflexive(users: map<Uuid, User>, u: Uuid, replaced: bool)
    ensures Calm(users, users, u, replaced)
  {
  }

  lemma RedemptionCalm(cfg: Settings, s: State, token: string, p: Purpose, acceptable: bool, hash: string,
                       now: Time, u: Uuid)
    requires Inv(cfg, s)
    ensures var r := LinkRules.RedeemForAccount(cfg, s, token, p, acceptable, hash, now);
            Calm(s.users, r.st.users, u, Saves(r.out, u))
  {
    hide Inv, LinkRules.Redeem, LinkRules.ActiveLinkExists, Calm, Evolves;
    var replaced := Saves(LinkRules.RedeemForAccount(cfg, s, token, p, acceptable, hash, now).out, u);
    CalmReflexive(s.users, u, replaced);
    Preservation.RedeemKeeps(cfg, s, token, p, None, now);
    var found := LinkRules.Redeem(cfg, s, token, p, None, now);
    if found.link.Some? {
      var updated := LinkRules.Redeemed(found.user.value, p, hash, now);
      if updated.Some? && acceptable && LinkRules.ActiveLinkExists(cfg, s, token, p, now) {
        PutUserCalm(found.st, updated.value, u, replaced);
      }
    }
  }

  lemma IssueLinkLeavesUsers(cfg: Settings, retain: bool, s: State, user: User, p: Purpose, nonce: Option<string>,
                             draw: LinkRules.LinkDraw, now: Time)
    ensures LinkRules.IssueLink(cfg, retain, s, user, p, nonce, draw, now).st.users == s.users
  {
  }

  lemma CreatePendingCalm(cfg: Settings, retain: bool, s: State, x: User, draw: LinkRules.LinkDraw, now: Time, u: Uuid)
    requires x.failedLoginAttempts == 0 && x.lockedUntil.None?
    ensures Calm(s.users, LinkRules.CreatePending(cfg, retain, s, x, draw, now).st.users, u, false)
  {
    hide LinkRules.IssueLink, EmailTaken, Calm;
    CalmReflexive(s.users, u, false);
    IssueLinkLeavesUsers(cfg, retain, PutUser(s, x), x, Activation, None, draw, now);
    if x.id !in s.users { PutUserCalm(s, x, u, false); }
  }

  lemma LinkOpCalm(cfg: Settings, retain: bool, s: State, op: LinkOp, now: Time, u: Uuid)
    requires Inv(cfg, s)
    ensures var r := ApplyLink(cfg, retain, s, op, now);
            Calm(s.users, r.st.users, u, Replaces(s, OnLinks(op), r.out, u))
  {
    hide Inv, Calm, LinkRules.IssueLink, LinkRules.CreatePending, LinkRules.RedeemForAccount, LinkRules.Redeem;
    hide LinkRules.CanRequest, LinkRules.Deliverable, InRole, LatestLink, UserByEmail, EmailTaken;
    CalmReflexive(s.users, u, Replaces(s, OnLinks(op), ApplyLink(cfg, retain, s, op, now).out, u));
    match op
    case RequestLoginLink(email, nonce, link) =>
      var user := UserByEmail(s.users, email);
      if user.Some? { IssueLinkLeavesUsers(cfg, retain, s, user.value, LoginLink, Some(nonce), link, now); }
    case RequestPasswordReset(email, link) =>
      var user := UserByEmail(s.users, email);
      if user.Some? { IssueLinkLeavesUsers(cfg, retain, s, user.value, PasswordReset, None, link, now); }
    case Invite(id, link) =>
      if id in s.users { IssueLinkLeavesUsers(cfg, retain, s, s.users[id], Invitation, None, link, now); }
    case ReplaceActivation(id, link) =>
      if id in s.users { IssueLinkLeavesUsers(cfg, retain, s, s.users[id], Activation, None, link, now); }
    case Provision(id, email, name, hash, roles, link) =>
      CreatePendingCalm(cfg, retain, s, LinkRules.PendingUser(id, email, name, hash, roles, [], now), link, now, u);
    case EnsureInitialAdmin(id, email, name, hash, link) =>
      CreatePendingCalm(cfg, retain, s,
        LinkRules.PendingUser(id, email, name, hash, [cfg.adminRole], ["auth:admin"], now), link, now, u);
    case MarkDelivered(id) =>
    case MarkDeliveryFailed(id) =>
    case LoginByLink(token, nonce, draw) => LinkLoginLeavesUsers(cfg, s, token, nonce, now, draw);
    case ResetByLink(token, acceptable, hash) => RedemptionCalm(cfg, s, token, PasswordReset, acceptable, hash, now, u);
    case ActivateInvitation(token, hash) => RedemptionCalm(cfg, s, token, Invitation, true, hash, now, u);
    case ActivateAccount(token, acceptable, hash) =>
      RedemptionCalm(cfg, s, token, Activation, acceptable, hash, now, u);
  }

  lemma LinkLoginLeavesUsers(cfg: Settings, s: State, token: string, nonce: string, now: Time, draw: Fresh)
    requires Inv(cfg, s)
    ensures LinkRules.LinkLogin(cfg, s, token, nonce, now, draw).st.users == s.users
  {
    hide Inv, Evolves, LinkRules.Redeem;
    Preservation.RedeemKeeps(cfg, s, token, LoginLink, Some(nonce), now);
  }

  lemma InsertIdentityLeavesUsers(cfg: Settings, s: State, user: User, claims: GoogleClaims, now: Time,
                                  draw: GoogleRules.GoogleDraw)
    ensures GoogleRules.InsertIdentityAndLogin(cfg, s, user, claims, now, draw).st.users == s.users
  {
  }

  lemma LoggedInUser(cfg: Settings, s: State, user: User, claims: GoogleClaims, now: Time,
                     draw: GoogleRules.GoogleDraw)
    requires user.id in s.users && s.users[user.id] == user
    ensures var out := GoogleRules.InsertIdentityAndLogin(cfg, s, user, claims, now, draw).out;
            out.SessionIssued? ==> out.bundle.principal.userId == user.id
  {
  }

  predicate LoginCalm(s: State, r: Reply, u: Uuid) {
    r.out.SessionIssued? ==> Calm(s.users, r.st.users, u, r.out.bundle.principal.userId == u)
  }

  lemma LinkingCalm(cfg: Settings, s: State, user: User, claims: GoogleClaims, now: Time,
                    draw: GoogleRules.GoogleDraw, u: Uuid)
    requires user.id in s.users && s.users[user.id] == user
    ensures LoginCalm(s, GoogleRules.LinkAndLogin(cfg, s, user, claims, now, draw), u)
  {
    hide Calm, GoogleRules.InsertIdentityAndLogin;
    var linked := user.DisablePassword(draw.passwordHash, now);
    PutUserCalm(s, linked, u, linked.id == u);
    InsertIdentityLeavesUsers(cfg, PutUser(s, linked), linked, claims, now, draw);
    LoggedInUser(cfg, PutUser(s, linked), linked, claims, now, draw);
  }

  lemma OpeningCalm(cfg: Settings, s: State, claims: GoogleClaims, now: Time, draw: GoogleRules.GoogleDraw, u: Uuid)
    requires claims.email.Some?
    ensures LoginCalm(s, GoogleRules.OpenAndLogin(cfg, s, claims, now, draw), u)
  {
    hide Calm, GoogleRules.InsertIdentityAndLogin, EmailTaken;
    var added := GoogleRules.OpenUser(cfg, claims, now, draw);
    if added.id !in s.users { PutUserCalm(s, added, u, added.id == u); }
    InsertIdentityLeavesUsers(cfg, PutUser(s, added), added, claims, now, draw);
    LoggedInUser(cfg, PutUser(s, added), added, claims, now, draw);
  }

  lemma LoginUnlinkedCalm(cfg: Settings, s: State, claims: GoogleClaims, now: Time, draw: GoogleRules.GoogleDraw,
                          u: Uuid)
    requires Inv(cfg, s)
    ensures LoginCalm(s, GoogleRules.LoginUnlinked(cfg, s, claims, now, draw), u)
  {
    hide Inv, Calm, GoogleRules.LinkAndLogin, GoogleRules.OpenAndLogin, GoogleRules.CanAutoLink, UserByEmail;
    if GoogleRules.IsAuthoritative(claims) {
      Preservation.FoundByEmail(cfg, s, claims.email.value);
      var user := UserByEmail(s.users, claims.email.value);
      if user.Some? { LinkingCalm(cfg, s, user.value, claims, now, draw, u); }
      OpeningCalm(cfg, s, claims, now, draw, u);
    }
  }

  lemma LoginLinkedLeavesUsers(cfg: Settings, s: State, i: Identity, claims: GoogleClaims, now: Time, draw: Fresh)
    ensures GoogleRules.LoginLinked(cfg, s, i, claims, now, draw).st.users == s.users
  {
  }

  lemma GoogleLoginCalm(cfg: Settings, s: State, claims: GoogleClaims, now: Time, draw: GoogleRules.GoogleDraw, u: Uuid)
    requires Inv(cfg, s)
    ensures var r := GoogleRules.LoginOnce(cfg, s, claims, now, draw);
            Calm(s.users, r.st.users, u, Replaces(s, OnGoogle(GoogleLogin(claims, draw)), r.out, u))
  {
    hide Inv, Calm, GoogleRules.LoginUnlinked, GoogleRules.LoginLinked, IdentityBySubject;
    var i := IdentityBySubject(s.identities, GOOGLE_ISSUER, claims.subject);
    CalmReflexive(s.users, u, Replaces(s, OnGoogle(GoogleLogin(claims, draw)),
                                       GoogleRules.LoginOnce(cfg, s, claims, now, draw).out, u));
    if i.Some? {
      LoginLinkedLeavesUsers(cfg, s, i.value, claims, now, draw.session);
    } else {
      LoginUnlinkedCalm(cfg, s, claims, now, draw, u);
      GoogleRules.RefusalWritesNothing(cfg, s, claims, now, draw);
    }
  }

  lemma GoogleOpCalm(cfg: Settings, s: State, op: GoogleOp, now: Time, u: Uuid)
    requires Inv(cfg, s)
    ensures var r := ApplyGoogle(cfg, s, op, now); Calm(s.users, r.st.users, u, Replaces(s, OnGoogle(op), r.out, u))
  {
    hide Inv, Calm, GoogleRules.LoginOnce, IdentityBySubject, IdentityOfUser, User.CanAuthenticate;
    hide IdentityClashes, Session.IsValidFor;
    var replaced := Replaces(s, OnGoogle(op), ApplyGoogle(cfg, s, op, now).out, u);
    CalmReflexive(s.users, u, replaced);
    match op
    case BeginGoogleLogin(origin, id, nonce) =>
    case BeginGoogleLink(p, origin, id, nonce) =>
    case ConsumeGoogle(id, purpose, origin, user) =>
    case GoogleLogin(claims, google) => GoogleLoginCalm(cfg, s, claims, now, google, u);
    case GoogleLoginAfterConflict(claims, draw) =>
    case GoogleLink(p, claims, id) =>
      if p.userId in s.users {
        Preservation.FoundById(cfg, s, p.userId);
        PutUserCalm(s, s.users[p.userId].(googleAutoLinkAllowed := false).AdvanceSecurityVersion(now), u, replaced);
      }
    case RecoverPasswordAccess(id, hash) =>
      if id in s.users {
        Preservation.FoundById(cfg, s, id);
        if ApplyGoogle(cfg, s, op, now).out.UserSaved? {
          PutUserCalm(s, s.users[id].RequirePasswordChange(hash, now), u, replaced);
        }
      }
  }

  lemma PasskeyOpCalm(cfg: Settings, s: State, op: PasskeyOp, now: Time, u: Uuid)
    requires Inv(cfg, s)
    ensures Calm(s.users, ApplyPasskey(cfg, s, op, now).st.users, u, false)
  {
    hide Inv, Calm, PasskeyRules.AcceptedPasskey, User.CanAuthenticate, Session.IsValidFor, UsablePasskeys;
    CalmReflexive(s.users, u, false);
    if (op.RegisterPasskey? || op.RevokePasskey?) && op.p.userId in s.users {
      Preservation.FoundById(cfg, s, op.p.userId);
      PutUserCalm(s, s.users[op.p.userId].AdvanceSecurityVersion(now), u, false);
    }
  }

  // Password checks ----------------------------------------------------------------------------------

  /** The password of account `u` was checked, and right. */
  predicate ChecksOut(s: State, op: Op, now: Time, u: Uuid) { Asks(s, op, now, u) && Verdict(op) }

  /** Saving a counted failure moves the tally of its account on, and no other. */
  lemma MissedTally(cfg: Settings, a: State, b: State, id: Uuid, now: Time, u: Uuid)
    requires SessionOutcomes.Counted(cfg, a, b, id, now) && RowFacts.StandsAt(a.users, id, now)
    ensures if id == u then TallyOf(b.users, u) == AfterMiss(cfg, TallyOf(a.users, u), now)
                            && Open(TallyOf(a.users, u), now)
            else TallyOf(b.users, u) == TallyOf(a.users, u)
  {
  }

  lemma LoginTally(cfg: Settings, s: State, email: string, v: PasswordVerification, now: Time, draw: Fresh, u: Uuid)
    requires Inv(cfg, s)
    ensures Explained(cfg, s, OnSessions(SessionOp.Login(email, v, draw)),
                      SessionRules.Login(cfg, s, email, v, now, draw), now, u)
  {
    hide Inv, SessionRules.Login, SessionOutcomes.Counted, RowFacts.OneBegun, UsersUnique;
    Preservation.InvParts(cfg, s);
    if id: Uuid :| id in s.users && s.users[id].email == email {
      SessionOutcomes.LoginDecided(cfg, s, id, v, now, draw);
      OneHolder(s, id, u);
      if SessionOutcomes.Counted(cfg, s, SessionRules.Login(cfg, s, email, v, now, draw).st, id, now)
         && RowFacts.StandsAt(s.users, id, now) {
        MissedTally(cfg, s, SessionRules.Login(cfg, s, email, v, now, draw).st, id, now, u);
      }
    } else {
      SessionOutcomes.LoginUnknown(cfg, s, email, v, now, draw);
    }
  }

  lemma OneHolder(s: State, id: Uuid, u: Uuid)
    requires UsersUnique(s.users) && id in s.users
    ensures u in s.users && s.users[id].email == s.users[u].email ==> id == u
  {
    assert u in s.users && s.users[id].email == s.users[u].email ==> SameEmail(s.users[id], s.users[u]);
  }

  lemma ReauthenticateTally(cfg: Settings, s: State, p: Principal, v: PasswordVerification, now: Time, u: Uuid)
    requires Inv(cfg, s)
    ensures Explained(cfg, s, OnSessions(SessionOp.Reauthenticate(p, v)),
                      SessionRules.Reauthenticate(cfg, s, p, v, now), now, u)
  {
    hide Inv, SessionRules.Reauthenticate, SessionOutcomes.Counted, UsersUnique;
    Preservation.InvParts(cfg, s);
    SessionOutcomes.ReauthenticationDecided(cfg, s, p, v, now);
    var after := SessionRules.Reauthenticate(cfg, s, p, v, now).st;
    if RowFacts.Accepts(s, p, now) && SessionOutcomes.Counted(cfg, s, after, p.userId, now) {
      MissedTally(cfg, s, after, p.userId, now, u);
    }
  }

  // Any step -----------------------------------------------------------------------------------------

  /** A counted failure moves the tally on, and happens only while the account is not locked; only a
      successful check or a new password clears it; nothing else touches it. */
  ghost predicate Explained(cfg: Settings, s: State, op: Op, r: Reply, now: Time, u: Uuid) {
    var after := TallyOf(r.st.users, u);
    if CountsFailure(s, op, now, u)
    then after == AfterMiss(cfg, TallyOf(s.users, u), now) && Open(TallyOf(s.users, u), now)
    else after == TallyOf(s.users, u) || (after == CLEAR && (ChecksOut(s, op, now, u) || Replaces(s, op, r.out, u)))
  }

  lemma TallyExplained(cfg: Settings, retain: bool, s: State, op: Op, now: Time, u: Uuid)
    requires Inv(cfg, s)
    ensures Explained(cfg, s, op, Apply(cfg, retain, s, op, now), now, u)
  {
    hide Inv, SessionRules.Login, SessionRules.Reauthenticate, ApplyUser, ApplyLink, ApplyGoogle, ApplyPasskey;
    hide LoginRefused, PrincipalStands;
    match op
    case OnSessions(x) =>
      match x {
        case Login(email, v, draw) => LoginTally(cfg, s, email, v, now, draw, u);
        case Reauthenticate(p, v) => ReauthenticateTally(cfg, s, p, v, now, u);
        case _ => SessionOpCalm(cfg, s, x, now, u);
      }
    case OnUsers(x) => UserOpCalm(cfg, s, x, now, u);
    case OnLinks(x) => LinkOpCalm(cfg, retain, s, x, now, u);
    case OnGoogle(x) => GoogleOpCalm(cfg, s, x, now, u);
    case OnPasskeys(x) => PasskeyOpCalm(cfg, s, x, now, u);
  }

  // Runs ---------------------------------------------------------------------------------------------

  /** In every reachable state the counter is at its limit exactly where a lock is recorded. */
  lemma CounterMatchesLock(cfg: Settings, retain: bool, ws: seq<World>, ops: seq<Op>, i: nat, u: Uuid)
    requires cfg.Valid() && IsRun(cfg, retain, ws, ops) && i < |ws| && u in ws[i].st.users
    ensures var user := ws[i].st.users[u];
            && 0 <= user.failedLoginAttempts <= cfg.loginMaxAttempts
            && (user.failedLoginAttempts == cfg.loginMaxAttempts <==> user.lockedUntil.Some?)
  {
    hide Inv, Apply;
    Runs.Reachable(cfg, retain, ws, ops, i);
    Preservation.FoundById(cfg, ws[i].st, u);
  }

  ghost predicate MissAt(ws: seq<World>, ops: seq<Op>, k: nat, u: Uuid) {
    k < |ops| && k + 1 < |ws| && CountsFailure(ws[k].st, ops[k], ws[k + 1].at, u)
  }

  /** How many of the steps from `i` up to `j` count a failure against account `u`. */
  ghost function Misses(ws: seq<World>, ops: seq<Op>, i: nat, j: nat, u: Uuid): nat {
    if j <= i then 0 else Misses(ws, ops, i, j - 1, u) + if MissAt(ws, ops, j - 1, u) then 1 else 0
  }

  /** Step `k` is no successful check of, and no new password for, account `u`. */
  ghost predicate Undisturbed(cfg: Settings, retain: bool, ws: seq<World>, ops: seq<Op>, k: nat, u: Uuid) {
    && k < |ops| && k + 1 < |ws|
    && !ChecksOut(ws[k].st, ops[k], ws[k + 1].at, u)
    && !Replaces(ws[k].st, ops[k], Apply(cfg, retain, ws[k].st, ops[k], ws[k + 1].at).out, u)
  }

  predicate Within(ws: seq<World>, k: nat, from: Time, span: Time) {
    k + 1 < |ws| && from <= ws[k + 1].at <= from + span
  }

  /** After `locks` completed locks: how many failures they account for, and how late it must be. */
  predicate Accounted(cfg: Settings, t: Tally, n: nat, locks: nat, from: Time, now: Time) {
    if t.lockedUntil.None?
    then n <= locks * cfg.loginMaxAttempts + t.attempts
        && (locks > 0 ==> from + locks * Seconds(cfg.lockoutSeconds) <= now)
    else n <= locks * cfg.loginMaxAttempts
         && (locks > 0 ==> from + locks * Seconds(cfg.lockoutSeconds) <= t.lockedUntil.value
                           && t.lockedUntil.value <= now + Seconds(cfg.lockoutSeconds))
  }

  lemma MissAccounted(cfg: Settings, t: Tally, n: nat, locks: nat, from: Time, was: Time, now: Time)
    returns (more: nat)
    requires cfg.Valid() && Accounted(cfg, t, n, locks, from, was) && from <= now && was <= now
    requires Open(t, now) && 0 <= t.attempts && (t.lockedUntil.None? ==> t.attempts < cfg.loginMaxAttempts)
    ensures Accounted(cfg, AfterMiss(cfg, t, now), n + 1, more, from, now)
  {
    var max, lock := cfg.loginMaxAttempts, Seconds(cfg.lockoutSeconds);
    more := if AfterMiss(cfg, t, now).lockedUntil.Some? then locks + 1 else locks;
    assert (locks + 1) * max == locks * max + max && (locks + 1) * lock == locks * lock + lock;
  }

  lemma {:induction false} MissesAccounted(cfg: Settings, retain: bool, ws: seq<World>, ops: seq<Op>, i: nat, j: nat,
                                           u: Uuid, from: Time, span: Time) returns (locks: nat)
    requires cfg.Valid() && IsRun(cfg, retain, ws, ops) && i <= j < |ws| && Monotone(ws)
    requires forall k :: i <= k < j ==> Undisturbed(cfg, retain, ws, ops, k, u) && Within(ws, k, from, span)
    ensures Accounted(cfg, TallyOf(ws[j].st.users, u), Misses(ws, ops, i, j, u), locks, from, ws[j].now)
    decreases j
  {
    hide Inv, Apply, Accounted, CountsFailure, ChecksOut, Replaces;
    Runs.Reachable(cfg, retain, ws, ops, i);
    if i == j {
      locks := 0;
      NothingYet(cfg, ws[i], u, from);
    } else {
      locks := MissesAccounted(cfg, retain, ws, ops, i, j - 1, u, from, span);
      Runs.Reachable(cfg, retain, ws, ops, j - 1);
      Runs.StepEvolves(cfg, retain, ws, ops, j - 1);
      assert Undisturbed(cfg, retain, ws, ops, j - 1, u) && Within(ws, j - 1, from, span) && Recent(ws[j], 0);
      locks := NextAccounted(cfg, retain, ws[j - 1], ops[j - 1], ws[j], u, from, Misses(ws, ops, i, j - 1, u), locks);
    }
  }

  lemma NothingYet(cfg: Settings, w: World, u: Uuid, from: Time)
    requires Inv(cfg, w.st)
    ensures Accounted(cfg, TallyOf(w.st.users, u), 0, 0, from, w.now)
  {
    if u in w.st.users { Preservation.FoundById(cfg, w.st, u); }
  }

  lemma NextAccounted(cfg: Settings, retain: bool, w: World, op: Op, w': World, u: Uuid, from: Time, n: nat, locks: nat)
    returns (more: nat)
    requires cfg.Valid() && Step(cfg, retain, w, op, w') && Inv(cfg, w.st) && from <= w'.at && Recent(w', 0)
    requires Accounted(cfg, TallyOf(w.st.users, u), n, locks, from, w.now)
    requires !ChecksOut(w.st, op, w'.at, u)
    requires !Replaces(w.st, op, Apply(cfg, retain, w.st, op, w'.at).out, u)
    ensures Accounted(cfg, TallyOf(w'.st.users, u), if CountsFailure(w.st, op, w'.at, u) then n + 1 else n,
                      more, from, w'.now)
  {
    hide Inv, Apply, CountsFailure, ChecksOut, Replaces;
    var t := TallyOf(w.st.users, u);
    TallyExplained(cfg, retain, w.st, op, w'.at, u);
    if u in w.st.users { Preservation.FoundById(cfg, w.st, u); }
    if CountsFailure(w.st, op, w'.at, u) {
      more := MissAccounted(cfg, t, n, locks, from, w.now, w'.now);
    } else {
      more := locks;
    }
  }

  /** Over any stretch of a run that holds no successful check and no new password for the account,
      at most `max * (span / lockout + 1)` failures are counted in any time span, if the clock does
      not go back. */
  lemma LockoutBound(cfg: Settings, retain: bool, ws: seq<World>, ops: seq<Op>, i: nat, j: nat, u: Uuid,
                     from: Time, span: Time)
    requires cfg.Valid() && IsRun(cfg, retain, ws, ops) && i <= j < |ws| && 0 <= span && Monotone(ws)
    requires forall k :: i <= k < j ==> Undisturbed(cfg, retain, ws, ops, k, u) && Within(ws, k, from, span)
    ensures Misses(ws, ops, i, j, u) <= cfg.loginMaxAttempts * (span / Seconds(cfg.lockoutSeconds) + 1)
  {
    hide Inv, Apply, CountsFailure, ChecksOut, Replaces;
    if i < j {
      var locks := MissesAccounted(cfg, retain, ws, ops, i, j, u, from, span);
      assert Within(ws, j - 1, from, span) && Recent(ws[j], 0);
      Runs.Reachable(cfg, retain, ws, ops, j);
      if u in ws[j].st.users { Preservation.FoundById(cfg, ws[j].st, u); }
      CountLocks(cfg, TallyOf(ws[j].st.users, u), Misses(ws, ops, i, j, u), locks, from, ws[j].now, span);
    }
  }

  lemma CyclesFit(cycles: int, lock: int, span: int)
    requires lock > 0 && cycles * lock <= span
    ensures cycles <= span / lock
  {
    var spare := cycles - span / lock;
    assert spare * lock == cycles * lock - span / lock * lock;
    assert spare >= 1 ==> spare * lock >= lock;
  }

  lemma Scale(a: int, b: int, max: int)
    requires a <= b && 0 <= max
    ensures a * max <= b * max
  {
  }

  lemma CountLocks(cfg: Settings, t: Tally, n: nat, locks: nat, from: Time, now: Time, span: Time)
    requires cfg.Valid() && 0 <= span && now <= from + span && Accounted(cfg, t, n, locks, from, now)
    requires 0 <= t.attempts <= cfg.loginMaxAttempts
    ensures n <= cfg.loginMaxAttempts * (span / Seconds(cfg.lockoutSeconds) + 1)
  {
    var max, lock := cfg.loginMaxAttempts, Seconds(cfg.lockoutSeconds);
    var cycles := if t.lockedUntil.None? || locks == 0 then locks else locks - 1;
    assert (locks - 1) * lock == locks * lock - lock && (locks + 1) * max == locks * max + max;
    CyclesFit(cycles, lock, span);
    Scale(cycles + 1, span / lock + 1, max);
  }
}
