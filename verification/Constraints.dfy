/** The CHECK constraints of `postgres/tables.py` that relate columns: no reachable state breaks one,
    so PostgreSQL never refuses a write for them. */
module Constraints {
  import opened Models
  import opened Config
  import opened StoreState
  import opened Invariant
  import opened Machine
  import opened LinkRules
  import SessionSafety
  import GoogleRules
  import PasskeyRules
  import SessionRules
  import Preservation
  import Frames
  import Runs

  // The constraints ------------------------------------------------------------------------------------------

  predicate NotBefore(t: Option<Time>, start: Time) { t.Some? ==> start <= t.value }

  predicate SessionChecked(x: Session) {
    && x.idleExpiresAt <= x.absoluteExpiresAt && x.createdAt < x.absoluteExpiresAt
    && (x.usedAt.None? <==> x.replacedById.None?)
  }

  predicate StateFitsTimes(l: EmailLink) {
    match l.state
    case LinkPending => l.deliveredAt.None? && l.consumedAt.None? && l.revokedAt.None?
    case LinkActive => l.deliveredAt.Some? && l.consumedAt.None? && l.revokedAt.None?
    case LinkFailed => l.deliveredAt.None? && l.consumedAt.None? && l.revokedAt.Some?
    case LinkConsumed => l.deliveredAt.Some? && l.consumedAt.Some? && l.revokedAt.None?
    case LinkRevoked => l.consumedAt.None? && l.revokedAt.Some?
  }

  predicate LinkChecked(l: EmailLink) {
    && (l.purpose == LoginLink <==> l.browserHash.Some?)
    && 0 < l.generation && 0 <= l.securityVersion && l.createdAt < l.expiresAt
    && StateFitsTimes(l)
  }

  predicate LinkTimed(l: EmailLink) {
    && NotBefore(l.deliveredAt, l.createdAt) && NotBefore(l.consumedAt, l.createdAt)
    && NotBefore(l.revokedAt, l.createdAt)
  }

  predicate GoogleChallengeChecked(c: GoogleChallenge) {
    c.createdAt < c.expiresAt && (c.purpose == GoogleLoginPurpose <==> c.userId.None?)
  }

  predicate PasskeyChallengeChecked(c: PasskeyChallenge) {
    && c.createdAt < c.expiresAt
    && (c.userId.Some? <==> c.purpose != Authentication) && (c.familyId.Some? <==> c.purpose == Reauthentication)
  }

  predicate IdentityChecked(i: Identity) { NotBefore(i.lastLoginAt, i.createdAt) }

  predicate PasskeyChecked(k: Passkey) { 0 <= k.signCount }

  predicate PasskeysChecked(passkeys: map<Uuid, Passkey>) {
    forall id :: id in passkeys ==> PasskeyChecked(passkeys[id])
  }

  predicate UsersChecked(users: map<Uuid, User>) {
    forall id :: id in users ==> 0 <= users[id].failedLoginAttempts && 0 <= users[id].securityVersion
  }

  // On a clock that does not go back (`ordered`), no row is younger than `now`, and so nothing happens
  // to a row before it was created.

  predicate LinksChecked(links: map<Uuid, EmailLink>, now: Time, ordered: bool) {
    forall id ::
        id in links ==> LinkChecked(links[id]) && (ordered ==> LinkTimed(links[id]) && links[id].createdAt <= now)
  }

  predicate GoogleChecked(s: State, now: Time, ordered: bool) {
    && (forall id :: id in s.googleChallenges ==> GoogleFits(s.googleChallenges[id], now, ordered))
    && (forall id :: id in s.identities ==> IdentityChecked(s.identities[id]))
  }

  predicate GoogleFits(c: GoogleChallenge, now: Time, ordered: bool) {
    GoogleChallengeChecked(c) && (ordered ==> NotBefore(c.consumedAt, c.createdAt) && c.createdAt <= now)
  }

  predicate PasskeyChallengesChecked(cs: map<Uuid, PasskeyChallenge>, now: Time, ordered: bool) {
    forall id :: id in cs ==>
      PasskeyChallengeChecked(cs[id])
          && (ordered ==> NotBefore(cs[id].consumedAt, cs[id].createdAt) && cs[id].createdAt <= now)
  }

  predicate Checked(s: State, now: Time, ordered: bool) {
    && LinksChecked(s.links, now, ordered) && GoogleChecked(s, now, ordered)
    && PasskeyChallengesChecked(s.passkeyChallenges, now, ordered) && PasskeysChecked(s.passkeys)
  }

  // Email links ------------------------------------------------------------------------------------------------

  lemma IssueChecked(cfg: Settings, retain: bool, s: State, user: User, p: Purpose, nonce: Option<string>,
                     draw: LinkDraw, now: Time, ordered: bool)
    requires cfg.Valid() && LinksUnique(s.links) && LinksChecked(s.links, now, ordered)
    requires 0 <= user.securityVersion && (p == LoginLink <==> nonce.Some?)
    ensures LinksChecked(IssueLink(cfg, retain, s, user, p, nonce, draw, now).st.links, now, ordered)
  {
    hide RateLimited, LinkClashes;
    var pruned := AfterPruning(cfg, retain, s, now);
    PrunedStaysUnique(cfg, retain, s, now);
    LatestStored(pruned.links, user.id, p);
  }

  lemma PrunedStaysUnique(cfg: Settings, retain: bool, s: State, now: Time)
    requires LinksUnique(s.links)
    ensures LinksUnique(AfterPruning(cfg, retain, s, now).links)
  {
  }

  lemma LatestStored(links: map<Uuid, EmailLink>, user: Uuid, p: Purpose)
    requires LinksUnique(links)
    ensures var l := LatestLink(links, user, p); l.Some? ==> l.value.id in links && links[l.value.id] == l.value
  {
    if HasLink(links, user, p) { LatestExists(links, user, p); }
  }

  lemma RequestChecked(cfg: Settings, retain: bool, s: State, email: string, p: Purpose, nonce: Option<string>,
                       draw: LinkDraw, now: Time, ordered: bool)
    requires cfg.Valid() && LinksUnique(s.links) && LinksChecked(s.links, now, ordered) && UsersChecked(s.users)
    requires p == LoginLink <==> nonce.Some?
    ensures LinksChecked(RequestLink(cfg, retain, s, email, p, nonce, draw, now).st.links, now, ordered)
  {
    hide IssueLink, LinksUnique, LinksChecked, CanRequest;
    var user := UserByEmail(s.users, email);
    if user.Some? { IssueChecked(cfg, retain, s, user.value, p, nonce, draw, now, ordered); }
  }

  lemma IssueForUserChecked(cfg: Settings, retain: bool, s: State, id: Uuid, p: Purpose, draw: LinkDraw, now: Time,
                            ordered: bool)
    requires cfg.Valid() && p != LoginLink
    requires LinksUnique(s.links) && LinksChecked(s.links, now, ordered) && UsersChecked(s.users)
    ensures LinksChecked(IssueForUser(cfg, retain, s, id, p, draw, now).st.links, now, ordered)
  {
    hide IssueLink, LinksUnique, LinksChecked, CanRequest;
    if id in s.users { IssueChecked(cfg, retain, s, s.users[id], p, None, draw, now, ordered); }
  }

  lemma CreatePendingChecked(cfg: Settings, retain: bool, s: State, u: User, draw: LinkDraw, now: Time, ordered: bool)
    requires cfg.Valid() && LinksUnique(s.links) && LinksChecked(s.links, now, ordered) && 0 <= u.securityVersion
    ensures LinksChecked(CreatePending(cfg, retain, s, u, draw, now).st.links, now, ordered)
  {
    hide IssueLink, LinksUnique, LinksChecked, EmailTaken;
    IssueChecked(cfg, retain, PutUser(s, u), u, Activation, None, draw, now, ordered);
  }

  lemma DeliveryChecked(cfg: Settings, s: State, id: Uuid, now: Time, ordered: bool)
    requires LinksUnique(s.links) && LinksChecked(s.links, now, ordered)
    ensures LinksChecked(LinkRules.MarkDelivered(cfg, s, id, now).st.links, now, ordered)
  {
    hide LinksUnique, LatestLink, Current, RevokeLink, RevokeOtherActive;
    if id in s.links {
      RevocationChecked(s, id, now, ordered);
      if s.links[id].state == LinkPending { ActivationChecked(s, s.links[id], now, ordered); }
    }
  }

  lemma RevocationChecked(s: State, id: Uuid, now: Time, ordered: bool)
    requires LinksChecked(s.links, now, ordered)
    ensures LinksChecked(RevokeLink(s, id, now).links, now, ordered)
  {
  }

  lemma ActivationChecked(s: State, link: EmailLink, now: Time, ordered: bool)
    requires LinksChecked(s.links, now, ordered) && LinkChecked(link) && (ordered ==> link.createdAt <= now)
        && link.state == LinkPending
    ensures LinksChecked(RevokeOtherActive(PutLink(s, Activated(link, now)), link, now).links, now, ordered)
  {
  }

  lemma FailureChecked(s: State, id: Uuid, now: Time, ordered: bool)
    requires LinksChecked(s.links, now, ordered)
    ensures LinksChecked(LinkRules.MarkDeliveryFailed(s, id, now).st.links, now, ordered)
  {
  }

  lemma RedeemChecked(cfg: Settings, s: State, token: string, p: Purpose, nonce: Option<string>, now: Time,
                      ordered: bool)
    requires Inv(cfg, s) && LinksChecked(s.links, now, ordered)
    ensures LinksChecked(Redeem(cfg, s, token, p, nonce, now).st.links, now, ordered)
  {
    hide Inv, CanRequest, LinkByToken;
    Preservation.ConsumableIsCurrent(cfg, s, token, p, nonce, now);
  }

  lemma RedemptionChecked(cfg: Settings, s: State, token: string, p: Purpose, acceptable: bool, hash: string,
                          now: Time, ordered: bool)
    requires Inv(cfg, s) && LinksChecked(s.links, now, ordered)
    ensures LinksChecked(RedeemForAccount(cfg, s, token, p, acceptable, hash, now).st.links, now, ordered)
  {
    hide Inv, Redeem, LinksChecked, ActiveLinkExists, Redeemed;
    RedeemChecked(cfg, s, token, p, None, now, ordered);
  }

  lemma LinkLoginChecked(cfg: Settings, s: State, token: string, nonce: string, now: Time, draw: Fresh, ordered: bool)
    requires Inv(cfg, s) && LinksChecked(s.links, now, ordered)
    ensures LinksChecked(LinkLogin(cfg, s, token, nonce, now, draw).st.links, now, ordered)
  {
    hide Inv, Redeem, LinksChecked, SessionRules.NewSession, SessionRules.Bundle;
    RedeemChecked(cfg, s, token, LoginLink, Some(nonce), now, ordered);
  }

  lemma LinkOpChecked(cfg: Settings, retain: bool, s: State, op: LinkOp, now: Time, ordered: bool)
    requires cfg.Valid() && Inv(cfg, s) && LinksChecked(s.links, now, ordered) && UsersChecked(s.users)
    ensures LinksChecked(ApplyLink(cfg, retain, s, op, now).st.links, now, ordered)
  {
    hide Inv, LinksChecked, UsersChecked, RequestLink, IssueForUser, CreatePending, LinkLogin, RedeemForAccount;
    hide LinkRules.MarkDelivered, LinkRules.MarkDeliveryFailed, UserByEmail, InRole;
    InvLinks(cfg, s);
    match op
    case RequestLoginLink(email, nonce, link) =>
      RequestChecked(cfg, retain, s, email, LoginLink, Some(nonce), link, now, ordered);
    case RequestPasswordReset(email, link) =>
        RequestChecked(cfg, retain, s, email, PasswordReset, None, link, now, ordered);
    case Invite(id, link) => IssueForUserChecked(cfg, retain, s, id, Invitation, link, now, ordered);
    case ReplaceActivation(id, link) => IssueForUserChecked(cfg, retain, s, id, Activation, link, now, ordered);
    case Provision(id, email, name, hash, roles, link) =>
      CreatePendingChecked(cfg, retain, s, PendingUser(id, email, name, hash, roles, [], now), link, now, ordered);
    case EnsureInitialAdmin(id, email, name, hash, link) =>
      CreatePendingChecked(cfg, retain, s,
        PendingUser(id, email, name, hash, [cfg.adminRole], ["auth:admin"], now), link, now, ordered);
    case MarkDelivered(id) => DeliveryChecked(cfg, s, id, now, ordered);
    case MarkDeliveryFailed(id) => FailureChecked(s, id, now, ordered);
    case LoginByLink(token, nonce, draw) => LinkLoginChecked(cfg, s, token, nonce, now, draw, ordered);
    case ResetByLink(token, acceptable, hash) =>
        RedemptionChecked(cfg, s, token, PasswordReset, acceptable, hash, now, ordered);
    case ActivateInvitation(token, hash) => RedemptionChecked(cfg, s, token, Invitation, true, hash, now, ordered);
    case ActivateAccount(token, acceptable, hash) =>
      RedemptionChecked(cfg, s, token, Activation, acceptable, hash, now, ordered);
  }

  lemma InvLinks(cfg: Settings, s: State)
    requires Inv(cfg, s)
    ensures LinksUnique(s.links) && IdentitiesOneToOne(s.identities)
  {
  }

  // Google -----------------------------------------------------------------------------------------------------

  lemma FoundIdentityChecked(s: State, subject: string, now: Time, ordered: bool)
    requires GoogleChecked(s, now, ordered)
    ensures var i := IdentityBySubject(s.identities, GOOGLE_ISSUER, subject); i.Some? ==> IdentityChecked(i.value)
  {
  }

  lemma LinkedLoginChecked(cfg: Settings, s: State, i: Identity, claims: GoogleClaims, now: Time, draw: Fresh,
                           ordered: bool)
    requires GoogleChecked(s, now, ordered) && IdentityChecked(i)
    ensures GoogleChecked(GoogleRules.LoginLinked(cfg, s, i, claims, now, draw).st, now, ordered)
  {
    hide User.CanAuthenticate, SessionRules.NewSession, SessionRules.Bundle;
  }

  lemma InsertIdentityChecked(cfg: Settings, s: State, u: User, claims: GoogleClaims, now: Time,
                              draw: GoogleRules.GoogleDraw, ordered: bool)
    requires GoogleChecked(s, now, ordered)
    ensures GoogleChecked(GoogleRules.InsertIdentityAndLogin(cfg, s, u, claims, now, draw).st, now, ordered)
  {
    hide GoogleRules.LoginLinked, IdentityClashes;
    var i := GoogleRules.NewIdentity(draw.identityId, u.id, claims, now);
    LinkedLoginChecked(cfg, PutIdentity(s, i), i, claims, now, draw.session, ordered);
  }

  lemma UnlinkedLoginChecked(cfg: Settings, s: State, claims: GoogleClaims, now: Time, draw: GoogleRules.GoogleDraw,
                             ordered: bool)
    requires GoogleChecked(s, now, ordered)
    ensures GoogleChecked(GoogleRules.LoginUnlinked(cfg, s, claims, now, draw).st, now, ordered)
  {
    hide GoogleRules.InsertIdentityAndLogin, GoogleRules.CanAutoLink, UserByEmail, EmailTaken, User.DisablePassword;
    if GoogleRules.IsAuthoritative(claims) {
      var user := UserByEmail(s.users, claims.email.value);
      if user.Some? {
        var linked := user.value.DisablePassword(draw.passwordHash, now);
        InsertIdentityChecked(cfg, PutUser(s, linked), linked, claims, now, draw, ordered);
      } else {
        var added := GoogleRules.OpenUser(cfg, claims, now, draw);
        InsertIdentityChecked(cfg, PutUser(s, added), added, claims, now, draw, ordered);
      }
    }
  }

  lemma GoogleOpChecked(cfg: Settings, s: State, op: GoogleOp, now: Time, ordered: bool)
    requires cfg.Valid() && GoogleChecked(s, now, ordered)
    ensures GoogleChecked(ApplyGoogle(cfg, s, op, now).st, now, ordered)
  {
    hide GoogleRules.LoginLinked, GoogleRules.LoginUnlinked, GoogleRules.Begin, GoogleRules.LinkOnce, IdentityBySubject;
    hide GoogleRules.RecoverPasswordAccess, GoogleChecked, GoogleRules.Consume;
    if op.GoogleLogin? || op.GoogleLoginAfterConflict? { FoundIdentityChecked(s, op.claims.subject, now, ordered); }
    match op
    case BeginGoogleLogin(origin, id, nonce) =>
        BeginChecked(cfg, s, GoogleLoginPurpose, origin, None, id, nonce, now, ordered);
    case BeginGoogleLink(p, origin, id, nonce) =>
      BeginChecked(cfg, s, GoogleLinkPurpose, origin, Some(p.userId), id, nonce, now, ordered);
    case ConsumeGoogle(id, purpose, origin, user) => ConsumeChecked(cfg, s, id, purpose, origin, user, now, ordered);
    case GoogleLogin(claims, google) =>
      var i := IdentityBySubject(s.identities, GOOGLE_ISSUER, claims.subject);
      UnlinkedLoginChecked(cfg, s, claims, now, google, ordered);
      if i.Some? { LinkedLoginChecked(cfg, s, i.value, claims, now, google.session, ordered); }
    case GoogleLoginAfterConflict(claims, draw) =>
      var i := IdentityBySubject(s.identities, GOOGLE_ISSUER, claims.subject);
      if i.Some? { LinkedLoginChecked(cfg, s, i.value, claims, now, draw, ordered); }
    case GoogleLink(p, claims, id) => LinkChecks(cfg, s, p, claims, now, id, ordered);
    case RecoverPasswordAccess(id, hash) => RecoverChecks(s, id, hash, now, ordered);
  }

  lemma BeginChecked(cfg: Settings, s: State, purpose: GooglePurpose, origin: Option<string>, user: Option<Uuid>,
                     id: Uuid, nonce: string, now: Time, ordered: bool)
    requires cfg.Valid() && GoogleChecked(s, now, ordered) && (purpose == GoogleLoginPurpose <==> user.None?)
    ensures GoogleChecked(GoogleRules.Begin(cfg, s, purpose, origin, user, id, nonce, now).st, now, ordered)
  {
    hide User.CanAuthenticate;
  }

  lemma ConsumeChecked(cfg: Settings, s: State, id: Uuid, purpose: GooglePurpose, origin: Option<string>,
                       user: Option<Uuid>, now: Time, ordered: bool)
    requires GoogleChecked(s, now, ordered)
    ensures GoogleChecked(GoogleRules.Consume(cfg, s, id, purpose, origin, user, now).st, now, ordered)
  {
  }

  lemma LinkChecks(cfg: Settings, s: State, p: Principal, claims: GoogleClaims, now: Time, id: Uuid, ordered: bool)
    requires GoogleChecked(s, now, ordered)
    ensures GoogleChecked(GoogleRules.LinkOnce(cfg, s, p, claims, now, id).st, now, ordered)
  {
    hide User.CanAuthenticate, Session.IsValidFor, IdentityBySubject, IdentityClashes, IssuerTaken;
  }

  lemma RecoverChecks(s: State, id: Uuid, hash: string, now: Time, ordered: bool)
    requires GoogleChecked(s, now, ordered)
    ensures GoogleChecked(GoogleRules.RecoverPasswordAccess(s, id, hash, now).st, now, ordered)
  {
    hide IdentityOfUser, User.RequirePasswordChange;
  }

  // Passkeys -----------------------------------------------------------------------------------------------------

  lemma PasskeyOpChecked(cfg: Settings, s: State, op: PasskeyOp, now: Time, ordered: bool)
    requires cfg.Valid() && PasskeyChallengesChecked(s.passkeyChallenges, now, ordered)
    ensures PasskeyChallengesChecked(ApplyPasskey(cfg, s, op, now).st.passkeyChallenges, now, ordered)
  {
    hide User.CanAuthenticate, Session.IsValidFor, PasskeyRules.AcceptedPasskey, UsablePasskeys, CredentialTaken;
    hide SessionRules.NewSession, SessionRules.Bundle;
  }

  /** The counter of a passkey is whatever WebAuthn reported last, which is not negative. */
  lemma CountersChecked(cfg: Settings, s: State, op: PasskeyOp, now: Time)
    requires Inv(cfg, s) && PasskeysChecked(s.passkeys)
    ensures PasskeysChecked(ApplyPasskey(cfg, s, op, now).st.passkeys)
  {
    hide Inv, User.CanAuthenticate, Session.IsValidFor, PasskeyRules.AcceptedPasskey, UsablePasskeys, CredentialTaken;
    hide SessionRules.NewSession, SessionRules.Bundle;
    if op.LoginByPasskey? { Preservation.AcceptedIsStored(cfg, s, op.assertion, None, now); }
    if op.ConfirmByPasskey? { Preservation.AcceptedIsStored(cfg, s, op.assertion, Some(op.p.userId), now); }
  }

  // Any step -----------------------------------------------------------------------------------------------------

  lemma Later(s: State, t: Time, now: Time, ordered: bool)
    requires Checked(s, t, ordered) && (ordered ==> t <= now)
    ensures Checked(s, now, ordered)
  {
  }

  lemma StepChecked(cfg: Settings, retain: bool, s: State, op: Op, now: Time, ordered: bool)
    requires cfg.Valid() && Inv(cfg, s) && Checked(s, now, ordered) && UsersChecked(s.users)
    ensures Checked(Apply(cfg, retain, s, op, now).st, now, ordered)
  {
    hide Inv, LinksChecked, UsersChecked, PasskeyChallengesChecked, PasskeysChecked;
    hide ApplySession, ApplyUser, ApplyLink, ApplyGoogle, ApplyPasskey;
    assert Frames.Accounts(s, s) == Frames.GoogleTables(s, s) == Frames.PasskeyTables(s, s) == s;
    match op
    case OnSessions(x) => Frames.SessionOpsOnAccounts(cfg, s, s, x, now);
    case OnUsers(x) => Frames.UserOpsOnAccounts(cfg, s, s, x, now);
    case OnLinks(x) =>
      Frames.LinkOpFrame(cfg, retain, s, x, now);
      LinkOpChecked(cfg, retain, s, x, now, ordered);
    case OnGoogle(x) =>
      Frames.GoogleOpsOnGoogle(cfg, s, s, x, now);
      GoogleOpChecked(cfg, s, x, now, ordered);
    case OnPasskeys(x) =>
      Frames.PasskeyOpsOnPasskeys(cfg, s, s, x, now);
      PasskeyOpChecked(cfg, s, x, now, ordered);
      CountersChecked(cfg, s, x, now);
  }

  // Runs ---------------------------------------------------------------------------------------------------------

  lemma InvUsersChecked(cfg: Settings, s: State)
    requires Inv(cfg, s)
    ensures UsersChecked(s.users)
  {
    forall id | id in s.users ensures 0 <= s.users[id].failedLoginAttempts && 0 <= s.users[id].securityVersion {
      assert CountersFit(cfg, s.users[id]);
    }
  }

  lemma InvSessionsChecked(cfg: Settings, s: State)
    requires Inv(cfg, s)
    ensures forall id :: id in s.sessions ==> SessionChecked(s.sessions[id])
  {
    forall id | id in s.sessions ensures SessionChecked(s.sessions[id]) {
      assert SessionSafety.Timely(cfg, s.sessions[id]);
    }
  }

  lemma {:induction false} CheckedAlong(cfg: Settings, retain: bool, ws: seq<World>, ops: seq<Op>, i: nat)
    requires cfg.Valid() && IsRun(cfg, retain, ws, ops) && i < |ws|
    ensures Checked(ws[i].st, ws[i].now, Monotone(ws))
  {
    hide Inv, Apply, UsersChecked;
    if i > 0 {
      var w, w' := ws[i - 1], ws[i];
      CheckedAlong(cfg, retain, ws, ops, i - 1);
      Runs.Reachable(cfg, retain, ws, ops, i - 1);
      Runs.StepEvolves(cfg, retain, ws, ops, i - 1);
      InvUsersChecked(cfg, w.st);
      assert Monotone(ws) ==> Recent(w', 0);
      Later(w.st, w.now, w'.at, Monotone(ws));
      StepChecked(cfg, retain, w.st, ops[i - 1], w'.at, Monotone(ws));
      Later(w'.st, w'.at, w'.now, Monotone(ws));
    }
  }

  /** Every row of every reachable state meets the constraints of its table; those that compare the
      time of an event with the row's creation, on a clock that does not go back. */
  lemma ReachableRowsAreChecked(cfg: Settings, retain: bool, ws: seq<World>, ops: seq<Op>, i: nat)
    requires cfg.Valid() && IsRun(cfg, retain, ws, ops) && i < |ws|
    ensures var s := ws[i].st;
            && UsersChecked(s.users)
            && (forall id :: id in s.sessions ==> SessionChecked(s.sessions[id]))
            && Checked(s, ws[i].now, Monotone(ws))
  {
    hide Inv, Apply, UsersChecked, SessionChecked, Checked;
    CheckedAlong(cfg, retain, ws, ops, i);
    Runs.Reachable(cfg, retain, ws, ops, i);
    InvUsersChecked(cfg, ws[i].st);
    InvSessionsChecked(cfg, ws[i].st);
  }
}
