/** Every transaction of the services as one step of a state machine. An operation that spans
    several transactions (a ceremony's `finish`) is several steps, so others may come in between. */
module Machine {
  import opened Models
  import opened Config
  import opened StoreState
  import SessionRules
  import UserRules
  import LinkRules
  import GoogleRules
  import PasskeyRules

  datatype SessionOp =
    | Login(email: string, verification: PasswordVerification, draw: Fresh)
    | Reauthenticate(p: Principal, verification: PasswordVerification)
    | Refresh(token: string, cookie: string, header: string, originOk: bool, draw: Fresh)
    | Logout(token: string, cookie: string, header: string, originOk: bool)
    | ChangePassword(p: Principal, change: SessionRules.PasswordChange, draw: Fresh)

  datatype UserOp =
    | CreateAdmin(id: Uuid, email: string, name: string, hash: string)
    | CreateUser(id: Uuid, email: string, name: string, hash: string, roles: seq<string>,
                 scopes: seq<string>, autoLink: bool)
    | UpdateUser(id: Uuid, update: UserUpdate)
    | ResetPassword(id: Uuid, hash: string)
    | RevokeAllSessions(id: Uuid)

  datatype LinkOp =
    | RequestLoginLink(email: string, nonce: string, link: LinkRules.LinkDraw)
    | RequestPasswordReset(email: string, link: LinkRules.LinkDraw)
    | Invite(id: Uuid, link: LinkRules.LinkDraw)
    | ReplaceActivation(id: Uuid, link: LinkRules.LinkDraw)
    | Provision(id: Uuid, email: string, name: string, hash: string, roles: seq<string>,
                link: LinkRules.LinkDraw)
    | EnsureInitialAdmin(id: Uuid, email: string, name: string, hash: string, link: LinkRules.LinkDraw)
    | MarkDelivered(id: Uuid)
    | MarkDeliveryFailed(id: Uuid)
    | LoginByLink(token: string, nonce: string, draw: Fresh)
    | ResetByLink(token: string, acceptable: bool, hash: string)
    | ActivateInvitation(token: string, hash: string)
    | ActivateAccount(token: string, acceptable: bool, hash: string)

  datatype GoogleOp =
    | BeginGoogleLogin(origin: Option<string>, id: Uuid, nonce: string)
    | BeginGoogleLink(p: Principal, origin: Option<string>, id: Uuid, nonce: string)
    | ConsumeGoogle(id: Uuid, purpose: GooglePurpose, origin: Option<string>, user: Option<Uuid>)
    | GoogleLogin(claims: GoogleClaims, google: GoogleRules.GoogleDraw)
    | GoogleLoginAfterConflict(claims: GoogleClaims, draw: Fresh)
    | GoogleLink(p: Principal, claims: GoogleClaims, id: Uuid)
    | RecoverPasswordAccess(id: Uuid, hash: string)

  datatype PasskeyOp =
    | BeginRegistration(p: Principal, origin: Option<string>, ceremony: PasskeyRules.Ceremony)
    | BeginAuthentication(origin: Option<string>, ceremony: PasskeyRules.Ceremony)
    | BeginReauthentication(p: Principal, origin: Option<string>, ceremony: PasskeyRules.Ceremony)
    | ConsumePasskey(id: Uuid, purpose: CeremonyPurpose, user: Option<Uuid>, family: Option<Uuid>)
    | RegisterPasskey(p: Principal, id: Uuid, name: string, response: PasskeyRules.Attestation)
    | LoginByPasskey(assertion: PasskeyRules.Assertion, draw: Fresh)
    | ConfirmByPasskey(p: Principal, assertion: PasskeyRules.Assertion)
    | RevokePasskey(p: Principal, id: Uuid, origin: Option<string>)

  datatype Op =
    | OnSessions(session: SessionOp)
    | OnUsers(user: UserOp)
    | OnLinks(link: LinkOp)
    | OnGoogle(google: GoogleOp)
    | OnPasskeys(passkey: PasskeyOp)

  ghost function ApplySession(cfg: Settings, s: State, op: SessionOp, now: Time): Reply {
    match op
    case Login(email, v, draw) => SessionRules.Login(cfg, s, email, v, now, draw)
    case Reauthenticate(p, v) => SessionRules.Reauthenticate(cfg, s, p, v, now)
    case Refresh(token, cookie, header, originOk, draw) =>
      SessionRules.GuardedRefresh(cfg, s, token, cookie, header, originOk, now, draw)
    case Logout(token, cookie, header, originOk) =>
      SessionRules.GuardedLogout(s, token, cookie, header, originOk, now)
    case ChangePassword(p, change, draw) => SessionRules.ChangePassword(cfg, s, p, change, now, draw)
  }

  function ApplyUser(cfg: Settings, s: State, op: UserOp, now: Time): Reply {
    match op
    case CreateAdmin(id, email, name, hash) => UserRules.CreateAdmin(cfg, s, id, email, name, hash, now)
    case CreateUser(id, email, name, hash, roles, scopes, autoLink) =>
      UserRules.CreateUser(s, id, email, name, hash, roles, scopes, autoLink, now)
    case UpdateUser(id, update) => UserRules.UpdateUser(cfg, s, id, update, now)
    case ResetPassword(id, hash) => UserRules.ResetPassword(s, id, hash, now)
    case RevokeAllSessions(id) => UserRules.RevokeAllSessions(s, id, now)
  }

  ghost function ApplyLink(cfg: Settings, retain: bool, s: State, op: LinkOp, now: Time): Reply {
    match op
    case RequestLoginLink(email, nonce, link) =>
      LinkRules.RequestLink(cfg, retain, s, email, LoginLink, Some(nonce), link, now)
    case RequestPasswordReset(email, link) =>
      LinkRules.RequestLink(cfg, retain, s, email, PasswordReset, None, link, now)
    case Invite(id, link) => LinkRules.IssueForUser(cfg, retain, s, id, Invitation, link, now)
    case ReplaceActivation(id, link) =>
      if !cfg.activationUrl then Reply(s, Rejected(Misconfigured))
      else LinkRules.IssueForUser(cfg, retain, s, id, Activation, link, now)
    case Provision(id, email, name, hash, roles, link) =>
      LinkRules.Provision(cfg, retain, s, LinkRules.PendingUser(id, email, name, hash, roles, [], now), link, now)
    case EnsureInitialAdmin(id, email, name, hash, link) =>
      LinkRules.EnsureInitialAdmin(cfg, retain, s,
        LinkRules.PendingUser(id, email, name, hash, [cfg.adminRole], ["auth:admin"], now), link, now)
    case MarkDelivered(id) => LinkRules.MarkDelivered(cfg, s, id, now)
    case MarkDeliveryFailed(id) => LinkRules.MarkDeliveryFailed(s, id, now)
    case LoginByLink(token, nonce, draw) => LinkRules.LinkLogin(cfg, s, token, nonce, now, draw)
    case ResetByLink(token, acceptable, hash) =>
      LinkRules.RedeemForAccount(cfg, s, token, PasswordReset, acceptable, hash, now)
    case ActivateInvitation(token, hash) =>
      LinkRules.RedeemForAccount(cfg, s, token, Invitation, true, hash, now)
    case ActivateAccount(token, acceptable, hash) =>
      LinkRules.RedeemForAccount(cfg, s, token, Activation, acceptable, hash, now)
  }

  ghost function ApplyGoogle(cfg: Settings, s: State, op: GoogleOp, now: Time): Reply {
    match op
    case BeginGoogleLogin(origin, id, nonce) =>
      GoogleRules.Begin(cfg, s, GoogleLoginPurpose, origin, None, id, nonce, now)
    case BeginGoogleLink(p, origin, id, nonce) => GoogleRules.BeginLink(cfg, s, p, origin, id, nonce, now)
    case ConsumeGoogle(id, purpose, origin, user) => GoogleRules.Consume(cfg, s, id, purpose, origin, user, now)
    case GoogleLogin(claims, draw) => GoogleRules.LoginOnce(cfg, s, claims, now, draw)
    case GoogleLoginAfterConflict(claims, draw) => GoogleRules.LoginAfterConflict(cfg, s, claims, now, draw)
    case GoogleLink(p, claims, id) => GoogleRules.LinkOnce(cfg, s, p, claims, now, id)
    case RecoverPasswordAccess(id, hash) => GoogleRules.RecoverPasswordAccess(s, id, hash, now)
  }

  ghost function ApplyPasskey(cfg: Settings, s: State, op: PasskeyOp, now: Time): Reply {
    match op
    case BeginRegistration(p, origin, c) => PasskeyRules.BeginRegistration(cfg, s, p, origin, c, now)
    case BeginAuthentication(origin, c) => PasskeyRules.BeginAuthentication(cfg, s, origin, c, now)
    case BeginReauthentication(p, origin, c) => PasskeyRules.BeginReauthentication(cfg, s, p, origin, c, now)
    case ConsumePasskey(id, purpose, user, family) => PasskeyRules.Consume(s, id, purpose, user, family, now)
    case RegisterPasskey(p, id, name, response) =>
      PasskeyRules.Register(cfg, s, p, PasskeyRules.NewPasskey(id, p.userId, name, response, now), now)
    case LoginByPasskey(a, draw) => PasskeyRules.LoginByPasskey(cfg, s, a, now, draw)
    case ConfirmByPasskey(p, a) => PasskeyRules.ConfirmByPasskey(s, p, a, now)
    case RevokePasskey(p, id, origin) => PasskeyRules.RevokePasskey(cfg, s, p, id, origin, now)
  }

  /** One step. `retain` replaces the store by an ideal one that never deletes old links. */
  ghost function Apply(cfg: Settings, retain: bool, s: State, op: Op, now: Time): Reply {
    match op
    case OnSessions(x) => ApplySession(cfg, s, x, now)
    case OnUsers(x) => ApplyUser(cfg, s, x, now)
    case OnLinks(x) => ApplyLink(cfg, retain, s, x, now)
    case OnGoogle(x) => ApplyGoogle(cfg, s, x, now)
    case OnPasskeys(x) => ApplyPasskey(cfg, s, x, now)
  }

  // Freshness --------------------------------------------------------------------------------

  /** The session identifiers a step may draw for a new login. */
  function LoginDraw(op: Op): Option<Fresh> {
    match op
    case OnSessions(Login(_, _, draw)) => Some(draw)
    case OnSessions(ChangePassword(_, _, draw)) => Some(draw)
    case OnLinks(LoginByLink(_, _, draw)) => Some(draw)
    case OnGoogle(GoogleLogin(_, google)) => Some(google.session)
    case OnGoogle(GoogleLoginAfterConflict(_, draw)) => Some(draw)
    case OnPasskeys(LoginByPasskey(_, draw)) => Some(draw)
    case _ => None
  }

  function LinkDrawn(op: Op): Option<LinkRules.LinkDraw> {
    match op
    case OnLinks(RequestLoginLink(_, _, link)) => Some(link)
    case OnLinks(RequestPasswordReset(_, link)) => Some(link)
    case OnLinks(Invite(_, link)) => Some(link)
    case OnLinks(ReplaceActivation(_, link)) => Some(link)
    case OnLinks(Provision(_, _, _, _, _, link)) => Some(link)
    case OnLinks(EnsureInitialAdmin(_, _, _, _, link)) => Some(link)
    case _ => None
  }

  function GoogleChallengeDrawn(op: Op): Option<Uuid> {
    match op
    case OnGoogle(BeginGoogleLogin(_, id, _)) => Some(id)
    case OnGoogle(BeginGoogleLink(_, _, id, _)) => Some(id)
    case _ => None
  }

  function PasskeyChallengeDrawn(op: Op): Option<Uuid> {
    match op
    case OnPasskeys(BeginRegistration(_, _, c)) => Some(c.id)
    case OnPasskeys(BeginAuthentication(_, c)) => Some(c.id)
    case OnPasskeys(BeginReauthentication(_, _, c)) => Some(c.id)
    case _ => None
  }

  // Everything ever stored under an identifier that pruning may delete.
  datatype History = History(links: map<Uuid, EmailLink>, google: set<Uuid>, passkey: set<Uuid>)

  function RememberLinks(h: map<Uuid, EmailLink>, links: map<Uuid, EmailLink>): map<Uuid, EmailLink> {
    h + map id | id in links && id !in h :: links[id]
  }

  function Remember(h: History, s: State): History {
    History(RememberLinks(h.links, s.links),
            h.google + s.googleChallenges.Keys, h.passkey + s.passkeyChallenges.Keys)
  }

  /** The identifiers a step draws at random were never drawn before. Session ids and token hashes
      need no such assumption: `insert_session` checks them. */
  predicate FreshFor(h: History, s: State, op: Op) {
    && (LoginDraw(op).Some? ==>
          forall id :: id in s.sessions ==> s.sessions[id].familyId != LoginDraw(op).value.familyId)
    && (LinkDrawn(op).Some? ==>
          && LinkDrawn(op).value.linkId !in h.links
          && forall id :: id in h.links ==> h.links[id].tokenHash != Sha256(LinkDrawn(op).value.token))
    && (GoogleChallengeDrawn(op).Some? ==> GoogleChallengeDrawn(op).value !in h.google)
    && (PasskeyChallengeDrawn(op).Some? ==> PasskeyChallengeDrawn(op).value !in h.passkey)
  }

  // Runs ---------------------------------------------------------------------------------------

  /** A store, the clock reading `at` of the step that led to it, and the latest reading so far. */
  datatype World = World(st: State, at: Time, now: Time, history: History)

  const NOTHING := History(map[], {}, {})

  /** One committed transaction. It read its clock before it took its locks, and may have read it in
      an earlier transaction of its flow: its reading can be older than that of the step before. */
  ghost predicate Step(cfg: Settings, retain: bool, w: World, op: Op, w': World) {
    && FreshFor(w.history, w.st, op)
    && w'.st == Apply(cfg, retain, w.st, op, w'.at).st
    && w'.now == Max(w.now, w'.at)
    && w'.history == Remember(w.history, w'.st)
  }

  ghost predicate StepAt(cfg: Settings, retain: bool, ws: seq<World>, ops: seq<Op>, i: nat) {
    i < |ops| && i + 1 < |ws| && Step(cfg, retain, ws[i], ops[i], ws[i + 1])
  }

  ghost predicate IsRun(cfg: Settings, retain: bool, ws: seq<World>, ops: seq<Op>) {
    && |ws| == |ops| + 1
    && ws[0].st == EMPTY && ws[0].at == ws[0].now && ws[0].history == NOTHING
    && forall i :: 0 <= i < |ops| ==> StepAt(cfg, retain, ws, ops, i)
  }

  // Time ---------------------------------------------------------------------------------------

  predicate Recent(w: World, lag: Time) { w.now <= w.at + lag }

  /** No step acts on a reading that is more than `lag` older than the latest one before it. */
  predicate Punctual(ws: seq<World>, lag: Time) { forall i :: 0 <= i < |ws| ==> Recent(ws[i], lag) }

  /** The clock does not go back in the order of commits. */
  predicate Monotone(ws: seq<World>) { Punctual(ws, 0) }
}
