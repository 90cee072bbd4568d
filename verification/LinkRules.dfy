/** `email_links/`: issuing, delivering and redeeming one-time links, and account activation. */
module LinkRules {
  import opened Models
  import opened Config
  import opened StoreState
  import SessionRules
  import UserRules

  // _policy.py -----------------------------------------------------------------------------------

  predicate CanRequest(cfg: Settings, user: User, p: Purpose, now: Time) {
    if p == Activation then user.status == PendingActivation
    else if user.HasRole(cfg.adminRole) then false
    else match p
      case LoginLink => user.CanAuthenticate(now) && user.emailLinkLoginEnabled && !user.mustChangePassword
      case PasswordReset => user.status == Active && user.passwordLoginEnabled
      case _ => user.status == Active && user.mustChangePassword
  }

  predicate Current(cfg: Settings, link: EmailLink, user: User, now: Time) {
    && link.expiresAt > now
    && link.securityVersion == user.securityVersion
    && link.recipientHash == Sha256(user.email)
    && CanRequest(cfg, user, link.purpose, now)
  }

  predicate Deliverable(cfg: Settings, link: EmailLink, latest: Option<EmailLink>, user: Option<User>, now: Time) {
    && latest.Some? && user.Some?
    && link.state == LinkPending && link.id == latest.value.id
    && Current(cfg, link, user.value, now)
  }

  predicate MatchesUser(cfg: Settings, link: EmailLink, user: User, now: Time) {
    link.state == LinkActive && Current(cfg, link, user, now)
  }

  predicate ValidBrowser(link: EmailLink, nonce: Option<string>) {
    link.browserHash.Some? && nonce.Some? && link.browserHash.value == Sha256(nonce.value)
  }

  // _operations.py -------------------------------------------------------------------------------

  datatype LinkDraw = LinkDraw(linkId: Uuid, token: string)

  function NewLink(cfg: Settings, user: User, p: Purpose, nonce: Option<string>, generation: int,
                   draw: LinkDraw, now: Time): EmailLink
  {
    EmailLink(draw.linkId, user.id, p, generation, Sha256(draw.token), Sha256(user.email),
              if nonce.Some? then Some(Sha256(nonce.value)) else None, user.securityVersion,
              now, now + Seconds(cfg.LinkTtl(p)), LinkPending, None, None, None)
  }

  /** The store `issue_link` counts in. `retain` describes an ideal store that never deletes. */
  function AfterPruning(cfg: Settings, retain: bool, s: State, now: Time): State {
    if retain then s else PruneLinks(s, now - Seconds(cfg.retentionSeconds))
  }

  predicate RateLimited(cfg: Settings, links: map<Uuid, EmailLink>, user: Uuid, p: Purpose, now: Time) {
    |Requests(links, user, p, now - Seconds(cfg.requestWindowSeconds))| >= cfg.maxRequestsPerWindow
  }

  ghost function NextGeneration(links: map<Uuid, EmailLink>, user: Uuid, p: Purpose): int {
    var latest := LatestLink(links, user, p);
    if latest.Some? then latest.value.generation + 1 else 1
  }

  ghost function IssueLink(cfg: Settings, retain: bool, s: State, user: User, p: Purpose,
                           nonce: Option<string>, draw: LinkDraw, now: Time): Reply
  {
    var pruned := AfterPruning(cfg, retain, s, now);
    if RateLimited(cfg, pruned.links, user.id, p, now) then Reply(pruned, LinkIssue(None))
    else
      var link := NewLink(cfg, user, p, nonce, NextGeneration(pruned.links, user.id, p), draw, now);
      if LinkClashes(pruned.links, link) then Reply(s, Rejected(StoreConflict))
      else if !cfg.LinkUrl(p) then Reply(s, Rejected(Misconfigured))
      else Reply(PutLink(pruned, link), LinkIssue(Some(link.id)))
  }

  /** What `issue_link` has written when it stops, by an answer or by an exception. */
  ghost function Written(cfg: Settings, s: State, user: User, p: Purpose, nonce: Option<string>, draw: LinkDraw,
                         now: Time): State
  {
    var pruned := AfterPruning(cfg, false, s, now);
    var link := NewLink(cfg, user, p, nonce, NextGeneration(pruned.links, user.id, p), draw, now);
    if RateLimited(cfg, pruned.links, user.id, p, now) || LinkClashes(pruned.links, link) then pruned
    else PutLink(pruned, link)
  }

  function RevokeLink(s: State, id: Uuid, now: Time): State {
    if id in s.links && s.links[id].state in {LinkPending, LinkActive}
    then PutLink(s, ClosedAs(s.links[id], LinkRevoked, now)) else s
  }

  predicate TokenShape(cfg: Settings, token: string) { 0 < |token| <= cfg.maxTokenChars }

  datatype Found = Found(st: State, link: Option<EmailLink>, user: Option<User>)

  ghost function Consumable(cfg: Settings, s: State, token: string, p: Purpose, nonce: Option<string>,
                            now: Time): Found
  {
    var candidate := if TokenShape(cfg, token) then LinkByToken(s.links, Sha256(token), p) else None;
    if candidate.None? then Found(s, None, None)
    else
      var link := candidate.value;
      var user := UserById(s.users, link.userId);
      if link.state != LinkActive then Found(s, None, user)
      else if user.None? || !MatchesUser(cfg, link, user.value, now)
      then Found(RevokeLink(s, link.id, now), None, user)
      else if p == LoginLink && !ValidBrowser(link, nonce) then Found(s, None, user)
      else Found(s, Some(link), user)
  }

  ghost predicate ActiveLinkExists(cfg: Settings, s: State, token: string, p: Purpose, now: Time) {
    && TokenShape(cfg, token)
    && var link := LinkByToken(s.links, Sha256(token), p);
       link.Some? && link.value.state == LinkActive && link.value.expiresAt > now
  }

  predicate CanConsume(links: map<Uuid, EmailLink>, id: Uuid, p: Purpose, now: Time) {
    id in links && links[id].purpose == p && links[id].state == LinkActive && links[id].expiresAt > now
  }

  /** `consumable_link`, the eligibility check and `consume_email_link`: a link only when consumed. */
  ghost function Redeem(cfg: Settings, s: State, token: string, p: Purpose, nonce: Option<string>,
                        now: Time): Found
  {
    var found := Consumable(cfg, s, token, p, nonce, now);
    if found.link.None? || found.user.None? || !CanRequest(cfg, found.user.value, p, now)
       || !CanConsume(found.st.links, found.link.value.id, p, now)
    then Found(found.st, None, found.user)
    else Found(PutLink(found.st, Consumed(found.link.value, now)), found.link, found.user)
  }

  // service.py -----------------------------------------------------------------------------------

  ghost function RequestLink(cfg: Settings, retain: bool, s: State, email: string, p: Purpose,
                             nonce: Option<string>, draw: LinkDraw, now: Time): Reply
  {
    var user := UserByEmail(s.users, email);
    if user.None? || !CanRequest(cfg, user.value, p, now) then Reply(s, LinkIssue(None))
    else IssueLink(cfg, retain, s, user.value, p, nonce, draw, now)
  }

  /** `invite` and `AccountActivationService.replace`. */
  ghost function IssueForUser(cfg: Settings, retain: bool, s: State, id: Uuid, p: Purpose,
                              draw: LinkDraw, now: Time): Reply
  {
    if id !in s.users then Reply(s, Rejected(UserNotFound))
    else if !CanRequest(cfg, s.users[id], p, now) then Reply(s, Rejected(Forbidden))
    else IssueLink(cfg, retain, s, s.users[id], p, None, draw, now)
  }

  ghost function MarkDelivered(cfg: Settings, s: State, id: Uuid, now: Time): Reply {
    if id !in s.links then Reply(s, Delivered(false))
    else
      var link := s.links[id];
      var latest := LatestLink(s.links, link.userId, link.purpose);
      if !Deliverable(cfg, link, latest, UserById(s.users, link.userId), now)
      then Reply(RevokeLink(s, id, now), Delivered(false))
      else Reply(RevokeOtherActive(PutLink(s, Activated(link, now)), link, now), Delivered(true))
  }

  function MarkDeliveryFailed(s: State, id: Uuid, now: Time): Reply {
    if id in s.links && s.links[id].state == LinkPending
    then Reply(PutLink(s, ClosedAs(s.links[id], LinkFailed, now)), Acknowledged)
    else Reply(s, Acknowledged)
  }

  ghost function LinkLogin(cfg: Settings, s: State, token: string, nonce: string, now: Time,
                           draw: Fresh): Reply
  {
    var found := Redeem(cfg, s, token, LoginLink, Some(nonce), now);
    if found.link.None? || found.user.None? then Reply(found.st, Rejected(EmailLinkInvalid))
    else SessionRules.OrRollback(s,
           SessionRules.Issue(cfg, found.st, found.user.value, now, SessionRules.NewLogin, draw))
  }

  /** What redeeming a link of purpose `p` turns its account into. */
  function Redeemed(user: User, p: Purpose, hash: string, now: Time): Option<User> {
    match p
    case Activation => user.ActivateAccount(hash, now)
    case PasswordReset => Some(user.ActivatePassword(hash, now))
    case _ => Some(user.ActivateEmailLinkLogin(hash, now))
  }

  /** `reset_password`, `activate_invitation` and `activate`: they differ only in `Redeemed`. */
  ghost function RedeemForAccount(cfg: Settings, s: State, token: string, p: Purpose, acceptable: bool,
                                  hash: string, now: Time): Reply
  {
    if !acceptable then Reply(s, Rejected(PasswordInvalid))
    else if !ActiveLinkExists(cfg, s, token, p, now) then Reply(s, Rejected(EmailLinkInvalid))
    else
      var found := Redeem(cfg, s, token, p, None, now);
      if found.link.None? || found.user.None? then Reply(found.st, Rejected(EmailLinkInvalid))
      else
        var updated := Redeemed(found.user.value, p, hash, now);
        if updated.None? then Reply(s, Rejected(Misconfigured))
        else Reply(RevokeUserSessions(PutUser(found.st, updated.value), updated.value.id, now),
                   UserSaved(updated.value))
  }

  // activation.py --------------------------------------------------------------------------------

  function PendingUser(id: Uuid, email: string, name: string, hash: string, roles: seq<string>,
                       scopes: seq<string>, now: Time): User
  {
    User(id, email, name, hash, PendingActivation, roles, scopes, false, false, false, false, 0, 0, None,
         None, Some(now), Some(now))
  }

  /** `_create`; its callers turn every store conflict into UserExists. */
  ghost function CreatePending(cfg: Settings, retain: bool, s: State, user: User, draw: LinkDraw,
                               now: Time): Reply
  {
    var added := UserRules.AddUser(s, user);
    if added.out.Rejected? then Reply(s, added.out)
    else
      var issued := IssueLink(cfg, retain, added.st, user, Activation, None, draw, now);
      if issued.out == Rejected(StoreConflict) then Reply(s, Rejected(UserExists))
      else if issued.out.Rejected? then Reply(s, issued.out)
      else if issued.out.pending.None? then Reply(s, Rejected(Misconfigured))
      else Reply(issued.st, AdminReady(user, issued.out.pending))
  }

  ghost function Provision(cfg: Settings, retain: bool, s: State, user: User, draw: LinkDraw, now: Time): Reply {
    if !cfg.activationUrl then Reply(s, Rejected(Misconfigured))
    else if user.HasRole(cfg.adminRole) then Reply(s, Rejected(Forbidden))
    else CreatePending(cfg, retain, s, user, draw, now)
  }

  ghost function EnsureInitialAdmin(cfg: Settings, retain: bool, s: State, user: User, draw: LinkDraw,
                                    now: Time): Reply
  {
    var existing := UserByEmail(s.users, user.email);
    if !cfg.activationUrl then Reply(s, Rejected(Misconfigured))
    else if existing.Some? then
      if existing.value.HasRole(cfg.adminRole) then Reply(s, AdminReady(existing.value, None))
      else Reply(s, Rejected(UserExists))
    else if InRole(s.users, cfg.adminRole, false) != {} then Reply(s, Rejected(AdminExists))
    else CreatePending(cfg, retain, s, user, draw, now)
  }
}
