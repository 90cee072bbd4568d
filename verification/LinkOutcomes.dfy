/** When an email link is issued, delivered and redeemed, and what that leaves, told by the stored rows. */
module LinkOutcomes {
  import opened Models
  import opened Config
  import opened StoreState
  import opened RowFacts
  import SessionOutcomes
  import SessionRules
  import LinkRules

  // Whom a link is for --------------------------------------------------------------------------------

  /** What the account must be for a link of this purpose: an administrator gets none but the first. */
  predicate Eligible(cfg: Settings, u: User, p: Purpose, now: Time) {
    && (p == Activation <==> u.status == PendingActivation)
    && (p != Activation ==> u.status == Active && cfg.adminRole !in u.roles)
    && (p == LoginLink ==> Standing(u, now) && u.emailLinkLoginEnabled && !u.mustChangePassword)
    && (p == PasswordReset ==> u.passwordLoginEnabled)
    && (p == Invitation ==> u.mustChangePassword)
  }

  /** In time, sent to this address at this version, and still for an account it is meant for. */
  predicate UpToDate(cfg: Settings, users: map<Uuid, User>, l: EmailLink, now: Time) {
    && now < l.expiresAt && l.userId in users
    && var u := users[l.userId];
       l.securityVersion == u.securityVersion && l.recipientHash == Sha256(u.email) && Eligible(cfg, u, l.purpose, now)
  }

  lemma EligibleMeans(cfg: Settings, u: User, p: Purpose, now: Time)
    ensures LinkRules.CanRequest(cfg, u, p, now) <==> Eligible(cfg, u, p, now)
  {
  }

  lemma UpToDateMeans(cfg: Settings, users: map<Uuid, User>, l: EmailLink, now: Time)
    ensures l.userId in users ==> (LinkRules.Current(cfg, l, users[l.userId], now) <==> UpToDate(cfg, users, l, now))
  {
    if l.userId in users { EligibleMeans(cfg, users[l.userId], l.purpose, now); }
  }

  /** The token of the link `k` of that purpose. */
  predicate Names(s: State, k: Uuid, token: string, p: Purpose) {
    k in s.links && s.links[k].tokenHash == Sha256(token) && s.links[k].purpose == p
  }

  predicate NamesNone(cfg: Settings, s: State, token: string, p: Purpose) {
    || token == "" || |token| > cfg.maxTokenChars
    || forall k :: k in s.links ==> !(s.links[k].tokenHash == Sha256(token) && s.links[k].purpose == p)
  }

  lemma ByToken(s: State, k: Uuid, token: string, p: Purpose)
    requires LinksUnique(s.links) && Names(s, k, token, p)
    ensures LinkByToken(s.links, Sha256(token), p) == Some(s.links[k]) && s.links[k].id == k
  {
    assert Alike(LinkByToken(s.links, Sha256(token), p).value, s.links[k]);
  }

  function Spent(l: EmailLink, now: Time): EmailLink { l.(state := LinkConsumed, consumedAt := Some(now)) }

  function Withdrawn(l: EmailLink, now: Time): EmailLink { l.(state := LinkRevoked, revokedAt := Some(now)) }

  function Put(s: State, k: Uuid, l: EmailLink): State { s.(links := s.links[k := l]) }

  // Login by link -------------------------------------------------------------------------------------

  /** `consumable_link` and `consume_email_link`, for the link that the token names. */
  lemma RedemptionDecided(cfg: Settings, s: State, k: Uuid, token: string, p: Purpose, nonce: Option<string>, now: Time)
    requires LinksUnique(s.links) && Names(s, k, token, p) && 0 < |token| <= cfg.maxTokenChars
    ensures var l := s.links[k];
            var user := if l.userId in s.users then Some(s.users[l.userId]) else None;
            var found := LinkRules.Redeem(cfg, s, token, p, nonce, now);
            && found.user == user
            && if l.state != LinkActive then found.st == s && found.link.None?
               else if !UpToDate(cfg, s.users, l, now) then found.st == Put(s, k, Withdrawn(l, now)) && found.link.None?
               else if p == LoginLink && (nonce.None? || l.browserHash != Some(Sha256(nonce.value)))
               then found.st == s && found.link.None?
               else found.st == Put(s, k, Spent(l, now)) && found.link == Some(l)
  {
    hide LinksUnique, LinkByToken, LinkRules.CanRequest, Eligible;
    ByToken(s, k, token, p);
    var l := s.links[k];
    UpToDateMeans(cfg, s.users, l, now);
    if l.userId in s.users { EligibleMeans(cfg, s.users[l.userId], p, now); }
  }

  lemma NothingToRedeem(cfg: Settings, s: State, token: string, p: Purpose, nonce: Option<string>, now: Time)
    requires NamesNone(cfg, s, token, p)
    ensures LinkRules.Redeem(cfg, s, token, p, nonce, now).st == s
    ensures LinkRules.Redeem(cfg, s, token, p, nonce, now).link.None?
  {
  }

  /** A login by a stored login link: the link must be active and up to date and the browser the one
      that asked for it. In another browser the link stays as it was. */
  lemma LinkLoginDecided(cfg: Settings, s: State, k: Uuid, token: string, nonce: string, now: Time, draw: Fresh)
    requires LinksUnique(s.links) && UsersUnique(s.users)
    requires Names(s, k, token, LoginLink) && 0 < |token| <= cfg.maxTokenChars
    ensures var l := s.links[k];
            var r := LinkRules.LinkLogin(cfg, s, token, nonce, now, draw);
            var good := l.state == LinkActive && UpToDate(cfg, s.users, l, now);
            var admitted := good && l.browserHash == Some(Sha256(nonce));
            && (r.out.SessionIssued? <==> admitted && NewKeys(s.sessions, draw))
            && if r.out.SessionIssued?
               then && r.st == Put(s, k, Spent(l, now)).(sessions := r.st.sessions)
                    && OneBegun(cfg, s.sessions, r.st.sessions, l.userId, now, draw)
               else if admitted then r == Reply(s, Rejected(StoreConflict))
               else r == Reply(if l.state == LinkActive && !good then Put(s, k, Withdrawn(l, now)) else s,
                               Rejected(EmailLinkInvalid))
  {
    hide LinksUnique, LinkRules.Redeem, SessionRules.Issue, OneBegun, Eligible;
    RedemptionDecided(cfg, s, k, token, LoginLink, Some(nonce), now);
    var l := s.links[k];
    if l.userId in s.users {
      SessionOutcomes.UserKey(s, l.userId);
      SessionOutcomes.Issues(cfg, Put(s, k, Spent(l, now)), s.users[l.userId], now, draw);
    }
  }

  lemma LinkLoginUnknown(cfg: Settings, s: State, token: string, nonce: string, now: Time, draw: Fresh)
    requires NamesNone(cfg, s, token, LoginLink)
    ensures LinkRules.LinkLogin(cfg, s, token, nonce, now, draw) == Reply(s, Rejected(EmailLinkInvalid))
  {
    hide LinkRules.Redeem;
    NothingToRedeem(cfg, s, token, LoginLink, Some(nonce), now);
  }

  // Password by link ----------------------------------------------------------------------------------

  /** The account after its password was set by a link: a reset and an activation enable it, an
      invitation leaves login by link instead, an activation makes the account ACTIVE. */
  function SetBy(u: User, p: Purpose, hash: string, now: Time): User {
    match p
    case PasswordReset => WithPassword(u, hash, false, true, now)
    case Activation => WithPassword(u, hash, false, true, now).(status := Active)
    case _ => WithPassword(u, hash, false, false, now).(emailLinkLoginEnabled := true)
  }

  lemma PasswordByLinkDecided(cfg: Settings, s: State, k: Uuid, token: string, p: Purpose, acceptable: bool,
                              hash: string, now: Time)
    requires LinksUnique(s.links) && UsersUnique(s.users) && p != LoginLink
    requires Names(s, k, token, p) && 0 < |token| <= cfg.maxTokenChars
    ensures var l := s.links[k];
            var r := LinkRules.RedeemForAccount(cfg, s, token, p, acceptable, hash, now);
            if !acceptable then r == Reply(s, Rejected(PasswordInvalid))
            else if l.state != LinkActive || l.expiresAt <= now then r == Reply(s, Rejected(EmailLinkInvalid))
            else if !UpToDate(cfg, s.users, l, now)
            then r == Reply(Put(s, k, Withdrawn(l, now)), Rejected(EmailLinkInvalid))
            else var u := SetBy(s.users[l.userId], p, hash, now);
                 && r.out == UserSaved(u) && AccountEnded(s.sessions, r.st.sessions, l.userId, now)
                 && r.st == Put(s, k, Spent(l, now)).(users := s.users[l.userId := u], sessions := r.st.sessions)
  {
    hide LinksUnique, LinkRules.Redeem, LinkByToken, RevokeUserSessions, AccountEnded;
    RedemptionDecided(cfg, s, k, token, p, None, now);
    ByToken(s, k, token, p);
    var l := s.links[k];
    if l.userId in s.users {
      SessionOutcomes.UserKey(s, l.userId);
      var u := SetBy(s.users[l.userId], p, hash, now);
      SessionOutcomes.Ends(PutUser(Put(s, k, Spent(l, now)), u), l.userId, 0, now);
    }
  }

  lemma PasswordByNoLink(cfg: Settings, s: State, token: string, p: Purpose, acceptable: bool, hash: string, now: Time)
    requires NamesNone(cfg, s, token, p)
    ensures LinkRules.RedeemForAccount(cfg, s, token, p, acceptable, hash, now)
         == Reply(s, Rejected(if acceptable then EmailLinkInvalid else PasswordInvalid))
  {
    hide LinkRules.Redeem;
    NothingToRedeem(cfg, s, token, p, None, now);
  }

  // Delivery ------------------------------------------------------------------------------------------

  /** No link of the same account and purpose is newer. */
  predicate Newest(links: map<Uuid, EmailLink>, k: Uuid) {
    && k in links
    && forall m :: m in links && links[m].userId == links[k].userId && links[m].purpose == links[k].purpose ==>
         links[m].generation <= links[k].generation
  }

  lemma NewestIsLatest(s: State, k: Uuid)
    requires LinksUnique(s.links) && k in s.links
    ensures var latest := LatestLink(s.links, s.links[k].userId, s.links[k].purpose);
            latest.Some? && (latest.value.id == k <==> Newest(s.links, k))
  {
    var l := s.links[k];
    assert l.For(l.userId, l.purpose);
    LatestExists(s.links, l.userId, l.purpose);
    var latest := LatestLink(s.links, l.userId, l.purpose).value;
    assert IsLatest(s.links, l.userId, l.purpose, latest.id);
    assert Newest(s.links, k) ==> Alike(latest, l);
  }

  /** Every other active link of the account and purpose is revoked, and no other link changes. */
  predicate OthersWithdrawn(a: map<Uuid, EmailLink>, b: map<Uuid, EmailLink>, k: Uuid, now: Time)
    requires k in a
  {
    && b.Keys == a.Keys
    && forall m :: m in a && m != k ==>
         b[m] == if a[m].userId == a[k].userId && a[m].purpose == a[k].purpose && a[m].state == LinkActive
                 then Withdrawn(a[m], now) else a[m]
  }

  /** Reporting a delivery activates the link exactly if it is pending, the newest and up to date. */
  lemma DeliveryDecided(cfg: Settings, s: State, k: Uuid, now: Time)
    requires LinksUnique(s.links) && k in s.links
    ensures var l := s.links[k];
            var r := LinkRules.MarkDelivered(cfg, s, k, now);
            if l.state == LinkPending && Newest(s.links, k) && UpToDate(cfg, s.users, l, now)
            then && r.out == Delivered(true) && r.st == s.(links := r.st.links)
                 && OthersWithdrawn(s.links, r.st.links, k, now)
                 && r.st.links[k] == l.(state := LinkActive, deliveredAt := Some(now))
            else r == Reply(if l.state == LinkPending || l.state == LinkActive then Put(s, k, Withdrawn(l, now)) else s,
                            Delivered(false))
  {
    hide LatestLink, Newest, Eligible, LinkRules.Current, LinksUnique, UpToDate;
    NewestIsLatest(s, k);
    UpToDateMeans(cfg, s.users, s.links[k], now);
    LinkKey(s, k);
    OwnerOf(cfg, s.users, s.links[k], now);
  }

  lemma OwnerOf(cfg: Settings, users: map<Uuid, User>, l: EmailLink, now: Time)
    ensures UpToDate(cfg, users, l, now) ==> l.userId in users
  {
  }

  lemma LinkKey(s: State, k: Uuid)
    requires LinksUnique(s.links)
    ensures forall m :: m in s.links ==> s.links[m].id == m
  {
  }

  /** Reporting a failed delivery fails a pending link, and touches no other. */
  lemma FailureDecided(s: State, k: Uuid, now: Time)
    requires LinksUnique(s.links)
    ensures LinkRules.MarkDeliveryFailed(s, k, now)
         == Reply(if k in s.links && s.links[k].state == LinkPending
                  then Put(s, k, s.links[k].(state := LinkFailed, revokedAt := Some(now))) else s, Acknowledged)
  {
  }

  lemma DeliveryOfNothing(cfg: Settings, s: State, k: Uuid, now: Time)
    requires k !in s.links
    ensures LinkRules.MarkDelivered(cfg, s, k, now) == Reply(s, Delivered(false))
  {
  }

  // Issuing -------------------------------------------------------------------------------------------

  /** The links that the retention period keeps. */
  function Kept(cfg: Settings, links: map<Uuid, EmailLink>, now: Time): map<Uuid, EmailLink> {
    map k | k in links && now - 1_000_000 * cfg.retentionSeconds <= links[k].createdAt :: links[k]
  }

  /** As many links of the account and purpose were asked for in the request window as may be. */
  predicate Exhausted(cfg: Settings, links: map<Uuid, EmailLink>, user: Uuid, p: Purpose, now: Time) {
    cfg.maxRequestsPerWindow
      <= |set k | k in links && links[k].userId == user && links[k].purpose == p
                  && now - 1_000_000 * cfg.requestWindowSeconds <= links[k].createdAt|
  }

  /** One above the newest link of the account and purpose, or the first. */
  predicate NextIn(links: map<Uuid, EmailLink>, user: Uuid, p: Purpose, generation: int) {
    && (forall k :: k in links && links[k].userId == user && links[k].purpose == p ==> links[k].generation < generation)
    && if exists k :: k in links && links[k].userId == user && links[k].purpose == p
       then exists k :: k in links && links[k].userId == user && links[k].purpose == p
                        && links[k].generation + 1 == generation
       else generation == 1
  }

  predicate FreeLink(links: map<Uuid, EmailLink>, draw: LinkRules.LinkDraw) {
    draw.linkId !in links && forall k :: k in links ==> links[k].tokenHash != Sha256(draw.token)
  }

  /** The frontend has a page for links of this purpose. */
  predicate HasPage(cfg: Settings, p: Purpose) { if p == Activation then cfg.activationUrl else cfg.standardLinkUrls }

  function Lifetime(cfg: Settings, p: Purpose): Time {
    1_000_000 * match p
                case Activation => cfg.activationTtlSeconds
                case LoginLink => cfg.loginTtlSeconds
                case PasswordReset => cfg.resetTtlSeconds
                case Invitation => cfg.invitationTtlSeconds
  }

  /** A link for the account as it is now, pending. */
  predicate IssuedTo(cfg: Settings, l: EmailLink, u: User, p: Purpose, nonce: Option<string>,
                     draw: LinkRules.LinkDraw, now: Time)
  {
    l == EmailLink(draw.linkId, u.id, p, l.generation, Sha256(draw.token), Sha256(u.email),
                   if nonce.Some? then Some(Sha256(nonce.value)) else None, u.securityVersion,
                   now, now + Lifetime(cfg, p), LinkPending, None, None, None)
  }

  /** `issue_link`, for an account that may have the link. */
  ghost predicate IssueDecided(cfg: Settings, s: State, r: Reply, u: User, p: Purpose, nonce: Option<string>,
                               draw: LinkRules.LinkDraw, now: Time)
  {
    var kept := Kept(cfg, s.links, now);
    if Exhausted(cfg, kept, u.id, p, now) then r == Reply(s.(links := kept), LinkIssue(None))
    else if !FreeLink(kept, draw) then r == Reply(s, Rejected(StoreConflict))
    else if !HasPage(cfg, p) then r == Reply(s, Rejected(Misconfigured))
    else && r.out == LinkIssue(Some(draw.linkId)) && draw.linkId in r.st.links
         && var l := r.st.links[draw.linkId];
            && IssuedTo(cfg, l, u, p, nonce, draw, now) && NextIn(kept, u.id, p, l.generation)
            && r.st == s.(links := kept[draw.linkId := l])
  }

  lemma KeptMeans(cfg: Settings, s: State, now: Time)
    ensures PruneLinks(s, now - Seconds(cfg.retentionSeconds)) == s.(links := Kept(cfg, s.links, now))
    ensures LinksUnique(s.links) ==> LinksUnique(Kept(cfg, s.links, now))
  {
    assert PruneLinks(s, now - Seconds(cfg.retentionSeconds)).links == Kept(cfg, s.links, now);
  }

  lemma ExhaustedMeans(cfg: Settings, links: map<Uuid, EmailLink>, user: Uuid, p: Purpose, now: Time)
    ensures Exhausted(cfg, links, user, p, now) <==> LinkRules.RateLimited(cfg, links, user, p, now)
  {
    assert Requests(links, user, p, now - Seconds(cfg.requestWindowSeconds))
        == set k | k in links && links[k].userId == user && links[k].purpose == p
                   && now - 1_000_000 * cfg.requestWindowSeconds <= links[k].createdAt;
  }

  lemma NextMeans(links: map<Uuid, EmailLink>, user: Uuid, p: Purpose)
    ensures NextIn(links, user, p, LinkRules.NextGeneration(links, user, p))
  {
    if HasLink(links, user, p) {
      LatestExists(links, user, p);
      var latest := LatestLink(links, user, p).value;
      var k :| IsLatest(links, user, p, k) && links[k] == latest;
      assert links[k].userId == user && links[k].purpose == p
          && links[k].generation + 1 == LinkRules.NextGeneration(links, user, p);
    } else {
      forall k | k in links && links[k].userId == user && links[k].purpose == p ensures false {
        assert links[k].For(user, p);
      }
    }
  }

  lemma FreeMeans(links: map<Uuid, EmailLink>, l: EmailLink, draw: LinkRules.LinkDraw)
    requires l.id == draw.linkId && l.tokenHash == Sha256(draw.token)
    requires NextIn(links, l.userId, l.purpose, l.generation)
    ensures LinkClashes(links, l) <==> !FreeLink(links, draw)
  {
  }

  lemma Issues(cfg: Settings, s: State, u: User, p: Purpose, nonce: Option<string>, draw: LinkRules.LinkDraw, now: Time)
    ensures IssueDecided(cfg, s, LinkRules.IssueLink(cfg, false, s, u, p, nonce, draw, now), u, p, nonce, draw, now)
  {
    hide LinkRules.RateLimited, LinkRules.NextGeneration, NextIn, FreeLink, LinkClashes, Exhausted, Kept, PruneLinks;
    var kept := Kept(cfg, s.links, now);
    KeptMeans(cfg, s, now);
    ExhaustedMeans(cfg, kept, u.id, p, now);
    NextMeans(kept, u.id, p);
    FreeMeans(kept, LinkRules.NewLink(cfg, u, p, nonce, LinkRules.NextGeneration(kept, u.id, p), draw, now), draw);
  }

  /** `request_login` and `request_password_reset` for the email of a stored account: the answer to one
      that may not have the link is the answer to an unknown email. */
  lemma RequestDecided(cfg: Settings, s: State, id: Uuid, p: Purpose, nonce: Option<string>, draw: LinkRules.LinkDraw,
                       now: Time)
    requires UsersUnique(s.users) && id in s.users
    ensures var u := s.users[id];
            var r := LinkRules.RequestLink(cfg, false, s, u.email, p, nonce, draw, now);
            if Eligible(cfg, u, p, now) then IssueDecided(cfg, s, r, u, p, nonce, draw, now)
            else r == Reply(s, LinkIssue(None))
  {
    hide UserByEmail, LinkRules.IssueLink, LinkRules.CanRequest, Eligible, IssueDecided;
    SessionOutcomes.ByEmail(s, id, s.users[id].email);
    EligibleMeans(cfg, s.users[id], p, now);
    Issues(cfg, s, s.users[id], p, nonce, draw, now);
  }

  lemma RequestUnknown(cfg: Settings, s: State, email: string, p: Purpose, nonce: Option<string>,
                       draw: LinkRules.LinkDraw, now: Time)
    requires forall k :: k in s.users ==> s.users[k].email != email
    ensures LinkRules.RequestLink(cfg, false, s, email, p, nonce, draw, now) == Reply(s, LinkIssue(None))
  {
  }

  /** `invite` and the replacement of an activation link. */
  lemma IssueForUserDecided(cfg: Settings, s: State, id: Uuid, p: Purpose, draw: LinkRules.LinkDraw, now: Time)
    ensures var r := LinkRules.IssueForUser(cfg, false, s, id, p, draw, now);
            if id !in s.users then r == Reply(s, Rejected(UserNotFound))
            else if !Eligible(cfg, s.users[id], p, now) then r == Reply(s, Rejected(Forbidden))
            else IssueDecided(cfg, s, r, s.users[id], p, None, draw, now)
  {
    hide LinkRules.IssueLink, LinkRules.CanRequest, Eligible, IssueDecided;
    if id in s.users {
      EligibleMeans(cfg, s.users[id], p, now);
      Issues(cfg, s, s.users[id], p, None, draw, now);
    }
  }

  // Activation ----------------------------------------------------------------------------------------

  /** An account that waits for its first password. */
  function Waiting(id: Uuid, email: string, name: string, hash: string, roles: seq<string>, scopes: seq<string>,
                   now: Time): User
  {
    User(id, email, name, hash, PendingActivation, roles, scopes, false, false, false, false, 0, 0, None,
         None, Some(now), Some(now))
  }

  /** An account and its first link are stored, both or neither. */
  predicate CreatedWithLink(cfg: Settings, s: State, r: Reply, u: User, draw: LinkRules.LinkDraw, now: Time) {
    var kept := Kept(cfg, s.links, now);
    if u.id in s.users || (exists k :: k in s.users && s.users[k].email == u.email) || !FreeLink(kept, draw)
    then r == Reply(s, Rejected(UserExists))
    else && r.out == AdminReady(u, Some(draw.linkId)) && draw.linkId in r.st.links
         && var l := r.st.links[draw.linkId];
            && IssuedTo(cfg, l, u, Activation, None, draw, now) && l.generation == 1
            && r.st == s.(users := s.users[u.id := u], links := kept[draw.linkId := l])
  }

  lemma CreationDecided(cfg: Settings, s: State, u: User, draw: LinkRules.LinkDraw, now: Time)
    requires cfg.Valid() && cfg.activationUrl && forall k :: k in s.links ==> s.links[k].userId in s.users
    ensures CreatedWithLink(cfg, s, LinkRules.CreatePending(cfg, false, s, u, draw, now), u, draw, now)
  {
    hide LinkRules.IssueLink, FreeLink;
    Issues(cfg, PutUser(s, u), u, Activation, None, draw, now);
    if u.id !in s.users {
      var kept := Kept(cfg, s.links, now);
      assert (set k | k in kept && kept[k].userId == u.id && kept[k].purpose == Activation
                      && now - 1_000_000 * cfg.requestWindowSeconds <= kept[k].createdAt) == {};
    }
  }

  lemma ProvisioningDecided(cfg: Settings, s: State, id: Uuid, email: string, name: string, hash: string,
                            roles: seq<string>, draw: LinkRules.LinkDraw, now: Time)
    requires cfg.Valid() && forall k :: k in s.links ==> s.links[k].userId in s.users
    ensures var r := LinkRules.Provision(cfg, false, s, LinkRules.PendingUser(id, email, name, hash, roles, [], now),
                                         draw, now);
            if !cfg.activationUrl then r == Reply(s, Rejected(Misconfigured))
            else if cfg.adminRole in roles then r == Reply(s, Rejected(Forbidden))
            else CreatedWithLink(cfg, s, r, Waiting(id, email, name, hash, roles, [], now), draw, now)
  {
    hide LinkRules.CreatePending, CreatedWithLink;
    if cfg.activationUrl { CreationDecided(cfg, s, Waiting(id, email, name, hash, roles, [], now), draw, now); }
  }

  /** `ensure_initial_admin`: an administrator of that email is found; any other holder of the email, or
      of the role, refuses it. */
  lemma InitialAdminDecided(cfg: Settings, s: State, id: Uuid, email: string, name: string, hash: string,
                            draw: LinkRules.LinkDraw, now: Time)
    requires cfg.Valid() && UsersUnique(s.users) && forall k :: k in s.links ==> s.links[k].userId in s.users
    ensures var w := Waiting(id, email, name, hash, [cfg.adminRole], ["auth:admin"], now);
            var r := LinkRules.EnsureInitialAdmin(cfg, false, s,
                       LinkRules.PendingUser(id, email, name, hash, [cfg.adminRole], ["auth:admin"], now), draw, now);
            if !cfg.activationUrl then r == Reply(s, Rejected(Misconfigured))
            else if exists k :: k in s.users && s.users[k].email == email
            then exists k :: && k in s.users && s.users[k].email == email
                             && r == Reply(s, if cfg.adminRole in s.users[k].roles then AdminReady(s.users[k], None)
                                              else Rejected(UserExists))
            else if exists k :: k in s.users && cfg.adminRole in s.users[k].roles
            then r == Reply(s, Rejected(AdminExists))
            else CreatedWithLink(cfg, s, r, w, draw, now)
  {
    hide LinkRules.CreatePending, CreatedWithLink, UserByEmail, UsersUnique;
    if cfg.activationUrl {
      CreationDecided(cfg, s, Waiting(id, email, name, hash, [cfg.adminRole], ["auth:admin"], now), draw, now);
    }
    if exists k :: k in s.users && s.users[k].email == email {
      var k :| k in s.users && s.users[k].email == email;
      SessionOutcomes.ByEmail(s, k, email);
    } else {
      NoneByEmail(s, email);
      AdminHeld(cfg, s);
    }
  }

  lemma NoneByEmail(s: State, email: string)
    requires forall k :: k in s.users ==> s.users[k].email != email
    ensures UserByEmail(s.users, email).None?
  {
  }

  lemma AdminHeld(cfg: Settings, s: State)
    ensures InRole(s.users, cfg.adminRole, false) != {}
       <==> exists k :: k in s.users && cfg.adminRole in s.users[k].roles
  {
    if k: Uuid :| k in s.users && cfg.adminRole in s.users[k].roles {
      assert k in InRole(s.users, cfg.adminRole, false);
    }
  }
}
