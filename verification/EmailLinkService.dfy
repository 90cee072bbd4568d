/** `email_links/` as it runs: `_operations.py`, `service.py` and `activation.py`. */
module EmailLinkService {
  import opened Models
  import opened Config
  import opened StoreState
  import opened Statements
  import opened MemoryStore
  import opened LinkRules
  import SessionRules
  import SessionService
  import UserRules

  lemma PrunedLinks(s: State, before: Time)
    requires LinksUnique(s.links)
    ensures LinksUnique(PruneLinks(s, before).links)
  {
  }

  lemma LinkOwners(s: State)
    requires Fit(s)
    ensures forall id :: id in s.links ==> s.links[id].userId in s.users
  {
  }

  /** A link found by its token is the stored row with its id. */
  lemma FoundLink(links: map<Uuid, EmailLink>, hash: Hash, p: Purpose)
    requires LinksUnique(links)
    ensures var l := LinkByToken(links, hash, p); l.Some? ==> l.value.id in links && links[l.value.id] == l.value
  {
  }

  // _operations.py -----------------------------------------------------------------------------------------

  /** The first half of `issue_link`: prunes, counts the recent requests and drafts the next link. */
  method Draft(store: MemoryAuthStore, cfg: Settings, user: User, p: Purpose, nonce: Option<string>,
               draw: LinkDraw, now: Time) returns (link: Option<EmailLink>)
    requires LinksUnique(store.links)
    modifies store
    ensures store.View() == AfterPruning(cfg, false, old(store.View()), now)
    ensures link == if RateLimited(cfg, store.links, user.id, p, now) then None
                    else Some(NewLink(cfg, user, p, nonce, NextGeneration(store.links, user.id, p), draw, now))
    ensures store.began == old(store.began) && store.log == old(store.log)
  {
    hide LinksUnique, LatestLink, PruneLinks, Requests;
    var _ := store.DeleteOldEmailLinks(now - Seconds(cfg.retentionSeconds));
    PrunedLinks(old(store.View()), now - Seconds(cfg.retentionSeconds));
    var count := store.CountEmailLinkRequests(user.id, p, now - Seconds(cfg.requestWindowSeconds));
    if count >= cfg.maxRequestsPerWindow { return None; }
    var latest := store.GetLatestEmailLink(user.id, p);
    var generation := if latest.Some? then latest.value.generation + 1 else 1;
    return Some(EmailLink(draw.linkId, user.id, p, generation, Sha256(draw.token), Sha256(user.email),
                          if nonce.Some? then Some(Sha256(nonce.value)) else None, user.securityVersion,
                          now, now + Seconds(cfg.LinkTtl(p)), LinkPending, None, None, None));
  }

  /** `issue_link`, in the caller's transaction; the caller undoes what a rejection leaves written. */
  method Issue(store: MemoryAuthStore, cfg: Settings, user: User, p: Purpose, nonce: Option<string>,
               draw: LinkDraw, now: Time) returns (out: Outcome)
    requires LinksUnique(store.links) && Has(store.log, user.id)
    modifies store
    ensures out == IssueLink(cfg, false, old(store.View()), user, p, nonce, draw, now).out
    ensures store.View() == Written(cfg, old(store.View()), user, p, nonce, draw, now)
    ensures store.Went()
  {
    hide LinksUnique, LinkClashes, PruneLinks, RateLimited, NextGeneration, Orderly, MayFollow;
    var link := Draft(store, cfg, user, p, nonce, draw, now);
    if link.None? { return LinkIssue(None); }
    MayAdd(store.began, store.log, user.id, AddLink(link.value.id, user.id));
    var stored := store.InsertEmailLink(link.value);
    if !stored { return Rejected(StoreConflict); }
    if !cfg.LinkUrl(p) { return Rejected(Misconfigured); }
    return LinkIssue(Some(link.value.id));
  }

  /** `consumable_link`. */
  method FindConsumable(store: MemoryAuthStore, cfg: Settings, token: string, p: Purpose, nonce: Option<string>,
                        now: Time)
    returns (link: Option<EmailLink>, user: Option<User>)
    requires Fit(store.View()) && store.Begun(store.View())
    modifies store
    ensures Found(store.View(), link, user) == Consumable(cfg, old(store.View()), token, p, nonce, now)
    ensures store.Went() && (link.Some? && user.Some? ==> Has(store.log, link.value.userId))
  {
    hide Fit, LinkByToken, LinksUnique, User.CanAuthenticate, MatchesUser, ValidBrowser, Orderly, MayFollow, Belongs;
    SessionService.FitParts(store.View());
    FoundLink(store.links, Sha256(token), p);
    LinkOwners(store.View());
    if token == "" || |token| > cfg.maxTokenChars { return None, None; }
    var candidate := store.GetEmailLinkByTokenHash(Sha256(token), p);
    if candidate.None? { return None, None; }
    MayOpen(store.began, [], OnUser(candidate.value.userId));
    user := store.GetUserById(candidate.value.userId, true);
    MayReadLink(store.began, store.log, candidate.value.id);
    link := store.GetEmailLink(candidate.value.id, true);
    if link.None? || link.value.state != LinkActive { return None, user; }
    if user.None? || !MatchesUser(cfg, link.value, user.value, now) {
      MayReadLink(store.began, store.log, link.value.id);
      var _ := store.RevokeEmailLink(link.value.id, now);
      return None, user;
    }
    if p == LoginLink && !ValidBrowser(link.value, nonce) { return None, user; }
  }

  /** `active_link_exists`: a transaction of its own that only reads. */
  method IsActive(store: MemoryAuthStore, cfg: Settings, token: string, p: Purpose, now: Time) returns (active: bool)
    requires Fit(store.View())
    modifies store
    ensures active == ActiveLinkExists(cfg, old(store.View()), token, p, now)
    ensures store.View() == old(store.View()) && (old(store.InOrder()) ==> store.InOrder())
  {
    if token == "" || |token| > cfg.maxTokenChars { return false; }
    var _ := store.Begin();
    var link := store.GetEmailLinkByTokenHash(Sha256(token), p);
    active := link.Some? && link.value.state == LinkActive && link.value.expiresAt > now;
  }

  /** The redemption that `login`, `reset_password`, `activate_invitation` and `activate` share. */
  method RedeemLink(store: MemoryAuthStore, cfg: Settings, token: string, p: Purpose, nonce: Option<string>, now: Time)
    returns (link: Option<EmailLink>, user: Option<User>)
    requires Fit(store.View()) && store.Begun(store.View())
    modifies store
    ensures Found(store.View(), link, user) == Redeem(cfg, old(store.View()), token, p, nonce, now)
    ensures store.Went() && (link.Some? && user.Some? ==> Has(store.log, link.value.userId))
  {
    hide Fit, LinksUnique, Consumable, CanRequest;
    ConsumableLink(cfg, store.View(), token, p, nonce, now);
    link, user := FindConsumable(store, cfg, token, p, nonce, now);
    if link.None? || user.None? || !CanRequest(cfg, user.value, p, now) {
      link := None;
    } else {
      var consumed := store.ConsumeEmailLink(link.value.id, p, now);
      if !consumed { link := None; }
    }
  }

  /** What `consumable_link` leaves: unique links, and the link it found as stored. */
  lemma ConsumableLink(cfg: Settings, s: State, token: string, p: Purpose, nonce: Option<string>, now: Time)
    requires Fit(s)
    ensures var found := Consumable(cfg, s, token, p, nonce, now);
            && LinksUnique(found.st.links)
            && (found.link.Some? ==> found.link.value.id in found.st.links
                                     && found.st.links[found.link.value.id] == found.link.value)
            && (found.link.Some? ==> found.st == s && found.user == UserById(s.users, found.link.value.userId))
  {
    hide User.CanAuthenticate, CanRequest;
    SessionService.FitParts(s);
    FoundLink(s.links, Sha256(token), p);
    RevokedLinks(s, LinkByToken(s.links, Sha256(token), p), now);
  }

  lemma RevokedLinks(s: State, l: Option<EmailLink>, now: Time)
    requires LinksUnique(s.links)
    ensures l.Some? ==> LinksUnique(RevokeLink(s, l.value.id, now).links)
  {
    if l.Some? {
      hide LinksUnique;
      LinkKeys(s.links);
      RevisedLinks(s.links, RevokeLink(s, l.value.id, now).links);
    }
  }

  lemma LinkKeys(links: map<Uuid, EmailLink>)
    requires LinksUnique(links)
    ensures forall id :: id in links ==> links[id].id == id
  {
  }

  predicate SameLinkKeys(a: EmailLink, b: EmailLink) {
    b.id == a.id && b.tokenHash == a.tokenHash && b.generation == a.generation && b.For(a.userId, a.purpose)
  }

  lemma RevisedLinks(a: map<Uuid, EmailLink>, b: map<Uuid, EmailLink>)
    requires LinksUnique(a) && b.Keys == a.Keys && forall id :: id in a ==> SameLinkKeys(a[id], b[id])
    ensures LinksUnique(b)
  {
    forall x, y | x in b && y in b && Alike(b[x], b[y]) ensures x == y {
      assert SameLinkKeys(a[x], b[x]) && SameLinkKeys(a[y], b[y]) && Alike(a[x], a[y]);
    }
  }

  // service.py -------------------------------------------------------------------------------------------

  class EmailLinkService {
    const store: MemoryAuthStore
    const cfg: Settings
    const issuer: SessionService.SessionIssuer

    constructor (store: MemoryAuthStore, cfg: Settings)
      ensures this.store == store && this.cfg == cfg && issuer.cfg == cfg
    {
      this.store, this.cfg := store, cfg;
      issuer := new SessionService.SessionIssuer(cfg);
    }

    /** `_request_for_email`, behind `request_login` and `request_password_reset`. */
    method RequestForEmail(email: string, p: Purpose, nonce: Option<string>, draw: LinkDraw, now: Time)
      returns (out: Outcome)
      requires Fit(store.View())
      modifies store
      ensures Reply(store.View(), out) == RequestLink(cfg, false, old(store.View()), email, p, nonce, draw, now)
      ensures store.Ran(old(store.View()))
    {
      hide Fit, IssueLink, Written, CanRequest, UserByEmail, Orderly, MayFollow;
      SessionService.FitParts(store.View());
      var snapshot := store.Begin();
      var user := store.GetUserByEmail(email, true);
      if user.Some? { MayOpen(snapshot, [], OnUser(user.value.id)); }
      if user.None? || !CanRequest(cfg, user.value, p, now) { return LinkIssue(None); }
      out := Issue(store, cfg, user.value, p, nonce, draw, now);
      IssueRejections(cfg, snapshot, user.value, p, nonce, draw, now);
      if out.Rejected? { store.Rollback(snapshot); }
    }

    method Invite(id: Uuid, draw: LinkDraw, now: Time) returns (out: Outcome)
      requires Fit(store.View())
      modifies store
      ensures Reply(store.View(), out) == IssueForUser(cfg, false, old(store.View()), id, Invitation, draw, now)
      ensures store.Ran(old(store.View()))
    {
      out := IssueTo(store, cfg, id, Invitation, draw, now);
    }

    method MarkDelivered(id: Uuid, now: Time) returns (out: Outcome)
      requires Fit(store.View())
      modifies store
      ensures Reply(store.View(), out) == LinkRules.MarkDelivered(cfg, old(store.View()), id, now)
      ensures store.Ran(old(store.View()))
    {
      hide Fit, LinksUnique, LatestLink, CanRequest, RevokedUnless, RevokeOtherActive, Orderly, MayFollow;
      SessionService.FitParts(store.View());
      LinkKeys(store.links);
      LinkOwners(store.View());
      var snapshot := store.Begin();
      out := Delivered(false);
      var candidate := store.GetEmailLink(id, false);
      if candidate.None? { return; }
      MayOpen(snapshot, [], OnUser(candidate.value.userId));
      var user := store.GetUserById(candidate.value.userId, true);
      MayReadLink(snapshot, store.log, id);
      var link := store.GetEmailLink(id, true);
      MayReadLink(snapshot, store.log, id);
      var latest := store.GetLatestEmailLink(candidate.value.userId, candidate.value.purpose);
      if !Deliverable(cfg, candidate.value, latest, user, now) {
        var _ := store.RevokeEmailLink(id, now);
        return;
      }
      RevisedByActivation(store.links, id, now);
      var activated := store.ActivateEmailLink(id, now);
      if !activated { return; }
      MayTouch(snapshot, store.log, OnThread(candidate.value));
      var _ := store.RevokeOtherActiveEmailLinks(candidate.value, now);
      return Delivered(true);
    }

    method MarkDeliveryFailed(id: Uuid, now: Time) returns (out: Outcome)
      requires Fit(store.View())
      modifies store
      ensures Reply(store.View(), out) == LinkRules.MarkDeliveryFailed(old(store.View()), id, now)
      ensures store.Ran(old(store.View()))
    {
      var _ := store.Begin();
      var _ := store.FailEmailLink(id, now);
      return Acknowledged;
    }

    method Login(token: string, nonce: string, now: Time, draw: Fresh) returns (out: Outcome)
      requires Fit(store.View()) && issuer.cfg == cfg
      modifies store
      ensures Reply(store.View(), out) == LinkLogin(cfg, old(store.View()), token, nonce, now, draw)
      ensures store.Ran(old(store.View()))
    {
      hide Fit, Redeem, SessionRules.Issue;
      var snapshot := store.Begin();
      var link, user := RedeemLink(store, cfg, token, LoginLink, Some(nonce), now);
      if link.None? || user.None? { return Rejected(EmailLinkInvalid); }
      RedeemedOwner(cfg, snapshot, token, LoginLink, Some(nonce), now);
      var result := issuer.Issue(store, user.value, now, SessionRules.NewLogin, draw);
      if result.None? {
        store.Rollback(snapshot);
        return Rejected(StoreConflict);
      }
      return SessionIssued(result.value);
    }

    method ResetPassword(token: string, acceptable: bool, hash: string, now: Time) returns (out: Outcome)
      requires Fit(store.View())
      modifies store
      ensures Reply(store.View(), out)
           == RedeemForAccount(cfg, old(store.View()), token, PasswordReset, acceptable, hash, now)
      ensures old(store.InOrder()) ==> store.InOrder()
    {
      out := RedeemAccount(store, cfg, token, PasswordReset, acceptable, hash, now);
    }

    method ActivateInvitation(token: string, hash: string, now: Time) returns (out: Outcome)
      requires Fit(store.View())
      modifies store
      ensures Reply(store.View(), out) == RedeemForAccount(cfg, old(store.View()), token, Invitation, true, hash, now)
      ensures old(store.InOrder()) ==> store.InOrder()
    {
      out := RedeemAccount(store, cfg, token, Invitation, true, hash, now);
    }
  }

  /** `issue_link` answers nothing but a link, no link, or one of two errors; undone, these leave nothing. */
  lemma IssueRejections(cfg: Settings, s: State, user: User, p: Purpose, nonce: Option<string>, draw: LinkDraw,
                        now: Time)
    ensures var r := IssueLink(cfg, false, s, user, p, nonce, draw, now);
            && (r.out.Rejected? || r.out.LinkIssue?)
            && (r.out.Rejected? ==> r.st == s && (r.out.error == StoreConflict || r.out.error == Misconfigured))
            && (r.out.LinkIssue? ==> r.st == Written(cfg, s, user, p, nonce, draw, now))
  {
    hide RateLimited, LinkClashes, NewLink;
  }

  lemma RevisedByActivation(links: map<Uuid, EmailLink>, id: Uuid, now: Time)
    requires LinksUnique(links) && id in links
    ensures LinksUnique(links[id := Activated(links[id], now)])
  {
    hide LinksUnique;
    LinkKeys(links);
    RevisedLinks(links, links[id := Activated(links[id], now)]);
  }

  /** A redeemed link belongs to the account found with it, which is stored. */
  lemma RedeemedOwner(cfg: Settings, s: State, token: string, p: Purpose, nonce: Option<string>, now: Time)
    requires Fit(s)
    ensures var found := Redeem(cfg, s, token, p, nonce, now);
            found.link.Some? && found.user.Some? ==>
              && found.user.value.id == found.link.value.userId
              && found.st.users == s.users && found.user.value.id in s.users
              && s.users[found.user.value.id] == found.user.value
              && UsersUnique(found.st.users)
  {
    hide Fit, Consumable, CanRequest;
    SessionService.FitParts(s);
    ConsumableLink(cfg, s, token, p, nonce, now);
    var found := Consumable(cfg, s, token, p, nonce, now);
    if found.link.Some? && found.user.Some? { SessionService.UserKey(s, found.link.value.userId); }
  }

  /** Issuing to a given account: `invite` and `AccountActivationService.replace`. */
  method IssueTo(store: MemoryAuthStore, cfg: Settings, id: Uuid, p: Purpose, draw: LinkDraw, now: Time)
    returns (out: Outcome)
    requires Fit(store.View())
    modifies store
    ensures Reply(store.View(), out) == IssueForUser(cfg, false, old(store.View()), id, p, draw, now)
    ensures store.Ran(old(store.View()))
  {
    hide Fit, IssueLink, Written, CanRequest, Orderly, MayFollow;
    SessionService.FitParts(store.View());
    var snapshot := store.Begin();
    MayOpen(snapshot, [], OnUser(id));
    var user := store.GetUserById(id, true);
    if user.None? {
      store.Rollback(snapshot);
      return Rejected(UserNotFound);
    }
    SessionService.UserKey(store.View(), id);
    if !CanRequest(cfg, user.value, p, now) {
      store.Rollback(snapshot);
      return Rejected(Forbidden);
    }
    out := Issue(store, cfg, user.value, p, None, draw, now);
    IssueRejections(cfg, snapshot, user.value, p, None, draw, now);
    if out.Rejected? { store.Rollback(snapshot); }
  }

  /** `reset_password`, `activate_invitation` and `activate`: the link is redeemed, the account saved
      as its purpose demands, and every session of it revoked. */
  method RedeemAccount(store: MemoryAuthStore, cfg: Settings, token: string, p: Purpose, acceptable: bool,
                       hash: string, now: Time) returns (out: Outcome)
    requires Fit(store.View()) && p != LoginLink
    modifies store
    ensures Reply(store.View(), out) == RedeemForAccount(cfg, old(store.View()), token, p, acceptable, hash, now)
    ensures old(store.InOrder()) ==> store.InOrder()
  {
    hide Fit, Redeem, ActiveLinkExists, RevokeUserSessions;
    if !acceptable { return Rejected(PasswordInvalid); }
    var active := IsActive(store, cfg, token, p, now);
    if !active { return Rejected(EmailLinkInvalid); }
    var snapshot := store.Begin();
    RedeemedOwner(cfg, snapshot, token, p, None, now);
    var link, user := RedeemLink(store, cfg, token, p, None, now);
    if link.None? || user.None? { return Rejected(EmailLinkInvalid); }
    var updated: User;
    if p == Activation {
      if user.value.status != PendingActivation {
        store.Rollback(snapshot);
        return Rejected(Misconfigured);
      }
      updated := user.value.ActivatePassword(hash, now).(status := Active);
    } else if p == PasswordReset {
      updated := user.value.ActivatePassword(hash, now);
    } else {
      updated := user.value.ActivateEmailLinkLogin(hash, now);
    }
    SessionService.SaveAndRevoke(store, updated, now);
    return UserSaved(updated);
  }

  // activation.py ----------------------------------------------------------------------------------------

  class AccountActivationService {
    const store: MemoryAuthStore
    const cfg: Settings

    constructor (store: MemoryAuthStore, cfg: Settings)
      ensures this.store == store && this.cfg == cfg
    {
      this.store, this.cfg := store, cfg;
    }

    /** `_create`, in the caller's transaction; the caller undoes what a rejection leaves written. */
    method Create(user: User, draw: LinkDraw, now: Time) returns (out: Outcome)
      requires Fit(store.View()) && (store.log == [] || store.log == [OnAdmin])
      modifies store
      ensures out == CreatePending(cfg, false, old(store.View()), user, draw, now).out
      ensures store.View() == if UserRules.AddUser(old(store.View()), user).out.Rejected? then old(store.View())
                              else Written(cfg, PutUser(old(store.View()), user), user, Activation, None, draw, now)
      ensures store.Went()
    {
      hide Fit, IssueLink, LinksUnique, UsersUnique, Orderly, MayFollow;
      SessionService.FitParts(store.View());
      MayOpen(store.began, store.log, AddUser(user.id));
      var stored := store.InsertUser(user);
      if !stored { return Rejected(UserExists); }
      IssueRejections(cfg, store.View(), user, Activation, None, draw, now);
      var issue := Issue(store, cfg, user, Activation, None, draw, now);
      if issue == Rejected(StoreConflict) { return Rejected(UserExists); }
      if issue.Rejected? { return issue; }
      if issue.pending.None? { return Rejected(Misconfigured); }
      return AdminReady(user, issue.pending);
    }

    method Provision(id: Uuid, email: string, name: string, hash: string, roles: seq<string>, draw: LinkDraw, now: Time)
      returns (out: Outcome)
      requires Fit(store.View())
      modifies store
      ensures Reply(store.View(), out)
           == LinkRules.Provision(cfg, false, old(store.View()), PendingUser(id, email, name, hash, roles, [], now),
                                  draw, now)
      ensures old(store.InOrder()) ==> store.InOrder()
    {
      hide Fit, CreatePending, Written, Orderly;
      if !cfg.activationUrl { return Rejected(Misconfigured); }
      if cfg.adminRole in roles { return Rejected(Forbidden); }
      var user := PendingUser(id, email, name, hash, roles, [], now);
      var snapshot := store.Begin();
      out := Create(user, draw, now);
      CreateRejections(cfg, snapshot, user, draw, now);
      if out.Rejected? { store.Rollback(snapshot); }
    }

    method EnsureInitialAdmin(id: Uuid, email: string, name: string, hash: string, draw: LinkDraw, now: Time)
      returns (out: Outcome)
      requires Fit(store.View())
      modifies store
      ensures Reply(store.View(), out)
           == LinkRules.EnsureInitialAdmin(cfg, false, old(store.View()),
                PendingUser(id, email, name, hash, [cfg.adminRole], ["auth:admin"], now), draw, now)
      ensures old(store.InOrder()) ==> store.InOrder()
    {
      hide Fit, CreatePending, Written, UserByEmail, InRole, Orderly;
      if !cfg.activationUrl { return Rejected(Misconfigured); }
      var user := PendingUser(id, email, name, hash, [cfg.adminRole], ["auth:admin"], now);
      SessionService.FitParts(store.View());
      var snapshot := store.Begin();
      store.AcquireAdminLock();
      var existing := store.GetUserByEmail(email, true);
      if existing.Some? {
        if cfg.adminRole in existing.value.roles { return AdminReady(existing.value, None); }
        store.Rollback(snapshot);
        return Rejected(UserExists);
      }
      var admins := store.CountUsersWithRole(cfg.adminRole, false);
      if admins != 0 {
        store.Rollback(snapshot);
        return Rejected(AdminExists);
      }
      out := Create(user, draw, now);
      CreateRejections(cfg, snapshot, user, draw, now);
      if out.Rejected? { store.Rollback(snapshot); }
    }

    method Replace(id: Uuid, draw: LinkDraw, now: Time) returns (out: Outcome)
      requires Fit(store.View())
      modifies store
      ensures Reply(store.View(), out)
           == if !cfg.activationUrl then Reply(old(store.View()), Rejected(Misconfigured))
              else IssueForUser(cfg, false, old(store.View()), id, Activation, draw, now)
      ensures old(store.InOrder()) ==> store.InOrder()
    {
      if !cfg.activationUrl { return Rejected(Misconfigured); }
      out := IssueTo(store, cfg, id, Activation, draw, now);
    }

    method Activate(token: string, acceptable: bool, hash: string, now: Time) returns (out: Outcome)
      requires Fit(store.View())
      modifies store
      ensures Reply(store.View(), out)
           == RedeemForAccount(cfg, old(store.View()), token, Activation, acceptable, hash, now)
      ensures old(store.InOrder()) ==> store.InOrder()
    {
      out := RedeemAccount(store, cfg, token, Activation, acceptable, hash, now);
    }
  }

  lemma CreateRejections(cfg: Settings, s: State, user: User, draw: LinkDraw, now: Time)
    ensures var r := CreatePending(cfg, false, s, user, draw, now);
            && (r.out.Rejected? ==> r.st == s)
            && (!r.out.Rejected? ==> r.st == Written(cfg, PutUser(s, user), user, Activation, None, draw, now)
                                     && !UserRules.AddUser(s, user).out.Rejected?)
  {
    hide IssueLink, EmailTaken;
    IssueRejections(cfg, PutUser(s, user), user, Activation, None, draw, now);
  }
}
