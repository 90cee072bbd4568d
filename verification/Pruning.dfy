/** Pruning old links changes no decision: the store that deletes them and an ideal one that never
    does give the same answers over all runs, although generation numbers may restart. */
module Pruning {
  import opened Models
  import opened Config
  import opened StoreState
  import opened Invariant
  import opened Machine
  import opened Preservation
  import opened LinkRules
  import opened LinkHistory
  import LinkSafety
  import SessionRules
  import UserRules
  import Frames
  import Runs

  // The relation between the two stores ------------------------------------------------------------

  /** The same link, except that its generation may be counted from another start. */
  predicate Matches(full: EmailLink, kept: EmailLink) { full == kept.(generation := full.generation) }

  predicate SameOrder(fa: EmailLink, fb: EmailLink, ka: EmailLink, kb: EmailLink) {
    ka.For(kb.userId, kb.purpose) ==> (fa.generation < fb.generation <==> ka.generation < kb.generation)
  }

  predicate OlderThan(gone: EmailLink, kept: EmailLink) { gone.createdAt < kept.createdAt }

  predicate Gone(cfg: Settings, l: EmailLink, kept: map<Uuid, EmailLink>, now: Time) {
    && l.createdAt < now - Seconds(cfg.retentionSeconds)
    && forall k {:trigger OlderThan(l, kept[k])} :: k in kept ==> OlderThan(l, kept[k])
  }

  predicate LinksAgree(cfg: Settings, full: map<Uuid, EmailLink>, kept: map<Uuid, EmailLink>, now: Time) {
    && kept.Keys <= full.Keys
    && (forall id {:trigger Matches(full[id], kept[id])} :: id in kept ==> Matches(full[id], kept[id]))
    && (forall a, b {:trigger SameOrder(full[a], full[b], kept[a], kept[b])} ::
          a in kept && b in kept ==> SameOrder(full[a], full[b], kept[a], kept[b]))
    && (forall id {:trigger Gone(cfg, full[id], kept, now)} :: id in full && id !in kept ==>
          Gone(cfg, full[id], kept, now))
  }

  /** `kept` is `full` with some old links deleted. */
  predicate Agree(cfg: Settings, full: State, kept: State, now: Time) {
    kept == full.(links := kept.links) && LinksAgree(cfg, full.links, kept.links, now)
  }

  /** Links carry the lifetime of a purpose for which links can be issued. */
  predicate Dated(cfg: Settings, links: map<Uuid, EmailLink>) {
    forall id :: id in links ==>
      cfg.LinkUrl(links[id].purpose)
          && links[id].expiresAt == links[id].createdAt + Seconds(cfg.LinkTtl(links[id].purpose))
  }

  lemma AgreeLater(cfg: Settings, full: map<Uuid, EmailLink>, kept: map<Uuid, EmailLink>, t: Time, now: Time)
    requires LinksAgree(cfg, full, kept, t) && t <= now
    ensures LinksAgree(cfg, full, kept, now)
  {
    forall id | id in full && id !in kept ensures Gone(cfg, full[id], kept, now) {
      assert Gone(cfg, full[id], kept, t);
    }
  }

  /** Retention outlasts every lifetime, so what pruning deleted had expired. */
  lemma GoneIsExpired(cfg: Settings, full: map<Uuid, EmailLink>, kept: map<Uuid, EmailLink>, now: Time, id: Uuid)
    requires cfg.Valid() && LinksAgree(cfg, full, kept, now) && Dated(cfg, full) && id in full && id !in kept
    ensures full[id].expiresAt < now
  {
    assert Gone(cfg, full[id], kept, now);
  }

  // Counting, pruning, issuing ---------------------------------------------------------------------

  /** Retention outlasts the window, so the request counts are the same. */
  lemma RequestsAgree(cfg: Settings, full: map<Uuid, EmailLink>, kept: map<Uuid, EmailLink>, now: Time,
                      user: Uuid, p: Purpose)
    requires cfg.Valid() && LinksAgree(cfg, full, kept, now)
    ensures RateLimited(cfg, full, user, p, now) == RateLimited(cfg, kept, user, p, now)
  {
    var since := now - Seconds(cfg.requestWindowSeconds);
    forall id ensures id in Requests(full, user, p, since) <==> id in Requests(kept, user, p, since) {
      if id in kept { assert Matches(full[id], kept[id]); }
      else if id in full { assert Gone(cfg, full[id], kept, now); }
    }
    assert Requests(full, user, p, since) == Requests(kept, user, p, since);
  }

  lemma PruneAgrees(cfg: Settings, full: map<Uuid, EmailLink>, kept: State, now: Time)
    requires LinksAgree(cfg, full, kept.links, now)
    ensures LinksAgree(cfg, full, PruneLinks(kept, now - Seconds(cfg.retentionSeconds)).links, now)
  {
    var after := PruneLinks(kept, now - Seconds(cfg.retentionSeconds)).links;
    forall id | id in full && id !in after ensures Gone(cfg, full[id], after, now) {
      if id in kept.links {
        assert Matches(full[id], kept.links[id]);
      } else {
        assert Gone(cfg, full[id], kept.links, now);
      }
      forall k | k in after ensures OlderThan(full[id], after[k]) {
        if id !in kept.links { assert OlderThan(full[id], kept.links[k]); }
      }
    }
    forall id | id in after ensures Matches(full[id], after[id]) { assert Matches(full[id], kept.links[id]); }
    forall a, b | a in after && b in after ensures SameOrder(full[a], full[b], after[a], after[b]) {
      assert SameOrder(full[a], full[b], kept.links[a], kept.links[b]);
    }
  }

  predicate TopGeneration(links: map<Uuid, EmailLink>, l: EmailLink) {
    forall id :: id in links && links[id].For(l.userId, l.purpose) ==> links[id].generation < l.generation
  }

  lemma InsertAgrees(cfg: Settings, full: map<Uuid, EmailLink>, kept: map<Uuid, EmailLink>, now: Time,
                     f: EmailLink, k: EmailLink)
    requires cfg.Valid() && LinksAgree(cfg, full, kept, now) && Matches(f, k) && k.createdAt == now
    requires k.id !in full && TopGeneration(full, f) && TopGeneration(kept, k)
    ensures LinksAgree(cfg, full[k.id := f], kept[k.id := k], now)
  {
    var full', kept' := full[k.id := f], kept[k.id := k];
    forall id | id in full' && id !in kept' ensures Gone(cfg, full'[id], kept', now) {
      assert Gone(cfg, full[id], kept, now);
      forall j | j in kept' ensures OlderThan(full'[id], kept'[j]) {
        if j in kept { assert OlderThan(full[id], kept[j]); }
      }
    }
    forall id | id in kept' ensures Matches(full'[id], kept'[id]) {
      if id in kept { assert Matches(full[id], kept[id]); }
    }
    forall a, b | a in kept' && b in kept' ensures SameOrder(full'[a], full'[b], kept'[a], kept'[b]) {
      if a in kept { assert Matches(full[a], kept[a]); }
      if b in kept { assert Matches(full[b], kept[b]); }
      if a in kept && b in kept { assert SameOrder(full[a], full[b], kept[a], kept[b]); }
    }
  }

  predicate DrawnFresh(links: map<Uuid, EmailLink>, draw: LinkDraw) {
    draw.linkId !in links && forall id :: id in links ==> links[id].tokenHash != Sha256(draw.token)
  }

  lemma NextGenerationIsTop(cfg: Settings, users: map<Uuid, User>, links: map<Uuid, EmailLink>, now: Time,
                            user: User, p: Purpose, nonce: Option<string>, draw: LinkDraw)
    requires LinkSafety.LinksSound(users, links) && DrawnFresh(links, draw)
    ensures var l := NewLink(cfg, user, p, nonce, NextGeneration(links, user.id, p), draw, now);
            TopGeneration(links, l) && !LinkClashes(links, l)
  {
    LinkSafety.LatestIsStored(links, user.id, p);
  }

  lemma IssueAgrees(cfg: Settings, full: State, kept: State, user: User, p: Purpose, nonce: Option<string>,
                    draw: LinkDraw, now: Time)
    requires cfg.Valid() && Agree(cfg, full, kept, now) && DrawnFresh(full.links, draw)
    requires LinkSafety.LinksSound(full.users, full.links) && LinkSafety.LinksSound(kept.users, kept.links)
    ensures var f := IssueLink(cfg, true, full, user, p, nonce, draw, now);
            var k := IssueLink(cfg, false, kept, user, p, nonce, draw, now);
            f.out == k.out && Agree(cfg, f.st, k.st, now)
  {
    hide RateLimited, LinkClashes, NextGeneration, LinkSafety.LinksSound, LinksAgree;
    var pruned := AfterPruning(cfg, false, kept, now);
    PruneAgrees(cfg, full.links, kept, now);
    KeptIsFresh(cfg, full.links, pruned.links, draw, now);
    RequestsAgree(cfg, full.links, pruned.links, now, user.id, p);
    LinkSafety.AfterPruningKeeps(cfg, false, kept, now);
    NextGenerationIsTop(cfg, full.users, full.links, now, user, p, nonce, draw);
    NextGenerationIsTop(cfg, kept.users, pruned.links, now, user, p, nonce, draw);
    var f := NewLink(cfg, user, p, nonce, NextGeneration(full.links, user.id, p), draw, now);
    var k := NewLink(cfg, user, p, nonce, NextGeneration(pruned.links, user.id, p), draw, now);
    InsertAgrees(cfg, full.links, pruned.links, now, f, k);
  }

  lemma KeptIsFresh(cfg: Settings, full: map<Uuid, EmailLink>, kept: map<Uuid, EmailLink>, draw: LinkDraw, now: Time)
    requires LinksAgree(cfg, full, kept, now) && DrawnFresh(full, draw)
    ensures DrawnFresh(kept, draw)
  {
    forall id | id in kept ensures kept[id].tokenHash != Sha256(draw.token) { assert Matches(full[id], kept[id]); }
  }

  // Delivering and redeeming -------------------------------------------------------------------------

  /** Changing links in place, alike in both stores. */
  lemma ChangeAgrees(cfg: Settings, full: map<Uuid, EmailLink>, kept: map<Uuid, EmailLink>,
                     full': map<Uuid, EmailLink>, kept': map<Uuid, EmailLink>, now: Time)
    requires LinksAgree(cfg, full, kept, now) && full'.Keys == full.Keys && kept'.Keys == kept.Keys
    requires forall id :: id in full ==> SameIssue(full[id], full'[id])
    requires forall id :: id in kept ==> SameIssue(kept[id], kept'[id]) && Matches(full'[id], kept'[id])
    ensures LinksAgree(cfg, full', kept', now)
  {
    forall id | id in full' && id !in kept' ensures Gone(cfg, full'[id], kept', now) {
      assert Gone(cfg, full[id], kept, now);
      forall j | j in kept' ensures OlderThan(full'[id], kept'[j]) { assert OlderThan(full[id], kept[j]); }
    }
    forall a, b | a in kept' && b in kept' ensures SameOrder(full'[a], full'[b], kept'[a], kept'[b]) {
      assert SameOrder(full[a], full[b], kept[a], kept[b]);
    }
  }

  /** A kept link is the latest of its thread in both stores or in neither. */
  lemma LatestAgrees(cfg: Settings, users: map<Uuid, User>, full: map<Uuid, EmailLink>, kept: map<Uuid, EmailLink>,
                     now: Time, id: Uuid)
    requires LinksAgree(cfg, full, kept, now) && id in kept && LinkSafety.LinksInOrder(full, now)
    requires LinkSafety.LinksSound(users, full) && LinkSafety.LinksSound(users, kept)
    ensures var f := LatestLink(full, full[id].userId, full[id].purpose);
            var k := LatestLink(kept, kept[id].userId, kept[id].purpose);
            f.Some? && k.Some? && f.value.id == k.value.id
  {
    var u, p := kept[id].userId, kept[id].purpose;
    assert Matches(full[id], kept[id]);
    LinkSafety.LatestIsStored(full, u, p);
    LinkSafety.LatestIsStored(kept, u, p);
    var f, k := LatestLink(full, u, p).value.id, LatestLink(kept, u, p).value.id;
    assert Matches(full[k], kept[k]);
    assert full[k].generation <= full[f].generation;
    if f in kept {
      assert Matches(full[f], kept[f]) && SameOrder(full[k], full[f], kept[k], kept[f]);
      if full[k].generation == full[f].generation { assert Alike(full[k], full[f]); }
    } else {
      assert Gone(cfg, full[f], kept, now) && OlderThan(full[f], kept[k]);
      if full[k].generation == full[f].generation { assert Alike(full[k], full[f]); }
      assert LinkSafety.Aged(full[k], full[f]);
    }
  }

  lemma ReviseAgrees(cfg: Settings, full: State, kept: State, f: EmailLink, k: EmailLink, now: Time)
    requires Agree(cfg, full, kept, now) && k.id in kept.links && f.id == k.id
    requires SameIssue(full.links[k.id], f) && SameIssue(kept.links[k.id], k) && Matches(f, k)
    ensures Agree(cfg, PutLink(full, f), PutLink(kept, k), now)
  {
    forall id | id in kept.links ensures Matches(PutLink(full, f).links[id], PutLink(kept, k).links[id]) {
      assert Matches(full.links[id], kept.links[id]);
    }
    ChangeAgrees(cfg, full.links, kept.links, PutLink(full, f).links, PutLink(kept, k).links, now);
  }

  /** Whatever happens to a link that pruning deleted goes unnoticed. */
  lemma ReviseGoneAgrees(cfg: Settings, full: State, kept: State, f: EmailLink, now: Time)
    requires Agree(cfg, full, kept, now) && f.id in full.links && f.id !in kept.links && SameIssue(full.links[f.id], f)
    ensures Agree(cfg, PutLink(full, f), kept, now)
  {
    forall id | id in kept.links ensures Matches(PutLink(full, f).links[id], kept.links[id]) {
      assert Matches(full.links[id], kept.links[id]);
    }
    ChangeAgrees(cfg, full.links, kept.links, PutLink(full, f).links, kept.links, now);
  }

  lemma RevokeAgrees(cfg: Settings, full: State, kept: State, id: Uuid, now: Time)
    requires Agree(cfg, full, kept, now) && LinksUnique(full.links) && LinksUnique(kept.links)
    ensures Agree(cfg, RevokeLink(full, id, now), RevokeLink(kept, id, now), now)
  {
    if id in kept.links {
      assert Matches(full.links[id], kept.links[id]);
      if kept.links[id].state in {LinkPending, LinkActive} {
        ReviseAgrees(cfg, full, kept, ClosedAs(full.links[id], LinkRevoked, now),
                     ClosedAs(kept.links[id], LinkRevoked, now), now);
      }
    } else if id in full.links {
      ReviseGoneAgrees(cfg, full, kept, ClosedAs(full.links[id], LinkRevoked, now), now);
    }
  }

  lemma FailureAgrees(cfg: Settings, full: State, kept: State, id: Uuid, now: Time)
    requires Agree(cfg, full, kept, now) && LinksUnique(full.links) && LinksUnique(kept.links)
    ensures Agree(cfg, LinkRules.MarkDeliveryFailed(full, id, now).st, LinkRules.MarkDeliveryFailed(kept, id, now).st,
                  now)
  {
    if id in kept.links {
      assert Matches(full.links[id], kept.links[id]);
      if kept.links[id].state == LinkPending {
        ReviseAgrees(cfg, full, kept, ClosedAs(full.links[id], LinkFailed, now),
                     ClosedAs(kept.links[id], LinkFailed, now), now);
      }
    } else if id in full.links {
      ReviseGoneAgrees(cfg, full, kept, ClosedAs(full.links[id], LinkFailed, now), now);
    }
  }

  lemma ActivationAgrees(cfg: Settings, full: State, kept: State, id: Uuid, now: Time)
    requires Agree(cfg, full, kept, now) && LinksUnique(full.links) && LinksUnique(kept.links) && id in kept.links
    ensures var f, k := full.links[id], kept.links[id];
            Agree(cfg, RevokeOtherActive(PutLink(full, Activated(f, now)), f, now),
                       RevokeOtherActive(PutLink(kept, Activated(k, now)), k, now), now)
  {
    var f, k := full.links[id], kept.links[id];
    var full' := RevokeOtherActive(PutLink(full, Activated(f, now)), f, now);
    var kept' := RevokeOtherActive(PutLink(kept, Activated(k, now)), k, now);
    assert Matches(f, k);
    forall j | j in kept.links ensures Matches(full'.links[j], kept'.links[j]) {
      assert Matches(full.links[j], kept.links[j]);
    }
    ChangeAgrees(cfg, full.links, kept.links, full'.links, kept'.links, now);
  }

  lemma DeliveryAgrees(cfg: Settings, full: State, kept: State, id: Uuid, now: Time)
    requires cfg.Valid() && Agree(cfg, full, kept, now) && Dated(cfg, full.links)
    requires LinkSafety.LinksSound(full.users, full.links) && LinkSafety.LinksSound(kept.users, kept.links)
    requires LinkSafety.LinksInOrder(full.links, now)
    ensures var f, k := LinkRules.MarkDelivered(cfg, full, id, now), LinkRules.MarkDelivered(cfg, kept, id, now);
            f.out == k.out && Agree(cfg, f.st, k.st, now)
  {
    hide RevokeOtherActive, RevokeLink, LatestLink, CanRequest;
    RevokeAgrees(cfg, full, kept, id, now);
    if id in kept.links {
      assert Matches(full.links[id], kept.links[id]);
      LatestAgrees(cfg, full.users, full.links, kept.links, now, id);
      ActivationAgrees(cfg, full, kept, id, now);
    } else if id in full.links {
      GoneIsExpired(cfg, full.links, kept.links, now, id);
      RevokeOfAbsent(kept, id, now);
    }
  }

  lemma RevokeOfAbsent(s: State, id: Uuid, now: Time)
    requires id !in s.links
    ensures RevokeLink(s, id, now) == s
  {
  }

  lemma TokenAgrees(cfg: Settings, full: map<Uuid, EmailLink>, kept: map<Uuid, EmailLink>, now: Time, hash: Hash,
                    p: Purpose)
    requires LinksAgree(cfg, full, kept, now) && LinksUnique(full) && LinksUnique(kept)
    ensures var f, k := LinkByToken(full, hash, p), LinkByToken(kept, hash, p);
            && (k.Some? ==> f.Some? && f.value.id == k.value.id && k.value.id in kept && kept[k.value.id] == k.value
                            && full[k.value.id] == f.value && Matches(f.value, k.value))
            && (f.Some? ==> f.value.id in full && full[f.value.id] == f.value)
            && (f.Some? && k.None? ==> f.value.id !in kept)
  {
    var f, k := LinkByToken(full, hash, p), LinkByToken(kept, hash, p);
    if k.Some? {
      assert Matches(full[k.value.id], kept[k.value.id]);
      assert Alike(full[k.value.id], f.value);
    } else {
      assert f.Some? && f.value.id in kept ==> Matches(full[f.value.id], kept[f.value.id]);
    }
  }

  /** The two findings allow the same next step. */
  predicate FoundAlike(cfg: Settings, f: Found, k: Found, now: Time) {
    && Agree(cfg, f.st, k.st, now)
    && (f.link.Some? <==> k.link.Some?)
    && (f.link.Some? ==> Matches(f.link.value, k.link.value) && f.user == k.user)
  }

  lemma ConsumableAgrees(cfg: Settings, full: State, kept: State, token: string, p: Purpose, nonce: Option<string>,
                         now: Time)
    requires cfg.Valid() && Agree(cfg, full, kept, now) && Dated(cfg, full.links)
    requires LinksUnique(full.links) && LinksUnique(kept.links)
    ensures FoundAlike(cfg, Consumable(cfg, full, token, p, nonce, now), Consumable(cfg, kept, token, p, nonce, now),
                       now)
    ensures ActiveLinkExists(cfg, full, token, p, now) == ActiveLinkExists(cfg, kept, token, p, now)
  {
    hide RevokeLink, LinkByToken, CanRequest, LinksAgree, LinksUnique;
    TokenAgrees(cfg, full.links, kept.links, now, Sha256(token), p);
    var f, k := LinkByToken(full.links, Sha256(token), p), LinkByToken(kept.links, Sha256(token), p);
    if k.Some? {
      RevokeAgrees(cfg, full, kept, k.value.id, now);
    } else if f.Some? {
      RevokeAgrees(cfg, full, kept, f.value.id, now);
      RevokeOfAbsent(kept, f.value.id, now);
      GoneIsExpired(cfg, full.links, kept.links, now, f.value.id);
    }
  }

  lemma RedeemAgrees(cfg: Settings, full: State, kept: State, token: string, p: Purpose, nonce: Option<string>,
                     now: Time)
    requires cfg.Valid() && Agree(cfg, full, kept, now) && Dated(cfg, full.links)
    requires Inv(cfg, full) && Inv(cfg, kept)
    ensures FoundAlike(cfg, Redeem(cfg, full, token, p, nonce, now), Redeem(cfg, kept, token, p, nonce, now), now)
    ensures ActiveLinkExists(cfg, full, token, p, now) == ActiveLinkExists(cfg, kept, token, p, now)
  {
    hide Inv, Consumable, LinksAgree, CanRequest, ActiveLinkExists;
    InvParts(cfg, full);
    InvParts(cfg, kept);
    ConsumableAgrees(cfg, full, kept, token, p, nonce, now);
    ConsumableIsCurrent(cfg, full, token, p, nonce, now);
    ConsumableIsCurrent(cfg, kept, token, p, nonce, now);
    var f, k := Consumable(cfg, full, token, p, nonce, now), Consumable(cfg, kept, token, p, nonce, now);
    if k.link.Some? {
      ReviseAgrees(cfg, full, kept, Consumed(f.link.value, now), Consumed(k.link.value, now), now);
    }
  }

  // Operations -----------------------------------------------------------------------------------

  /** The same answer, and stores that agree again. */
  predicate RepliesAgree(cfg: Settings, f: Reply, k: Reply, now: Time) { f.out == k.out && Agree(cfg, f.st, k.st, now) }

  /** Whatever is written to accounts and sessions alone is written alike. */
  lemma AccountsAgree(cfg: Settings, full: State, kept: State, x: Reply, f: Reply, k: Reply, now: Time)
    requires Agree(cfg, full, kept, now)
    requires Frames.SameOnAccounts(x, f, full) && Frames.SameOnAccounts(x, k, kept)
    ensures RepliesAgree(cfg, f, k, now)
  {
    hide LinksAgree;
  }

  lemma IssueSessionAgrees(cfg: Settings, full: State, kept: State, u: User, now: Time, draw: Fresh)
    requires Agree(cfg, full, kept, now)
    ensures RepliesAgree(cfg, SessionRules.Issue(cfg, full, u, now, SessionRules.NewLogin, draw),
                              SessionRules.Issue(cfg, kept, u, now, SessionRules.NewLogin, draw), now)
  {
    hide LinksAgree, SessionRules.Issue;
    assert Frames.Accounts(full, full) == full && Frames.Accounts(full, kept) == kept;
    Frames.IssueOnAccounts(cfg, full, full, u, now, SessionRules.NewLogin, draw);
    Frames.IssueOnAccounts(cfg, full, kept, u, now, SessionRules.NewLogin, draw);
    AccountsAgree(cfg, full, kept, SessionRules.Issue(cfg, full, u, now, SessionRules.NewLogin, draw),
                  SessionRules.Issue(cfg, full, u, now, SessionRules.NewLogin, draw),
                  SessionRules.Issue(cfg, kept, u, now, SessionRules.NewLogin, draw), now);
  }

  lemma SaveAndRevokeAgrees(cfg: Settings, full: State, kept: State, u: User, now: Time)
    requires Agree(cfg, full, kept, now)
    ensures Agree(cfg, RevokeUserSessions(PutUser(full, u), u.id, now),
                  RevokeUserSessions(PutUser(kept, u), u.id, now), now)
  {
    hide LinksAgree;
    assert RevokeUserSessions(PutUser(full, u), u.id, now).sessions
        == RevokeUserSessions(PutUser(kept, u), u.id, now).sessions;
  }

  lemma LinkLoginAgrees(cfg: Settings, full: State, kept: State, token: string, nonce: string, now: Time, draw: Fresh)
    requires cfg.Valid() && Agree(cfg, full, kept, now) && Dated(cfg, full.links)
    requires Inv(cfg, full) && Inv(cfg, kept)
    ensures RepliesAgree(cfg, LinkLogin(cfg, full, token, nonce, now, draw),
                         LinkLogin(cfg, kept, token, nonce, now, draw), now)
  {
    hide Inv, Redeem, Agree, SessionRules.Issue;
    RedeemAgrees(cfg, full, kept, token, LoginLink, Some(nonce), now);
    var f := Redeem(cfg, full, token, LoginLink, Some(nonce), now);
    var k := Redeem(cfg, kept, token, LoginLink, Some(nonce), now);
    RedeemKeeps(cfg, full, token, LoginLink, Some(nonce), now);
    if f.link.Some? { IssueSessionAgrees(cfg, f.st, k.st, f.user.value, now, draw); }
  }

  lemma RedemptionAgrees(cfg: Settings, full: State, kept: State, token: string, p: Purpose, acceptable: bool,
                         hash: string, now: Time)
    requires cfg.Valid() && Agree(cfg, full, kept, now) && Dated(cfg, full.links)
    requires Inv(cfg, full) && Inv(cfg, kept)
    ensures RepliesAgree(cfg, RedeemForAccount(cfg, full, token, p, acceptable, hash, now),
                              RedeemForAccount(cfg, kept, token, p, acceptable, hash, now), now)
  {
    hide Inv, Redeem, Agree, ActiveLinkExists, RevokeUserSessions, Redeemed;
    RedeemAgrees(cfg, full, kept, token, p, None, now);
    var f, k := Redeem(cfg, full, token, p, None, now), Redeem(cfg, kept, token, p, None, now);
    RedeemKeeps(cfg, full, token, p, None, now);
    if f.link.Some? {
      var updated := Redeemed(f.user.value, p, hash, now);
      if updated.Some? { SaveAndRevokeAgrees(cfg, f.st, k.st, updated.value, now); }
    }
  }

  lemma RequestAgrees(cfg: Settings, full: State, kept: State, email: string, p: Purpose, nonce: Option<string>,
                      draw: LinkDraw, now: Time)
    requires cfg.Valid() && Agree(cfg, full, kept, now) && DrawnFresh(full.links, draw)
    requires Inv(cfg, full) && Inv(cfg, kept)
    ensures RepliesAgree(cfg, RequestLink(cfg, true, full, email, p, nonce, draw, now),
                              RequestLink(cfg, false, kept, email, p, nonce, draw, now), now)
  {
    hide Inv, IssueLink, CanRequest, LinksAgree;
    InvParts(cfg, full);
    InvParts(cfg, kept);
    var user := UserByEmail(full.users, email);
    if user.Some? { IssueAgrees(cfg, full, kept, user.value, p, nonce, draw, now); }
  }

  lemma IssueForUserAgrees(cfg: Settings, full: State, kept: State, id: Uuid, p: Purpose, draw: LinkDraw, now: Time)
    requires cfg.Valid() && Agree(cfg, full, kept, now) && DrawnFresh(full.links, draw)
    requires Inv(cfg, full) && Inv(cfg, kept)
    ensures RepliesAgree(cfg, IssueForUser(cfg, true, full, id, p, draw, now),
                              IssueForUser(cfg, false, kept, id, p, draw, now), now)
  {
    hide Inv, IssueLink, CanRequest, LinksAgree;
    InvParts(cfg, full);
    InvParts(cfg, kept);
    if id in full.users { IssueAgrees(cfg, full, kept, full.users[id], p, None, draw, now); }
  }

  lemma CreatePendingAgrees(cfg: Settings, full: State, kept: State, u: User, draw: LinkDraw, now: Time)
    requires cfg.Valid() && Agree(cfg, full, kept, now) && DrawnFresh(full.links, draw)
    requires Inv(cfg, full) && Inv(cfg, kept) && CountersFit(cfg, u)
    ensures RepliesAgree(cfg, CreatePending(cfg, true, full, u, draw, now),
                         CreatePending(cfg, false, kept, u, draw, now), now)
  {
    hide Inv, IssueLink, LinksAgree, EmailTaken, Evolves, InOrder, SessionSafety.StaysUnlocked, DrawnFresh;
    AddUserKeeps(cfg, full, u, now);
    AddUserKeeps(cfg, kept, u, now);
    if UserRules.AddUser(full, u).out.UserSaved? {
      InvParts(cfg, PutUser(full, u));
      InvParts(cfg, PutUser(kept, u));
      IssueAgrees(cfg, PutUser(full, u), PutUser(kept, u), u, Activation, None, draw, now);
    }
  }

  lemma ProvisionAgrees(cfg: Settings, full: State, kept: State, u: User, draw: LinkDraw, now: Time)
    requires cfg.Valid() && Agree(cfg, full, kept, now) && DrawnFresh(full.links, draw)
    requires Inv(cfg, full) && Inv(cfg, kept) && CountersFit(cfg, u)
    ensures RepliesAgree(cfg, LinkRules.Provision(cfg, true, full, u, draw, now),
                         LinkRules.Provision(cfg, false, kept, u, draw, now), now)
    ensures RepliesAgree(cfg, LinkRules.EnsureInitialAdmin(cfg, true, full, u, draw, now),
                              LinkRules.EnsureInitialAdmin(cfg, false, kept, u, draw, now), now)
  {
    hide Inv, CreatePending, LinksAgree, InRole;
    CreatePendingAgrees(cfg, full, kept, u, draw, now);
  }

  lemma LinkOpsAgree(cfg: Settings, full: State, kept: State, op: LinkOp, now: Time)
    requires cfg.Valid() && Agree(cfg, full, kept, now) && Dated(cfg, full.links)
    requires Inv(cfg, full) && Inv(cfg, kept)
    requires LinkDrawn(OnLinks(op)).Some? ==> DrawnFresh(full.links, LinkDrawn(OnLinks(op)).value)
    requires LinkSafety.LinksInOrder(full.links, now)
    ensures RepliesAgree(cfg, ApplyLink(cfg, true, full, op, now), ApplyLink(cfg, false, kept, op, now), now)
  {
    hide Inv, Agree, Dated, DrawnFresh, RequestLink, IssueForUser, LinkRules.Provision, LinkRules.EnsureInitialAdmin;
    hide LinkRules.MarkDelivered, LinkLogin, RedeemForAccount;
    match op
    case RequestLoginLink(email, nonce, link) =>
      RequestAgrees(cfg, full, kept, email, LoginLink, Some(nonce), link, now);
    case RequestPasswordReset(email, link) => RequestAgrees(cfg, full, kept, email, PasswordReset, None, link, now);
    case Invite(id, link) => IssueForUserAgrees(cfg, full, kept, id, Invitation, link, now);
    case ReplaceActivation(id, link) => IssueForUserAgrees(cfg, full, kept, id, Activation, link, now);
    case Provision(id, email, name, hash, roles, link) =>
      ProvisionAgrees(cfg, full, kept, PendingUser(id, email, name, hash, roles, [], now), link, now);
    case EnsureInitialAdmin(id, email, name, hash, link) =>
      ProvisionAgrees(cfg, full, kept, PendingUser(id, email, name, hash, [cfg.adminRole], ["auth:admin"], now), link,
                      now);
    case MarkDelivered(id) =>
      InvParts(cfg, full);
      InvParts(cfg, kept);
      AgreeSharesUsers(cfg, full, kept, now);
      DeliveryAgrees(cfg, full, kept, id, now);
    case MarkDeliveryFailed(id) =>
      InvParts(cfg, full);
      InvParts(cfg, kept);
      FailureAgrees(cfg, full, kept, id, now);
    case LoginByLink(token, nonce, draw) => LinkLoginAgrees(cfg, full, kept, token, nonce, now, draw);
    case ResetByLink(token, acceptable, hash) =>
      RedemptionAgrees(cfg, full, kept, token, PasswordReset, acceptable, hash, now);
    case ActivateInvitation(token, hash) => RedemptionAgrees(cfg, full, kept, token, Invitation, true, hash, now);
    case ActivateAccount(token, acceptable, hash) =>
      RedemptionAgrees(cfg, full, kept, token, Activation, acceptable, hash, now);
  }

  lemma AgreeSharesUsers(cfg: Settings, full: State, kept: State, now: Time)
    requires Agree(cfg, full, kept, now)
    ensures kept.users == full.users
  {
  }

  lemma OtherOpsAgree(cfg: Settings, full: State, kept: State, op: Op, now: Time)
    requires Agree(cfg, full, kept, now) && !op.OnLinks?
    ensures RepliesAgree(cfg, Apply(cfg, true, full, op, now), Apply(cfg, false, kept, op, now), now)
  {
    hide LinksAgree, ApplySession, ApplyUser, ApplyGoogle, ApplyPasskey;
    assert Frames.Accounts(full, full) == Frames.GoogleTables(full, full) == Frames.PasskeyTables(full, full) == full;
    assert Frames.Accounts(full, kept) == Frames.GoogleTables(full, kept) == Frames.PasskeyTables(full, kept) == kept;
    match op
    case OnSessions(x) =>
      Frames.SessionOpsOnAccounts(cfg, full, full, x, now);
      Frames.SessionOpsOnAccounts(cfg, full, kept, x, now);
    case OnUsers(x) =>
      Frames.UserOpsOnAccounts(cfg, full, full, x, now);
      Frames.UserOpsOnAccounts(cfg, full, kept, x, now);
    case OnGoogle(x) =>
      Frames.GoogleOpsOnGoogle(cfg, full, full, x, now);
      Frames.GoogleOpsOnGoogle(cfg, full, kept, x, now);
    case OnPasskeys(x) =>
      Frames.PasskeyOpsOnPasskeys(cfg, full, full, x, now);
      Frames.PasskeyOpsOnPasskeys(cfg, full, kept, x, now);
  }

  lemma StepAgrees(cfg: Settings, full: State, kept: State, op: Op, now: Time)
    requires cfg.Valid() && Agree(cfg, full, kept, now) && Dated(cfg, full.links)
    requires Inv(cfg, full) && Inv(cfg, kept)
    requires LinkDrawn(op).Some? ==> DrawnFresh(full.links, LinkDrawn(op).value)
    requires LinkSafety.LinksInOrder(full.links, now)
    ensures RepliesAgree(cfg, Apply(cfg, true, full, op, now), Apply(cfg, false, kept, op, now), now)
  {
    hide Inv, Agree, Dated, DrawnFresh, ApplyLink, ApplySession, ApplyUser, ApplyGoogle, ApplyPasskey;
    if op.OnLinks? { LinkOpsAgree(cfg, full, kept, op.link, now); } else { OtherOpsAgree(cfg, full, kept, op, now); }
  }

  // Runs -----------------------------------------------------------------------------------------

  predicate SameTimes(f: World, k: World) { f.at == k.at && f.now == k.now }

  /** Two runs of the same operations at the same times, one in each store, on a clock that does not
      go back. */
  ghost predicate Twins(cfg: Settings, full: seq<World>, kept: seq<World>, ops: seq<Op>) {
    && IsRun(cfg, true, full, ops) && IsRun(cfg, false, kept, ops) && Monotone(full) && Monotone(kept)
    && forall i :: 0 <= i < |full| ==> SameTimes(full[i], kept[i])
  }

  lemma DatedAlong(cfg: Settings, ws: seq<World>, ops: seq<Op>, i: nat)
    requires cfg.Valid() && IsRun(cfg, true, ws, ops) && i < |ws|
    ensures Dated(cfg, ws[i].st.links)
  {
    hide Apply;
    RecordAlong(cfg, true, ws, ops, i);
    forall id | id in ws[i].st.links
      ensures cfg.LinkUrl(ws[i].st.links[id].purpose)
      ensures ws[i].st.links[id].expiresAt
          == ws[i].st.links[id].createdAt + Seconds(cfg.LinkTtl(ws[i].st.links[id].purpose))
    {
      assert Recorded(cfg, true, ws[i].st, ws[i].history.links, id, ws[i].now);
    }
  }

  lemma DrawsAreFresh(cfg: Settings, ws: seq<World>, ops: seq<Op>, i: nat)
    requires cfg.Valid() && IsRun(cfg, true, ws, ops) && i < |ops|
    ensures LinkDrawn(ops[i]).Some? ==> DrawnFresh(ws[i].st.links, LinkDrawn(ops[i]).value)
  {
    hide Apply;
    RecordAlong(cfg, true, ws, ops, i);
    assert StepAt(cfg, true, ws, ops, i);
    DrawnIsFresh(cfg, ws[i], ops[i]);
  }

  /** At every moment the two stores agree, ... */
  lemma {:induction false} StoresAgree(cfg: Settings, full: seq<World>, kept: seq<World>, ops: seq<Op>, i: nat)
    requires cfg.Valid() && Twins(cfg, full, kept, ops) && i < |full|
    ensures Agree(cfg, full[i].st, kept[i].st, full[i].now)
    decreases i, 0
  {
    hide Inv, Apply, Dated, DrawnFresh;
    if i > 0 {
      StoresAgree(cfg, full, kept, ops, i - 1);
      PruningChangesNoDecision(cfg, full, kept, ops, i - 1);
      assert StepAt(cfg, true, full, ops, i - 1) && StepAt(cfg, false, kept, ops, i - 1);
      assert SameTimes(full[i], kept[i]) && Recent(full[i], 0);
    }
  }

  /** ... and every operation gets the same answer from both. */
  lemma PruningChangesNoDecision(cfg: Settings, full: seq<World>, kept: seq<World>, ops: seq<Op>, i: nat)
    requires cfg.Valid() && Twins(cfg, full, kept, ops) && i < |ops|
    ensures var now := full[i + 1].now;
            && Apply(cfg, true, full[i].st, ops[i], now).out == Apply(cfg, false, kept[i].st, ops[i], now).out
            && Agree(cfg, Apply(cfg, true, full[i].st, ops[i], now).st, Apply(cfg, false, kept[i].st, ops[i], now).st,
                     now)
    decreases i, 1
  {
    hide Inv, Apply, Dated, DrawnFresh, LinksAgree;
    StoresAgree(cfg, full, kept, ops, i);
    Runs.Reachable(cfg, true, full, ops, i);
    Runs.Reachable(cfg, false, kept, ops, i);
    Runs.StepEvolves(cfg, true, full, ops, i);
    Runs.ReachableInOrder(cfg, true, full, ops, i);
    DatedAlong(cfg, full, ops, i);
    DrawsAreFresh(cfg, full, ops, i);
    var now := full[i + 1].now;
    assert Recent(full[i + 1], 0);
    AgreeLater(cfg, full[i].st.links, kept[i].st.links, full[i].now, now);
    InOrderLater(full[i].st, full[i].now, now);
    StepAgrees(cfg, full[i].st, kept[i].st, ops[i], now);
  }

  predicate SameTokens(f: map<Uuid, EmailLink>, k: map<Uuid, EmailLink>) {
    f.Keys == k.Keys && forall id :: id in f ==> f[id].tokenHash == k[id].tokenHash
  }

  /** The two histories name the same identifiers and link tokens. */
  predicate HistoriesAlike(f: History, k: History) {
    f.google == k.google && f.passkey == k.passkey && SameTokens(f.links, k.links)
  }

  lemma RecentIsKept(cfg: Settings, full: map<Uuid, EmailLink>, kept: map<Uuid, EmailLink>, now: Time, id: Uuid)
    requires cfg.Valid() && LinksAgree(cfg, full, kept, now)
    ensures id in full && full[id].createdAt == now ==> id in kept
    ensures id in kept ==> id in full && full[id].tokenHash == kept[id].tokenHash
  {
    assert id in kept ==> Matches(full[id], kept[id]);
    assert id in full && id !in kept ==> Gone(cfg, full[id], kept, now);
  }

  lemma TokensStaySame(cfg: Settings, full: map<Uuid, EmailLink>, kept: map<Uuid, EmailLink>, now: Time,
                       f: map<Uuid, EmailLink>, k: map<Uuid, EmailLink>)
    requires cfg.Valid() && LinksAgree(cfg, full, kept, now) && SameTokens(f, k)
    requires forall id :: id in full && id !in f ==> full[id].createdAt == now
    ensures SameTokens(RememberLinks(f, full), RememberLinks(k, kept))
  {
    hide LinksAgree;
    forall id
      ensures id in full && full[id].createdAt == now ==> id in kept
      ensures id in kept ==> id in full && full[id].tokenHash == kept[id].tokenHash
    {
      RecentIsKept(cfg, full, kept, now, id);
    }
  }

  lemma HistoriesStayAlike(cfg: Settings, full: State, kept: State, f: History, k: History, now: Time)
    requires cfg.Valid() && Agree(cfg, full, kept, now) && HistoriesAlike(f, k)
    requires forall id :: id in full.links && id !in f.links ==> full.links[id].createdAt == now
    ensures HistoriesAlike(Remember(f, full), Remember(k, kept))
  {
    hide LinksAgree, SameTokens, RememberLinks;
    TokensStaySame(cfg, full.links, kept.links, now, f.links, k.links);
  }

  /** The next state of the ideal store, when the real one takes its next step. */
  lemma NextTwin(cfg: Settings, full: seq<World>, kept: seq<World>, ops: seq<Op>, n: nat) returns (w: World)
    requires cfg.Valid() && IsRun(cfg, false, kept, ops) && n < |ops| && Twins(cfg, full, kept[..n + 1], ops[..n])
    requires HistoriesAlike(full[n].history, kept[n].history) && Recent(kept[n + 1], 0)
    ensures Step(cfg, true, full[n], ops[n], w) && SameTimes(w, kept[n + 1])
    ensures HistoriesAlike(w.history, kept[n + 1].history)
  {
    hide Inv, Apply, LinksAgree, InOrder;
    var f, k, op, now := full[n], kept[n], ops[n], kept[n + 1].now;
    assert StepAt(cfg, false, kept, ops, n);
    assert SameTimes(f, kept[..n + 1][n]);
    StoresAgree(cfg, full, kept[..n + 1], ops[..n], n);
    Runs.Reachable(cfg, true, full, ops[..n], n);
    Runs.Reachable(cfg, false, kept, ops, n);
    Runs.ReachableInOrder(cfg, true, full, ops[..n], n);
    DatedAlong(cfg, full, ops[..n], n);
    RecordAlong(cfg, true, full, ops[..n], n);
    DrawnIsFresh(cfg, f, op);
    AgreeLater(cfg, f.st.links, k.st.links, f.now, now);
    InOrderLater(f.st, f.now, now);
    LinksOrdered(f.st, now);
    StepAgrees(cfg, f.st, k.st, op, now);
    StepDelta(cfg, true, f.st, op, now);
    var after := Apply(cfg, true, f.st, op, now).st;
    w := World(after, now, now, Remember(f.history, after));
    HistoriesStayAlike(cfg, after, kept[n + 1].st, f.history, k.history, now);
  }

  lemma LinksOrdered(s: State, now: Time)
    requires InOrder(s, now)
    ensures LinkSafety.LinksInOrder(s.links, now)
  {
  }

  lemma DrawnIsFresh(cfg: Settings, w: World, op: Op)
    requires RecordFits(cfg, true, w.st, w.history.links, w.now) && FreshFor(w.history, w.st, op)
    ensures LinkDrawn(op).Some? ==> DrawnFresh(w.st.links, LinkDrawn(op).value)
  {
    forall id | id in w.st.links ensures w.st.links[id].tokenHash == w.history.links[id].tokenHash {
      assert Recorded(cfg, true, w.st, w.history.links, id, w.now);
    }
  }

  /** Every run of the real store, on such a clock, has a twin. */
  lemma {:induction false} IdealTwin(cfg: Settings, kept: seq<World>, ops: seq<Op>) returns (full: seq<World>)
    requires cfg.Valid() && IsRun(cfg, false, kept, ops) && Monotone(kept)
    ensures Twins(cfg, full, kept, ops)
    ensures HistoriesAlike(full[|ops|].history, kept[|ops|].history)
    decreases |ops|
  {
    hide Step;
    if ops == [] {
      full := kept;
    } else {
      var n := |ops| - 1;
      Runs.PrefixIsRun(cfg, false, kept, ops, n);
      var before := IdealTwin(cfg, kept[..n + 1], ops[..n]);
      var next := NextTwin(cfg, before, kept, ops, n);
      full := before + [next];
      Runs.RunExtends(cfg, true, before, ops[..n], ops[n], next);
      assert ops[..n] + [ops[n]] == ops;
      forall i | 0 <= i < |full| ensures SameTimes(full[i], kept[i]) && Recent(full[i], 0) {
        assert Recent(kept[i], 0);
        if i < n + 1 { assert SameTimes(before[i], kept[..n + 1][i]); }
      }
    }
  }
}
