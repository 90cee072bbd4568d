/** Email links: the version fence, the order of generations and the single active link. */
module LinkSafety {
  import opened Models
  import opened Config
  import opened StoreState
  import opened LinkRules

  // The invariant ----------------------------------------------------------------------------

  predicate LinkFits(users: map<Uuid, User>, l: EmailLink) {
    && l.userId in users && l.securityVersion <= users[l.userId].securityVersion
    && (l.state in {LinkPending, LinkFailed} ==> l.deliveredAt.None?)
    && (l.state in {LinkActive, LinkConsumed} ==> l.deliveredAt.Some?)
  }

  /** Nothing delivered is newer than the active link. */
  predicate Ordered(a: EmailLink, b: EmailLink) {
    a.For(b.userId, b.purpose) && a.deliveredAt.Some? && b.state == LinkActive ==> a.generation <= b.generation
  }

  predicate LinksOrdered(links: map<Uuid, EmailLink>) {
    forall a, b {:trigger Ordered(links[a], links[b])} :: a in links && b in links ==> Ordered(links[a], links[b])
  }

  predicate LinksFit(users: map<Uuid, User>, links: map<Uuid, EmailLink>) {
    forall id {:trigger LinkFits(users, links[id])} :: id in links ==> LinkFits(users, links[id])
  }

  predicate LinksSound(users: map<Uuid, User>, links: map<Uuid, EmailLink>) {
    LinksUnique(links) && LinksFit(users, links) && LinksOrdered(links)
  }

  /** What a clock that does not go back adds: later generations are not older. */
  predicate Aged(a: EmailLink, b: EmailLink) {
    a.For(b.userId, b.purpose) && a.generation < b.generation ==> a.createdAt <= b.createdAt
  }

  predicate LinksInOrder(links: map<Uuid, EmailLink>, now: Time) {
    && (forall id :: id in links ==> links[id].createdAt <= now)
    && (forall a, b {:trigger Aged(links[a], links[b])} :: a in links && b in links ==> Aged(links[a], links[b]))
  }

  /** Links revised in place keep their order. */
  lemma RevisionStays(a: map<Uuid, EmailLink>, b: map<Uuid, EmailLink>, now: Time)
    requires LinksInOrder(a, now) && b.Keys <= a.Keys
    requires forall id :: id in b ==>
               b[id].createdAt == a[id].createdAt && b[id].generation == a[id].generation
               && b[id].For(a[id].userId, a[id].purpose)
    ensures LinksInOrder(b, now)
  {
    forall x, y | x in b && y in b ensures Aged(b[x], b[y]) { assert Aged(a[x], a[y]); }
  }

  lemma OneActiveLink(users: map<Uuid, User>, links: map<Uuid, EmailLink>, a: Uuid, b: Uuid)
    requires LinksSound(users, links) && a in links && b in links
    requires links[a].For(links[b].userId, links[b].purpose)
    requires links[a].state == LinkActive && links[b].state == LinkActive
    ensures a == b
  {
    assert LinkFits(users, links[a]) && LinkFits(users, links[b]);
    assert Ordered(links[a], links[b]) && Ordered(links[b], links[a]);
    assert Alike(links[a], links[b]);
  }

  // How a step may change links ---------------------------------------------------------------

  /** Links only move forward; closed ones stay, stale ones are never activated or consumed. */
  predicate LinkEvolves(x: EmailLink, y: EmailLink, version: int) {
    && y == x.(state := y.state, deliveredAt := y.deliveredAt, consumedAt := y.consumedAt, revokedAt := y.revokedAt)
    && (x.Closed() ==> y == x)
    && (x.state == LinkActive ==> y.state != LinkPending && y.state != LinkFailed)
    && (x.securityVersion < version && y.state in {LinkActive, LinkConsumed} ==> y.state == x.state)
  }

  predicate LinksEvolve(users: map<Uuid, User>, a: map<Uuid, EmailLink>, b: map<Uuid, EmailLink>) {
    forall id :: id in a && id in b ==>
      a[id].userId in users && LinkEvolves(a[id], b[id], users[a[id].userId].securityVersion)
  }

  lemma LinksEvolveReflexive(users: map<Uuid, User>, links: map<Uuid, EmailLink>)
    requires LinksSound(users, links)
    ensures LinksEvolve(users, links, links)
  {
    forall id | id in links
      ensures links[id].userId in users && LinkEvolves(links[id], links[id], users[links[id].userId].securityVersion)
    {
      assert LinkFits(users, links[id]);
    }
  }

  // Each write keeps the invariant --------------------------------------------------------------

  /** Changing one stored link without making it active. */
  lemma ReplaceKeeps(users: map<Uuid, User>, links: map<Uuid, EmailLink>, y: EmailLink, now: Time)
    requires LinksSound(users, links) && y.id in links
    requires LinkFits(users, y) && y.state != LinkActive
    requires LinkEvolves(links[y.id], y, users[y.userId].securityVersion)
    requires y.deliveredAt == links[y.id].deliveredAt
    ensures LinksSound(users, links[y.id := y]) && LinksEvolve(users, links, links[y.id := y])
    ensures LinksInOrder(links, now) ==> LinksInOrder(links[y.id := y], now)
  {
    var after := links[y.id := y];
    if LinksInOrder(links, now) { RevisionStays(links, after, now); }
    LinksEvolveReflexive(users, links);
    forall a, b | a in after && b in after ensures Ordered(after[a], after[b]) {
      assert Ordered(links[a], links[b]);
    }
    forall a, b | a in after && b in after && Alike(after[a], after[b]) ensures a == b {
      assert Alike(links[a], links[b]);
    }
  }

  lemma RevokeLinkKeeps(s: State, id: Uuid, now: Time)
    requires LinksSound(s.users, s.links)
    ensures LinksSound(s.users, RevokeLink(s, id, now).links)
    ensures LinksEvolve(s.users, s.links, RevokeLink(s, id, now).links)
    ensures LinksInOrder(s.links, now) ==> LinksInOrder(RevokeLink(s, id, now).links, now)
  {
    LinksEvolveReflexive(s.users, s.links);
    if id in s.links && s.links[id].state in {LinkPending, LinkActive} {
      assert LinkFits(s.users, s.links[id]);
      ReplaceKeeps(s.users, s.links, ClosedAs(s.links[id], LinkRevoked, now), now);
    }
  }

  lemma FailLinkKeeps(s: State, id: Uuid, now: Time)
    requires LinksSound(s.users, s.links)
    ensures LinksSound(s.users, MarkDeliveryFailed(s, id, now).st.links)
    ensures LinksEvolve(s.users, s.links, MarkDeliveryFailed(s, id, now).st.links)
    ensures LinksInOrder(s.links, now) ==> LinksInOrder(MarkDeliveryFailed(s, id, now).st.links, now)
  {
    LinksEvolveReflexive(s.users, s.links);
    if id in s.links && s.links[id].state == LinkPending {
      assert LinkFits(s.users, s.links[id]);
      ReplaceKeeps(s.users, s.links, ClosedAs(s.links[id], LinkFailed, now), now);
    }
  }

  lemma ConsumeKeeps(cfg: Settings, s: State, link: EmailLink, now: Time)
    requires LinksSound(s.users, s.links) && link.id in s.links && s.links[link.id] == link
    requires link.userId in s.users && MatchesUser(cfg, link, s.users[link.userId], now)
    ensures LinksSound(s.users, s.links[link.id := Consumed(link, now)])
    ensures LinksEvolve(s.users, s.links, s.links[link.id := Consumed(link, now)])
    ensures LinksInOrder(s.links, now) ==> LinksInOrder(s.links[link.id := Consumed(link, now)], now)
  {
    assert LinkFits(s.users, link);
    ReplaceKeeps(s.users, s.links, Consumed(link, now), now);
  }

  lemma DeliverKeeps(cfg: Settings, s: State, id: Uuid, now: Time)
    requires LinksSound(s.users, s.links)
    ensures LinksSound(s.users, MarkDelivered(cfg, s, id, now).st.links)
    ensures LinksEvolve(s.users, s.links, MarkDelivered(cfg, s, id, now).st.links)
    ensures LinksInOrder(s.links, now) ==> LinksInOrder(MarkDelivered(cfg, s, id, now).st.links, now)
  {
    LinksEvolveReflexive(s.users, s.links);
    if id in s.links {
      var link := s.links[id];
      var latest := LatestLink(s.links, link.userId, link.purpose);
      if Deliverable(cfg, link, latest, UserById(s.users, link.userId), now) {
        LatestIsStored(s.links, link.userId, link.purpose);
        ActivateKeeps(cfg, s, link, now);
      } else {
        RevokeLinkKeeps(s, id, now);
      }
    }
  }

  lemma LatestIsStored(links: map<Uuid, EmailLink>, user: Uuid, p: Purpose)
    requires LinksUnique(links)
    ensures var l := LatestLink(links, user, p);
            && (l.None? <==> !HasLink(links, user, p))
            && (l.Some? ==> l.value.id in links && links[l.value.id] == l.value && IsLatest(links, user, p, l.value.id))
  {
    if HasLink(links, user, p) { LatestExists(links, user, p); }
  }

  lemma ActivationStays(s: State, link: EmailLink, now: Time)
    requires link.id in s.links && s.links[link.id] == link
    ensures LinksInOrder(s.links, now) ==>
              LinksInOrder(RevokeOtherActive(PutLink(s, Activated(link, now)), link, now).links, now)
  {
    hide LinksInOrder;
    var after := RevokeOtherActive(PutLink(s, Activated(link, now)), link, now).links;
    if LinksInOrder(s.links, now) { RevisionStays(s.links, after, now); }
  }

  lemma AfterActivation(s: State, link: EmailLink, now: Time)
    requires link.id in s.links && s.links[link.id] == link
    ensures var after := RevokeOtherActive(PutLink(s, Activated(link, now)), link, now).links;
            && after.Keys == s.links.Keys
            && forall id :: id in after ==>
                 after[id] == if id == link.id then Activated(link, now) else RevokedUnless(s.links[id], link, now)
  {
  }

  lemma ActivateKeeps(cfg: Settings, s: State, link: EmailLink, now: Time)
    requires LinksSound(s.users, s.links)
    requires link.id in s.links && s.links[link.id] == link && link.state == LinkPending
    requires IsLatest(s.links, link.userId, link.purpose, link.id)
    requires link.userId in s.users && Current(cfg, link, s.users[link.userId], now)
    ensures var after := RevokeOtherActive(PutLink(s, Activated(link, now)), link, now).links;
            && LinksSound(s.users, after) && LinksEvolve(s.users, s.links, after)
            && (LinksInOrder(s.links, now) ==> LinksInOrder(after, now))
  {
    hide LinksInOrder, RevokeOtherActive, PutLink, CanRequest;
    var after := RevokeOtherActive(PutLink(s, Activated(link, now)), link, now).links;
    AfterActivation(s, link, now);
    ActivationStays(s, link, now);
    forall id | id in after
      ensures LinkFits(s.users, after[id])
      ensures LinkEvolves(s.links[id], after[id], s.users[s.links[id].userId].securityVersion)
    {
      assert LinkFits(s.users, s.links[id]);
    }
    forall a, b | a in after && b in after ensures Ordered(after[a], after[b]) {
      assert Ordered(s.links[a], s.links[b]);
    }
    forall a, b | a in after && b in after && Alike(after[a], after[b]) ensures a == b {
      assert Alike(s.links[a], s.links[b]);
    }
  }

  lemma PruningStays(s: State, before: Time, now: Time)
    ensures LinksInOrder(s.links, now) ==> LinksInOrder(PruneLinks(s, before).links, now)
  {
    hide LinksInOrder;
    if LinksInOrder(s.links, now) { RevisionStays(s.links, PruneLinks(s, before).links, now); }
  }

  lemma PruneKeeps(users: map<Uuid, User>, s: State, before: Time, now: Time)
    requires LinksSound(users, s.links)
    ensures LinksSound(users, PruneLinks(s, before).links)
    ensures LinksEvolve(users, s.links, PruneLinks(s, before).links)
    ensures LinksInOrder(s.links, now) ==> LinksInOrder(PruneLinks(s, before).links, now)
  {
    hide LinksInOrder;
    LinksEvolveReflexive(users, s.links);
    PruningStays(s, before, now);
  }

  lemma InsertKeeps(users: map<Uuid, User>, links: map<Uuid, EmailLink>, l: EmailLink, now: Time)
    requires LinksSound(users, links) && !LinkClashes(links, l)
    requires LinkFits(users, l) && l.state == LinkPending && l.createdAt == now
    requires forall id :: id in links && links[id].For(l.userId, l.purpose) ==> links[id].generation < l.generation
    ensures LinksSound(users, links[l.id := l])
    ensures LinksInOrder(links, now) ==> LinksInOrder(links[l.id := l], now)
  {
    var after := links[l.id := l];
    forall a, b | a in after && b in after
      ensures Ordered(after[a], after[b])
      ensures LinksInOrder(links, now) ==> Aged(after[a], after[b])
    {
      if a in links && b in links {
        assert Ordered(links[a], links[b]) && Aged(links[a], links[b]) == Aged(after[a], after[b]);
      }
    }
  }

  lemma NewLinkKeeps(cfg: Settings, s: State, user: User, p: Purpose, nonce: Option<string>,
                     draw: LinkDraw, now: Time)
    requires LinksSound(s.users, s.links)
    requires user.id in s.users && s.users[user.id] == user
    ensures var link := NewLink(cfg, user, p, nonce, NextGeneration(s.links, user.id, p), draw, now);
            !LinkClashes(s.links, link) ==>
              && LinksSound(s.users, s.links[link.id := link])
              && (LinksInOrder(s.links, now) ==> LinksInOrder(s.links[link.id := link], now))
  {
    LatestIsStored(s.links, user.id, p);
    var link := NewLink(cfg, user, p, nonce, NextGeneration(s.links, user.id, p), draw, now);
    if !LinkClashes(s.links, link) {
      assert LinkFits(s.users, link);
      InsertKeeps(s.users, s.links, link, now);
    }
  }

  /** Issuing keeps the invariant in the pruning store and in the ideal one. */
  lemma IssueKeeps(cfg: Settings, retain: bool, s: State, user: User, p: Purpose, nonce: Option<string>,
                   draw: LinkDraw, now: Time)
    requires LinksSound(s.users, s.links)
    requires user.id in s.users && s.users[user.id] == user && draw.linkId !in s.links
    ensures var r := IssueLink(cfg, retain, s, user, p, nonce, draw, now);
            && LinksSound(s.users, r.st.links) && LinksEvolve(s.users, s.links, r.st.links)
            && (LinksInOrder(s.links, now) ==> LinksInOrder(r.st.links, now))
  {
    hide LinksSound, LinksInOrder, LinksEvolve, RateLimited, LinkClashes, NextGeneration;
    var pruned := AfterPruning(cfg, retain, s, now);
    var link := NewLink(cfg, user, p, nonce, NextGeneration(pruned.links, user.id, p), draw, now);
    AfterPruningKeeps(cfg, retain, s, now);
    LinksEvolveReflexive(s.users, s.links);
    NewLinkKeeps(cfg, pruned, user, p, nonce, draw, now);
    AddingEvolves(s.users, s.links, pruned.links, link);
  }

  lemma AfterPruningKeeps(cfg: Settings, retain: bool, s: State, now: Time)
    requires LinksSound(s.users, s.links)
    ensures var pruned := AfterPruning(cfg, retain, s, now);
            && LinksSound(s.users, pruned.links) && LinksEvolve(s.users, s.links, pruned.links)
            && (LinksInOrder(s.links, now) ==> LinksInOrder(pruned.links, now))
  {
    hide LinksSound, LinksInOrder, LinksEvolve, PruneLinks;
    LinksEvolveReflexive(s.users, s.links);
    PruneKeeps(s.users, s, now - Seconds(cfg.retentionSeconds), now);
  }

  lemma AddingEvolves(users: map<Uuid, User>, a: map<Uuid, EmailLink>, b: map<Uuid, EmailLink>, l: EmailLink)
    requires LinksEvolve(users, a, b) && l.id !in a
    ensures LinksEvolve(users, a, b[l.id := l])
  {}

  /** Advancing any user keeps every link's version at or below its user's. */
  lemma UsersAdvanceKeeps(users: map<Uuid, User>, after: map<Uuid, User>, links: map<Uuid, EmailLink>)
    requires LinksSound(users, links)
    requires forall id :: id in users ==> id in after && users[id].securityVersion <= after[id].securityVersion
    ensures LinksSound(after, links)
  {
    forall id | id in links ensures LinkFits(after, links[id]) {
      assert LinkFits(users, links[id]);
    }
  }

  lemma LinksEvolveTransitive(ua: map<Uuid, User>, ub: map<Uuid, User>, a: map<Uuid, EmailLink>,
                              b: map<Uuid, EmailLink>, c: map<Uuid, EmailLink>)
    requires LinksEvolve(ua, a, b) && LinksEvolve(ub, b, c)
    requires forall id :: id in ua ==> id in ub && ua[id].securityVersion <= ub[id].securityVersion
    requires forall id :: id in a && id in c ==> id in b
    ensures LinksEvolve(ua, a, c)
  {
    forall id | id in a && id in c
      ensures a[id].userId in ua && LinkEvolves(a[id], c[id], ua[a[id].userId].securityVersion)
    {
      assert LinkEvolves(a[id], b[id], ua[a[id].userId].securityVersion);
      assert LinkEvolves(b[id], c[id], ub[b[id].userId].securityVersion);
    }
  }
}
