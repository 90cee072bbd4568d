/** Links over whole runs: what was ever issued, what pruning may have deleted, and the request
    rate limit, which counts links that no longer exist. */
module LinkHistory {
  import opened Models
  import opened Config
  import opened StoreState
  import opened Invariant
  import opened Machine
  import opened Preservation
  import opened LinkRules
  import LinkSafety
  import Runs
  import Frames

  // What one step does to the stored links -----------------------------------------------------

  /** A link as `issue_link` stores it. */
  predicate Issued(cfg: Settings, retain: bool, s: State, l: EmailLink, draw: LinkDraw, now: Time) {
    && l.id == draw.linkId && l.tokenHash == Sha256(draw.token) && l.state == LinkPending
    && l.createdAt == now && l.expiresAt == now + Seconds(cfg.LinkTtl(l.purpose)) && cfg.LinkUrl(l.purpose)
    && !RateLimited(cfg, AfterPruning(cfg, retain, s, now).links, l.userId, l.purpose, now)
  }

  predicate Outlived(cfg: Settings, retain: bool, createdAt: Time, now: Time) {
    !retain && createdAt < now - Seconds(cfg.retentionSeconds)
  }

  /** Only outlived links disappear, and only the drawn one may appear. */
  predicate LinksDelta(cfg: Settings, retain: bool, s: State, after: map<Uuid, EmailLink>,
                       draw: Option<LinkDraw>, now: Time)
  {
    && (forall id :: id in s.links && !Outlived(cfg, retain, s.links[id].createdAt, now) ==> id in after)
    && (forall id :: id in after && id !in s.links ==>
          draw.Some? && id == draw.value.linkId && Issued(cfg, retain, s, after[id], draw.value, now))
  }

  lemma IssueDelta(cfg: Settings, retain: bool, s: State, user: User, p: Purpose, nonce: Option<string>,
                   draw: LinkDraw, now: Time)
    requires Inv(cfg, s)
    ensures LinksDelta(cfg, retain, s, IssueLink(cfg, retain, s, user, p, nonce, draw, now).st.links, Some(draw), now)
  {
  }

  lemma RequestDelta(cfg: Settings, retain: bool, s: State, email: string, p: Purpose, nonce: Option<string>,
                     draw: LinkDraw, now: Time)
    requires Inv(cfg, s)
    ensures LinksDelta(cfg, retain, s, RequestLink(cfg, retain, s, email, p, nonce, draw, now).st.links, Some(draw),
                       now)
  {
    hide Inv, IssueLink, CanRequest;
    var user := UserByEmail(s.users, email);
    if user.Some? { IssueDelta(cfg, retain, s, user.value, p, nonce, draw, now); }
  }

  lemma IssueForUserDelta(cfg: Settings, retain: bool, s: State, id: Uuid, p: Purpose, draw: LinkDraw, now: Time)
    requires Inv(cfg, s)
    ensures LinksDelta(cfg, retain, s, IssueForUser(cfg, retain, s, id, p, draw, now).st.links, Some(draw), now)
  {
    hide Inv, IssueLink, CanRequest;
    if id in s.users { IssueDelta(cfg, retain, s, s.users[id], p, None, draw, now); }
  }

  lemma CreatePendingDelta(cfg: Settings, retain: bool, s: State, u: User, draw: LinkDraw, now: Time)
    requires Inv(cfg, s)
    ensures LinksDelta(cfg, retain, s, CreatePending(cfg, retain, s, u, draw, now).st.links, Some(draw), now)
  {
  }

  lemma LinkKey(cfg: Settings, s: State, id: Uuid)
    requires Inv(cfg, s) && id in s.links
    ensures s.links[id].id == id
  {
  }

  lemma KeysStay(s: State, link: EmailLink, now: Time)
    requires link.id in s.links && s.links[link.id] == link
    ensures RevokeLink(s, link.id, now).links.Keys == s.links.Keys
    ensures RevokeOtherActive(PutLink(s, Activated(link, now)), link, now).links.Keys == s.links.Keys
  {
  }

  lemma DeliveryDelta(cfg: Settings, s: State, id: Uuid, now: Time)
    requires Inv(cfg, s)
    ensures LinkRules.MarkDelivered(cfg, s, id, now).st.links.Keys == s.links.Keys
  {
    hide Inv, Deliverable, LatestLink, RevokeLink, RevokeOtherActive;
    if id in s.links {
      LinkKey(cfg, s, id);
      KeysStay(s, s.links[id], now);
    }
  }

  lemma FailureDelta(cfg: Settings, s: State, id: Uuid, now: Time)
    requires Inv(cfg, s)
    ensures LinkRules.MarkDeliveryFailed(s, id, now).st.links.Keys == s.links.Keys
  {
    hide Inv;
    if id in s.links { LinkKey(cfg, s, id); }
  }

  lemma RedeemDelta(cfg: Settings, s: State, token: string, p: Purpose, acceptable: bool, hash: string, now: Time)
    requires Inv(cfg, s)
    ensures RedeemForAccount(cfg, s, token, p, acceptable, hash, now).st.links.Keys == s.links.Keys
  {
    hide Inv, Evolves, Redeem;
    RedeemKeeps(cfg, s, token, p, None, now);
  }

  lemma LinkLoginDelta(cfg: Settings, s: State, token: string, nonce: string, now: Time, draw: Fresh)
    requires Inv(cfg, s)
    ensures LinkLogin(cfg, s, token, nonce, now, draw).st.links.Keys == s.links.Keys
  {
    hide Inv, Evolves, Redeem;
    RedeemKeeps(cfg, s, token, LoginLink, Some(nonce), now);
  }

  lemma ApplyLinkDelta(cfg: Settings, retain: bool, s: State, op: LinkOp, now: Time)
    requires Inv(cfg, s)
    ensures LinksDelta(cfg, retain, s, ApplyLink(cfg, retain, s, op, now).st.links, LinkDrawn(OnLinks(op)), now)
  {
    hide Inv, RequestLink, IssueForUser, CreatePending, LinkRules.MarkDelivered, LinkRules.MarkDeliveryFailed;
    hide RedeemForAccount, LinkLogin, PendingUser, Issued;
    match op
    case RequestLoginLink(email, nonce, link) =>
      RequestDelta(cfg, retain, s, email, LoginLink, Some(nonce), link, now);
    case RequestPasswordReset(email, link) => RequestDelta(cfg, retain, s, email, PasswordReset, None, link, now);
    case Invite(id, link) => IssueForUserDelta(cfg, retain, s, id, Invitation, link, now);
    case ReplaceActivation(id, link) => IssueForUserDelta(cfg, retain, s, id, Activation, link, now);
    case Provision(id, email, name, hash, roles, link) =>
      CreatePendingDelta(cfg, retain, s, PendingUser(id, email, name, hash, roles, [], now), link, now);
    case EnsureInitialAdmin(id, email, name, hash, link) =>
      CreatePendingDelta(cfg, retain, s,
        PendingUser(id, email, name, hash, [cfg.adminRole], ["auth:admin"], now), link, now);
    case MarkDelivered(id) => DeliveryDelta(cfg, s, id, now);
    case MarkDeliveryFailed(id) => FailureDelta(cfg, s, id, now);
    case LoginByLink(token, nonce, draw) => LinkLoginDelta(cfg, s, token, nonce, now, draw);
    case ResetByLink(token, acceptable, hash) => RedeemDelta(cfg, s, token, PasswordReset, acceptable, hash, now);
    case ActivateInvitation(token, hash) => RedeemDelta(cfg, s, token, Invitation, true, hash, now);
    case ActivateAccount(token, acceptable, hash) => RedeemDelta(cfg, s, token, Activation, acceptable, hash, now);
  }

  lemma OtherOpsLeaveLinks(cfg: Settings, retain: bool, s: State, op: Op, now: Time)
    requires !op.OnLinks?
    ensures Apply(cfg, retain, s, op, now).st.links == s.links
  {
    hide ApplySession, ApplyUser, ApplyGoogle, ApplyPasskey;
    assert Frames.Accounts(s, s) == Frames.GoogleTables(s, s) == Frames.PasskeyTables(s, s) == s;
    match op
    case OnSessions(x) => Frames.SessionOpsOnAccounts(cfg, s, s, x, now);
    case OnUsers(x) => Frames.UserOpsOnAccounts(cfg, s, s, x, now);
    case OnGoogle(x) => Frames.GoogleOpsOnGoogle(cfg, s, s, x, now);
    case OnPasskeys(x) => Frames.PasskeyOpsOnPasskeys(cfg, s, s, x, now);
  }

  lemma StepDelta(cfg: Settings, retain: bool, s: State, op: Op, now: Time)
    requires Inv(cfg, s)
    ensures LinksDelta(cfg, retain, s, Apply(cfg, retain, s, op, now).st.links, LinkDrawn(op), now)
  {
    hide Inv, Issued, ApplyLink;
    if op.OnLinks? {
      ApplyLinkDelta(cfg, retain, s, op.link, now);
    } else {
      OtherOpsLeaveLinks(cfg, retain, s, op, now);
    }
  }

  // Everything ever issued -----------------------------------------------------------------------

  /** All that is fixed when a link is issued. */
  predicate SameIssue(x: EmailLink, y: EmailLink) {
    y == x.(state := y.state, deliveredAt := y.deliveredAt, consumedAt := y.consumedAt, revokedAt := y.revokedAt)
  }

  predicate SameLinkToken(a: EmailLink, b: EmailLink) { a.tokenHash == b.tokenHash }

  predicate Recorded(cfg: Settings, retain: bool, s: State, h: map<Uuid, EmailLink>, id: Uuid, now: Time)
    requires id in h
  {
    && h[id].id == id && h[id].createdAt <= now && cfg.LinkUrl(h[id].purpose)
    && h[id].expiresAt == h[id].createdAt + Seconds(cfg.LinkTtl(h[id].purpose))
    && (if id in s.links then SameIssue(h[id], s.links[id]) else Outlived(cfg, retain, h[id].createdAt, now))
  }

  /** The record of issued links: complete, faithful, each token used once, gone only with age. */
  predicate RecordFits(cfg: Settings, retain: bool, s: State, h: map<Uuid, EmailLink>, now: Time) {
    && s.links.Keys <= h.Keys
    && (forall id {:trigger Recorded(cfg, retain, s, h, id, now)} :: id in h ==> Recorded(cfg, retain, s, h, id, now))
    && (forall a, b {:trigger SameLinkToken(h[a], h[b])} :: a in h && b in h && SameLinkToken(h[a], h[b]) ==> a == b)
  }

  lemma RecordedNext(cfg: Settings, retain: bool, w: World, op: Op, w': World, id: Uuid)
    requires Step(cfg, retain, w, op, w') && RecordFits(cfg, retain, w.st, w.history.links, w.now)
    requires LinksDelta(cfg, retain, w.st, w'.st.links, LinkDrawn(op), w'.at)
    requires LinkSafety.LinksEvolve(w.st.users, w.st.links, w'.st.links)
    requires id in w'.history.links
    ensures Recorded(cfg, retain, w'.st, w'.history.links, id, w'.now)
    ensures id !in w.history.links ==>
              && LinkDrawn(op).Some? && id == LinkDrawn(op).value.linkId
              && w'.history.links[id].tokenHash == Sha256(LinkDrawn(op).value.token)
  {
    hide Apply, RateLimited;
    if id in w.history.links { assert Recorded(cfg, retain, w.st, w.history.links, id, w.now); }
  }

  lemma RecordKept(cfg: Settings, retain: bool, w: World, op: Op, w': World)
    requires Step(cfg, retain, w, op, w')
    requires Inv(cfg, w.st) && RecordFits(cfg, retain, w.st, w.history.links, w.now)
    requires LinkSafety.LinksEvolve(w.st.users, w.st.links, w'.st.links)
    ensures RecordFits(cfg, retain, w'.st, w'.history.links, w'.now)
  {
    hide Inv, Apply, Recorded, RateLimited, LinksDelta;
    StepDelta(cfg, retain, w.st, op, w'.at);
    var h, h' := w.history.links, w'.history.links;
    forall id | id in h'
      ensures Recorded(cfg, retain, w'.st, h', id, w'.now)
      ensures id !in h ==>
                && LinkDrawn(op).Some? && id == LinkDrawn(op).value.linkId
                && h'[id].tokenHash == Sha256(LinkDrawn(op).value.token)
    {
      RecordedNext(cfg, retain, w, op, w', id);
    }
    forall a, b | a in h' && b in h' && SameLinkToken(h'[a], h'[b]) ensures a == b {
      if a in h && b in h { assert SameLinkToken(h[a], h[b]); }
    }
  }

  lemma {:induction false} RecordAlong(cfg: Settings, retain: bool, ws: seq<World>, ops: seq<Op>, i: nat)
    requires cfg.Valid() && IsRun(cfg, retain, ws, ops) && i < |ws|
    ensures RecordFits(cfg, retain, ws[i].st, ws[i].history.links, ws[i].now)
  {
    hide Inv, Apply;
    if i > 0 {
      RecordAlong(cfg, retain, ws, ops, i - 1);
      Runs.Reachable(cfg, retain, ws, ops, i - 1);
      Runs.StepEvolves(cfg, retain, ws, ops, i - 1);
      RecordKept(cfg, retain, ws[i - 1], ops[i - 1], ws[i]);
    }
  }

  // The request rate limit ---------------------------------------------------------------------

  /** Every link issued in the closed interval of one rate-limit window that begins at `since`. */
  function InWindow(cfg: Settings, h: map<Uuid, EmailLink>, user: Uuid, p: Purpose, since: Time): set<Uuid> {
    set id | id in h && h[id].For(user, p) && since <= h[id].createdAt <= since + Seconds(cfg.requestWindowSeconds)
  }

  /** How much longer links are kept than they are counted. */
  function Spare(cfg: Settings): Time { Seconds(cfg.retentionSeconds - cfg.requestWindowSeconds) }

  /** What the store still holds for the new link's window is all that was issued in it. */
  lemma WindowIsCounted(cfg: Settings, retain: bool, s: State, h: map<Uuid, EmailLink>, t: Time, now: Time,
                        user: Uuid, p: Purpose, since: Time)
    requires cfg.Valid() && RecordFits(cfg, retain, s, h, t) && (retain || t <= now + Spare(cfg))
    requires now <= since + Seconds(cfg.requestWindowSeconds)
    ensures InWindow(cfg, h, user, p, since)
         <= Requests(AfterPruning(cfg, retain, s, now).links, user, p, now - Seconds(cfg.requestWindowSeconds))
  {
    forall id | id in InWindow(cfg, h, user, p, since)
      ensures id in Requests(AfterPruning(cfg, retain, s, now).links, user, p, now - Seconds(cfg.requestWindowSeconds))
    {
      assert Recorded(cfg, retain, s, h, id, t);
    }
  }

  lemma WindowGrows(cfg: Settings, retain: bool, w: World, op: Op, w': World, user: Uuid, p: Purpose, since: Time)
    requires cfg.Valid() && Step(cfg, retain, w, op, w') && RecordFits(cfg, retain, w.st, w.history.links, w.now)
    requires LinksDelta(cfg, retain, w.st, w'.st.links, LinkDrawn(op), w'.at)
    requires retain || Recent(w', Spare(cfg))
    requires |InWindow(cfg, w.history.links, user, p, since)| <= cfg.maxRequestsPerWindow
    ensures |InWindow(cfg, w'.history.links, user, p, since)| <= cfg.maxRequestsPerWindow
  {
    hide Apply, Recorded, AfterPruning, Requests, Outlived;
    var before := InWindow(cfg, w.history.links, user, p, since);
    var after := InWindow(cfg, w'.history.links, user, p, since);
    if drawn :| drawn in after && drawn !in before {
      assert drawn in w'.st.links && drawn !in w.st.links;
      WindowIsCounted(cfg, retain, w.st, w.history.links, w.now, w'.at, user, p, since);
      Cardinality(before, Requests(AfterPruning(cfg, retain, w.st, w'.at).links, user, p,
                                   w'.at - Seconds(cfg.requestWindowSeconds)));
      assert after <= before + {drawn};
      Cardinality(after, before + {drawn});
    } else {
      assert after <= before;
      Cardinality(after, before);
    }
  }

  /** In any run, any window of the configured length holds at most the configured number of issued
      links for one user and purpose, counting those that pruning has since deleted. The clock may
      even go back, by no more than links are kept beyond the window. */
  lemma {:induction false} RateLimitHolds(cfg: Settings, retain: bool, ws: seq<World>, ops: seq<Op>, i: nat,
                                          user: Uuid, p: Purpose, since: Time)
    requires cfg.Valid() && IsRun(cfg, retain, ws, ops) && i < |ws| && (retain || Punctual(ws, Spare(cfg)))
    ensures |InWindow(cfg, ws[i].history.links, user, p, since)| <= cfg.maxRequestsPerWindow
  {
    hide Inv, Apply;
    if i > 0 {
      RateLimitHolds(cfg, retain, ws, ops, i - 1, user, p, since);
      RecordAlong(cfg, retain, ws, ops, i - 1);
      Runs.Reachable(cfg, retain, ws, ops, i - 1);
      Runs.StepEvolves(cfg, retain, ws, ops, i - 1);
      StepDelta(cfg, retain, ws[i - 1].st, ops[i - 1], ws[i].at);
      assert retain || Recent(ws[i], Spare(cfg));
      WindowGrows(cfg, retain, ws[i - 1], ops[i - 1], ws[i], user, p, since);
    }
  }
}
