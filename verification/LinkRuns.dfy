/** Safety of email links over whole runs: one active link, the version fence, single consumption. */
module LinkRuns {
  import opened Models
  import opened Config
  import opened StoreState
  import opened Invariant
  import opened Machine
  import opened Preservation
  import opened LinkRules
  import opened LinkHistory
  import LinkSafety
  import Runs

  // Links only move forward along a run ----------------------------------------------------------

  lemma {:induction false} RecordGrows(cfg: Settings, retain: bool, ws: seq<World>, ops: seq<Op>, i: nat, j: nat)
    requires IsRun(cfg, retain, ws, ops) && i <= j < |ws|
    ensures forall id :: id in ws[i].history.links ==>
              id in ws[j].history.links && ws[j].history.links[id] == ws[i].history.links[id]
    ensures ws[i].history.google <= ws[j].history.google && ws[i].history.passkey <= ws[j].history.passkey
    decreases j
  {
    hide Apply;
    if i < j {
      RecordGrows(cfg, retain, ws, ops, i, j - 1);
      assert StepAt(cfg, retain, ws, ops, j - 1);
    }
  }

  /** A link that pruning deleted never comes back. */
  lemma StillThere(cfg: Settings, retain: bool, ws: seq<World>, ops: seq<Op>, i: nat, j: nat, id: Uuid)
    requires cfg.Valid() && IsRun(cfg, retain, ws, ops) && i < j < |ws|
    requires id in ws[i].st.links && id in ws[j].st.links
    ensures id in ws[j - 1].st.links
  {
    hide Inv, Apply, Issued;
    RecordAlong(cfg, retain, ws, ops, i);
    RecordGrows(cfg, retain, ws, ops, i, j - 1);
    Runs.Reachable(cfg, retain, ws, ops, j - 1);
    Runs.StepEvolves(cfg, retain, ws, ops, j - 1);
    StepDelta(cfg, retain, ws[j - 1].st, ops[j - 1], ws[j].at);
  }

  lemma {:induction false} RunLinksEvolve(cfg: Settings, retain: bool, ws: seq<World>, ops: seq<Op>, i: nat, j: nat)
    requires cfg.Valid() && IsRun(cfg, retain, ws, ops) && i <= j < |ws|
    ensures LinkSafety.LinksEvolve(ws[i].st.users, ws[i].st.links, ws[j].st.links)
    decreases j
  {
    hide Inv, Apply, LinkSafety.LinksEvolve;
    if i == j {
      Runs.Reachable(cfg, retain, ws, ops, i);
      InvParts(cfg, ws[i].st);
      LinkSafety.LinksEvolveReflexive(ws[i].st.users, ws[i].st.links);
    } else {
      RunLinksEvolve(cfg, retain, ws, ops, i, j - 1);
      Runs.StepEvolves(cfg, retain, ws, ops, j - 1);
      Runs.RunEvolves(cfg, retain, ws, ops, i, j - 1);
      forall id | id in ws[i].st.links && id in ws[j].st.links ensures id in ws[j - 1].st.links {
        StillThere(cfg, retain, ws, ops, i, j, id);
      }
      LinkSafety.LinksEvolveTransitive(ws[i].st.users, ws[j - 1].st.users, ws[i].st.links,
                                       ws[j - 1].st.links, ws[j].st.links);
    }
  }

  /** Consumed, failed and revoked links never change again. */
  lemma ClosedLinksStay(cfg: Settings, retain: bool, ws: seq<World>, ops: seq<Op>, i: nat, j: nat, id: Uuid)
    requires cfg.Valid() && IsRun(cfg, retain, ws, ops) && i <= j < |ws|
    requires id in ws[i].st.links && ws[i].st.links[id].Closed() && id in ws[j].st.links
    ensures ws[j].st.links[id] == ws[i].st.links[id]
  {
    hide Apply;
    RunLinksEvolve(cfg, retain, ws, ops, i, j);
  }

  // One active link --------------------------------------------------------------------------------

  /** At most one link per account and purpose is active, and nothing ever delivered is newer. */
  lemma ActiveLinkIsLatestDelivered(cfg: Settings, retain: bool, ws: seq<World>, ops: seq<Op>, i: nat, a: Uuid, b: Uuid)
    requires cfg.Valid() && IsRun(cfg, retain, ws, ops) && i < |ws|
    requires a in ws[i].st.links && b in ws[i].st.links && ws[i].st.links[a].state == LinkActive
    requires ws[i].st.links[b].For(ws[i].st.links[a].userId, ws[i].st.links[a].purpose)
    ensures ws[i].st.links[b].state == LinkActive ==> a == b
    ensures ws[i].st.links[b].deliveredAt.Some? ==> ws[i].st.links[b].generation <= ws[i].st.links[a].generation
  {
    hide Apply;
    Runs.Reachable(cfg, retain, ws, ops, i);
    var links := ws[i].st.links;
    if links[b].state == LinkActive {
      LinkSafety.OneActiveLink(ws[i].st.users, links, a, b);
    }
    assert LinkSafety.Ordered(links[b], links[a]);
  }

  /** Delivering a link after a newer one was issued is refused and leaves every other link alone. */
  lemma LateDeliveryRefused(cfg: Settings, retain: bool, ws: seq<World>, ops: seq<Op>, i: nat, late: Uuid,
                            newer: Uuid, now: Time)
    requires cfg.Valid() && IsRun(cfg, retain, ws, ops) && i < |ws|
    requires late in ws[i].st.links && newer in ws[i].st.links
    requires ws[i].st.links[newer].For(ws[i].st.links[late].userId, ws[i].st.links[late].purpose)
    requires ws[i].st.links[late].generation < ws[i].st.links[newer].generation
    ensures var r := LinkRules.MarkDelivered(cfg, ws[i].st, late, now);
            && r.out == Delivered(false)
            && r.st == ws[i].st.(links := r.st.links)
            && late in r.st.links && r.st.links[late].state !in {LinkPending, LinkActive}
            && forall id ::
              id in ws[i].st.links && id != late ==> id in r.st.links && r.st.links[id] == ws[i].st.links[id]
  {
    hide Apply;
    Runs.Reachable(cfg, retain, ws, ops, i);
    InvParts(cfg, ws[i].st);
    var link := ws[i].st.links[late];
    LinkSafety.LatestIsStored(ws[i].st.links, link.userId, link.purpose);
  }

  /** Issuing a replacement, or failing to deliver it, leaves every older link as it was: the active one
      stays active until a newer delivery is accepted. */
  lemma ReplacementLeavesOthers(cfg: Settings, retain: bool, ws: seq<World>, ops: seq<Op>, i: nat, user: User,
                                p: Purpose, nonce: Option<string>, draw: LinkDraw, failed: Uuid, now: Time, id: Uuid)
    requires cfg.Valid() && IsRun(cfg, retain, ws, ops) && i < |ws| && id in ws[i].st.links
    requires draw.linkId !in ws[i].st.links && failed != id
    ensures var links, after := ws[i].st.links, IssueLink(cfg, retain, ws[i].st, user, p, nonce, draw, now).st.links;
            if Outlived(cfg, retain, links[id].createdAt, now) then id in after ==> after[id] == links[id]
            else id in after && after[id] == links[id]
    ensures var after := LinkRules.MarkDeliveryFailed(ws[i].st, failed, now).st.links;
            id in after && after[id] == ws[i].st.links[id]
  {
    hide Apply, Inv, RateLimited, LinkClashes;
    Runs.Reachable(cfg, retain, ws, ops, i);
    if failed in ws[i].st.links { LinkKey(cfg, ws[i].st, failed); }
  }

  /** Reporting the delivery of an active link again takes the link away instead of leaving it. */
  lemma RepeatedDeliveryRevokes(cfg: Settings, retain: bool, ws: seq<World>, ops: seq<Op>, i: nat, id: Uuid, now: Time)
    requires cfg.Valid() && IsRun(cfg, retain, ws, ops) && i < |ws|
    requires id in ws[i].st.links && ws[i].st.links[id].state == LinkActive
    ensures var r := LinkRules.MarkDelivered(cfg, ws[i].st, id, now);
            && r.out == Delivered(false) && id in r.st.links && r.st.links[id].state == LinkRevoked
            && r.st == ws[i].st.(links := ws[i].st.links[id := r.st.links[id]])
  {
    hide Apply;
    Runs.Reachable(cfg, retain, ws, ops, i);
    InvParts(cfg, ws[i].st);
  }

  // The version fence ------------------------------------------------------------------------------

  predicate Stale(s: State, id: Uuid) {
    && id in s.links && s.links[id].userId in s.users
    && s.links[id].securityVersion < s.users[s.links[id].userId].securityVersion
  }

  lemma VersionsBoundLinks(cfg: Settings, retain: bool, ws: seq<World>, ops: seq<Op>, i: nat, id: Uuid)
    requires cfg.Valid() && IsRun(cfg, retain, ws, ops) && i < |ws| && id in ws[i].st.links
    ensures var l := ws[i].st.links[id];
            l.userId in ws[i].st.users && l.securityVersion <= ws[i].st.users[l.userId].securityVersion
  {
    hide Apply;
    Runs.Reachable(cfg, retain, ws, ops, i);
    assert LinkSafety.LinkFits(ws[i].st.users, ws[i].st.links[id]);
  }

  /** Once its account's version has moved on, a link is never again activated or consumed. */
  lemma StaleLinksAreDead(cfg: Settings, retain: bool, ws: seq<World>, ops: seq<Op>, i: nat, j: nat, id: Uuid)
    requires cfg.Valid() && IsRun(cfg, retain, ws, ops) && i <= j < |ws|
    requires Stale(ws[i].st, id) && id in ws[j].st.links
    ensures Stale(ws[j].st, id)
    ensures ws[j].st.links[id].state in {LinkActive, LinkConsumed} ==>
              ws[j].st.links[id].state == ws[i].st.links[id].state
  {
    hide Apply;
    RunLinksEvolve(cfg, retain, ws, ops, i, j);
    Runs.VersionsNeverFall(cfg, retain, ws, ops, i, j, ws[i].st.links[id].userId);
  }

  /** Step `k` completes a password reset, an invitation or an activation of account `u`. */
  ghost predicate CompletesAt(cfg: Settings, retain: bool, ws: seq<World>, ops: seq<Op>, k: nat, u: Uuid) {
    && k < |ops| && k + 1 < |ws|
    && ops[k].OnLinks? && (ops[k].link.ResetByLink? || ops[k].link.ActivateInvitation? || ops[k].link.ActivateAccount?)
    && var r := Apply(cfg, retain, ws[k].st, ops[k], ws[k + 1].at); r.out.UserSaved? && r.out.user.id == u
  }

  lemma RedemptionAdvances(cfg: Settings, s: State, token: string, p: Purpose, acceptable: bool, hash: string,
                           now: Time)
    requires Inv(cfg, s) && p != LoginLink
    ensures var r := RedeemForAccount(cfg, s, token, p, acceptable, hash, now);
            r.out.UserSaved? ==>
              && r.out.user.id in s.users && r.out.user.id in r.st.users
              && s.users[r.out.user.id].securityVersion < r.st.users[r.out.user.id].securityVersion
              && r.st.links.Keys == s.links.Keys
              && forall id :: id in s.links ==> SameIssue(s.links[id], r.st.links[id])
  {
    hide Inv, Consumable;
    InvParts(cfg, s);
    ConsumableIsCurrent(cfg, s, token, p, None, now);
  }

  lemma CompletionAdvances(cfg: Settings, retain: bool, s: State, op: LinkOp, now: Time)
    requires Inv(cfg, s) && (op.ResetByLink? || op.ActivateInvitation? || op.ActivateAccount?)
    ensures var r := ApplyLink(cfg, retain, s, op, now);
            r.out.UserSaved? ==>
              && r.out.user.id in s.users && r.out.user.id in r.st.users
              && s.users[r.out.user.id].securityVersion < r.st.users[r.out.user.id].securityVersion
              && r.st.links.Keys == s.links.Keys
              && forall id :: id in s.links ==> SameIssue(s.links[id], r.st.links[id])
  {
    hide Inv, RedeemForAccount;
    match op
    case ResetByLink(token, acceptable, hash) =>
      RedemptionAdvances(cfg, s, token, PasswordReset, acceptable, hash, now);
    case ActivateInvitation(token, hash) => RedemptionAdvances(cfg, s, token, Invitation, true, hash, now);
    case ActivateAccount(token, acceptable, hash) =>
      RedemptionAdvances(cfg, s, token, Activation, acceptable, hash, now);
  }

  /** Completing any of the three kills every other outstanding link of the account, for good and
      for every purpose: none of them is activated or consumed at any later step. */
  lemma CompletionKillsOtherLinks(cfg: Settings, retain: bool, ws: seq<World>, ops: seq<Op>, k: nat, j: nat, u: Uuid,
                                  id: Uuid)
    requires cfg.Valid() && IsRun(cfg, retain, ws, ops) && k < j < |ws| && CompletesAt(cfg, retain, ws, ops, k, u)
    requires id in ws[k].st.links && ws[k].st.links[id].userId == u && id in ws[j].st.links
    ensures Stale(ws[j].st, id)
    ensures id in ws[k + 1].st.links
    ensures ws[j].st.links[id].state in {LinkActive, LinkConsumed} ==>
              ws[j].st.links[id].state == ws[k + 1].st.links[id].state
  {
    hide Inv, ApplyLink, Evolves;
    Runs.Reachable(cfg, retain, ws, ops, k);
    Runs.StepEvolves(cfg, retain, ws, ops, k);
    VersionsBoundLinks(cfg, retain, ws, ops, k, id);
    CompletionAdvances(cfg, retain, ws[k].st, ops[k].link, ws[k + 1].at);
    StaleLinksAreDead(cfg, retain, ws, ops, k + 1, j, id);
  }

  // Single consumption ----------------------------------------------------------------------------

  /** The link whose redemption makes an operation succeed. */
  predicate Redeems(a: State, b: State, id: Uuid, token: string, p: Purpose) {
    && id in a.links && a.links[id].tokenHash == Sha256(token) && a.links[id].purpose == p
    && a.links[id].state == LinkActive
    && id in b.links && b.links[id].state == LinkConsumed
    && b.links.Keys == a.links.Keys
    && forall k :: k in a.links && k != id ==> b.links[k] == a.links[k]
  }

  predicate NoneConsumed(a: State, b: State) {
    forall id :: id in a.links ==> id in b.links && (b.links[id].state == LinkConsumed ==> b.links[id] == a.links[id])
  }

  lemma ConsumableConsumesNone(cfg: Settings, s: State, token: string, p: Purpose, nonce: Option<string>, now: Time)
    requires Inv(cfg, s)
    ensures NoneConsumed(s, Consumable(cfg, s, token, p, nonce, now).st)
  {
    hide Inv;
    InvParts(cfg, s);
  }

  lemma RedeemConsumes(cfg: Settings, s: State, token: string, p: Purpose, nonce: Option<string>, now: Time)
    requires Inv(cfg, s)
    ensures var found := Redeem(cfg, s, token, p, nonce, now);
            if found.link.Some? then found.user.Some? && Redeems(s, found.st, found.link.value.id, token, p)
            else NoneConsumed(s, found.st)
  {
    hide Inv, Consumable, NoneConsumed;
    ConsumableConsumesNone(cfg, s, token, p, nonce, now);
    ConsumableIsCurrent(cfg, s, token, p, nonce, now);
  }

  /** A redemption that succeeds consumes exactly the link its token names; any other consumes none. */
  lemma AccountRedemptionConsumes(cfg: Settings, s: State, token: string, p: Purpose, acceptable: bool,
                                  hash: string, now: Time)
    requires Inv(cfg, s) && p != LoginLink
    ensures var r := RedeemForAccount(cfg, s, token, p, acceptable, hash, now);
            if r.out.UserSaved? then exists id: Uuid :: Redeems(s, r.st, id, token, p) else NoneConsumed(s, r.st)
  {
    hide Inv, Redeem;
    RedeemConsumes(cfg, s, token, p, None, now);
    var r, found := RedeemForAccount(cfg, s, token, p, acceptable, hash, now), Redeem(cfg, s, token, p, None, now);
    if r.out.UserSaved? { assert Redeems(s, r.st, found.link.value.id, token, p); }
  }

  lemma LinkLoginConsumes(cfg: Settings, s: State, token: string, nonce: string, now: Time, draw: Fresh)
    requires Inv(cfg, s)
    ensures var r := LinkLogin(cfg, s, token, nonce, now, draw);
            if r.out.SessionIssued? then exists id: Uuid :: Redeems(s, r.st, id, token, LoginLink)
            else NoneConsumed(s, r.st)
  {
    hide Inv, Redeem;
    RedeemConsumes(cfg, s, token, LoginLink, Some(nonce), now);
    var r, found := LinkLogin(cfg, s, token, nonce, now, draw), Redeem(cfg, s, token, LoginLink, Some(nonce), now);
    if r.out.SessionIssued? { assert Redeems(s, r.st, found.link.value.id, token, LoginLink); }
  }

  /** What a token is redeemed for, and the outcome that says it was. */
  datatype Redemption = NoRedemption | Redemption(token: string, purpose: Purpose)

  function Attempted(op: Op): Redemption {
    match op
    case OnLinks(LoginByLink(token, _, _)) => Redemption(token, LoginLink)
    case OnLinks(ResetByLink(token, _, _)) => Redemption(token, PasswordReset)
    case OnLinks(ActivateInvitation(token, _)) => Redemption(token, Invitation)
    case OnLinks(ActivateAccount(token, _, _)) => Redemption(token, Activation)
    case _ => NoRedemption
  }

  /** Step `k` redeems `token`: the operation it calls succeeds. */
  ghost predicate RedeemsAt(cfg: Settings, retain: bool, ws: seq<World>, ops: seq<Op>, k: nat, token: string) {
    && k < |ops| && k + 1 < |ws|
    && Attempted(ops[k]).Redemption? && Attempted(ops[k]).token == token
    && !Apply(cfg, retain, ws[k].st, ops[k], ws[k + 1].at).out.Rejected?
  }

  lemma RedeemedLink(cfg: Settings, retain: bool, ws: seq<World>, ops: seq<Op>, k: nat, token: string)
    returns (id: Uuid)
    requires cfg.Valid() && IsRun(cfg, retain, ws, ops) && RedeemsAt(cfg, retain, ws, ops, k, token)
    ensures Redeems(ws[k].st, ws[k + 1].st, id, token, Attempted(ops[k]).purpose)
  {
    hide Inv, RedeemForAccount, LinkLogin, Evolves, Redeems;
    Runs.Reachable(cfg, retain, ws, ops, k);
    Runs.StepEvolves(cfg, retain, ws, ops, k);
    var s, now := ws[k].st, ws[k + 1].at;
    RedemptionOutcome(cfg, retain, s, ops[k].link, now);
    id :| Redeems(ws[k].st, ws[k + 1].st, id, token, Attempted(ops[k]).purpose);
  }

  lemma RedemptionOutcome(cfg: Settings, retain: bool, s: State, op: LinkOp, now: Time)
    requires Inv(cfg, s) && Attempted(OnLinks(op)).Redemption?
    ensures var r := ApplyLink(cfg, retain, s, op, now);
            !r.out.Rejected? ==>
              exists id: Uuid :: Redeems(s, r.st, id, Attempted(OnLinks(op)).token, Attempted(OnLinks(op)).purpose)
  {
    hide Inv, RedeemForAccount, LinkLogin, Redeems;
    OutcomeKinds(cfg, retain, s, op, now);
    match op
    case LoginByLink(token, nonce, draw) => LinkLoginConsumes(cfg, s, token, nonce, now, draw);
    case ResetByLink(token, acceptable, hash) =>
      AccountRedemptionConsumes(cfg, s, token, PasswordReset, acceptable, hash, now);
    case ActivateInvitation(token, hash) => AccountRedemptionConsumes(cfg, s, token, Invitation, true, hash, now);
    case ActivateAccount(token, acceptable, hash) =>
      AccountRedemptionConsumes(cfg, s, token, Activation, acceptable, hash, now);
  }

  lemma OutcomeKinds(cfg: Settings, retain: bool, s: State, op: LinkOp, now: Time)
    requires Attempted(OnLinks(op)).Redemption?
    ensures var out := ApplyLink(cfg, retain, s, op, now).out;
            out.Rejected? || (if op.LoginByLink? then out.SessionIssued? else out.UserSaved?)
  {
    hide Redeem, ActiveLinkExists, Redeemed;
  }

  /** No token is redeemed twice in a run, for the same purpose or another. */
  lemma RedeemedOnce(cfg: Settings, retain: bool, ws: seq<World>, ops: seq<Op>, k: nat, m: nat, token: string)
    requires cfg.Valid() && IsRun(cfg, retain, ws, ops) && k <= m
    requires RedeemsAt(cfg, retain, ws, ops, k, token) && RedeemsAt(cfg, retain, ws, ops, m, token)
    ensures k == m
  {
    hide Apply;
    var a := RedeemedLink(cfg, retain, ws, ops, k, token);
    var b := RedeemedLink(cfg, retain, ws, ops, m, token);
    if k < m {
      RecordAlong(cfg, retain, ws, ops, k);
      RecordAlong(cfg, retain, ws, ops, m);
      RecordGrows(cfg, retain, ws, ops, k, m);
      var h := ws[m].history.links;
      assert Recorded(cfg, retain, ws[k].st, ws[k].history.links, a, ws[k].now);
      assert Recorded(cfg, retain, ws[m].st, h, b, ws[m].now);
      assert SameLinkToken(h[a], h[b]);
      RunLinksEvolve(cfg, retain, ws, ops, k + 1, m);
    }
  }
}
