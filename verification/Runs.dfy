/** Safety over whole runs: what every reachable state satisfies and what no later step undoes. */
module Runs {
  import opened Models
  import opened Config
  import opened StoreState
  import opened Invariant
  import opened Machine
  import opened Preservation
  import LinkSafety
  import SessionSafety
  import UserRules
  import LinkRules
  import Interleaving

  // The invariant along a run --------------------------------------------------------------------

  lemma StartIsSound(cfg: Settings)
    requires cfg.Valid()
    ensures Inv(cfg, EMPTY)
  {
    var none: map<Uuid, seq<Uuid>> := map[];
    assert SessionSafety.Chained(EMPTY.sessions, none);
    forall u: Uuid ensures |UsablePasskeys(EMPTY.passkeys, u)| <= cfg.passkeyMaxCredentials {
      assert UsablePasskeys(EMPTY.passkeys, u) == {};
    }
  }

  lemma StepKeeps(cfg: Settings, retain: bool, w: World, op: Op, w': World)
    requires cfg.Valid() && Step(cfg, retain, w, op, w')
    requires Inv(cfg, w.st) && SessionSafety.Unlocked(w.st, w.now) && Remembered(w.history, w.st)
    ensures Keeps(cfg, w.st, w'.st, w'.at)
    ensures SessionSafety.Unlocked(w'.st, w'.now) && Remembered(w'.history, w'.st)
  {
    hide Inv, Evolves, SessionSafety.Unlocked, InOrder, Apply;
    ApplyKeeps(cfg, retain, w.history, w.st, op, w'.at);
    LocksStayPast(w.st, w.now, w'.now);
    assert SessionSafety.Unlocked(w'.st, w'.now);
  }

  lemma LocksStayPast(s: State, t: Time, now: Time)
    requires SessionSafety.Unlocked(s, t) && t <= now
    ensures SessionSafety.Unlocked(s, now)
  {
    forall id | id in s.sessions && s.sessions[id].revokedAt.None? && s.sessions[id].userId in s.users
      ensures SessionSafety.LockPast(s.users[s.sessions[id].userId], now)
    {
      assert SessionSafety.LockPast(s.users[s.sessions[id].userId], t);
    }
  }

  /** Whatever the clock does, and in whatever order its readings are committed. */
  lemma {:induction false} Reachable(cfg: Settings, retain: bool, ws: seq<World>, ops: seq<Op>, i: nat)
    requires cfg.Valid() && IsRun(cfg, retain, ws, ops) && i < |ws|
    ensures Inv(cfg, ws[i].st) && SessionSafety.Unlocked(ws[i].st, ws[i].now) && Remembered(ws[i].history, ws[i].st)
  {
    hide Inv, Apply;
    if i == 0 {
      StartIsSound(cfg);
    } else {
      Reachable(cfg, retain, ws, ops, i - 1);
      assert StepAt(cfg, retain, ws, ops, i - 1);
      StepKeeps(cfg, retain, ws[i - 1], ops[i - 1], ws[i]);
    }
  }

  /** On a clock that does not go back, stored times are in order, too. */
  lemma {:induction false} ReachableInOrder(cfg: Settings, retain: bool, ws: seq<World>, ops: seq<Op>, i: nat)
    requires cfg.Valid() && IsRun(cfg, retain, ws, ops) && i < |ws| && Monotone(ws)
    ensures InOrder(ws[i].st, ws[i].now)
  {
    hide Inv, Evolves, InOrder, SessionSafety.StaysUnlocked, Apply;
    if i == 0 {
      StartInOrder(ws[0].now);
    } else {
      ReachableInOrder(cfg, retain, ws, ops, i - 1);
      Reachable(cfg, retain, ws, ops, i - 1);
      assert StepAt(cfg, retain, ws, ops, i - 1) && Recent(ws[i], 0);
      StepKeeps(cfg, retain, ws[i - 1], ops[i - 1], ws[i]);
      InOrderLater(ws[i - 1].st, ws[i - 1].now, ws[i].at);
    }
  }

  lemma StartInOrder(now: Time)
    ensures InOrder(EMPTY, now)
  {
  }

  lemma StepEvolves(cfg: Settings, retain: bool, ws: seq<World>, ops: seq<Op>, i: nat)
    requires cfg.Valid() && IsRun(cfg, retain, ws, ops) && i < |ops|
    ensures Evolves(cfg, ws[i].st, ws[i + 1].st)
    ensures Step(cfg, retain, ws[i], ops[i], ws[i + 1])
  {
    hide Inv, Evolves;
    Reachable(cfg, retain, ws, ops, i);
    assert StepAt(cfg, retain, ws, ops, i);
    StepKeeps(cfg, retain, ws[i], ops[i], ws[i + 1]);
  }

  lemma PrefixIsRun(cfg: Settings, retain: bool, ws: seq<World>, ops: seq<Op>, n: nat)
    requires IsRun(cfg, retain, ws, ops) && n <= |ops|
    ensures IsRun(cfg, retain, ws[..n + 1], ops[..n]) && (Monotone(ws) ==> Monotone(ws[..n + 1]))
  {
    hide Step;
    var worlds, first := ws[..n + 1], ops[..n];
    forall i | 0 <= i < |worlds| && Monotone(ws) ensures Recent(worlds[i], 0) { assert Recent(ws[i], 0); }
    forall i | 0 <= i < n ensures StepAt(cfg, retain, worlds, first, i) {
      assert StepAt(cfg, retain, ws, ops, i);
    }
  }

  lemma RunExtends(cfg: Settings, retain: bool, ws: seq<World>, ops: seq<Op>, op: Op, w: World)
    requires IsRun(cfg, retain, ws, ops) && Step(cfg, retain, ws[|ops|], op, w)
    ensures IsRun(cfg, retain, ws + [w], ops + [op])
  {
    hide Step;
    var worlds, all := ws + [w], ops + [op];
    forall i | 0 <= i < |all| ensures StepAt(cfg, retain, worlds, all, i) {
      if i < |ops| { assert StepAt(cfg, retain, ws, ops, i); }
    }
  }

  /** From any moment of a run to any later one, users and sessions only evolve. */
  lemma {:induction false} RunEvolves(cfg: Settings, retain: bool, ws: seq<World>, ops: seq<Op>, i: nat, j: nat)
    requires cfg.Valid() && IsRun(cfg, retain, ws, ops) && i <= j < |ws|
    ensures UsersEvolve(ws[i].st.users, ws[j].st.users)
    ensures SessionSafety.SessionsEvolve(ws[i].st.sessions, ws[j].st.sessions)
    ensures HasActiveAdmin(cfg, ws[i].st.users) ==> HasActiveAdmin(cfg, ws[j].st.users)
    decreases j
  {
    if i < j {
      RunEvolves(cfg, retain, ws, ops, i, j - 1);
      StepEvolves(cfg, retain, ws, ops, j - 1);
      SessionSafety.SessionsEvolveTransitive(ws[i].st.sessions, ws[j - 1].st.sessions, ws[j].st.sessions);
      UsersEvolveTransitive(ws[i].st.users, ws[j - 1].st.users, ws[j].st.users);
    }
  }

  lemma UsersEvolveTransitive(a: map<Uuid, User>, b: map<Uuid, User>, c: map<Uuid, User>)
    requires UsersEvolve(a, b) && UsersEvolve(b, c)
    ensures UsersEvolve(a, c)
  {
    forall id | id in a ensures id in c && UserEvolves(a[id], c[id]) {
      assert UserEvolves(a[id], b[id]) && UserEvolves(b[id], c[id]);
    }
  }

  /** Every reachable state meets the tables' constraints, which the services and the interleaved
      calls start from. */
  lemma ReachableIsFit(cfg: Settings, retain: bool, ws: seq<World>, ops: seq<Op>, i: nat)
    requires cfg.Valid() && IsRun(cfg, retain, ws, ops) && i < |ws|
    ensures Fit(ws[i].st) && Interleaving.Rows(ws[i].st)
  {
    hide Apply, Inv, Interleaving.Rows, Fit;
    Reachable(cfg, retain, ws, ops, i);
    SoundIsFit(cfg, ws[i].st);
  }

  lemma SoundIsFit(cfg: Settings, s: State)
    requires Inv(cfg, s)
    ensures Fit(s) && Interleaving.Rows(s)
  {
    forall a, b | a in s.sessions && b in s.sessions && SameFamily(s.sessions[a], s.sessions[b])
      ensures SessionSafety.Kin(s.sessions[a], s.sessions[b])
    {
      SessionSafety.KinOfFamily(s.sessions, a, b);
    }
    forall id | id in s.links ensures s.links[id].userId in s.users {
      assert LinkSafety.LinkFits(s.users, s.links[id]);
    }
  }

  // Sessions ---------------------------------------------------------------------------------------

  /** In every reachable state an unrevoked session belongs to an active account, whose lock, if any,
      is past on the latest reading of the clock. */
  lemma UnrevokedSessionsStand(cfg: Settings, retain: bool, ws: seq<World>, ops: seq<Op>, i: nat, id: Uuid)
    requires cfg.Valid() && IsRun(cfg, retain, ws, ops) && i < |ws|
    requires id in ws[i].st.sessions && ws[i].st.sessions[id].revokedAt.None?
    ensures var x := ws[i].st.sessions[id];
            && x.userId in ws[i].st.users && ws[i].st.users[x.userId].status == Active
            && (ws[i].st.users[x.userId].lockedUntil.Some? ==>
                  ws[i].st.users[x.userId].lockedUntil.value <= ws[i].now)
  {
    hide Apply;
    Reachable(cfg, retain, ws, ops, i);
  }

  /** Each family is one finite chain of replacements, from the login to exactly one unused head. */
  lemma FamiliesAreChains(cfg: Settings, retain: bool, ws: seq<World>, ops: seq<Op>, i: nat, member: Uuid)
    returns (chain: seq<Uuid>)
    requires cfg.Valid() && IsRun(cfg, retain, ws, ops) && i < |ws| && member in ws[i].st.sessions
    ensures var sessions := ws[i].st.sessions;
            var f := sessions[member].familyId;
            && SessionSafety.IsChain(sessions, f, chain)
            && (forall id :: id in chain <==> SessionSafety.InFamily(sessions, f, id))
            && (forall id | SessionSafety.InFamily(sessions, f, id) ::
                  && (sessions[id].usedAt.None? <==> id == chain[|chain| - 1])
                  && SessionSafety.Kin(sessions[member], sessions[id])
                  && sessions[id].absoluteExpiresAt == sessions[member].absoluteExpiresAt)
  {
    hide Apply;
    Reachable(cfg, retain, ws, ops, i);
    var sessions := ws[i].st.sessions;
    var chains :| SessionSafety.Chained(sessions, chains);
    SessionSafety.FamilyIsChain(sessions, chains, member);
    chain := chains[sessions[member].familyId];
    forall id | SessionSafety.InFamily(sessions, sessions[member].familyId, id)
      ensures sessions[id].usedAt.None? <==> id == chain[|chain| - 1]
      ensures SessionSafety.Kin(sessions[member], sessions[id])
      ensures sessions[id].absoluteExpiresAt == sessions[member].absoluteExpiresAt
    {
      SessionSafety.KinOfFamily(sessions, member, id);
      assert SessionSafety.Timely(cfg, sessions[id]) && SessionSafety.Timely(cfg, sessions[member]);
    }
  }

  /** No idle deadline passes the absolute one, which the family shares. On a clock that does not go
      back, idle deadlines also never fall from a session to its replacement. */
  lemma DeadlinesRise(cfg: Settings, retain: bool, ws: seq<World>, ops: seq<Op>, i: nat, id: Uuid, next: Uuid)
    requires cfg.Valid() && IsRun(cfg, retain, ws, ops) && i < |ws| && id in ws[i].st.sessions
    requires ws[i].st.sessions[id].replacedById == Some(next)
    ensures next in ws[i].st.sessions
    ensures var x, y := ws[i].st.sessions[id], ws[i].st.sessions[next];
            && x.absoluteExpiresAt == y.absoluteExpiresAt
            && x.idleExpiresAt <= x.absoluteExpiresAt && y.idleExpiresAt <= y.absoluteExpiresAt
            && (Monotone(ws) ==> x.idleExpiresAt <= y.idleExpiresAt)
  {
    hide Apply;
    Reachable(cfg, retain, ws, ops, i);
    var sessions := ws[i].st.sessions;
    SessionSafety.ReplacementInjective(sessions, id, id);
    SessionSafety.KinOfFamily(sessions, id, next);
    assert SessionSafety.Timely(cfg, sessions[id]) && SessionSafety.Timely(cfg, sessions[next]);
    if Monotone(ws) {
      ReachableInOrder(cfg, retain, ws, ops, i);
      SessionSafety.IdleDeadlineRises(cfg, sessions, ws[i].now, id, next);
    }
  }

  /** No session is the replacement of two. */
  lemma ReplacementsAreDistinct(cfg: Settings, retain: bool, ws: seq<World>, ops: seq<Op>, i: nat, a: Uuid, b: Uuid)
    requires cfg.Valid() && IsRun(cfg, retain, ws, ops) && i < |ws|
    requires a in ws[i].st.sessions && b in ws[i].st.sessions
    requires ws[i].st.sessions[a].replacedById.Some?
    requires ws[i].st.sessions[a].replacedById == ws[i].st.sessions[b].replacedById
    ensures a == b
  {
    Reachable(cfg, retain, ws, ops, i);
    SessionSafety.ReplacementInjective(ws[i].st.sessions, a, b);
  }

  /** An active session is younger than the absolute TTL, counted from its family's first login. */
  lemma RefreshNeverExtendsLogin(cfg: Settings, retain: bool, ws: seq<World>, ops: seq<Op>, i: nat, id: Uuid, t: Time)
    requires cfg.Valid() && IsRun(cfg, retain, ws, ops) && i < |ws|
    requires id in ws[i].st.sessions && ws[i].st.sessions[id].IsActive(t)
    ensures exists first: Uuid :: SessionSafety.InFamily(ws[i].st.sessions, ws[i].st.sessions[id].familyId, first)
              && (forall k :: k in ws[i].st.sessions ==> ws[i].st.sessions[k].replacedById != Some(first))
              && t < ws[i].st.sessions[first].createdAt + Seconds(cfg.refreshAbsoluteTtlSeconds)
  {
    hide Apply;
    Reachable(cfg, retain, ws, ops, i);
    var sessions := ws[i].st.sessions;
    var f := sessions[id].familyId;
    var chain := FamiliesAreChains(cfg, retain, ws, ops, i, id);
    assert SessionSafety.InFamily(sessions, f, id);
    var n :| 0 <= n < |chain| && chain[n] == id;
    assert SessionSafety.Place(sessions, f, chain, 0);
    SessionSafety.LoginNeverExtended(cfg, sessions, f, chain, n, t);
    forall k | k in sessions ensures sessions[k].replacedById != Some(chain[0]) {
      if sessions[k].replacedById == Some(chain[0]) {
        SessionSafety.ReplacementInjective(sessions, k, k);
        assert SessionSafety.InFamily(sessions, f, chain[0]) && SessionSafety.InFamily(sessions, f, k);
        var m :| 0 <= m < |chain| && chain[m] == k;
        assert SessionSafety.Place(sessions, f, chain, m);
        SessionSafety.DistinctPlaces(sessions, f, chain, m + 1, 0);
      }
    }
    assert SessionSafety.InFamily(sessions, f, chain[0]);
  }

  /** Revocation takes a family whole, ... */
  lemma FamiliesRevokedWhole(cfg: Settings, retain: bool, ws: seq<World>, ops: seq<Op>, i: nat, a: Uuid, b: Uuid)
    requires cfg.Valid() && IsRun(cfg, retain, ws, ops) && i < |ws|
    requires a in ws[i].st.sessions && b in ws[i].st.sessions
    requires ws[i].st.sessions[a].familyId == ws[i].st.sessions[b].familyId
    ensures ws[i].st.sessions[a].revokedAt.None? <==> ws[i].st.sessions[b].revokedAt.None?
  {
    Reachable(cfg, retain, ws, ops, i);
    SessionSafety.KinOfFamily(ws[i].st.sessions, a, b);
  }

  /** ... for good: members stay revoked as they were, and the family never gains another. */
  lemma RevocationIsPermanent(cfg: Settings, retain: bool, ws: seq<World>, ops: seq<Op>, i: nat, j: nat, a: Uuid,
                              b: Uuid)
    requires cfg.Valid() && IsRun(cfg, retain, ws, ops) && i <= j < |ws|
    requires a in ws[i].st.sessions && ws[i].st.sessions[a].revokedAt.Some?
    ensures a in ws[j].st.sessions && ws[j].st.sessions[a].revokedAt == ws[i].st.sessions[a].revokedAt
    ensures SessionSafety.InFamily(ws[j].st.sessions, ws[i].st.sessions[a].familyId, b) ==>
              b in ws[i].st.sessions && ws[j].st.sessions[b].revokedAt.Some?
  {
    RunEvolves(cfg, retain, ws, ops, i, j);
    assert SessionSafety.SessionEvolves(ws[i].st.sessions[a], ws[j].st.sessions[a]);
    if SessionSafety.InFamily(ws[j].st.sessions, ws[i].st.sessions[a].familyId, b) {
      assert !SessionSafety.Joins(ws[i].st.sessions, ws[j].st.sessions, b, a);
      FamiliesRevokedWhole(cfg, retain, ws, ops, j, a, b);
    }
  }

  // Accounts ---------------------------------------------------------------------------------------

  /** Once an active administrator exists, one always does. */
  lemma AdminRemains(cfg: Settings, retain: bool, ws: seq<World>, ops: seq<Op>, i: nat, j: nat)
    requires cfg.Valid() && IsRun(cfg, retain, ws, ops) && i <= j < |ws|
    requires exists id :: id in ws[i].st.users && UserRules.IsActiveAdmin(cfg, ws[i].st.users[id])
    ensures exists id :: id in ws[j].st.users && UserRules.IsActiveAdmin(cfg, ws[j].st.users[id])
  {
    RunEvolves(cfg, retain, ws, ops, i, j);
  }

  lemma VersionsNeverFall(cfg: Settings, retain: bool, ws: seq<World>, ops: seq<Op>, i: nat, j: nat, u: Uuid)
    requires cfg.Valid() && IsRun(cfg, retain, ws, ops) && i <= j < |ws| && u in ws[i].st.users
    ensures u in ws[j].st.users && ws[i].st.users[u].securityVersion <= ws[j].st.users[u].securityVersion
  {
    RunEvolves(cfg, retain, ws, ops, i, j);
    assert UserEvolves(ws[i].st.users[u], ws[j].st.users[u]);
  }

  lemma PendingNeverReturns(cfg: Settings, retain: bool, ws: seq<World>, ops: seq<Op>, i: nat, j: nat, u: Uuid)
    requires cfg.Valid() && IsRun(cfg, retain, ws, ops) && i <= j < |ws|
    requires u in ws[i].st.users && ws[i].st.users[u].status != PendingActivation
    ensures u in ws[j].st.users && ws[j].st.users[u].status != PendingActivation
  {
    RunEvolves(cfg, retain, ws, ops, i, j);
    assert UserEvolves(ws[i].st.users[u], ws[j].st.users[u]);
  }

  /** Step `k` takes account `u` through `activate_account`. */
  ghost predicate ActivatesAt(cfg: Settings, retain: bool, ws: seq<World>, ops: seq<Op>, k: nat, u: Uuid) {
    && k < |ops| && k + 1 < |ws|
    && ops[k].OnLinks? && ops[k].link.ActivateAccount?
    && var r := Apply(cfg, retain, ws[k].st, ops[k], ws[k + 1].at); r.out.UserSaved? && r.out.user.id == u
  }

  lemma ActivationStartsPending(cfg: Settings, s: State, token: string, acceptable: bool, hash: string, now: Time)
    requires Inv(cfg, s)
    ensures var r := LinkRules.RedeemForAccount(cfg, s, token, Activation, acceptable, hash, now);
            r.out.UserSaved? ==>
              && r.out.user.id in s.users && s.users[r.out.user.id].status == PendingActivation
              && r.out.user.id in r.st.users && r.st.users[r.out.user.id].status == Active
  {
    ConsumableIsCurrent(cfg, s, token, Activation, None, now);
  }

  lemma ActivationAt(cfg: Settings, retain: bool, ws: seq<World>, ops: seq<Op>, k: nat, u: Uuid)
    requires cfg.Valid() && IsRun(cfg, retain, ws, ops) && ActivatesAt(cfg, retain, ws, ops, k, u)
    ensures u in ws[k].st.users && ws[k].st.users[u].status == PendingActivation
    ensures u in ws[k + 1].st.users && ws[k + 1].st.users[u].status == Active
  {
    hide Inv;
    Reachable(cfg, retain, ws, ops, k);
    StepEvolves(cfg, retain, ws, ops, k);
    var op := ops[k].link;
    ActivationStartsPending(cfg, ws[k].st, op.token, op.acceptable, op.hash, ws[k + 1].at);
  }

  /** An account is activated at most once, whichever of its links does it. */
  lemma ActivatedOnce(cfg: Settings, retain: bool, ws: seq<World>, ops: seq<Op>, k: nat, m: nat, u: Uuid)
    requires cfg.Valid() && IsRun(cfg, retain, ws, ops) && k <= m
    requires ActivatesAt(cfg, retain, ws, ops, k, u) && ActivatesAt(cfg, retain, ws, ops, m, u)
    ensures k == m
  {
    hide Apply;
    ActivationAt(cfg, retain, ws, ops, k, u);
    ActivationAt(cfg, retain, ws, ops, m, u);
    if k < m {
      PendingNeverReturns(cfg, retain, ws, ops, k + 1, m, u);
    }
  }

  // Identities and passkeys ------------------------------------------------------------------------

  /** Google identities stay one-to-one between (issuer, subject) and (user, issuer). */
  lemma IdentitiesStayOneToOne(cfg: Settings, retain: bool, ws: seq<World>, ops: seq<Op>, i: nat, a: Uuid, b: Uuid)
    requires cfg.Valid() && IsRun(cfg, retain, ws, ops) && i < |ws|
    requires a in ws[i].st.identities && b in ws[i].st.identities
    requires ws[i].st.identities[a].issuer == ws[i].st.identities[b].issuer
    ensures (ws[i].st.identities[a].subject == ws[i].st.identities[b].subject)
            <==> (ws[i].st.identities[a].userId == ws[i].st.identities[b].userId)
    ensures ws[i].st.identities[a].subject == ws[i].st.identities[b].subject ==> a == b
  {
    Reachable(cfg, retain, ws, ops, i);
    if Rivals(ws[i].st.identities[a], ws[i].st.identities[b]) { assert a == b; }
  }

  lemma PasskeysStayLimited(cfg: Settings, retain: bool, ws: seq<World>, ops: seq<Op>, i: nat, u: Uuid)
    requires cfg.Valid() && IsRun(cfg, retain, ws, ops) && i < |ws|
    ensures |UsablePasskeys(ws[i].st.passkeys, u)| <= cfg.passkeyMaxCredentials
  {
    Reachable(cfg, retain, ws, ops, i);
  }
}
