/** Refresh-session families: the chain each family forms, and what every write keeps of it. */
module SessionSafety {
  import opened Models
  import opened Config
  import opened StoreState
  import opened SessionRules

  // The invariant ----------------------------------------------------------------------------

  /** An unrevoked session belongs to an active user. */
  predicate Standing(users: map<Uuid, User>, sessions: map<Uuid, Session>) {
    forall id :: id in sessions ==>
      && sessions[id].userId in users
      && (sessions[id].revokedAt.None? ==> users[sessions[id].userId].status == Active)
  }

  /** Deadlines: the absolute one is fixed by the login, the idle one by the last rotation. */
  predicate Timely(cfg: Settings, x: Session) {
    && x.createdAt < x.absoluteExpiresAt
    && x.absoluteExpiresAt == x.authenticatedAt + Seconds(cfg.refreshAbsoluteTtlSeconds)
    && x.idleExpiresAt == Min(x.createdAt + Seconds(cfg.refreshIdleTtlSeconds), x.absoluteExpiresAt)
    && (x.usedAt.Some? <==> x.replacedById.Some?)
  }

  predicate AllTimely(cfg: Settings, sessions: map<Uuid, Session>) {
    forall id :: id in sessions ==> Timely(cfg, sessions[id])
  }

  // Two members of one family agree on all that a rotation copies, and on being revoked.
  predicate Kin(a: Session, b: Session) {
    && a.familyId == b.familyId && a.userId == b.userId && a.authenticatedAt == b.authenticatedAt
    && (a.revokedAt.None? <==> b.revokedAt.None?)
  }

  /** The `i`-th member of `chain` is kin to the first and names the next as its replacement. */
  predicate Place(sessions: map<Uuid, Session>, family: Uuid, chain: seq<Uuid>, i: nat) {
    && i < |chain| && chain[0] in sessions && chain[i] in sessions
    && sessions[chain[i]].familyId == family
    && Kin(sessions[chain[0]], sessions[chain[i]])
    && sessions[chain[i]].replacedById == if i + 1 < |chain| then Some(chain[i + 1]) else None
  }

  predicate Apart(chain: seq<Uuid>, i: nat, j: nat) { i < |chain| && j < |chain| && chain[i] != chain[j] }

  /** `chain` runs through `replaced_by_id` from the login session to the one unused head. */
  predicate IsChain(sessions: map<Uuid, Session>, family: Uuid, chain: seq<Uuid>) {
    && chain != []
    && (forall i :: 0 <= i < |chain| ==> Place(sessions, family, chain, i))
    && (forall i, j :: 0 <= i < j < |chain| ==> Apart(chain, i, j))
    && chain[0] in sessions && sessions[chain[0]].familyId == family
    && sessions[chain[0]].createdAt == sessions[chain[0]].authenticatedAt
  }

  predicate Listed(sessions: map<Uuid, Session>, chains: map<Uuid, seq<Uuid>>, id: Uuid) {
    id in sessions && sessions[id].familyId in chains && id in chains[sessions[id].familyId]
  }

  predicate ChainOf(sessions: map<Uuid, Session>, chains: map<Uuid, seq<Uuid>>, family: Uuid) {
    family in chains && IsChain(sessions, family, chains[family])
  }

  /** `chains` lists, family by family, every stored session exactly once. */
  predicate Chained(sessions: map<Uuid, Session>, chains: map<Uuid, seq<Uuid>>) {
    && (forall id {:trigger Listed(sessions, chains, id)} :: id in sessions ==> Listed(sessions, chains, id))
    && (forall f {:trigger ChainOf(sessions, chains, f)} :: f in chains ==> ChainOf(sessions, chains, f))
  }

  /** The chain of the family that a stored session belongs to, and its place there. */
  lemma ChainOfSession(sessions: map<Uuid, Session>, chains: map<Uuid, seq<Uuid>>, id: Uuid) returns (i: nat)
    requires Chained(sessions, chains) && id in sessions
    ensures sessions[id].familyId in chains && IsChain(sessions, sessions[id].familyId, chains[sessions[id].familyId])
    ensures i < |chains[sessions[id].familyId]| && chains[sessions[id].familyId][i] == id
    ensures Place(sessions, sessions[id].familyId, chains[sessions[id].familyId], i)
  {
    var f := sessions[id].familyId;
    assert Listed(sessions, chains, id) && ChainOf(sessions, chains, f);
    i :| 0 <= i < |chains[f]| && chains[f][i] == id;
  }

  ghost predicate HasChains(sessions: map<Uuid, Session>) {
    exists chains: map<Uuid, seq<Uuid>> :: Chained(sessions, chains)
  }

  ghost predicate SessionsSound(cfg: Settings, users: map<Uuid, User>, sessions: map<Uuid, Session>) {
    && SessionsUnique(sessions)
    && Standing(users, sessions)
    && AllTimely(cfg, sessions)
    && HasChains(sessions)
  }

  /** The owner of an unrevoked session has no lock that lasts beyond `t`. */
  predicate Unlocked(s: State, t: Time) {
    forall id :: id in s.sessions && s.sessions[id].revokedAt.None? && s.sessions[id].userId in s.users ==>
      LockPast(s.users[s.sessions[id].userId], t)
  }

  predicate LockPast(u: User, t: Time) { u.lockedUntil.Some? ==> u.lockedUntil.value <= t }

  /** No write at `at` leaves an unrevoked session behind a lock that lasts beyond `at`. */
  ghost predicate StaysUnlocked(a: State, b: State, at: Time) {
    forall t: Time {:trigger Unlocked(b, t)} :: at <= t && Unlocked(a, t) ==> Unlocked(b, t)
  }

  /** What a clock that does not go back adds: nothing is younger than `now`, a session no older than
      its login, a replacement no older than what it replaces. */
  predicate InSequence(sessions: map<Uuid, Session>, x: Session, now: Time) {
    && x.authenticatedAt <= x.createdAt <= now
    && (x.replacedById.Some? && x.replacedById.value in sessions ==>
          x.createdAt <= sessions[x.replacedById.value].createdAt)
  }

  predicate SessionsInOrder(sessions: map<Uuid, Session>, now: Time) {
    forall id :: id in sessions ==> InSequence(sessions, sessions[id], now)
  }

  // What the invariant says about families ----------------------------------------------------

  predicate InFamily(sessions: map<Uuid, Session>, family: Uuid, id: Uuid) {
    id in sessions && sessions[id].familyId == family
  }

  /** A chain is the whole family: exactly its members, one of them unused. */
  lemma FamilyIsChain(sessions: map<Uuid, Session>, chains: map<Uuid, seq<Uuid>>, member: Uuid)
    requires Chained(sessions, chains) && member in sessions
    ensures var f := sessions[member].familyId;
            && f in chains && IsChain(sessions, f, chains[f])
            && (forall id :: id in chains[f] <==> InFamily(sessions, f, id))
            && (forall id | InFamily(sessions, f, id) ::
                  sessions[id].replacedById.None? <==> id == chains[f][|chains[f]| - 1])
  {
    var f := sessions[member].familyId;
    var _ := ChainOfSession(sessions, chains, member);
    var chain := chains[f];
    forall id
      ensures id in chain <==> InFamily(sessions, f, id)
      ensures InFamily(sessions, f, id) ==> (sessions[id].replacedById.None? <==> id == chain[|chain| - 1])
    {
      if id in chain {
        var i :| 0 <= i < |chain| && chain[i] == id;
        assert Place(sessions, f, chain, i);
      }
      if InFamily(sessions, f, id) {
        var i := ChainOfSession(sessions, chains, id);
        DistinctPlaces(sessions, f, chain, i, |chain| - 1);
      }
    }
  }

  lemma KinOfFamily(sessions: map<Uuid, Session>, a: Uuid, b: Uuid)
    requires HasChains(sessions) && a in sessions && b in sessions
    requires sessions[a].familyId == sessions[b].familyId
    ensures Kin(sessions[a], sessions[b])
  {
    var chains :| Chained(sessions, chains);
    var _ := ChainOfSession(sessions, chains, a);
    var _ := ChainOfSession(sessions, chains, b);
  }

  lemma DistinctPlaces(sessions: map<Uuid, Session>, family: Uuid, chain: seq<Uuid>, i: nat, j: nat)
    requires IsChain(sessions, family, chain) && i < |chain| && j < |chain|
    ensures chain[i] == chain[j] ==> i == j
  {
    if i < j { assert Apart(chain, i, j); }
    if j < i { assert Apart(chain, j, i); }
  }

  /** `replaced_by_id` stays inside the family and is injective. */
  lemma ReplacementInjective(sessions: map<Uuid, Session>, a: Uuid, b: Uuid)
    requires HasChains(sessions) && a in sessions && b in sessions
    requires sessions[a].replacedById.Some? && sessions[a].replacedById == sessions[b].replacedById
    ensures InFamily(sessions, sessions[a].familyId, sessions[a].replacedById.value)
    ensures a == b
  {
    var chains :| Chained(sessions, chains);
    var f, g := sessions[a].familyId, sessions[b].familyId;
    var i := ChainOfSession(sessions, chains, a);
    var j := ChainOfSession(sessions, chains, b);
    assert Place(sessions, f, chains[f], i + 1) && Place(sessions, g, chains[g], j + 1);
    DistinctPlaces(sessions, f, chains[f], i + 1, j + 1);
  }

  /** The members of a family share the absolute deadline; no idle one passes it. */
  lemma DeadlineIsShared(cfg: Settings, sessions: map<Uuid, Session>, family: Uuid, chain: seq<Uuid>, i: nat)
    requires IsChain(sessions, family, chain) && AllTimely(cfg, sessions) && i < |chain|
    ensures chain[0] in sessions && chain[i] in sessions
    ensures sessions[chain[i]].idleExpiresAt <= sessions[chain[i]].absoluteExpiresAt
    ensures sessions[chain[i]].absoluteExpiresAt == sessions[chain[0]].absoluteExpiresAt
  {
    assert Place(sessions, family, chain, i);
    assert Timely(cfg, sessions[chain[0]]) && Timely(cfg, sessions[chain[i]]);
  }

  /** On a clock that does not go back, a replacement never has an earlier idle deadline. */
  lemma IdleDeadlineRises(cfg: Settings, sessions: map<Uuid, Session>, now: Time, id: Uuid, next: Uuid)
    requires AllTimely(cfg, sessions) && SessionsInOrder(sessions, now)
    requires id in sessions && next in sessions && sessions[id].replacedById == Some(next)
    requires Kin(sessions[id], sessions[next])
    ensures sessions[id].idleExpiresAt <= sessions[next].idleExpiresAt
  {
    assert InSequence(sessions, sessions[id], now);
    assert Timely(cfg, sessions[id]) && Timely(cfg, sessions[next]);
  }

  /** No number of rotations extends a login: an active session is inside the absolute TTL of the
      moment its family began. */
  lemma LoginNeverExtended(cfg: Settings, sessions: map<Uuid, Session>, family: Uuid, chain: seq<Uuid>,
                           i: nat, t: Time)
    requires IsChain(sessions, family, chain) && AllTimely(cfg, sessions) && i < |chain|
    requires chain[i] in sessions && sessions[chain[i]].IsActive(t)
    requires chain[0] in sessions
    ensures t < sessions[chain[0]].createdAt + Seconds(cfg.refreshAbsoluteTtlSeconds)
  {
    DeadlineIsShared(cfg, sessions, family, chain, i);
    assert Timely(cfg, sessions[chain[0]]);
  }

  // How a step may change sessions ------------------------------------------------------------

  /** Nothing but first use and revocation happens to a stored session, each once and for good. */
  predicate SessionEvolves(x: Session, y: Session) {
    && y == x.(usedAt := y.usedAt, revokedAt := y.revokedAt, replacedById := y.replacedById)
    && (x.revokedAt.Some? ==> y.revokedAt == x.revokedAt)
    && (x.usedAt.Some? ==> y.usedAt == x.usedAt && y.replacedById == x.replacedById)
  }

  predicate SessionsEvolve(a: map<Uuid, Session>, b: map<Uuid, Session>) {
    && (forall id :: id in a ==> id in b && SessionEvolves(a[id], b[id]))
    && (forall id, k {:trigger Joins(a, b, id, k)} :: id in b && k in a && Joins(a, b, id, k) ==> a[k].revokedAt.None?)
  }

  /** `id` is new in `b`, in the family of the stored session `k`. */
  predicate Joins(a: map<Uuid, Session>, b: map<Uuid, Session>, id: Uuid, k: Uuid) {
    id in b && id !in a && k in a && a[k].familyId == b[id].familyId
  }

  lemma SessionsEvolveTransitive(a: map<Uuid, Session>, b: map<Uuid, Session>, c: map<Uuid, Session>)
    requires SessionsEvolve(a, b) && SessionsEvolve(b, c)
    ensures SessionsEvolve(a, c)
  {
    forall id, k | Joins(a, c, id, k) ensures a[k].revokedAt.None? {
      assert SessionEvolves(a[k], b[k]);
      if id in b {
        assert SessionEvolves(b[id], c[id]) && Joins(a, b, id, k);
      } else {
        assert Joins(b, c, id, k);
      }
    }
    forall id | id in a ensures id in c && SessionEvolves(a[id], c[id]) {
      assert SessionEvolves(a[id], b[id]) && SessionEvolves(b[id], c[id]);
    }
  }

  // Each write keeps the invariant ------------------------------------------------------------

  lemma RevokedChain(a: map<Uuid, Session>, b: map<Uuid, Session>, f: Uuid, chain: seq<Uuid>, hit: bool, at: Time)
    requires IsChain(a, f, chain)
    requires forall id :: id in a && a[id].familyId == f ==> id in b && b[id] == RevokedIf(a[id], hit, at)
    ensures IsChain(b, f, chain)
  {
    forall i | 0 <= i < |chain| ensures Place(b, f, chain, i) {
      assert Place(a, f, chain, 0) && Place(a, f, chain, i);
    }
    assert Place(a, f, chain, 0);
  }

  /** Revoking whole families keeps every chain. */
  lemma RevocationKeepsChains(a: map<Uuid, Session>, b: map<Uuid, Session>, hit: set<Uuid>, at: Time)
    requires HasChains(a)
    requires b.Keys == a.Keys
    requires forall id :: id in a ==> b[id] == RevokedIf(a[id], a[id].familyId in hit, at)
    ensures HasChains(b)
  {
    var chains :| Chained(a, chains);
    forall f | f in chains ensures ChainOf(b, chains, f) {
      assert ChainOf(a, chains, f);
      RevokedChain(a, b, f, chains[f], f in hit, at);
    }
    forall id | id in b ensures Listed(b, chains, id) { assert Listed(a, chains, id); }
    assert Chained(b, chains);
  }

  lemma RevokeFamilyKeeps(cfg: Settings, s: State, family: Uuid, now: Time)
    requires SessionsSound(cfg, s.users, s.sessions)
    ensures var after := RevokeFamily(s, family, now);
            SessionsSound(cfg, after.users, after.sessions) && SessionsEvolve(s.sessions, after.sessions)
  {
    var after := RevokeFamily(s, family, now).sessions;
    RevocationKeepsChains(s.sessions, after, {family}, now);
    SameTokensStayUnique(s.sessions, after);
  }

  /** Revoking leaves order and locks as they are. */
  lemma RevocationStays(a: State, b: State, now: Time)
    requires b.sessions.Keys == a.sessions.Keys && b.users == a.users
    requires forall id :: id in a.sessions ==>
               && b.sessions[id] == a.sessions[id].(revokedAt := b.sessions[id].revokedAt)
               && (a.sessions[id].revokedAt.Some? ==> b.sessions[id].revokedAt.Some?)
    ensures StaysUnlocked(a, b, now) && (SessionsInOrder(a.sessions, now) ==> SessionsInOrder(b.sessions, now))
  {
  }

  /** After its sessions are revoked, a user may be saved in any condition. */
  lemma RevokeUserKeeps(cfg: Settings, s: State, u: User, now: Time)
    requires SessionsSound(cfg, s.users, s.sessions)
    ensures var after := RevokeUserSessions(PutUser(s, u), u.id, now);
            SessionsSound(cfg, after.users, after.sessions) && SessionsEvolve(s.sessions, after.sessions)
  {
    var after := RevokeUserSessions(PutUser(s, u), u.id, now).sessions;
    var hit := set id | id in s.sessions && s.sessions[id].userId == u.id :: s.sessions[id].familyId;
    forall id | id in s.sessions && s.sessions[id].familyId in hit ensures s.sessions[id].userId == u.id {
      var k :| k in s.sessions && s.sessions[k].userId == u.id && s.sessions[k].familyId == s.sessions[id].familyId;
      KinOfFamily(s.sessions, id, k);
    }
    RevocationKeepsChains(s.sessions, after, hit, now);
    SameTokensStayUnique(s.sessions, after);
  }

  lemma RevokeUserStays(s: State, u: User, now: Time)
    ensures var after := RevokeUserSessions(PutUser(s, u), u.id, now);
            StaysUnlocked(s, after, now) && (SessionsInOrder(s.sessions, now) ==> SessionsInOrder(after.sessions, now))
  {
    var after := RevokeUserSessions(PutUser(s, u), u.id, now);
    forall t: Time | now <= t && Unlocked(s, t) ensures Unlocked(after, t) {
      forall id | id in after.sessions && after.sessions[id].revokedAt.None? && after.sessions[id].userId in after.users
        ensures LockPast(after.users[after.sessions[id].userId], t)
      {
        assert after.sessions[id] == s.sessions[id];
      }
    }
  }

  lemma SameTokensStayUnique(a: map<Uuid, Session>, b: map<Uuid, Session>)
    requires SessionsUnique(a) && b.Keys == a.Keys
    requires forall id :: id in a ==> b[id].id == id && b[id].tokenHash == a[id].tokenHash
    ensures SessionsUnique(b)
  {
    forall x, y | x in b && y in b && SameToken(b[x], b[y]) ensures x == y { assert SameToken(a[x], a[y]); }
  }

  /** Saving `u` takes nothing from whoever is logged in: it stays active, and no lock begins. */
  predicate NoWorse(was: User, u: User) {
    (was.status == Active ==> u.status == Active) && (u.lockedUntil.None? || u.lockedUntil == was.lockedUntil)
  }

  /** Saving such a user, or one that is not stored yet, breaks nothing. */
  lemma PutUserKeeps(cfg: Settings, s: State, u: User, now: Time)
    requires SessionsSound(cfg, s.users, s.sessions)
    requires u.id in s.users ==> NoWorse(s.users[u.id], u)
    ensures SessionsSound(cfg, PutUser(s, u).users, s.sessions) && StaysUnlocked(s, PutUser(s, u), now)
  {}

  lemma IssueKeeps(cfg: Settings, s: State, u: User, now: Time, draw: Fresh)
    requires SessionsSound(cfg, s.users, s.sessions) && cfg.Valid()
    requires u.id in s.users && s.users[u.id].CanAuthenticate(now)
    requires forall id :: id in s.sessions ==> s.sessions[id].familyId != draw.familyId
    ensures var r := Issue(cfg, s, u, now, NewLogin, draw);
            && SessionsSound(cfg, r.st.users, r.st.sessions) && SessionsEvolve(s.sessions, r.st.sessions)
            && StaysUnlocked(s, r.st, now)
            && (SessionsInOrder(s.sessions, now) ==> SessionsInOrder(r.st.sessions, now))
  {
    hide SessionsUnique, HasChains;
    var x := NewSession(cfg, u.id, now, NewLogin, draw);
    if !SessionClashes(s.sessions, x) {
      NewFamilyKeepsChains(s.sessions, x);
      InsertKeepsKeys(s.sessions, x);
    }
  }

  lemma InsertKeepsKeys(sessions: map<Uuid, Session>, x: Session)
    requires SessionsUnique(sessions) && !SessionClashes(sessions, x)
    ensures SessionsUnique(sessions[x.id := x])
  {
    var after := sessions[x.id := x];
    forall a, b | a in after && b in after && SameToken(after[a], after[b]) ensures a == b {
      if a in sessions && b in sessions { assert SameToken(sessions[a], sessions[b]); }
    }
  }

  lemma NewFamilyKeepsChains(sessions: map<Uuid, Session>, x: Session)
    requires HasChains(sessions) && x.id !in sessions
    requires forall id :: id in sessions ==> sessions[id].familyId != x.familyId
    requires x.replacedById.None? && x.createdAt == x.authenticatedAt
    ensures HasChains(sessions[x.id := x])
  {
    var chains :| Chained(sessions, chains);
    NoChainOfAbsentFamily(sessions, chains, x.familyId);
    assert Place(sessions[x.id := x], x.familyId, [x.id], 0);
    ChainsGrow(sessions, sessions[x.id := x], chains, chains[x.familyId := [x.id]], x.familyId);
  }

  lemma NoChainOfAbsentFamily(sessions: map<Uuid, Session>, chains: map<Uuid, seq<Uuid>>, f: Uuid)
    requires Chained(sessions, chains) && forall id :: id in sessions ==> sessions[id].familyId != f
    ensures f !in chains
  {
    assert f in chains ==> ChainOf(sessions, chains, f);
  }

  /** One family's chain is set, the others and their members stay. */
  lemma ChainsGrow(a: map<Uuid, Session>, b: map<Uuid, Session>, chains: map<Uuid, seq<Uuid>>,
                   grown: map<Uuid, seq<Uuid>>, f: Uuid)
    requires Chained(a, chains)
    requires f in grown && IsChain(b, f, grown[f]) && grown == chains[f := grown[f]]
    requires forall id :: id in b && b[id].familyId == f ==> id in grown[f]
    requires forall id :: id in a && a[id].familyId != f ==> id in b && b[id] == a[id]
    requires forall id :: id in b && b[id].familyId != f ==> id in a && b[id] == a[id]
    ensures HasChains(b)
  {
    forall k | k in grown ensures ChainOf(b, grown, k) {
      if k != f {
        assert ChainOf(a, chains, k);
        OtherChainsStay(a, b, k, chains[k]);
      }
    }
    forall id | id in b ensures Listed(b, grown, id) {
      if b[id].familyId != f { assert Listed(a, chains, id); }
    }
    assert Chained(b, grown);
  }

  lemma OtherChainsStay(a: map<Uuid, Session>, b: map<Uuid, Session>, f: Uuid, chain: seq<Uuid>)
    requires IsChain(a, f, chain)
    requires forall id :: id in a && a[id].familyId == f ==> id in b && b[id] == a[id]
    ensures IsChain(b, f, chain)
  {
    forall i | 0 <= i < |chain| ensures Place(b, f, chain, i) {
      assert Place(a, f, chain, 0) && Place(a, f, chain, i);
    }
    assert Place(a, f, chain, 0);
  }

  function NextSession(cfg: Settings, x: Session, now: Time, draw: Fresh): Session {
    NewSession(cfg, x.userId, now, Rotation(x.familyId, x.absoluteExpiresAt, x.authenticatedAt), draw)
  }

  function Used(x: Session, next: Uuid, now: Time): Session {
    x.(usedAt := Some(now), replacedById := Some(next))
  }

  predicate Rotatable(s: State, x: Session, now: Time) {
    x.id in s.sessions && s.sessions[x.id] == x && x.revokedAt.None? && x.usedAt.None? && now < x.absoluteExpiresAt
  }

  function Rotated(cfg: Settings, s: State, x: Session, now: Time, draw: Fresh): State {
    PutSession(PutSession(s, NextSession(cfg, x, now, draw)), Used(x, draw.sessionId, now))
  }

  /** A rotation appends the new session to its family's chain. */
  lemma RotationKeeps(cfg: Settings, s: State, x: Session, now: Time, draw: Fresh)
    requires SessionsSound(cfg, s.users, s.sessions) && cfg.Valid() && Rotatable(s, x, now)
    requires !SessionClashes(s.sessions, NextSession(cfg, x, now, draw))
    ensures SessionsSound(cfg, s.users, Rotated(cfg, s, x, now, draw).sessions)
    ensures StaysUnlocked(s, Rotated(cfg, s, x, now, draw), now)
    ensures SessionsInOrder(s.sessions, now) ==> SessionsInOrder(Rotated(cfg, s, x, now, draw).sessions, now)
  {
    var x', y := Used(x, draw.sessionId, now), NextSession(cfg, x, now, draw);
    assert Timely(cfg, x) && Timely(cfg, y) && Timely(cfg, x');
    RotationKeepsChains(s.sessions, x, y, now);
    RotationKeepsKeys(s.sessions, x', y);
  }

  lemma RotationKeepsKeys(a: map<Uuid, Session>, x: Session, y: Session)
    requires SessionsUnique(a) && x.id in a && a[x.id].tokenHash == x.tokenHash && !SessionClashes(a, y)
    ensures SessionsUnique(a[y.id := y][x.id := x])
  {
    var b := a[y.id := y][x.id := x];
    forall p, q | p in b && q in b && SameToken(b[p], b[q]) ensures p == q {
      if p in a && q in a { assert SameToken(a[p], a[q]); }
    }
  }

  lemma RotationKeepsChains(a: map<Uuid, Session>, x: Session, y: Session, now: Time)
    requires HasChains(a) && x.id in a && a[x.id] == x && x.replacedById.None?
    requires y.id !in a && Kin(x, y) && y.replacedById.None?
    ensures HasChains(a[y.id := y][x.id := Used(x, y.id, now)])
  {
    var chains :| Chained(a, chains);
    FamilyIsChain(a, chains, x.id);
    RotatedChain(a, chains[x.familyId], x, y, now);
    ChainsGrow(a, a[y.id := y][x.id := Used(x, y.id, now)], chains,
               chains[x.familyId := chains[x.familyId] + [y.id]], x.familyId);
  }

  lemma RotationEvolves(cfg: Settings, s: State, x: Session, now: Time, draw: Fresh)
    requires SessionsSound(cfg, s.users, s.sessions) && Rotatable(s, x, now)
    requires !SessionClashes(s.sessions, NextSession(cfg, x, now, draw))
    ensures SessionsEvolve(s.sessions, Rotated(cfg, s, x, now, draw).sessions)
  {
    var after := Rotated(cfg, s, x, now, draw).sessions;
    assert Timely(cfg, x);
    forall id, k | Joins(s.sessions, after, id, k) ensures s.sessions[k].revokedAt.None? {
      KinOfFamily(s.sessions, x.id, k);
    }
  }

  lemma RotatedChain(a: map<Uuid, Session>, chain: seq<Uuid>, x: Session, y: Session, now: Time)
    requires IsChain(a, x.familyId, chain) && chain[|chain| - 1] == x.id
    requires x.id in a && a[x.id] == x
    requires y.id !in a && Kin(x, y) && y.replacedById.None?
    ensures IsChain(a[y.id := y][x.id := Used(x, y.id, now)],
                    x.familyId, chain + [y.id])
  {
    var used := Used(x, y.id, now);
    var b := a[y.id := y][x.id := used];
    var longer := chain + [y.id];
    var n := |chain|;
    assert Place(a, x.familyId, chain, 0) && Place(a, x.familyId, chain, n - 1);
    forall i | 0 <= i < n ensures Place(b, x.familyId, longer, i) {
      assert Place(a, x.familyId, chain, i);
      if i < n - 1 { assert Apart(chain, i, n - 1); }
    }
    assert Place(b, x.familyId, longer, n);
    forall i, j | 0 <= i < j < n + 1 ensures Apart(longer, i, j) {
      assert Place(a, x.familyId, chain, i);
      if j < n { assert Apart(chain, i, j); }
    }
  }
}
