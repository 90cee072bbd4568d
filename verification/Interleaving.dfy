/** Session and credential calls running at once, split at their locks: the unlocked look-up of the
    token, the lock on the user row, the lock on the session row, and the commit that decides from
    the rows as they were read. A schedule is any sequence of thread numbers. */
module Interleaving {
  import opened Models
  import opened Config
  import opened StoreState
  import opened SessionRules
  import SessionSafety
  import UserRules

  // Calls ------------------------------------------------------------------------------------------

  /** Each call reads its clock before its transaction begins. */
  datatype Call =
    | Refresh(token: string, csrf: string, now: Time, draw: Fresh)
    | Logout(token: string, csrf: string, now: Time)
    | Login(email: string, verification: PasswordVerification, now: Time, draw: Fresh)
    | Reauthenticate(p: Principal, verification: PasswordVerification, now: Time)
    | ChangePassword(p: Principal, change: PasswordChange, now: Time, draw: Fresh)
    | ResetPassword(id: Uuid, hash: string, now: Time)

  /** The call as one indivisible step. */
  ghost function Atomic(cfg: Settings, s: State, c: Call): Reply {
    match c
    case Refresh(token, csrf, now, draw) => SessionRules.Refresh(cfg, s, token, csrf, now, draw)
    case Logout(token, csrf, now) => SessionRules.Logout(s, token, csrf, now)
    case Login(email, v, now, draw) => SessionRules.Login(cfg, s, email, v, now, draw)
    case Reauthenticate(p, v, now) => SessionRules.Reauthenticate(cfg, s, p, v, now)
    case ChangePassword(p, change, now, draw) => SessionRules.ChangePassword(cfg, s, p, change, now, draw)
    case ResetPassword(id, hash, now) => UserRules.ResetPassword(s, id, hash, now)
  }

  // The system ---------------------------------------------------------------------------------------

  /** How far a thread is, with the rows it has read so far; a row that is not there locks nothing. */
  datatype Phase =
    | Ready
    | Probed(candidate: Session)
    | HoldsUser(target: Uuid, user: Option<User>)
    | HoldsRows(owner: Option<User>, row: Option<Session>)
    | Done(out: Outcome)

  /** `userLocks` and `sessionLocks` say which thread holds a row; `log` lists finished threads in the
      order in which their outcome was decided. */
  datatype System = System(
    st: State,
    phases: seq<Phase>,
    userLocks: map<Uuid, nat>,
    sessionLocks: map<Uuid, nat>,
    log: seq<nat>)

  function Begin(s: State, n: nat): System { System(s, seq(n, _ => Ready), map[], map[], []) }

  predicate Free(locks: map<Uuid, nat>, id: Uuid, t: nat) { id in locks ==> locks[id] == t }

  function Released(locks: map<Uuid, nat>, t: nat): map<Uuid, nat> {
    map id | id in locks && locks[id] != t :: locks[id]
  }

  function Finish(sys: System, t: nat, r: Reply): System
    requires t < |sys.phases|
  {
    System(r.st, sys.phases[t := Done(r.out)], Released(sys.userLocks, t), Released(sys.sessionLocks, t), sys.log + [t])
  }

  function LockUser(sys: System, t: nat, target: Uuid, user: Option<User>): System
    requires t < |sys.phases|
  {
    if user.None? then sys.(phases := sys.phases[t := HoldsUser(target, None)])
    else if !Free(sys.userLocks, user.value.id, t) then sys
    else sys.(phases := sys.phases[t := HoldsUser(target, user)], userLocks := sys.userLocks[user.value.id := t])
  }

  function LockSession(sys: System, t: nat, user: Option<User>, id: Uuid): System
    requires t < |sys.phases|
  {
    if id !in sys.st.sessions then sys.(phases := sys.phases[t := HoldsRows(user, None)])
    else if !Free(sys.sessionLocks, id, t) then sys
    else sys.(phases := sys.phases[t := HoldsRows(user, Some(sys.st.sessions[id]))],
              sessionLocks := sys.sessionLocks[id := t])
  }

  /** Writing a row waits for its lock. */
  predicate MayWrite(sys: System, t: nat, after: State) {
    && (forall id :: id in sys.st.users && id in after.users && after.users[id] != sys.st.users[id] ==>
          Free(sys.userLocks, id, t))
    && (forall id :: id in sys.st.sessions && id in after.sessions && after.sessions[id] != sys.st.sessions[id] ==>
          Free(sys.sessionLocks, id, t))
  }

  function Commit(sys: System, t: nat, r: Reply): System
    requires t < |sys.phases|
  {
    if MayWrite(sys, t, r.st) then Finish(sys, t, r) else sys
  }

  /** The first step: the unlocked look-up by token, or the lock on the account. */
  ghost function Start(sys: System, t: nat, c: Call): System
    requires t < |sys.phases|
  {
    var s := sys.st;
    match c
    case Refresh(token, _, _, _) =>
      var x := SessionByToken(s.sessions, Sha256(token));
      if x.None? then Finish(sys, t, Reply(s, Rejected(InvalidSession)))
      else sys.(phases := sys.phases[t := Probed(x.value)])
    case Logout(token, _, _) =>
      var x := SessionByToken(s.sessions, Sha256(token));
      if x.None? || x.value.revokedAt.Some? then Finish(sys, t, Reply(s, Revoked(0)))
      else sys.(phases := sys.phases[t := Probed(x.value)])
    case Login(email, _, _, _) => LockUser(sys, t, 0, UserByEmail(s.users, email))
    case Reauthenticate(p, _, _) => LockUser(sys, t, p.sessionId, UserById(s.users, p.userId))
    case ChangePassword(p, change, _, _) =>
      if !change.acceptable then Finish(sys, t, Reply(s, Rejected(PasswordInvalid)))
      else LockUser(sys, t, p.sessionId, UserById(s.users, p.userId))
    case ResetPassword(id, _, _) => LockUser(sys, t, 0, UserById(s.users, id))
  }

  /** Whether the call locks no session and decides once it holds the account. */
  predicate UserOnly(c: Call) { c.Login? || c.ResetPassword? }

  /** Thread `t` takes its next step, or stays where it is while it has to wait. */
  ghost function Advance(cfg: Settings, calls: seq<Call>, sys: System, t: nat): System {
    if !(t < |calls| && t < |sys.phases|) then sys
    else
      match sys.phases[t]
      case Ready => Start(sys, t, calls[t])
      case Probed(x) => LockUser(sys, t, x.id, UserById(sys.st.users, x.userId))
      case HoldsUser(target, user) =>
        if UserOnly(calls[t]) then Commit(sys, t, Decide(cfg, sys.st, calls[t], user, None))
        else LockSession(sys, t, user, target)
      case HoldsRows(user, row) => Commit(sys, t, Decide(cfg, sys.st, calls[t], user, row))
      case Done(_) => sys
  }

  /** The decision of a call, taken from its copies of the rows and written to the store `s`. */
  function Decide(cfg: Settings, s: State, c: Call, user: Option<User>, row: Option<Session>): Reply {
    match c
    case Refresh(token, csrf, now, draw) => DecideRefresh(cfg, s, Sha256(token), user, row, csrf, now, draw)
    case Logout(token, csrf, now) => DecideLogout(s, Sha256(token), user, row, csrf, now)
    case Login(_, v, now, draw) => DecideLogin(cfg, s, user, v, now, draw)
    case Reauthenticate(p, v, now) => DecideReauthenticate(cfg, s, p, user, row, v, now)
    case ChangePassword(p, change, now, draw) => DecideChange(cfg, s, p, user, row, change, now, draw)
    case ResetPassword(_, hash, now) => DecideReset(s, user, hash, now)
  }

  function DecideReset(s: State, user: Option<User>, hash: string, now: Time): Reply {
    if user.None? then Reply(s, Rejected(UserNotFound))
    else
      var updated := user.value.RequirePasswordChange(hash, now);
      Reply(RevokeUserSessions(PutUser(s, updated), updated.id, now), UserSaved(updated))
  }

  ghost function Execute(cfg: Settings, calls: seq<Call>, sys: System, schedule: seq<nat>): System {
    if schedule == [] then sys
    else Advance(cfg, calls, Execute(cfg, calls, sys, schedule[..|schedule| - 1]), schedule[|schedule| - 1])
  }

  /** The same calls one after another, in the order of `log`. */
  ghost function Serial(cfg: Settings, calls: seq<Call>, s: State, log: seq<nat>): State {
    if log == [] then s
    else
      var before, t := Serial(cfg, calls, s, log[..|log| - 1]), log[|log| - 1];
      if t < |calls| then Atomic(cfg, before, calls[t]).st else before
  }

  // What a call may change -----------------------------------------------------------------------------

  /** What the tables' constraints and the services keep at any clock reading. */
  predicate Rows(s: State) {
    && UsersUnique(s.users) && SessionsUnique(s.sessions)
    && (forall id :: id in s.sessions ==> s.sessions[id].userId in s.users)
    && (forall a, b {:trigger SameFamily(s.sessions[a], s.sessions[b])} ::
          a in s.sessions && b in s.sessions && SameFamily(s.sessions[a], s.sessions[b]) ==>
            && s.sessions[a].userId == s.sessions[b].userId
            && (s.sessions[a].revokedAt.None? <==> s.sessions[b].revokedAt.None?))
  }

  /** Nothing stored disappears or changes hands; use and revocation are for good. */
  predicate Onward(x: Session, y: Session) {
    && y.id == x.id && y.userId == x.userId && y.familyId == x.familyId && y.tokenHash == x.tokenHash
    && (x.usedAt.Some? ==> y.usedAt.Some?) && (x.revokedAt.Some? ==> y.revokedAt.Some?)
  }

  predicate SameAccount(x: User, y: User) { y.id == x.id && y.email == x.email }

  /** `b` comes from `a` by a call that holds the account `u`: it inserts sessions only for `u`. */
  predicate Grows(a: State, b: State, u: Option<Uuid>) {
    && b.users.Keys == a.users.Keys
    && (forall id :: id in a.users ==> SameAccount(a.users[id], b.users[id]))
    && (forall id :: id in a.sessions ==> id in b.sessions && Onward(a.sessions[id], b.sessions[id]))
    && (forall id :: id in b.sessions && id !in a.sessions ==> Some(b.sessions[id].userId) == u)
  }

  function FamilyDrawn(c: Call): Option<Uuid> {
    match c
    case Login(_, _, _, draw) => Some(draw.familyId)
    case ChangePassword(_, _, _, draw) => Some(draw.familyId)
    case _ => None
  }

  predicate NewTo(s: State, family: Option<Uuid>) {
    family.Some? ==> forall id :: id in s.sessions ==> s.sessions[id].familyId != family.value
  }

  // The decision is that of the indivisible call ---------------------------------------------------------

  /** The copies are the stored rows the call would read now. */
  ghost predicate Current(s: State, c: Call, user: Option<User>, row: Option<Session>) {
    match c
    case Refresh(token, _, _, _) => TokenRows(s, token, user, row)
    case Logout(token, _, _) => TokenRows(s, token, user, row)
    case Login(email, _, _, _) => user == UserByEmail(s.users, email)
    case Reauthenticate(p, _, _) => PrincipalRows(s, p, user, row)
    case ChangePassword(p, change, _, _) => change.acceptable && PrincipalRows(s, p, user, row)
    case ResetPassword(id, _, _) => user == UserById(s.users, id)
  }

  predicate TokenRows(s: State, token: string, user: Option<User>, row: Option<Session>) {
    && row.Some? && row.value.id in s.sessions && s.sessions[row.value.id] == row.value
    && row.value.tokenHash == Sha256(token) && user == UserById(s.users, row.value.userId)
  }

  /** A session missing when it was asked for may have appeared since, but for another account. */
  predicate PrincipalRows(s: State, p: Principal, user: Option<User>, row: Option<Session>) {
    && user == UserById(s.users, p.userId)
    && (if row.Some? then row == SessionById(s.sessions, p.sessionId)
        else user.Some? && p.sessionId in s.sessions ==> s.sessions[p.sessionId].userId != p.userId)
  }

  lemma DecideIsAtomic(cfg: Settings, s: State, c: Call, user: Option<User>, row: Option<Session>)
    requires Rows(s) && Current(s, c, user, row)
    ensures Decide(cfg, s, c, user, row) == Atomic(cfg, s, c)
  {
    hide Issue, RevokeFamily, RevokeUserSessions, RecordPasswordFailure, User.CanAuthenticate;
    if c.Refresh? || c.Logout? {
      var x := SessionByToken(s.sessions, Sha256(c.token));
      assert SameToken(s.sessions[row.value.id], x.value);
    }
  }

  // What a decision writes -------------------------------------------------------------------------------

  lemma RevocationsKeepRows(s: State, id: Uuid, now: Time)
    requires Rows(s)
    ensures Rows(RevokeFamily(s, id, now)) && Grows(s, RevokeFamily(s, id, now), None)
    ensures Rows(RevokeUserSessions(s, id, now)) && Grows(s, RevokeUserSessions(s, id, now), None)
  {
    RevokedFamilyKeepsRows(s, id, now);
    RevokedUserKeepsRows(s, id, now);
  }

  lemma RevokedFamilyKeepsRows(s: State, family: Uuid, now: Time)
    requires Rows(s)
    ensures Rows(RevokeFamily(s, family, now)) && Grows(s, RevokeFamily(s, family, now), None)
  {
    RevokedKeepsRows(s, RevokeFamily(s, family, now));
  }

  lemma RevokedUserKeepsRows(s: State, u: Uuid, now: Time)
    requires Rows(s)
    ensures Rows(RevokeUserSessions(s, u, now)) && Grows(s, RevokeUserSessions(s, u, now), None)
  {
    RevokedKeepsRows(s, RevokeUserSessions(s, u, now));
  }

  /** Revoking sessions by a criterion that whole families share. */
  lemma RevokedKeepsRows(a: State, b: State)
    requires Rows(a) && b.users == a.users && b.sessions.Keys == a.sessions.Keys
    requires forall id :: id in a.sessions ==>
               && b.sessions[id] == a.sessions[id].(revokedAt := b.sessions[id].revokedAt)
               && (a.sessions[id].revokedAt.Some? ==> b.sessions[id].revokedAt.Some?)
    requires forall x, y {:trigger SameFamily(a.sessions[x], a.sessions[y])} ::
               x in a.sessions && y in a.sessions && SameFamily(a.sessions[x], a.sessions[y]) ==>
                 (b.sessions[x].revokedAt.None? <==> b.sessions[y].revokedAt.None?)
    ensures Rows(b) && Grows(a, b, None)
  {
    forall x, y | x in b.sessions && y in b.sessions && SameToken(b.sessions[x], b.sessions[y]) ensures x == y {
      assert SameToken(a.sessions[x], a.sessions[y]);
    }
    forall x, y | x in b.sessions && y in b.sessions && SameFamily(b.sessions[x], b.sessions[y])
      ensures b.sessions[x].userId == b.sessions[y].userId
      ensures b.sessions[x].revokedAt.None? <==> b.sessions[y].revokedAt.None?
    {
      assert SameFamily(a.sessions[x], a.sessions[y]);
    }
  }

  lemma SavingKeepsRows(s: State, u: User)
    requires Rows(s) && u.id in s.users && SameAccount(s.users[u.id], u)
    ensures Rows(PutUser(s, u)) && Grows(s, PutUser(s, u), None)
  {
    var after := PutUser(s, u).users;
    forall x, y | x in after && y in after && SameEmail(after[x], after[y]) ensures x == y {
      assert SameEmail(s.users[x], s.users[y]);
    }
  }

  lemma IssueKeepsRows(cfg: Settings, s: State, u: User, now: Time, draw: Fresh)
    requires Rows(s) && u.id in s.users && NewTo(s, Some(draw.familyId))
    ensures var r := Issue(cfg, s, u, now, NewLogin, draw);
            Rows(r.st) && Grows(s, r.st, Some(u.id))
  {
    var x := NewSession(cfg, u.id, now, NewLogin, draw);
    if !SessionClashes(s.sessions, x) {
      var after := s.sessions[x.id := x];
      forall a, b | a in after && b in after && SameToken(after[a], after[b]) ensures a == b {
        if a in s.sessions && b in s.sessions { assert SameToken(s.sessions[a], s.sessions[b]); }
      }
      forall a, b | a in after && b in after && SameFamily(after[a], after[b])
        ensures after[a].userId == after[b].userId
        ensures after[a].revokedAt.None? <==> after[b].revokedAt.None?
      {
        if a in s.sessions && b in s.sessions { assert SameFamily(s.sessions[a], s.sessions[b]); }
      }
    }
  }

  lemma GrowsOn(a: State, b: State, c: State, u: Option<Uuid>)
    requires Grows(a, b, None) && Grows(b, c, u)
    ensures Grows(a, c, u)
  {
    forall id | id in a.sessions ensures id in c.sessions && Onward(a.sessions[id], c.sessions[id]) {
      assert Onward(a.sessions[id], b.sessions[id]) && Onward(b.sessions[id], c.sessions[id]);
    }
    forall id | id in a.users ensures SameAccount(a.users[id], c.users[id]) {
      assert SameAccount(a.users[id], b.users[id]) && SameAccount(b.users[id], c.users[id]);
    }
  }

  lemma IdleGrows(s: State, u: Option<Uuid>)
    ensures Grows(s, s, u)
  {
  }

  lemma RotationKeepsRows(cfg: Settings, s: State, u: User, x: Session, now: Time, draw: Fresh)
    requires Rows(s) && x.id in s.sessions && s.sessions[x.id] == x && u.id == x.userId && x.revokedAt.None?
    ensures var r := Issue(cfg, s, u, now, Rotation(x.familyId, x.absoluteExpiresAt, x.authenticatedAt), draw);
            var after := PutSession(r.st, x.(usedAt := Some(now), replacedById := Some(draw.sessionId)));
            !r.out.Rejected? ==> Rows(after) && Grows(s, after, Some(u.id))
  {
    var y := NewSession(cfg, u.id, now, Rotation(x.familyId, x.absoluteExpiresAt, x.authenticatedAt), draw);
    if !SessionClashes(s.sessions, y) {
      JoiningKeepsRows(s, x, x.(usedAt := Some(now), replacedById := Some(draw.sessionId)), y);
    }
  }

  /** A session that takes over from `x` in its family. */
  lemma JoiningKeepsRows(s: State, x: Session, used: Session, y: Session)
    requires Rows(s) && x.id in s.sessions && s.sessions[x.id] == x && !SessionClashes(s.sessions, y)
    requires used == x.(usedAt := used.usedAt, replacedById := used.replacedById) && used.usedAt.Some?
    requires y.familyId == x.familyId && y.userId == x.userId && y.revokedAt.None? && x.revokedAt.None?
    ensures Rows(PutSession(PutSession(s, y), used)) && Grows(s, PutSession(PutSession(s, y), used), Some(x.userId))
  {
    hide SessionsUnique, UsersUnique;
    SessionSafety.RotationKeepsKeys(s.sessions, used, y);
    JoinedFamilies(s, x, used, y);
  }

  lemma JoinedFamilies(s: State, x: Session, used: Session, y: Session)
    requires Rows(s) && x.id in s.sessions && s.sessions[x.id] == x && y.id !in s.sessions
    requires used == x.(usedAt := used.usedAt, replacedById := used.replacedById)
    requires y.familyId == x.familyId && y.userId == x.userId && y.revokedAt.None? && x.revokedAt.None?
    ensures var after := PutSession(PutSession(s, y), used).sessions;
            forall a, b {:trigger SameFamily(after[a], after[b])} ::
                a in after && b in after && SameFamily(after[a], after[b]) ==>
              && after[a].userId == after[b].userId && (after[a].revokedAt.None? <==> after[b].revokedAt.None?)
  {
    hide SessionsUnique, UsersUnique;
    var after := PutSession(PutSession(s, y), used).sessions;
    forall a, b | a in after && b in after && SameFamily(after[a], after[b])
      ensures after[a].userId == after[b].userId
      ensures after[a].revokedAt.None? <==> after[b].revokedAt.None?
    {
      var a', b' := if a == y.id then x.id else a, if b == y.id then x.id else b;
      assert SameFamily(s.sessions[a'], s.sessions[b']);
    }
  }

  function HeldId(user: Option<User>): Option<Uuid> { if user.Some? then Some(user.value.id) else None }

  /** A decision keeps the constraints, and inserts sessions only for the account it holds. */
  predicate Sound(s: State, after: State, user: Option<User>) { Rows(after) && Grows(s, after, HeldId(user)) }

  lemma FailureIsSound(cfg: Settings, s: State, user: Option<User>, now: Time)
    requires Rows(s) && (user.Some? ==> user.value.id in s.users && s.users[user.value.id] == user.value)
    ensures Sound(s, RecordPasswordFailure(cfg, s, user, now), user)
  {
    hide Rows, Grows, RevokeUserSessions;
    IdleGrows(s, HeldId(user));
    if Counts(user, now) {
      var failed := AfterFailure(cfg, user.value, now);
      SavingKeepsRows(s, failed);
      RevocationsKeepRows(PutUser(s, failed), failed.id, now);
      GrowsOn(s, PutUser(s, failed), RevokeUserSessions(PutUser(s, failed), failed.id, now), None);
      GrowsWider(s, PutUser(s, failed), HeldId(user));
      GrowsWider(s, RevokeUserSessions(PutUser(s, failed), failed.id, now), HeldId(user));
    }
  }

  lemma GrowsWider(a: State, b: State, u: Option<Uuid>)
    requires Grows(a, b, None)
    ensures Grows(a, b, u)
  {
  }

  lemma LoginIsSound(cfg: Settings, s: State, user: Option<User>, v: PasswordVerification, now: Time, draw: Fresh)
    requires Rows(s) && (user.Some? ==> user.value.id in s.users && s.users[user.value.id] == user.value)
    requires NewTo(s, Some(draw.familyId))
    ensures Sound(s, DecideLogin(cfg, s, user, v, now, draw).st, user)
  {
    hide Rows, Grows, Issue, RecordPasswordFailure;
    IdleGrows(s, HeldId(user));
    FailureIsSound(cfg, s, user, now);
    if !LoginRefused(user, v, now) {
      var verified := AfterVerification(user.value, v, now);
      SavingKeepsRows(s, verified);
      IssueKeepsRows(cfg, PutUser(s, verified), verified, now, draw);
      GrowsOn(s, PutUser(s, verified), Issue(cfg, PutUser(s, verified), verified, now, NewLogin, draw).st,
              HeldId(user));
    }
  }

  lemma SaveAndRevokeIsSound(s: State, u: User, now: Time)
    requires Rows(s) && u.id in s.users && SameAccount(s.users[u.id], u)
    ensures var after := RevokeUserSessions(PutUser(s, u), u.id, now);
            Rows(after) && Grows(s, after, None) && u.id in after.users
  {
    hide Rows, Grows;
    SavingKeepsRows(s, u);
    RevocationsKeepRows(PutUser(s, u), u.id, now);
    GrowsOn(s, PutUser(s, u), RevokeUserSessions(PutUser(s, u), u.id, now), None);
  }

  lemma ChangeIsSound(cfg: Settings, s: State, p: Principal, user: Option<User>, row: Option<Session>,
                      c: PasswordChange, now: Time, draw: Fresh)
    requires Rows(s) && (user.Some? ==> user.value.id in s.users && s.users[user.value.id] == user.value)
    requires NewTo(s, Some(draw.familyId))
    ensures Sound(s, DecideChange(cfg, s, p, user, row, c, now, draw).st, user)
  {
    hide Rows, Grows, Issue, Session.IsValidFor, RevokeUserSessions;
    IdleGrows(s, HeldId(user));
    if user.Some? {
      var changed := user.value.ActivatePassword(c.newHash, now);
      var cleared := RevokeUserSessions(PutUser(s, changed), changed.id, now);
      SaveAndRevokeIsSound(s, changed, now);
      RevokedFamilies(s, changed, now, draw.familyId);
      IssueKeepsRows(cfg, cleared, changed, now, draw);
      GrowsOn(s, cleared, Issue(cfg, cleared, changed, now, NewLogin, draw).st, HeldId(user));
    }
  }

  lemma RevokedFamilies(s: State, u: User, now: Time, family: Uuid)
    requires NewTo(s, Some(family))
    ensures NewTo(RevokeUserSessions(PutUser(s, u), u.id, now), Some(family))
  {
  }

  lemma RefreshIsSound(cfg: Settings, s: State, hash: Hash, user: Option<User>, x: Session, csrf: string, now: Time,
                       draw: Fresh)
    requires Rows(s) && x.id in s.sessions && s.sessions[x.id] == x && user == UserById(s.users, x.userId)
    ensures Sound(s, DecideRefresh(cfg, s, hash, user, Some(x), csrf, now, draw).st, user)
  {
    hide Grows, Issue, RevokeFamily, User.CanAuthenticate, Rows;
    IdleGrows(s, HeldId(user));
    assert user.Some? ==> user.value.id == x.userId by { Keys(s); }
    RevocationsKeepRows(s, x.familyId, now);
    GrowsWider(s, RevokeFamily(s, x.familyId, now), HeldId(user));
    if user.Some? && x.revokedAt.None? {
      RotationKeepsRows(cfg, s, user.value, x, now, draw);
    }
  }

  lemma Keys(s: State)
    requires Rows(s)
    ensures forall id :: id in s.users ==> s.users[id].id == id
    ensures forall id :: id in s.sessions ==> s.sessions[id].id == id
  {
  }

  lemma DecisionIsSound(cfg: Settings, s: State, c: Call, user: Option<User>, row: Option<Session>)
    requires Rows(s) && Current(s, c, user, row) && NewTo(s, FamilyDrawn(c))
    ensures Sound(s, Decide(cfg, s, c, user, row).st, user)
  {
    hide Rows, Grows, DecideLogin, DecideRefresh, DecideChange, RecordPasswordFailure, RevokeFamily, RevokeUserSessions;
    hide Session.IsValidFor, User.CanAuthenticate, UserByEmail, LiveInFamily;
    IdleGrows(s, HeldId(user));
    CurrentUserIsStored(s, c, user, row);
    match c
    case Refresh(token, csrf, now, draw) => RefreshIsSound(cfg, s, Sha256(token), user, row.value, csrf, now, draw);
    case Logout(token, csrf, now) =>
      RevocationsKeepRows(s, row.value.familyId, now);
      GrowsWider(s, RevokeFamily(s, row.value.familyId, now), HeldId(user));
    case Login(email, v, now, draw) => LoginIsSound(cfg, s, user, v, now, draw);
    case Reauthenticate(p, v, now) =>
      FailureIsSound(cfg, s, user, now);
      if user.Some? {
        SavingKeepsRows(s, AfterVerification(user.value, v, now));
        GrowsWider(s, PutUser(s, AfterVerification(user.value, v, now)), HeldId(user));
      }
    case ChangePassword(p, change, now, draw) => ChangeIsSound(cfg, s, p, user, row, change, now, draw);
    case ResetPassword(id, hash, now) =>
      if user.Some? {
        var updated := user.value.RequirePasswordChange(hash, now);
        SaveAndRevokeIsSound(s, updated, now);
        GrowsWider(s, RevokeUserSessions(PutUser(s, updated), updated.id, now), HeldId(user));
      }
  }

  lemma CurrentUserIsStored(s: State, c: Call, user: Option<User>, row: Option<Session>)
    requires Rows(s) && Current(s, c, user, row)
    ensures user.Some? ==> user.value.id in s.users && s.users[user.value.id] == user.value
  {
  }

  // Every step of every thread -------------------------------------------------------------------------------

  predicate UserHeld(sys: System, t: nat, user: Option<User>) {
    user.Some? ==>
      && user.value.id in sys.userLocks && sys.userLocks[user.value.id] == t
      && user.value.id in sys.st.users && sys.st.users[user.value.id] == user.value
  }

  predicate RowHeld(sys: System, t: nat, row: Option<Session>) {
    row.Some? ==>
      && row.value.id in sys.sessionLocks && sys.sessionLocks[row.value.id] == t
      && row.value.id in sys.st.sessions && sys.st.sessions[row.value.id] == row.value
  }

  predicate TokenTarget(s: State, token: string, target: Uuid, user: Option<User>) {
    && target in s.sessions && s.sessions[target].tokenHash == Sha256(token)
    && user == UserById(s.users, s.sessions[target].userId)
  }

  ghost predicate Aims(s: State, c: Call, target: Uuid, user: Option<User>) {
    match c
    case Refresh(token, _, _, _) => TokenTarget(s, token, target, user)
    case Logout(token, _, _) => TokenTarget(s, token, target, user)
    case Login(email, _, _, _) => user == UserByEmail(s.users, email)
    case Reauthenticate(p, _, _) => target == p.sessionId && user == UserById(s.users, p.userId)
    case ChangePassword(p, change, _, _) =>
      change.acceptable && target == p.sessionId && user == UserById(s.users, p.userId)
    case ResetPassword(id, _, _) => user == UserById(s.users, id)
  }

  /** What a thread has read is still so, as far as its locks go. */
  ghost predicate PhaseFits(sys: System, c: Call, t: nat, phase: Phase) {
    match phase
    case Ready => true
    case Probed(x) =>
      && (c.Refresh? || c.Logout?) && x.tokenHash == Sha256(c.token)
      && x.id in sys.st.sessions && Onward(x, sys.st.sessions[x.id])
    case HoldsUser(target, user) => UserHeld(sys, t, user) && Aims(sys.st, c, target, user)
    case HoldsRows(user, row) =>
      && !UserOnly(c) && UserHeld(sys, t, user) && RowHeld(sys, t, row) && Current(sys.st, c, user, row)
    case Done(_) => true
  }

  predicate DistinctFamilies(calls: seq<Call>) {
    forall t, k :: 0 <= t < k < |calls| && FamilyDrawn(calls[t]).Some? ==>
      FamilyDrawn(calls[t]) != FamilyDrawn(calls[k])
  }

  ghost predicate ThreadFits(calls: seq<Call>, sys: System, t: nat)
    requires t < |calls| == |sys.phases|
  {
    PhaseFits(sys, calls[t], t, sys.phases[t]) && (sys.phases[t].Done? || NewTo(sys.st, FamilyDrawn(calls[t])))
  }

  ghost predicate Coherent(calls: seq<Call>, sys: System) {
    && |sys.phases| == |calls| && Rows(sys.st) && DistinctFamilies(calls)
    && forall t :: 0 <= t < |calls| ==> ThreadFits(calls, sys, t)
  }

  lemma UserByEmailUnique(users: map<Uuid, User>, email: string, id: Uuid)
    requires UsersUnique(users) && id in users && users[id].email == email
    ensures UserByEmail(users, email) == Some(users[id])
  {
    assert SameEmail(UserByEmail(users, email).value, users[id]);
  }

  lemma EmailStaysUnknown(a: State, b: State, email: string, u: Option<Uuid>)
    requires Grows(a, b, u) && UserByEmail(a.users, email).None?
    ensures UserByEmail(b.users, email).None?
  {
    forall id | id in b.users ensures b.users[id].email != email { assert SameAccount(a.users[id], b.users[id]); }
  }

  /** What thread `t` has read survives the commit of another thread `k`. */
  lemma CommitLeavesOthers(sys: System, k: nat, after: State, mine: Option<User>, t: nat, c: Call, phase: Phase)
    requires t != k && Rows(sys.st) && Rows(after) && Grows(sys.st, after, HeldId(mine)) && MayWrite(sys, k, after)
    requires UserHeld(sys, k, mine) && PhaseFits(sys, c, t, phase)
    ensures PhaseFits(sys.(st := after), c, t, phase)
  {
    match phase
    case Ready =>
    case Probed(x) => assert Onward(sys.st.sessions[x.id], after.sessions[x.id]);
    case HoldsUser(target, user) => AimsStay(sys, k, after, mine, t, c, target, user);
    case HoldsRows(user, row) => CurrentStays(sys, k, after, mine, t, c, user, row);
    case Done(_) =>
  }

  lemma AimsStay(sys: System, k: nat, after: State, mine: Option<User>, t: nat, c: Call, target: Uuid,
                 user: Option<User>)
    requires t != k && Rows(sys.st) && Rows(after) && Grows(sys.st, after, HeldId(mine)) && MayWrite(sys, k, after)
    requires UserHeld(sys, t, user) && Aims(sys.st, c, target, user)
    ensures UserHeld(sys.(st := after), t, user) && Aims(after, c, target, user)
  {
    hide Rows;
    if c.Login? {
      if user.None? {
        EmailStaysUnknown(sys.st, after, c.email, HeldId(mine));
      } else {
        EmailStays(sys.st, after, c.email, user.value);
      }
    }
    Keys(sys.st);
    if c.Refresh? || c.Logout? { assert Onward(sys.st.sessions[target], after.sessions[target]); }
  }

  lemma EmailStays(a: State, b: State, email: string, user: User)
    requires Rows(a) && Rows(b) && UserByEmail(a.users, email) == Some(user)
    requires user.id in b.users && b.users[user.id] == user
    ensures UserByEmail(b.users, email) == Some(user)
  {
    UserByEmailUnique(b.users, email, user.id);
  }

  lemma HeldRowsStay(sys: System, k: nat, after: State, t: nat, user: Option<User>, row: Option<Session>,
                     u: Option<Uuid>)
    requires t != k && Grows(sys.st, after, u) && MayWrite(sys, k, after)
    requires UserHeld(sys, t, user) && RowHeld(sys, t, row)
    ensures UserHeld(sys.(st := after), t, user) && RowHeld(sys.(st := after), t, row)
  {
  }

  /** The row of an account, held or missing, is what it was. */
  lemma AccountStays(sys: System, after: State, t: nat, user: Option<User>, id: Uuid, u: Option<Uuid>)
    requires Rows(sys.st) && Grows(sys.st, after, u) && user == UserById(sys.st.users, id)
    requires UserHeld(sys.(st := after), t, user)
    ensures user == UserById(after.users, id)
  {
  }

  lemma PrincipalRowsStay(sys: System, k: nat, after: State, mine: Option<User>, t: nat, p: Principal,
                          user: Option<User>, row: Option<Session>)
    requires t != k && Rows(sys.st) && Grows(sys.st, after, HeldId(mine)) && UserHeld(sys, k, mine)
    requires UserHeld(sys, t, user) && RowHeld(sys.(st := after), t, row) && PrincipalRows(sys.st, p, user, row)
    requires user == UserById(after.users, p.userId)
    ensures PrincipalRows(after, p, user, row)
  {
    hide Rows, SameAccount;
    Keys(sys.st);
    if row.None? && p.sessionId in sys.st.sessions {
      assert Onward(sys.st.sessions[p.sessionId], after.sessions[p.sessionId]);
    }
  }

  lemma CurrentStays(sys: System, k: nat, after: State, mine: Option<User>, t: nat, c: Call, user: Option<User>,
                     row: Option<Session>)
    requires t != k && Rows(sys.st) && Grows(sys.st, after, HeldId(mine)) && MayWrite(sys, k, after) && !UserOnly(c)
    requires UserHeld(sys, k, mine) && UserHeld(sys, t, user) && RowHeld(sys, t, row) && Current(sys.st, c, user, row)
    ensures UserHeld(sys.(st := after), t, user) && RowHeld(sys.(st := after), t, row) && Current(after, c, user, row)
  {
    hide Rows, Grows, MayWrite, UserHeld;
    HeldRowsStay(sys, k, after, t, user, row, HeldId(mine));
    if c.Refresh? || c.Logout? {
      AccountStays(sys, after, t, user, row.value.userId, HeldId(mine));
    } else {
      AccountStays(sys, after, t, user, c.p.userId, HeldId(mine));
      PrincipalRowsStay(sys, k, after, mine, t, c.p, user, row);
    }
  }

  /** The first look-ups and locks of a thread put it where `PhaseFits` wants it. */
  lemma LocksFit(sys: System, t: nat, c: Call, target: Uuid, user: Option<User>)
    requires t < |sys.phases| && Rows(sys.st) && Aims(sys.st, c, target, user)
    requires user.Some? ==> user.value.id in sys.st.users && sys.st.users[user.value.id] == user.value
    ensures var next := LockUser(sys, t, target, user);
            next == sys || (next.phases[t].HoldsUser? && PhaseFits(next, c, t, next.phases[t]))
  {
    hide Rows;
  }

  /** What a step is, seen from outside: nothing yet, reading and locking, or the whole call at once. */
  ghost predicate Quiet(a: System, b: System, t: nat) {
    && b.st == a.st && b.log == a.log && |b.phases| == |a.phases| && t < |a.phases|
    && b.phases == a.phases[t := b.phases[t]] && !b.phases[t].Done? && !a.phases[t].Done?
    && (forall id :: id in a.userLocks ==> id in b.userLocks && b.userLocks[id] == a.userLocks[id])
    && (forall id :: id in a.sessionLocks ==> id in b.sessionLocks && b.sessionLocks[id] == a.sessionLocks[id])
  }

  ghost predicate AtOnce(cfg: Settings, calls: seq<Call>, a: System, b: System, t: nat) {
    && t < |calls| && t < |a.phases| && !a.phases[t].Done?
    && b == Finish(a, t, Atomic(cfg, a.st, calls[t]))
  }

  lemma ReadyStep(cfg: Settings, calls: seq<Call>, sys: System, t: nat)
    requires t < |calls| == |sys.phases| && Rows(sys.st) && sys.phases[t] == Ready
    ensures var next := Start(sys, t, calls[t]);
            || next == sys
            || (Quiet(sys, next, t) && PhaseFits(next, calls[t], t, next.phases[t]))
            || (AtOnce(cfg, calls, sys, next, t) && next.st == sys.st)
  {
    hide Rows, DecideRefresh, DecideLogout, DecideLogin, DecideChange, DecideReauthenticate;
    Keys(sys.st);
    var c := calls[t];
    match c
    case Refresh(token, _, _, _) =>
    case Logout(token, _, _) =>
    case Login(email, _, _, _) => LocksFit(sys, t, c, 0, UserByEmail(sys.st.users, email));
    case Reauthenticate(p, _, _) => LocksFit(sys, t, c, p.sessionId, UserById(sys.st.users, p.userId));
    case ChangePassword(p, change, _, _) =>
      if change.acceptable { LocksFit(sys, t, c, p.sessionId, UserById(sys.st.users, p.userId)); }
    case ResetPassword(id, _, _) => LocksFit(sys, t, c, 0, UserById(sys.st.users, id));
  }

  lemma ProbedStep(sys: System, t: nat, c: Call)
    requires t < |sys.phases| && Rows(sys.st) && sys.phases[t].Probed? && PhaseFits(sys, c, t, sys.phases[t])
    ensures var x := sys.phases[t].candidate;
            var next := LockUser(sys, t, x.id, UserById(sys.st.users, x.userId));
            next == sys || (Quiet(sys, next, t) && PhaseFits(next, c, t, next.phases[t]))
  {
    hide Rows;
    Keys(sys.st);
    var x := sys.phases[t].candidate;
    LocksFit(sys, t, c, x.id, UserById(sys.st.users, x.userId));
  }

  lemma SessionStep(sys: System, t: nat, c: Call)
    requires t < |sys.phases| && Rows(sys.st) && !UserOnly(c)
    requires sys.phases[t].HoldsUser? && PhaseFits(sys, c, t, sys.phases[t])
    ensures var next := LockSession(sys, t, sys.phases[t].user, sys.phases[t].target);
            next == sys || (Quiet(sys, next, t) && PhaseFits(next, c, t, next.phases[t]))
  {
    hide Rows;
    Keys(sys.st);
  }

  /** The copies a thread decides from, and what it then writes. */
  lemma CommitStep(cfg: Settings, calls: seq<Call>, sys: System, t: nat, user: Option<User>, row: Option<Session>)
    requires Coherent(calls, sys) && t < |calls| && !sys.phases[t].Done? && Current(sys.st, calls[t], user, row)
    requires UserHeld(sys, t, user)
    ensures var next := Commit(sys, t, Decide(cfg, sys.st, calls[t], user, row));
            next == sys
            || (AtOnce(cfg, calls, sys, next, t) && MayWrite(sys, t, next.st) && Sound(sys.st, next.st, user))
  {
    hide Rows, Decide, Atomic, Sound, Current, MayWrite;
    assert ThreadFits(calls, sys, t);
    DecideIsAtomic(cfg, sys.st, calls[t], user, row);
    DecisionIsSound(cfg, sys.st, calls[t], user, row);
  }

  // Coherence is kept --------------------------------------------------------------------------------------

  lemma QuietKeeps(calls: seq<Call>, a: System, b: System, t: nat)
    requires Coherent(calls, a) && Quiet(a, b, t) && PhaseFits(b, calls[t], t, b.phases[t])
    requires forall id :: id in b.userLocks && id !in a.userLocks ==> b.userLocks[id] == t
    ensures Coherent(calls, b)
  {
    hide Rows, Aims, Current, UserByEmail;
    forall k | 0 <= k < |calls| ensures ThreadFits(calls, b, k) {
      assert ThreadFits(calls, a, k);
      if k != t { HeldStays(a, b, k, calls[k], a.phases[k]); }
    }
  }

  lemma HeldStays(a: System, b: System, k: nat, c: Call, phase: Phase)
    requires PhaseFits(a, c, k, phase) && b.st == a.st
    requires forall id :: id in a.userLocks && a.userLocks[id] == k ==> id in b.userLocks && b.userLocks[id] == k
    requires forall id :: id in a.sessionLocks && a.sessionLocks[id] == k ==>
               id in b.sessionLocks && b.sessionLocks[id] == k
    ensures PhaseFits(b, c, k, phase)
  {
    hide Aims, Current;
  }

  lemma FinishKeeps(cfg: Settings, calls: seq<Call>, a: System, t: nat, r: Reply, user: Option<User>)
    requires Coherent(calls, a) && t < |calls| && UserHeld(a, t, user)
    requires MayWrite(a, t, r.st) && Rows(r.st) && Grows(a.st, r.st, HeldId(user))
    requires Families(a.st, r.st, FamilyDrawn(calls[t]))
    ensures Coherent(calls, Finish(a, t, r))
  {
    hide Rows, Grows, MayWrite, Aims, Current, UserHeld;
    var b := Finish(a, t, r);
    forall k | 0 <= k < |calls| ensures ThreadFits(calls, b, k) {
      assert ThreadFits(calls, a, k);
      if k != t {
        CommitLeavesOthers(a, t, r.st, user, k, calls[k], a.phases[k]);
        HeldStays(a.(st := r.st), b, k, calls[k], a.phases[k]);
        assert FamilyDrawn(calls[k]).Some? ==> FamilyDrawn(calls[k]) != FamilyDrawn(calls[t]);
      }
    }
  }

  /** Every family of `b` is one of `a` or the drawn one. */
  predicate Families(a: State, b: State, drawn: Option<Uuid>) {
    forall id :: id in b.sessions && Some(b.sessions[id].familyId) != drawn ==>
      exists k :: k in a.sessions && a.sessions[k].familyId == b.sessions[id].familyId
  }

  /** Every session new in `b` belongs to family `f`. */
  predicate Adds(a: State, b: State, f: Uuid) {
    forall id :: id in b.sessions && id !in a.sessions ==> b.sessions[id].familyId == f
  }

  lemma IssueAdds(cfg: Settings, a: State, s: State, u: User, now: Time, lineage: Lineage, draw: Fresh)
    requires s.sessions.Keys == a.sessions.Keys
    ensures Adds(a, Issue(cfg, s, u, now, lineage, draw).st,
                 if lineage.Rotation? then lineage.familyId else draw.familyId)
    ensures Issue(cfg, s, u, now, lineage, draw).out.Rejected? ==> Issue(cfg, s, u, now, lineage, draw).st == s
  {
  }

  lemma FailureAdds(cfg: Settings, s: State, user: Option<User>, now: Time)
    ensures RecordPasswordFailure(cfg, s, user, now).sessions.Keys == s.sessions.Keys
  {
    hide AfterFailure, User.CanAuthenticate;
  }

  lemma RevocationAdds(s: State, u: User, now: Time)
    ensures RevokeUserSessions(PutUser(s, u), u.id, now).sessions.Keys == s.sessions.Keys
  {
  }

  lemma LoginAdds(cfg: Settings, s: State, user: Option<User>, v: PasswordVerification, now: Time, draw: Fresh)
    ensures Adds(s, DecideLogin(cfg, s, user, v, now, draw).st, draw.familyId)
  {
    hide Issue, RecordPasswordFailure, User.CanAuthenticate;
    FailureAdds(cfg, s, user, now);
    if user.Some? {
      var verified := AfterVerification(user.value, v, now);
      IssueAdds(cfg, s, PutUser(s, verified), verified, now, NewLogin, draw);
    }
  }

  lemma ChangeAdds(cfg: Settings, s: State, p: Principal, user: Option<User>, row: Option<Session>,
                   c: PasswordChange, now: Time, draw: Fresh)
    ensures Adds(s, DecideChange(cfg, s, p, user, row, c, now, draw).st, draw.familyId)
  {
    hide Issue, RevokeUserSessions, User.CanAuthenticate, Session.IsValidFor;
    if user.Some? {
      var changed := user.value.ActivatePassword(c.newHash, now);
      RevocationAdds(s, changed, now);
      IssueAdds(cfg, s, RevokeUserSessions(PutUser(s, changed), changed.id, now), changed, now, NewLogin, draw);
    }
  }

  lemma RefreshAdds(cfg: Settings, s: State, hash: Hash, user: Option<User>, x: Session, csrf: string, now: Time,
                    draw: Fresh)
    requires x.id in s.sessions
    ensures Adds(s, DecideRefresh(cfg, s, hash, user, Some(x), csrf, now, draw).st, x.familyId)
  {
    hide Issue, User.CanAuthenticate;
    if user.Some? {
      IssueAdds(cfg, s, s, user.value, now, Rotation(x.familyId, x.absoluteExpiresAt, x.authenticatedAt), draw);
    }
  }

  /** The family that a call may add a session to: the drawn one, or that of the session it rotates. */
  function FamilyServed(c: Call, row: Option<Session>): Uuid {
    if FamilyDrawn(c).Some? then FamilyDrawn(c).value else if row.Some? then row.value.familyId else 0
  }

  lemma DecisionAdds(cfg: Settings, s: State, c: Call, user: Option<User>, row: Option<Session>)
    requires Current(s, c, user, row)
    ensures Adds(s, Decide(cfg, s, c, user, row).st, FamilyServed(c, row))
    ensures !c.Refresh? && FamilyDrawn(c).None? ==> Decide(cfg, s, c, user, row).st.sessions.Keys == s.sessions.Keys
  {
    hide DecideLogin, DecideChange, DecideRefresh, RecordPasswordFailure, RevokeUserSessions, User.CanAuthenticate;
    hide Session.IsValidFor, LiveInFamily, UserByEmail, RevokeFamily;
    match c
    case Refresh(token, csrf, now, draw) => RefreshAdds(cfg, s, Sha256(token), user, row.value, csrf, now, draw);
    case Logout(token, csrf, now) => LogoutAdds(s, row.value.familyId, now);
    case Login(email, v, now, draw) => LoginAdds(cfg, s, user, v, now, draw);
    case Reauthenticate(p, v, now) => FailureAdds(cfg, s, user, now);
    case ChangePassword(p, change, now, draw) => ChangeAdds(cfg, s, p, user, row, change, now, draw);
    case ResetPassword(id, hash, now) =>
      if user.Some? { RevocationAdds(s, user.value.RequirePasswordChange(hash, now), now); }
  }

  lemma LogoutAdds(s: State, family: Uuid, now: Time)
    ensures RevokeFamily(s, family, now).sessions.Keys == s.sessions.Keys
  {
  }

  lemma DecisionFamilies(cfg: Settings, s: State, c: Call, user: Option<User>, row: Option<Session>)
    requires Rows(s) && Current(s, c, user, row) && Sound(s, Decide(cfg, s, c, user, row).st, user)
    ensures Families(s, Decide(cfg, s, c, user, row).st, FamilyDrawn(c))
  {
    hide Rows, Decide;
    DecisionAdds(cfg, s, c, user, row);
    var after := Decide(cfg, s, c, user, row).st;
    forall id | id in after.sessions && Some(after.sessions[id].familyId) != FamilyDrawn(c)
      ensures exists k :: k in s.sessions && s.sessions[k].familyId == after.sessions[id].familyId
    {
      if id in s.sessions {
        assert Onward(s.sessions[id], after.sessions[id]);
      } else {
        assert row.value.id in s.sessions && s.sessions[row.value.id].familyId == after.sessions[id].familyId;
      }
    }
  }

  // Every schedule is a serial order -------------------------------------------------------------------------

  /** Stored sessions persist. */
  predicate Persist(a: State, b: State) {
    forall id :: id in a.sessions ==> id in b.sessions && Onward(a.sessions[id], b.sessions[id])
  }

  ghost predicate StepFits(cfg: Settings, calls: seq<Call>, a: System, b: System, t: nat) {
    Coherent(calls, b) && Persist(a.st, b.st) && (b == a || Quiet(a, b, t) || AtOnce(cfg, calls, a, b, t))
  }

  lemma SoundPersists(a: State, b: State, u: Option<Uuid>)
    requires Grows(a, b, u)
    ensures Persist(a, b)
  {
  }

  lemma CommitFits(cfg: Settings, calls: seq<Call>, a: System, t: nat, user: Option<User>, row: Option<Session>)
    requires Coherent(calls, a) && t < |calls| && !a.phases[t].Done?
    requires Current(a.st, calls[t], user, row) && UserHeld(a, t, user)
    ensures StepFits(cfg, calls, a, Commit(a, t, Decide(cfg, a.st, calls[t], user, row)), t)
  {
    hide Rows, Decide, Atomic, Current, MayWrite, UserHeld, Grows, Families, Persist;
    var r := Decide(cfg, a.st, calls[t], user, row);
    IdleGrows(a.st, None);
    SoundPersists(a.st, a.st, None);
    CommitStep(cfg, calls, a, t, user, row);
    if MayWrite(a, t, r.st) {
      DecisionFamilies(cfg, a.st, calls[t], user, row);
      FinishKeeps(cfg, calls, a, t, r, user);
      SoundPersists(a.st, r.st, HeldId(user));
    }
  }

  lemma ReadyFits(cfg: Settings, calls: seq<Call>, a: System, t: nat)
    requires Coherent(calls, a) && t < |calls| && a.phases[t] == Ready
    ensures StepFits(cfg, calls, a, Start(a, t, calls[t]), t)
  {
    hide Rows, Start, Atomic, PhaseFits;
    var b := Start(a, t, calls[t]);
    ReadyStep(cfg, calls, a, t);
    StartLocks(a, t, calls[t]);
    if Quiet(a, b, t) && PhaseFits(b, calls[t], t, b.phases[t]) {
      QuietKeeps(calls, a, b, t);
    } else if AtOnce(cfg, calls, a, b, t) {
      IdleGrows(a.st, None);
      FinishIdle(cfg, calls, a, t, Atomic(cfg, a.st, calls[t]));
    }
  }

  lemma StartLocks(a: System, t: nat, c: Call)
    requires t < |a.phases|
    ensures forall id :: id in Start(a, t, c).userLocks && id !in a.userLocks ==> Start(a, t, c).userLocks[id] == t
  {
  }

  lemma FinishIdle(cfg: Settings, calls: seq<Call>, a: System, t: nat, r: Reply)
    requires Coherent(calls, a) && t < |calls| && r.st == a.st
    ensures Coherent(calls, Finish(a, t, r))
  {
    hide Rows;
    IdleGrows(a.st, None);
    FinishKeeps(cfg, calls, a, t, r, None);
  }

  lemma AdvanceFits(cfg: Settings, calls: seq<Call>, a: System, t: nat)
    requires Coherent(calls, a)
    ensures StepFits(cfg, calls, a, Advance(cfg, calls, a, t), t)
  {
    hide Rows, Decide, Atomic, Start, MayWrite;
    if t < |calls| {
      assert ThreadFits(calls, a, t);
      var b := Advance(cfg, calls, a, t);
      match a.phases[t]
      case Ready => ReadyFits(cfg, calls, a, t);
      case Probed(x) =>
        ProbedStep(a, t, calls[t]);
        if b != a { QuietKeeps(calls, a, b, t); }
      case HoldsUser(target, user) =>
        if UserOnly(calls[t]) {
          CommitFits(cfg, calls, a, t, user, None);
        } else {
          SessionStep(a, t, calls[t]);
          if b != a { QuietKeeps(calls, a, b, t); }
        }
      case HoldsRows(user, row) => CommitFits(cfg, calls, a, t, user, row);
      case Done(_) =>
    }
  }

  ghost predicate Logged(cfg: Settings, calls: seq<Call>, s: State, sys: System, k: nat) {
    && k < |sys.log| && sys.log[k] < |calls| && sys.log[k] < |sys.phases|
    && sys.phases[sys.log[k]] == Done(Atomic(cfg, Serial(cfg, calls, s, sys.log[..k]), calls[sys.log[k]]).out)
  }

  predicate Listed(sys: System, t: nat) { t < |sys.phases| && (sys.phases[t].Done? <==> t in sys.log) }

  /** The store and every outcome are those of the serial order in the log; each thread is in it once. */
  ghost predicate Simulates(cfg: Settings, calls: seq<Call>, s: State, sys: System) {
    && |sys.phases| == |calls| && sys.st == Serial(cfg, calls, s, sys.log)
    && (forall k :: 0 <= k < |sys.log| ==> Logged(cfg, calls, s, sys, k))
    && (forall t :: 0 <= t < |calls| ==> Listed(sys, t))
    && (forall i, j :: 0 <= i < j < |sys.log| ==> sys.log[i] != sys.log[j])
  }

  lemma FinishSimulates(cfg: Settings, calls: seq<Call>, s: State, a: System, b: System, t: nat)
    requires Simulates(cfg, calls, s, a) && AtOnce(cfg, calls, a, b, t)
    ensures Simulates(cfg, calls, s, b)
  {
    hide Atomic;
    assert Listed(a, t);
    assert b.log[..|a.log|] == a.log;
    forall k | 0 <= k < |b.log| ensures Logged(cfg, calls, s, b, k) {
      if k < |a.log| {
        assert Logged(cfg, calls, s, a, k);
        assert b.log[..k] == a.log[..k];
      }
    }
    forall k | 0 <= k < |calls| ensures Listed(b, k) { assert Listed(a, k); }
  }

  lemma QuietSimulates(cfg: Settings, calls: seq<Call>, s: State, a: System, b: System, t: nat)
    requires Simulates(cfg, calls, s, a) && Quiet(a, b, t)
    ensures Simulates(cfg, calls, s, b)
  {
    hide Atomic;
    assert Listed(a, t);
    forall k | 0 <= k < |b.log| ensures Logged(cfg, calls, s, b, k) { assert Logged(cfg, calls, s, a, k); }
    forall k | 0 <= k < |calls| ensures Listed(b, k) { assert Listed(a, k); }
  }

  /** What the calls assume of the store they start from: its constraints, and fresh family draws. */
  predicate MayBegin(calls: seq<Call>, s: State) {
    Rows(s) && DistinctFamilies(calls) && forall t :: 0 <= t < |calls| ==> NewTo(s, FamilyDrawn(calls[t]))
  }

  /** Every schedule does what its calls do one at a time, in the order their decisions were taken:
      the same store, and the same answer to every call. */
  lemma {:induction false} EveryScheduleIsSerial(cfg: Settings, calls: seq<Call>, s: State, schedule: seq<nat>)
    requires MayBegin(calls, s)
    ensures var sys := Execute(cfg, calls, Begin(s, |calls|), schedule);
            Coherent(calls, sys) && Simulates(cfg, calls, s, sys)
  {
    hide Rows, Atomic, Advance;
    if schedule == [] {
      BeginFits(cfg, calls, s);
    } else {
      var n := |schedule| - 1;
      EveryScheduleIsSerial(cfg, calls, s, schedule[..n]);
      var a := Execute(cfg, calls, Begin(s, |calls|), schedule[..n]);
      var b := Advance(cfg, calls, a, schedule[n]);
      AdvanceFits(cfg, calls, a, schedule[n]);
      if AtOnce(cfg, calls, a, b, schedule[n]) {
        FinishSimulates(cfg, calls, s, a, b, schedule[n]);
      } else if b != a {
        QuietSimulates(cfg, calls, s, a, b, schedule[n]);
      }
    }
  }

  lemma BeginFits(cfg: Settings, calls: seq<Call>, s: State)
    requires MayBegin(calls, s)
    ensures Coherent(calls, Begin(s, |calls|)) && Simulates(cfg, calls, s, Begin(s, |calls|))
  {
    hide Rows;
    var sys := Begin(s, |calls|);
    forall t | 0 <= t < |calls| ensures ThreadFits(calls, sys, t) && Listed(sys, t) {}
  }

  // Concurrent refreshes of one token --------------------------------------------------------------------------

  predicate Refreshes(calls: seq<Call>, t: nat, token: string) {
    t < |calls| && calls[t].Refresh? && calls[t].token == token
  }

  predicate Won(sys: System, t: nat) { t < |sys.phases| && sys.phases[t].Done? && sys.phases[t].out.SessionIssued? }

  predicate UsedUp(s: State, token: string) {
    exists id :: id in s.sessions && s.sessions[id].tokenHash == Sha256(token) && s.sessions[id].usedAt.Some?
  }

  predicate RevokedToken(s: State, token: string) {
    exists id :: id in s.sessions && s.sessions[id].tokenHash == Sha256(token) && s.sessions[id].revokedAt.Some?
  }

  lemma MarksPersist(a: State, b: State, token: string)
    requires Persist(a, b)
    ensures UsedUp(a, token) ==> UsedUp(b, token)
    ensures RevokedToken(a, token) ==> RevokedToken(b, token)
  {
    if UsedUp(a, token) {
      var id :| id in a.sessions && a.sessions[id].tokenHash == Sha256(token) && a.sessions[id].usedAt.Some?;
      assert Onward(a.sessions[id], b.sessions[id]);
    }
    if RevokedToken(a, token) {
      var id :| id in a.sessions && a.sessions[id].tokenHash == Sha256(token) && a.sessions[id].revokedAt.Some?;
      assert Onward(a.sessions[id], b.sessions[id]);
    }
  }

  /** One refresh: success uses the token up; on a used token it fails and leaves the family revoked. */
  lemma RefreshMarks(cfg: Settings, s: State, token: string, csrf: string, now: Time, draw: Fresh)
    requires Rows(s)
    ensures var r := SessionRules.Refresh(cfg, s, token, csrf, now, draw);
            && (r.out.SessionIssued? ==> UsedUp(r.st, token) && !UsedUp(s, token))
            && (UsedUp(s, token) ==> RevokedToken(r.st, token))
  {
    hide NewSession, Bundle, User.CanAuthenticate;
    var r := SessionRules.Refresh(cfg, s, token, csrf, now, draw);
    var x := SessionByToken(s.sessions, Sha256(token));
    if UsedUp(s, token) {
      var id :| id in s.sessions && s.sessions[id].tokenHash == Sha256(token) && s.sessions[id].usedAt.Some?;
      assert SameToken(s.sessions[id], x.value);
      assert id in r.st.sessions && r.st.sessions[id].tokenHash == Sha256(token) && r.st.sessions[id].revokedAt.Some?;
    }
    if r.out.SessionIssued? {
      var id := x.value.id;
      assert id in r.st.sessions && r.st.sessions[id].tokenHash == Sha256(token) && r.st.sessions[id].usedAt.Some?;
    }
  }

  predicate BothWon(calls: seq<Call>, sys: System, token: string, t: nat, k: nat) {
    Refreshes(calls, t, token) && Refreshes(calls, k, token) && Won(sys, t) && Won(sys, k)
  }

  /** The refresh in place `i` of the log won, and the one in place `j` was decided after it. */
  predicate DecidedAfterWin(calls: seq<Call>, sys: System, token: string, i: nat, j: nat) {
    && i < j < |sys.log| && Refreshes(calls, sys.log[i], token) && Refreshes(calls, sys.log[j], token)
    && Won(sys, sys.log[i])
  }

  ghost predicate TokenSettled(calls: seq<Call>, sys: System, token: string) {
    && (forall t :: 0 <= t < |calls| && Refreshes(calls, t, token) && Won(sys, t) ==> UsedUp(sys.st, token))
    && (forall t: nat, k: nat :: BothWon(calls, sys, token, t, k) ==> t == k)
    && (forall i: nat, j: nat :: DecidedAfterWin(calls, sys, token, i, j) ==> RevokedToken(sys.st, token))
  }

  lemma StepSettles(cfg: Settings, calls: seq<Call>, a: System, b: System, t: nat, token: string)
    requires Coherent(calls, a) && StepFits(cfg, calls, a, b, t) && TokenSettled(calls, a, token)
    requires forall k :: 0 <= k < |calls| ==> Listed(a, k)
    requires forall k :: 0 <= k < |a.log| ==> a.log[k] < |calls|
    ensures TokenSettled(calls, b, token)
  {
    hide Rows, UsedUp, RevokedToken, SessionRules.Refresh, SessionRules.Logout, SessionRules.Login;
    hide SessionRules.Reauthenticate, SessionRules.ChangePassword, UserRules.ResetPassword;
    MarksPersist(a.st, b.st, token);
    if b != a && AtOnce(cfg, calls, a, b, t) {
      assert Listed(a, t);
      if Refreshes(calls, t, token) {
        RefreshMarks(cfg, a.st, token, calls[t].csrf, calls[t].now, calls[t].draw);
      }
      forall x: nat, y: nat | BothWon(calls, b, token, x, y) ensures x == y {
        if x != t && y != t { assert BothWon(calls, a, token, x, y); }
      }
      forall i: nat, j: nat | DecidedAfterWin(calls, b, token, i, j) ensures RevokedToken(b.st, token) {
        if j < |a.log| { assert DecidedAfterWin(calls, a, token, i, j); }
      }
    } else {
      forall x: nat, y: nat | BothWon(calls, b, token, x, y) ensures x == y { assert BothWon(calls, a, token, x, y); }
      forall i: nat, j: nat | DecidedAfterWin(calls, b, token, i, j) ensures RevokedToken(b.st, token) {
        assert DecidedAfterWin(calls, a, token, i, j);
      }
    }
  }

  lemma {:induction false} TokensSettle(cfg: Settings, calls: seq<Call>, s: State, schedule: seq<nat>, token: string)
    requires MayBegin(calls, s)
    ensures TokenSettled(calls, Execute(cfg, calls, Begin(s, |calls|), schedule), token)
  {
    hide Rows, Advance, Atomic, TokenSettled, Logged;
    if schedule == [] {
      BeginSettled(calls, s, token);
    } else {
      var n := |schedule| - 1;
      var a := Execute(cfg, calls, Begin(s, |calls|), schedule[..n]);
      TokensSettle(cfg, calls, s, schedule[..n], token);
      EveryScheduleIsSerial(cfg, calls, s, schedule[..n]);
      forall k | 0 <= k < |a.log| ensures a.log[k] < |calls| { LoggedIsThread(cfg, calls, s, a, k); }
      AdvanceFits(cfg, calls, a, schedule[n]);
      StepSettles(cfg, calls, a, Advance(cfg, calls, a, schedule[n]), schedule[n], token);
    }
  }

  lemma BeginSettled(calls: seq<Call>, s: State, token: string)
    ensures TokenSettled(calls, Begin(s, |calls|), token)
  {
  }

  lemma LoggedIsThread(cfg: Settings, calls: seq<Call>, s: State, sys: System, k: nat)
    requires Simulates(cfg, calls, s, sys) && k < |sys.log|
    ensures sys.log[k] < |calls|
  {
    assert Logged(cfg, calls, s, sys, k);
  }

  /** However refreshes of one token interleave with each other and with other calls, at most one
      succeeds, and any that is decided after it leaves the whole family revoked. */
  lemma ConcurrentRefreshes(cfg: Settings, calls: seq<Call>, s: State, schedule: seq<nat>, token: string, i: nat,
                            j: nat)
    requires MayBegin(calls, s)
    ensures var sys := Execute(cfg, calls, Begin(s, |calls|), schedule);
            && (i != j ==> !BothWon(calls, sys, token, i, j))
            && (DecidedAfterWin(calls, sys, token, i, j) ==> FamilyRevoked(sys.st, token))
  {
    hide Execute, UsedUp;
    var sys := Execute(cfg, calls, Begin(s, |calls|), schedule);
    EveryScheduleIsSerial(cfg, calls, s, schedule);
    TokensSettle(cfg, calls, s, schedule, token);
    if DecidedAfterWin(calls, sys, token, i, j) { RevokedWhole(sys.st, token); }
  }

  predicate SiblingOf(sessions: map<Uuid, Session>, token: string, x: Uuid, id: Uuid) {
    x in sessions && sessions[x].tokenHash == Sha256(token) && id in sessions && SameFamily(sessions[x], sessions[id])
  }

  /** Every session in the family of the one that `token` belongs to is revoked. */
  predicate FamilyRevoked(s: State, token: string) {
    && RevokedToken(s, token)
    && forall x, id :: x in s.sessions && id in s.sessions && SiblingOf(s.sessions, token, x, id) ==>
         s.sessions[id].revokedAt.Some?
  }

  lemma RevokedWhole(s: State, token: string)
    requires Rows(s) && RevokedToken(s, token)
    ensures FamilyRevoked(s, token)
  {
    var y :| y in s.sessions && s.sessions[y].tokenHash == Sha256(token) && s.sessions[y].revokedAt.Some?;
    forall x, id | SiblingOf(s.sessions, token, x, id) ensures s.sessions[id].revokedAt.Some? {
      assert SameToken(s.sessions[x], s.sessions[y]);
    }
  }
}
