/** No schedule of the interleaved calls gets stuck: whoever holds a user row can go on, because a
    session row is only ever locked or written under its owner's user lock. */
module Progress {
  import opened Models
  import opened Config
  import opened StoreState
  import opened SessionRules
  import opened Interleaving

  // Whose rows a decision writes ---------------------------------------------------------------------

  /** `b` differs from `a` only in the row of account `u` and in sessions of `u`. */
  predicate WritesOnly(a: State, b: State, u: Option<Uuid>) {
    && (forall id :: id in a.users && id in b.users && b.users[id] != a.users[id] ==> Some(id) == u)
    && (forall id :: id in a.sessions && id in b.sessions && b.sessions[id] != a.sessions[id] ==>
          Some(a.sessions[id].userId) == u)
  }

  lemma FamilyWritesOnly(s: State, x: Session, now: Time)
    requires Rows(s) && x.id in s.sessions && s.sessions[x.id] == x
    ensures WritesOnly(s, RevokeFamily(s, x.familyId, now), Some(x.userId))
  {
    forall id | id in s.sessions && s.sessions[id].familyId == x.familyId ensures s.sessions[id].userId == x.userId {
      assert SameFamily(s.sessions[id], s.sessions[x.id]);
    }
  }

  lemma IssueWrites(cfg: Settings, s: State, u: User, now: Time, lineage: Lineage, draw: Fresh)
    ensures var r := Issue(cfg, s, u, now, lineage, draw);
            r.st.users == s.users
                && (forall id :: id in s.sessions ==> id in r.st.sessions && r.st.sessions[id] == s.sessions[id])
  {
  }

  lemma FailureWritesOnly(cfg: Settings, s: State, user: Option<User>, now: Time)
    requires user.Some? ==> user.value.id in s.users && s.users[user.value.id] == user.value
    ensures WritesOnly(s, RecordPasswordFailure(cfg, s, user, now), HeldId(user))
  {
    hide User.CanAuthenticate;
  }

  lemma LoginWritesOnly(cfg: Settings, s: State, user: Option<User>, v: PasswordVerification, now: Time, draw: Fresh)
    requires user.Some? ==> user.value.id in s.users && s.users[user.value.id] == user.value
    ensures WritesOnly(s, DecideLogin(cfg, s, user, v, now, draw).st, HeldId(user))
  {
    hide Issue, RecordPasswordFailure, User.CanAuthenticate;
    FailureWritesOnly(cfg, s, user, now);
    if user.Some? {
      var verified := AfterVerification(user.value, v, now);
      IssueWrites(cfg, PutUser(s, verified), verified, now, NewLogin, draw);
    }
  }

  lemma ChangeWritesOnly(cfg: Settings, s: State, p: Principal, user: Option<User>, row: Option<Session>,
                         c: PasswordChange, now: Time, draw: Fresh)
    requires user.Some? ==> user.value.id in s.users && s.users[user.value.id] == user.value
    ensures WritesOnly(s, DecideChange(cfg, s, p, user, row, c, now, draw).st, HeldId(user))
  {
    hide Issue, User.CanAuthenticate, Session.IsValidFor;
    if user.Some? {
      var changed := user.value.ActivatePassword(c.newHash, now);
      var cleared := RevokeUserSessions(PutUser(s, changed), changed.id, now);
      IssueWrites(cfg, cleared, changed, now, NewLogin, draw);
    }
  }

  lemma RefreshWritesOnly(cfg: Settings, s: State, hash: Hash, user: Option<User>, x: Session, csrf: string,
                          now: Time, draw: Fresh)
    requires Rows(s) && x.id in s.sessions && s.sessions[x.id] == x
    ensures WritesOnly(s, DecideRefresh(cfg, s, hash, user, Some(x), csrf, now, draw).st, Some(x.userId))
  {
    hide Rows, Issue, RevokeFamily, User.CanAuthenticate;
    FamilyWritesOnly(s, x, now);
    if user.Some? {
      IssueWrites(cfg, s, user.value, now, Rotation(x.familyId, x.absoluteExpiresAt, x.authenticatedAt), draw);
    }
  }

  lemma DecisionWritesOnly(cfg: Settings, s: State, c: Call, user: Option<User>, row: Option<Session>)
    requires Rows(s) && Current(s, c, user, row)
    requires c.Refresh? || c.Logout? ==> user.Some?
    ensures WritesOnly(s, Decide(cfg, s, c, user, row).st, HeldId(user))
  {
    hide Rows, DecideLogin, DecideChange, DecideRefresh, RecordPasswordFailure, RevokeFamily, User.CanAuthenticate;
    hide Session.IsValidFor, LiveInFamily, UserByEmail;
    CurrentUserIsStored(s, c, user, row);
    Keys(s);
    match c
    case Refresh(token, csrf, now, draw) => RefreshWritesOnly(cfg, s, Sha256(token), user, row.value, csrf, now, draw);
    case Logout(token, csrf, now) => FamilyWritesOnly(s, row.value, now);
    case Login(email, v, now, draw) => LoginWritesOnly(cfg, s, user, v, now, draw);
    case Reauthenticate(p, v, now) => FailureWritesOnly(cfg, s, user, now);
    case ChangePassword(p, change, now, draw) => ChangeWritesOnly(cfg, s, p, user, row, change, now, draw);
    case ResetPassword(id, hash, now) =>
  }

  // Who holds what -----------------------------------------------------------------------------------------

  /** A principal as `authenticate` hands it out: it names a stored session of its own user. */
  predicate Authentic(s: State, c: Call) {
    c.Reauthenticate? || c.ChangePassword? ==>
      c.p.sessionId in s.sessions && s.sessions[c.p.sessionId].userId == c.p.userId
  }

  predicate HoldsAccount(phase: Phase, id: Uuid) {
    match phase
    case HoldsUser(_, user) => HeldId(user) == Some(id)
    case HoldsRows(user, _) => HeldId(user) == Some(id)
    case _ => false
  }

  predicate HoldsSession(phase: Phase, id: Uuid) {
    && phase.HoldsRows? && phase.row.Some? && phase.row.value.id == id
    && HeldId(phase.owner) == Some(phase.row.value.userId)
  }

  predicate UserLockFits(sys: System, id: Uuid)
    requires id in sys.userLocks
  {
    sys.userLocks[id] < |sys.phases| && HoldsAccount(sys.phases[sys.userLocks[id]], id)
  }

  predicate SessionLockFits(sys: System, id: Uuid)
    requires id in sys.sessionLocks
  {
    sys.sessionLocks[id] < |sys.phases| && HoldsSession(sys.phases[sys.sessionLocks[id]], id)
  }

  /** Every lock is held by a thread in the phase that holds it, a session's by whoever holds its owner. */
  ghost predicate Orderly(calls: seq<Call>, sys: System) {
    && (forall t :: 0 <= t < |calls| ==> Authentic(sys.st, calls[t]))
    && (forall id :: id in sys.userLocks ==> UserLockFits(sys, id))
    && (forall id :: id in sys.sessionLocks ==> SessionLockFits(sys, id))
  }

  lemma AuthenticPersists(calls: seq<Call>, a: State, b: State)
    requires Persist(a, b) && forall t :: 0 <= t < |calls| ==> Authentic(a, calls[t])
    ensures forall t :: 0 <= t < |calls| ==> Authentic(b, calls[t])
  {
    forall t | 0 <= t < |calls| ensures Authentic(b, calls[t]) {
      assert Authentic(a, calls[t]);
      if calls[t].Reauthenticate? || calls[t].ChangePassword? {
        assert Onward(a.sessions[calls[t].p.sessionId], b.sessions[calls[t].p.sessionId]);
      }
    }
  }

  /** Locks go to the thread that moves, which keeps the account it held. */
  lemma LocksStayOrderly(a: System, b: System, t: nat)
    requires t < |a.phases| && |b.phases| == |a.phases| && b.phases == a.phases[t := b.phases[t]]
    requires forall id :: id in a.userLocks ==> UserLockFits(a, id)
    requires forall id :: id in a.sessionLocks ==> SessionLockFits(a, id)
    requires forall id :: id in b.userLocks ==>
               if b.userLocks[id] == t then HoldsAccount(b.phases[t], id)
               else id in a.userLocks && a.userLocks[id] == b.userLocks[id]
    requires forall id :: id in b.sessionLocks ==>
               if b.sessionLocks[id] == t then HoldsSession(b.phases[t], id)
               else id in a.sessionLocks && a.sessionLocks[id] == b.sessionLocks[id]
    ensures forall id :: id in b.userLocks ==> UserLockFits(b, id)
    ensures forall id :: id in b.sessionLocks ==> SessionLockFits(b, id)
  {
    forall id | id in b.userLocks ensures UserLockFits(b, id) {
      if b.userLocks[id] != t { assert UserLockFits(a, id); }
    }
    forall id | id in b.sessionLocks ensures SessionLockFits(b, id) {
      if b.sessionLocks[id] != t { assert SessionLockFits(a, id); }
    }
  }

  predicate LocksFitPhases(sys: System) {
    && (forall id :: id in sys.userLocks ==> UserLockFits(sys, id))
    && (forall id :: id in sys.sessionLocks ==> SessionLockFits(sys, id))
  }

  lemma FinishLocks(sys: System, t: nat, r: Reply)
    requires t < |sys.phases| && LocksFitPhases(sys)
    ensures LocksFitPhases(Finish(sys, t, r))
  {
    LocksStayOrderly(sys, Finish(sys, t, r), t);
  }

  lemma UserLocks(sys: System, t: nat, target: Uuid, user: Option<User>)
    requires t < |sys.phases| && LocksFitPhases(sys) && (sys.phases[t].Ready? || sys.phases[t].Probed?)
    ensures LocksFitPhases(LockUser(sys, t, target, user))
  {
    forall id | id in sys.userLocks ensures sys.userLocks[id] != t { assert UserLockFits(sys, id); }
    forall id | id in sys.sessionLocks ensures sys.sessionLocks[id] != t { assert SessionLockFits(sys, id); }
    LocksStayOrderly(sys, LockUser(sys, t, target, user), t);
  }

  lemma SessionLocks(sys: System, t: nat, user: Option<User>, id: Uuid)
    requires t < |sys.phases| && LocksFitPhases(sys) && sys.phases[t].HoldsUser? && sys.phases[t].user == user
    requires id in sys.st.sessions ==> sys.st.sessions[id].id == id && HeldId(user) == Some(sys.st.sessions[id].userId)
    ensures LocksFitPhases(LockSession(sys, t, user, id))
  {
    forall k | k in sys.userLocks && sys.userLocks[k] == t ensures HoldsAccount(sys.phases[t], k) {
      assert UserLockFits(sys, k);
    }
    forall k | k in sys.sessionLocks ensures sys.sessionLocks[k] != t { assert SessionLockFits(sys, k); }
    LocksStayOrderly(sys, LockSession(sys, t, user, id), t);
  }

  /** The session a thread asks for belongs to the account it holds. */
  lemma TargetIsOwned(s: State, c: Call, target: Uuid, user: Option<User>)
    requires Rows(s) && Aims(s, c, target, user) && Authentic(s, c) && !UserOnly(c)
    ensures target in s.sessions && s.sessions[target].id == target && HeldId(user) == Some(s.sessions[target].userId)
  {
    hide Rows;
    Keys(s);
    OwnersAreStored(s);
  }

  lemma OwnersAreStored(s: State)
    requires Rows(s)
    ensures forall id :: id in s.sessions ==> s.sessions[id].userId in s.users
  {
  }

  lemma AdvanceOrderly(cfg: Settings, calls: seq<Call>, a: System, t: nat)
    requires Coherent(calls, a) && Orderly(calls, a)
    ensures Orderly(calls, Advance(cfg, calls, a, t))
  {
    hide Rows, Decide, MayWrite, UserByEmail, SessionByToken, Aims, Current;
    AdvanceFits(cfg, calls, a, t);
    AuthenticPersists(calls, a.st, Advance(cfg, calls, a, t).st);
    if t < |calls| {
      assert ThreadFits(calls, a, t);
      match a.phases[t]
      case Ready => StartOrderly(a, t, calls[t]);
      case Probed(x) => UserLocks(a, t, x.id, UserById(a.st.users, x.userId));
      case HoldsUser(target, user) =>
        if UserOnly(calls[t]) {
          FinishLocks(a, t, Decide(cfg, a.st, calls[t], user, None));
        } else {
          assert Authentic(a.st, calls[t]);
          TargetIsOwned(a.st, calls[t], target, user);
          SessionLocks(a, t, user, target);
        }
      case HoldsRows(user, row) => FinishLocks(a, t, Decide(cfg, a.st, calls[t], user, row));
      case Done(_) =>
    }
  }

  lemma StartOrderly(a: System, t: nat, c: Call)
    requires t < |a.phases| && LocksFitPhases(a) && a.phases[t].Ready?
    ensures LocksFitPhases(Start(a, t, c))
  {
    hide LocksFitPhases;
    var s := a.st;
    FinishLocks(a, t, Reply(s, Rejected(InvalidSession)));
    FinishLocks(a, t, Reply(s, Revoked(0)));
    FinishLocks(a, t, Reply(s, Rejected(PasswordInvalid)));
    match c
    case Refresh(token, _, _, _) => ProbeLocks(a, t, s, token);
    case Logout(token, _, _) => ProbeLocks(a, t, s, token);
    case Login(email, _, _, _) => UserLocks(a, t, 0, UserByEmail(s.users, email));
    case Reauthenticate(p, _, _) => UserLocks(a, t, p.sessionId, UserById(s.users, p.userId));
    case ChangePassword(p, _, _, _) => UserLocks(a, t, p.sessionId, UserById(s.users, p.userId));
    case ResetPassword(id, _, _) => UserLocks(a, t, 0, UserById(s.users, id));
  }

  lemma ProbeLocks(a: System, t: nat, s: State, token: string)
    requires t < |a.phases| && LocksFitPhases(a) && a.phases[t].Ready?
    ensures var x := SessionByToken(s.sessions, Sha256(token));
            x.Some? ==> LocksFitPhases(a.(phases := a.phases[t := Probed(x.value)]))
  {
    var x := SessionByToken(s.sessions, Sha256(token));
    if x.Some? {
      forall id | id in a.userLocks ensures a.userLocks[id] != t { assert UserLockFits(a, id); }
      forall id | id in a.sessionLocks ensures a.sessionLocks[id] != t { assert SessionLockFits(a, id); }
      LocksStayOrderly(a, a.(phases := a.phases[t := Probed(x.value)]), t);
    }
  }

  lemma {:induction false} OrderlyAlong(cfg: Settings, calls: seq<Call>, s: State, schedule: seq<nat>)
    requires MayBegin(calls, s) && forall t :: 0 <= t < |calls| ==> Authentic(s, calls[t])
    ensures Orderly(calls, Execute(cfg, calls, Begin(s, |calls|), schedule))
  {
    hide Rows, Advance;
    if schedule != [] {
      var n := |schedule| - 1;
      OrderlyAlong(cfg, calls, s, schedule[..n]);
      EveryScheduleIsSerial(cfg, calls, s, schedule[..n]);
      AdvanceOrderly(cfg, calls, Execute(cfg, calls, Begin(s, |calls|), schedule[..n]), schedule[n]);
    }
  }

  // Nobody waits for a session ----------------------------------------------------------------------------

  /** Whoever holds an account finds every session of it free. */
  lemma SessionsAreFree(calls: seq<Call>, sys: System, t: nat, user: User, id: Uuid)
    requires Coherent(calls, sys) && Orderly(calls, sys) && UserHeld(sys, t, Some(user))
    requires id in sys.st.sessions && sys.st.sessions[id].userId == user.id
    ensures Free(sys.sessionLocks, id, t)
  {
    hide Rows;
    if id in sys.sessionLocks {
      var k := sys.sessionLocks[id];
      assert SessionLockFits(sys, id) && ThreadFits(calls, sys, k);
    }
  }

  lemma MayCommit(cfg: Settings, calls: seq<Call>, sys: System, t: nat, user: Option<User>, row: Option<Session>)
    requires Coherent(calls, sys) && Orderly(calls, sys) && t < |calls|
    requires UserHeld(sys, t, user) && Current(sys.st, calls[t], user, row)
    requires calls[t].Refresh? || calls[t].Logout? ==> user.Some?
    ensures MayWrite(sys, t, Decide(cfg, sys.st, calls[t], user, row).st)
  {
    hide Rows, Decide, Coherent, Orderly, Current;
    var after := Decide(cfg, sys.st, calls[t], user, row).st;
    CoherentRows(calls, sys);
    DecisionWritesOnly(cfg, sys.st, calls[t], user, row);
    forall id | id in sys.st.sessions && id in after.sessions && after.sessions[id] != sys.st.sessions[id]
      ensures Free(sys.sessionLocks, id, t)
    {
      SessionsAreFree(calls, sys, t, user.value, id);
    }
  }

  lemma CoherentRows(calls: seq<Call>, sys: System)
    requires Coherent(calls, sys)
    ensures Rows(sys.st)
  {
  }

  /** A thread that holds its account never waits: neither for a session row nor to write one. */
  lemma HolderMoves(cfg: Settings, calls: seq<Call>, sys: System, t: nat)
    requires Coherent(calls, sys) && Orderly(calls, sys) && t < |calls|
    requires sys.phases[t].HoldsUser? || sys.phases[t].HoldsRows?
    ensures Advance(cfg, calls, sys, t) != sys
  {
    hide Rows, Decide, MayWrite, UserByEmail;
    assert ThreadFits(calls, sys, t) && Authentic(sys.st, calls[t]);
    OwnersAreStored(sys.st);
    match sys.phases[t]
    case HoldsUser(target, user) =>
      if UserOnly(calls[t]) {
        MayCommit(cfg, calls, sys, t, user, None);
      } else {
        TargetIsOwned(sys.st, calls[t], target, user);
        SessionsAreFree(calls, sys, t, user.value, target);
      }
    case HoldsRows(user, row) => MayCommit(cfg, calls, sys, t, user, row);
  }

  predicate Unfinished(sys: System, t: nat) { t < |sys.phases| && !sys.phases[t].Done? }

  /** In every state that a schedule can reach, some unfinished thread can move, if any is unfinished;
      and a thread that waits is waiting for an account whose holder can move. */
  lemma NoDeadlock(cfg: Settings, calls: seq<Call>, s: State, schedule: seq<nat>, t: nat) returns (k: nat)
    requires MayBegin(calls, s) && forall i :: 0 <= i < |calls| ==> Authentic(s, calls[i])
    requires Unfinished(Execute(cfg, calls, Begin(s, |calls|), schedule), t)
    ensures var sys := Execute(cfg, calls, Begin(s, |calls|), schedule);
            && Unfinished(sys, t) && Unfinished(sys, k) && Advance(cfg, calls, sys, k) != sys
            && (k != t ==> Advance(cfg, calls, sys, t) == sys && (sys.phases[t].Ready? || sys.phases[t].Probed?)
                           && exists u :: u in sys.userLocks && sys.userLocks[u] == k)
  {
    hide Rows, Execute, Decide;
    var sys := Execute(cfg, calls, Begin(s, |calls|), schedule);
    EveryScheduleIsSerial(cfg, calls, s, schedule);
    OrderlyAlong(cfg, calls, s, schedule);
    k := t;
    if Advance(cfg, calls, sys, t) == sys {
      if sys.phases[t].HoldsUser? || sys.phases[t].HoldsRows? {
        HolderMoves(cfg, calls, sys, t);
      } else {
        var u := WaitsForUser(cfg, calls, sys, t);
        k := sys.userLocks[u];
        assert UserLockFits(sys, u);
        HolderMoves(cfg, calls, sys, k);
      }
    }
  }

  lemma WaitsForUser(cfg: Settings, calls: seq<Call>, sys: System, t: nat) returns (u: Uuid)
    requires Coherent(calls, sys) && t < |calls| && (sys.phases[t].Ready? || sys.phases[t].Probed?)
    requires Advance(cfg, calls, sys, t) == sys
    ensures u in sys.userLocks && sys.userLocks[u] != t
  {
    hide Rows, Decide, UserByEmail, SessionByToken;
    u := 0;
    match sys.phases[t]
    case Probed(x) => u := WaitedFor(sys, t, x.id, UserById(sys.st.users, x.userId));
    case Ready =>
      match calls[t] {
        case Login(email, _, _, _) => u := WaitedFor(sys, t, 0, UserByEmail(sys.st.users, email));
        case Reauthenticate(p, _, _) => u := WaitedFor(sys, t, p.sessionId, UserById(sys.st.users, p.userId));
        case ChangePassword(p, _, _, _) => u := WaitedFor(sys, t, p.sessionId, UserById(sys.st.users, p.userId));
        case ResetPassword(id, _, _) => u := WaitedFor(sys, t, 0, UserById(sys.st.users, id));
        case _ => assert false;
      }
  }

  lemma WaitedFor(sys: System, t: nat, target: Uuid, user: Option<User>) returns (u: Uuid)
    requires t < |sys.phases| && !sys.phases[t].HoldsUser? && LockUser(sys, t, target, user) == sys
    ensures u in sys.userLocks && sys.userLocks[u] != t
  {
    u := user.value.id;
  }
}
