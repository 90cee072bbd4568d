/** Deadlock freedom over whole runs. Each transaction's statements may have run at any moments of the
    run after it began, with any others committed in between; and the locks they asked for may be
    granted in any order. */
module Deadlock {
  import opened Models
  import opened Config
  import opened StoreState
  import opened Machine
  import opened LockOrder
  import opened Statements
  import LinkRuns
  import Runs
  import SessionSafety

  /** What a transaction knew when it began, at the moment `start`; its statements; and when each ran. */
  datatype Txn = Txn(start: nat, log: seq<Statement>, at: seq<nat>)

  ghost predicate During(ws: seq<World>, t: Txn) {
    |t.at| == |t.log| && t.start < |ws| && forall k :: 0 <= k < |t.at| ==> t.start <= t.at[k] < |ws|
  }

  ghost predicate InOrder(ws: seq<World>, t: Txn)
    requires During(ws, t)
  {
    Orderly(ws[t.start].st, t.log)
  }

  /** `revoke_user_sessions` where the account has at most one session to revoke. */
  ghost predicate RevokesOne(ws: seq<World>, t: Txn)
    requires During(ws, t)
  {
    && |t.log| == 1 && t.log[0].OnAccount?
    && |LiveOfUser(ws[t.at[0]].st.sessions, t.log[0].user)| <= 1
  }

  ghost function Found(ws: seq<World>, t: Txn): seq<State>
    requires During(ws, t)
  {
    seq(|t.at|, k requires 0 <= k < |t.at| => ws[t.at[k]].st)
  }

  /** The locks the transaction asked for. */
  ghost function Asked(ws: seq<World>, t: Txn): seq<Request>
    requires During(ws, t)
  {
    Script(Found(ws, t), t.log)
  }

  ghost function AllAsked(ws: seq<World>, txns: seq<Txn>): seq<seq<Request>>
    requires forall t :: 0 <= t < |txns| ==> During(ws, txns[t])
  {
    seq(|txns|, t requires 0 <= t < |txns| => Asked(ws, txns[t]))
  }

  /** Along a run rows stay with their accounts. */
  lemma OwnersStay(cfg: Settings, retain: bool, ws: seq<World>, ops: seq<Op>, i: nat, j: nat)
    requires cfg.Valid() && IsRun(cfg, retain, ws, ops) && i <= j < |ws|
    ensures SameOwners(ws[i].st, ws[j].st)
  {
    hide IsRun, Unique;
    Runs.RunEvolves(cfg, retain, ws, ops, i, j);
    LinkRuns.RunLinksEvolve(cfg, retain, ws, ops, i, j);
    Runs.ReachableIsFit(cfg, retain, ws, ops, j);
    var a, b := ws[i].st, ws[j].st;
    forall id | id in a.sessions
      ensures id in b.sessions && b.sessions[id].userId == a.sessions[id].userId
      ensures b.sessions[id].familyId == a.sessions[id].familyId
    {
      assert SessionSafety.SessionEvolves(a.sessions[id], b.sessions[id]);
    }
  }

  /** Whatever was committed between its statements, an orderly transaction kept to the discipline. */
  lemma OrderlyIsStrict(cfg: Settings, retain: bool, ws: seq<World>, ops: seq<Op>, t: Txn)
    requires cfg.Valid() && IsRun(cfg, retain, ws, ops) && During(ws, t) && InOrder(ws, t)
    ensures Strict({}, Asked(ws, t))
  {
    hide IsRun, SameOwners, Orderly, Strict, Script;
    forall k | 0 <= k < |t.at| ensures SameOwners(ws[t.start].st, Found(ws, t)[k]) {
      OwnersStay(cfg, retain, ws, ops, t.start, t.at[k]);
    }
    Accounting(ws[t.start].st, Found(ws, t), t.log);
  }

  lemma SessionRowsCount(s: State, ids: set<Uuid>)
    requires ids <= s.sessions.Keys
    ensures |SessionRows(s, ids)| == |ids|
  {
    if ids != {} {
      var id :| id in ids;
      SessionRowsCount(s, ids - {id});
      assert SessionRows(s, ids) == SessionRows(s, ids - {id}) + {SessionRow(id, s.sessions[id].userId)};
    }
  }

  /** The sessions that revoking all of an account's sessions updates. */
  function RevokedRows(s: State, user: Uuid): set<Lock> { SessionRows(s, LiveOfUser(s.sessions, user)) }

  lemma RevokedRowsAreOwn(s: State, user: Uuid)
    ensures OfOne(RevokedRows(s, user), user) && |RevokedRows(s, user)| == |LiveOfUser(s.sessions, user)|
    ensures Asks(s, OnAccount(user)) == For(RevokedRows(s, user))
  {
    SessionRowsCount(s, LiveOfUser(s.sessions, user));
  }

  lemma LoneRevocationFollows(ws: seq<World>, t: Txn)
    requires During(ws, t) && RevokesOne(ws, t)
    ensures Follows({}, Asked(ws, t))
  {
    var s, user := ws[t.at[0]].st, t.log[0].user;
    RevokedRowsAreOwn(s, user);
    LoneFollows(RevokedRows(s, user), user);
    assert Asked(ws, t) == [For(RevokedRows(s, user))];
  }

  /** However the locks are granted, nobody waits in a circle. */
  lemma NobodyDeadlocks(cfg: Settings, retain: bool, ws: seq<World>, ops: seq<Op>, txns: seq<Txn>,
                        moves: seq<Move>, path: seq<nat>)
    requires cfg.Valid() && IsRun(cfg, retain, ws, ops)
    requires forall t :: 0 <= t < |txns| ==> During(ws, txns[t])
    requires forall t :: 0 <= t < |txns| ==> InOrder(ws, txns[t]) || RevokesOne(ws, txns[t])
    ensures !IsCycle(Play(Start(AllAsked(ws, txns)), moves), path)
  {
    hide IsRun, InOrder, RevokesOne, Strict, Follows, Asked;
    var scripts := AllAsked(ws, txns);
    forall t | 0 <= t < |scripts| ensures Follows({}, scripts[t]) {
      if InOrder(ws, txns[t]) {
        OrderlyIsStrict(cfg, retain, ws, ops, txns[t]);
        StrictFollows({}, scripts[t]);
      } else {
        LoneRevocationFollows(ws, txns[t]);
      }
    }
    NoCycle(scripts, moves, path);
  }

  /** And among orderly transactions nobody ever waits for a session. */
  lemma SessionsAreFree(cfg: Settings, retain: bool, ws: seq<World>, ops: seq<Op>, txns: seq<Txn>,
                        moves: seq<Move>, t: nat)
    requires cfg.Valid() && IsRun(cfg, retain, ws, ops)
    requires forall k :: 0 <= k < |txns| ==> During(ws, txns[k])
    requires forall k :: 0 <= k < |txns| ==> InOrder(ws, txns[k])
    ensures var ts := Play(Start(AllAsked(ws, txns)), moves);
            Waits(ts, t) ==> !ts[t].waiting.value.SessionRow?
  {
    hide IsRun, InOrder, Strict, Asked;
    var scripts := AllAsked(ws, txns);
    forall k | 0 <= k < |scripts| ensures Strict({}, scripts[k]) {
      OrderlyIsStrict(cfg, retain, ws, ops, txns[k]);
    }
    NobodyWaitsForSession(scripts, moves, t);
  }

  // Administrative revocation ------------------------------------------------------------------------------------

  /** `revoke_user_sessions`, which does not lock the account, can deadlock with transactions that keep
      to the discipline exactly where it finds two sessions to revoke. */
  lemma RevocationDeadlocks(s: State, user: Uuid)
    ensures CanDeadlock([Asks(s, OnAccount(user))]) <==> |LiveOfUser(s.sessions, user)| >= 2
  {
    hide CanDeadlock;
    RevokedRowsAreOwn(s, user);
    BareUpdateDeadlocks(RevokedRows(s, user), user);
  }

  /** For instance with a password reset of the account. */
  lemma RevocationMeetsReset(s: State, user: Uuid, a: Uuid, b: Uuid) returns (moves: seq<Move>)
    requires a != b && {a, b} <= LiveOfUser(s.sessions, user)
    ensures IsCycle(Play(Start([[Asks(s, OnAccount(user))],
                                Script([s, s, s], [OnUser(user), OnUser(user), OnAccount(user)])]), moves), [0, 1, 0])
  {
    RevokedRowsAreOwn(s, user);
    var rows := RevokedRows(s, user);
    moves := CoveringCanDeadlock(rows, user, SessionRow(a, user), SessionRow(b, user));
    assert Script([s, s, s], [OnUser(user), OnUser(user), OnAccount(user)]) == Covering(rows, user);
  }

  /** Or with a refresh that finds its token used, whose family has another session. */
  lemma RevocationMeetsReplay(s: State, user: Uuid, a: Uuid, b: Uuid) returns (moves: seq<Move>)
    requires a != b && {a, b} <= LiveOfUser(s.sessions, user)
    requires s.sessions[a].familyId == s.sessions[b].familyId
    ensures IsCycle(Play(Start([[Asks(s, OnAccount(user))],
                                Script([s, s, s], [OnUser(user), OnSession(b), OnFamily(s.sessions[b].familyId)])]),
                         moves), [0, 1, 0])
  {
    RevokedRowsAreOwn(s, user);
    var some := SessionRows(s, LiveInFamily(s.sessions, s.sessions[b].familyId));
    moves := PickingCanDeadlock(RevokedRows(s, user), some, user, SessionRow(a, user), SessionRow(b, user));
    assert Script([s, s, s], [OnUser(user), OnSession(b), OnFamily(s.sessions[b].familyId)])
        == [For({UserRow(user)}), For({SessionRow(b, user)}), For(some)];
  }
}
