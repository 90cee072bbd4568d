/** The statements by which transactions lock rows, what each asks for in the state it finds, and the
    order in which a transaction may issue them. Statements name rows by what the transaction knows
    of them, so that the order can be kept whatever else is committed between two of them. */
module Statements {
  import opened Models
  import opened StoreState
  import opened LockOrder

  datatype Statement =
    | OnAdmin                                                           // pg_advisory_xact_lock
    | OnUser(id: Uuid) | OnSession(id: Uuid) | OnLink(id: Uuid)         // a row found: read for update, or updated
    | OnPasskey(id: Uuid) | OnIdentity(id: Uuid)
    | OnFamily(family: Uuid) | OnAccount(user: Uuid) | OnThread(keep: EmailLink)      // bulk updates
    | AddUser(id: Uuid) | AddSession(id: Uuid, owner: Uuid) | AddLink(id: Uuid, owner: Uuid)
    | AddPasskey(id: Uuid) | AddIdentity(id: Uuid)

  predicate IsRival(l: EmailLink, keep: EmailLink) {
    l.For(keep.userId, keep.purpose) && l.id != keep.id && l.state == LinkActive
  }

  function SessionRows(s: State, ids: set<Uuid>): set<Lock>
    requires ids <= s.sessions.Keys
  {
    set id | id in ids :: SessionRow(id, s.sessions[id].userId)
  }

  /** The locks a statement asks for when it runs in `s`. */
  function Asks(s: State, st: Statement): Request {
    match st
    case OnAdmin => For({AdminLock})
    case OnUser(id) => For({UserRow(id)})
    case OnSession(id) => For(if id in s.sessions then {SessionRow(id, s.sessions[id].userId)} else {})
    case OnLink(id) => For(if id in s.links then {LinkRow(id, s.links[id].userId)} else {})
    case OnPasskey(id) => For({PasskeyRow(id)})
    case OnIdentity(id) => For({IdentityRow(id)})
    case OnFamily(family) => For(SessionRows(s, LiveInFamily(s.sessions, family)))
    case OnAccount(user) => For(SessionRows(s, LiveOfUser(s.sessions, user)))
    case OnThread(keep) => For(set id | id in s.links && IsRival(s.links[id], keep) :: LinkRow(id, s.links[id].userId))
    case AddUser(id) => New(UserRow(id))
    case AddSession(id, owner) => New(SessionRow(id, owner))
    case AddLink(id, owner) => New(LinkRow(id, owner))
    case AddPasskey(id) => New(PasskeyRow(id))
    case AddIdentity(id) => New(IdentityRow(id))
  }

  // The order ------------------------------------------------------------------------------------------------

  /** The account has been locked, or is new. */
  predicate Has(log: seq<Statement>, user: Uuid) { OnUser(user) in log || AddUser(user) in log }

  predicate HasSome(log: seq<Statement>) { exists st :: st in log && (st.OnUser? || st.AddUser?) }

  predicate FamilyOf(s: State, family: Uuid, id: Uuid) { id in s.sessions && s.sessions[id].familyId == family }

  predicate OwnFamily(s: State, log: seq<Statement>, family: Uuid) {
    exists id :: id in s.sessions && FamilyOf(s, family, id) && Has(log, s.sessions[id].userId)
  }

  /** The first locks: administrator, identity or passkey, account. */
  function Class(st: Statement): nat {
    match st
    case OnAdmin => 0
    case OnIdentity(_) => 1
    case OnPasskey(_) => 1
    case OnUser(_) => 2
    case AddUser(_) => 2
    case _ => 3
  }

  predicate Opens(log: seq<Statement>, st: Statement) {
    Class(st) <= 2 && forall x :: x in log ==> Class(x) < Class(st)
  }

  /** What may come once an account is locked, as far as the state `s` at the beginning tells whose
      the rows are. */
  predicate Belongs(s: State, log: seq<Statement>, st: Statement) {
    match st
    case OnUser(id) => Has(log, id)
    case OnAccount(user) => Has(log, user)
    case OnThread(keep) => Has(log, keep.userId)
    case OnSession(id) => id in s.sessions && Has(log, s.sessions[id].userId)
    case OnLink(id) => id in s.links && Has(log, s.links[id].userId)
    case OnFamily(family) => OwnFamily(s, log, family)
    case AddSession(_, owner) => Has(log, owner)
    case AddLink(_, owner) => Has(log, owner)
    case AddPasskey(_) => HasSome(log)
    case AddIdentity(_) => HasSome(log)
    case OnPasskey(id) => st in log || AddPasskey(id) in log
    case OnIdentity(id) => st in log || AddIdentity(id) in log
    case OnAdmin => false
    case AddUser(_) => false
  }

  /** A link may be all that a transaction ever locks. */
  predicate MayFollow(s: State, log: seq<Statement>, st: Statement) {
    Opens(log, st) || Belongs(s, log, st) || (log == [] && st.OnLink?)
  }

  /** A transaction that began in `s` has issued its statements in order. */
  predicate Orderly(s: State, log: seq<Statement>) {
    log == [] || (var n := |log| - 1; Orderly(s, log[..n]) && MayFollow(s, log[..n], log[n]))
  }

  lemma OrderlyOn(s: State, log: seq<Statement>, st: Statement)
    ensures Orderly(s, log + [st]) <==> Orderly(s, log) && MayFollow(s, log, st)
  {
    assert (log + [st])[..|log|] == log;
  }

  /** Ways to go on. */
  lemma MayOpen(s: State, log: seq<Statement>, st: Statement)
    requires |log| <= 1 && Class(st) <= 2 && (log != [] ==> Class(log[0]) < Class(st))
    ensures MayFollow(s, log, st)
  {
  }

  lemma MayAdd(s: State, log: seq<Statement>, user: Uuid, st: Statement)
    requires Has(log, user)
    requires st.AddPasskey? || st.AddIdentity? || ((st.AddSession? || st.AddLink?) && st.owner == user)
    ensures MayFollow(s, log, st)
  {
  }

  lemma MayReadOwner(s: State, log: seq<Statement>, identity: Uuid, user: Uuid)
    requires log == [OnIdentity(identity)] || Has(log, user)
    ensures MayFollow(s, log, OnUser(user))
  {
  }

  lemma MayTouchIdentity(s: State, log: seq<Statement>, id: Uuid)
    requires OnIdentity(id) in log || AddIdentity(id) in log
    ensures MayFollow(s, log, OnIdentity(id))
  {
  }

  lemma MayReadLink(s: State, log: seq<Statement>, id: Uuid)
    requires id in s.links && Has(log, s.links[id].userId)
    ensures MayFollow(s, log, OnLink(id))
  {
  }

  lemma MayTouch(s: State, log: seq<Statement>, st: Statement)
    requires Belongs(s, log, st)
    ensures MayFollow(s, log, st)
  {
  }

  // Orderly transactions keep to the discipline -------------------------------------------------------------------

  /** Rows stay with their account: sessions are never deleted, and families never divided. */
  predicate SameOwners(a: State, b: State) {
    && (forall id :: id in a.sessions ==>
          && id in b.sessions && b.sessions[id].userId == a.sessions[id].userId
          && b.sessions[id].familyId == a.sessions[id].familyId)
    && (forall id :: id in a.links && id in b.links ==> b.links[id].userId == a.links[id].userId)
    && FamiliesOwned(b.sessions)
  }

  /** What a transaction asks for whose statements ran in the states `ss`. */
  function Script(ss: seq<State>, log: seq<Statement>): seq<Request>
    requires |ss| == |log|
  {
    seq(|log|, k requires 0 <= k < |log| => Asks(ss[k], log[k]))
  }

  function Total(held: set<Lock>, todo: seq<Request>): set<Lock> {
    if todo == [] then held else Granted(Total(held, todo[..|todo| - 1]), todo[|todo| - 1])
  }

  lemma {:induction false} TotalOn(held: set<Lock>, todo: seq<Request>, r: Request)
    ensures todo != [] ==> Total(held, todo) == Total(Granted(held, todo[0]), todo[1..])
    ensures Total(held, todo + [r]) == Granted(Total(held, todo), r)
    decreases |todo|
  {
    assert (todo + [r])[..|todo|] == todo;
    if |todo| > 1 {
      var n := |todo| - 1;
      TotalOn(held, todo[..n], r);
      assert todo[1..][..n - 1] == todo[..n][1..];
    } else if |todo| == 1 {
      assert todo[1..] == [] && todo[..0] == [];
    }
  }

  /** A script is in order when each request is, after those before it. */
  lemma {:induction false} StrictOn(held: set<Lock>, todo: seq<Request>, r: Request)
    requires Strict(held, todo) && MayRequest(Total(held, todo), r)
    ensures Strict(held, todo + [r])
    decreases |todo|
  {
    if todo == [] {
      assert [r][1..] == [] && todo + [r] == [r];
    } else {
      TotalOn(held, todo, r);
      StrictOn(Granted(held, todo[0]), todo[1..], r);
      assert (todo + [r])[1..] == todo[1..] + [r];
    }
  }

  // What is held after some statements.

  ghost predicate KeysHeld(log: seq<Statement>, held: set<Lock>) {
    && (forall id :: Has(log, id) ==> UserRow(id) in held)
    && (forall id :: OnPasskey(id) in log || AddPasskey(id) in log ==> PasskeyRow(id) in held)
    && (forall id :: OnIdentity(id) in log || AddIdentity(id) in log ==> IdentityRow(id) in held)
  }

  predicate Ranked(l: Lock, st: Statement) { Rank(l) <= Class(st) || Class(st) == 3 }

  predicate RanksHeld(log: seq<Statement>, held: set<Lock>) {
    forall l :: l in held ==> exists st :: st in log && Ranked(l, st)
  }

  ghost predicate Accounted(log: seq<Statement>, held: set<Lock>) {
    KeysHeld(log, held) && RanksHeld(log, held) && (HasSome(log) ==> Rooted(held))
  }

  /** The rows of a bulk update belong to the account that is locked. */
  lemma BulkIsOwn(s: State, now: State, log: seq<Statement>, st: Statement)
    requires SameOwners(s, now) && Belongs(s, log, st) && Asks(now, st).For?
    ensures forall l :: l in Asks(now, st).locks && IsRow(l) ==> Has(log, l.owner)
  {
    if st.OnFamily? {
      var k :| k in s.sessions && FamilyOf(s, st.family, k) && Has(log, s.sessions[k].userId);
      forall id | id in LiveInFamily(now.sessions, st.family)
        ensures now.sessions[id].userId == s.sessions[k].userId
      {
        assert SameFamily(now.sessions[id], now.sessions[k]);
      }
    }
  }

  lemma NextIsInOrder(s: State, now: State, log: seq<Statement>, st: Statement, held: set<Lock>)
    requires SameOwners(s, now) && Accounted(log, held) && MayFollow(s, log, st)
    ensures MayRequest(held, Asks(now, st))
  {
    hide SameOwners;
    if Opens(log, st) {
      OpeningIsInOrder(now, log, st, held);
    } else if Belongs(s, log, st) {
      if Asks(now, st).For? { BulkIsOwn(s, now, log, st); }
    } else {
      hide KeysHeld;
      assert held == {};
    }
  }

  lemma OpeningIsInOrder(now: State, log: seq<Statement>, st: Statement, held: set<Lock>)
    requires RanksHeld(log, held) && Opens(log, st)
    ensures MayRequest(held, Asks(now, st))
  {
    forall l | l in held ensures Rank(l) < Class(st) { var x :| x in log && Ranked(l, x); }
  }

  lemma RanksOn(now: State, log: seq<Statement>, st: Statement, held: set<Lock>)
    requires RanksHeld(log, held)
    ensures RanksHeld(log + [st], Granted(held, Asks(now, st)))
  {
    forall l | l in Granted(held, Asks(now, st)) ensures exists x :: x in log + [st] && Ranked(l, x) {
      if l in held {
        var x :| x in log && Ranked(l, x);
        assert x in log + [st];
      } else {
        assert st in log + [st] && Ranked(l, st);
      }
    }
  }

  lemma KeysOn(now: State, log: seq<Statement>, st: Statement, held: set<Lock>)
    requires KeysHeld(log, held)
    ensures KeysHeld(log + [st], Granted(held, Asks(now, st)))
  {
    hide SessionRows, LiveInFamily, LiveOfUser, IsRival;
  }

  lemma RootsOn(s: State, now: State, log: seq<Statement>, st: Statement, held: set<Lock>)
    requires SameOwners(s, now) && Accounted(log, held) && MayFollow(s, log, st) && HasSome(log + [st])
    ensures Rooted(Granted(held, Asks(now, st)))
  {
    hide SameOwners;
    if Belongs(s, log, st) {
      assert HasSome(log) by {
        var x :| x in log + [st] && (x.OnUser? || x.AddUser?);
      }
      if Asks(now, st).For? { BulkIsOwn(s, now, log, st); }
    } else if Opens(log, st) {
      forall l | l in held ensures Rank(l) < Class(st) { var x :| x in log && Ranked(l, x); }
    }
  }

  lemma {:induction false} Accounting(s: State, ss: seq<State>, log: seq<Statement>)
    requires |ss| == |log| && Orderly(s, log) && forall k :: 0 <= k < |ss| ==> SameOwners(s, ss[k])
    ensures Strict({}, Script(ss, log)) && Accounted(log, Total({}, Script(ss, log)))
    decreases |log|
  {
    hide SameOwners, MayFollow, Asks, Strict, KeysHeld, RanksHeld, Rooted, MayRequest, HasSome;
    if log == [] {
      NothingHeld();
      assert Script(ss, log) == [];
    } else {
      var n := |log| - 1;
      Accounting(s, ss[..n], log[..n]);
      var before, st := Script(ss[..n], log[..n]), log[n];
      var held := Total({}, before);
      NextIsInOrder(s, ss[n], log[..n], st, held);
      RanksOn(ss[n], log[..n], st, held);
      KeysOn(ss[n], log[..n], st, held);
      assert log[..n] + [st] == log;
      if HasSome(log) { RootsOn(s, ss[n], log[..n], st, held); }
      StrictOn({}, before, Asks(ss[n], st));
      TotalOn({}, before, Asks(ss[n], st));
      assert Script(ss, log) == before + [Asks(ss[n], st)];
    }
  }

  lemma NothingHeld()
    ensures Strict({}, []) && KeysHeld([], {}) && RanksHeld([], {}) && Rooted({})
  {
  }
}
