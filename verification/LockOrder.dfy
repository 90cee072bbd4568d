/** The order in which transactions ask for row locks, and why no schedule of transactions that keep
    to it can deadlock. Locks are held until the transaction ends. */
module LockOrder {
  import opened Models

  /** A session or link row carries the account it belongs to, which never changes. */
  datatype Lock =
    | AdminLock
    | IdentityRow(id: Uuid)
    | PasskeyRow(id: Uuid)
    | UserRow(id: Uuid)
    | SessionRow(id: Uuid, owner: Uuid)
    | LinkRow(id: Uuid, owner: Uuid)

  predicate IsRow(l: Lock) { l.SessionRow? || l.LinkRow? }

  function Rank(l: Lock): nat {
    match l
    case AdminLock => 0
    case IdentityRow(_) => 1
    case PasskeyRow(_) => 1
    case UserRow(_) => 2
    case SessionRow(_, _) => 3
    case LinkRow(_, _) => 4
  }

  /** What one statement asks for: the rows it reads for update or writes, in any order, or the lock
      on a row it inserts, which nobody else can have seen. */
  datatype Request = For(locks: set<Lock>) | New(row: Lock)

  function Granted(held: set<Lock>, r: Request): set<Lock> {
    held + match r case For(locks) => locks case New(row) => {row}
  }

  // The discipline -----------------------------------------------------------------------------------------

  /** Held already, or a row of an account that is. */
  predicate Under(held: set<Lock>, l: Lock) { l in held || (IsRow(l) && UserRow(l.owner) in held) }

  /** A row of an account is asked for under the account's own lock, or, for a link, first of all; the
      other locks come in the order of their classes, one of each. */
  predicate MayAsk(held: set<Lock>, l: Lock) {
    || Under(held, l)
    || (if IsRow(l) then l.LinkRow? && held == {} else forall h :: h in held ==> Rank(h) < Rank(l))
  }

  /** No row of an account is held without the account. */
  predicate Rooted(held: set<Lock>) { forall h :: h in held && IsRow(h) ==> UserRow(h.owner) in held }

  predicate MayInsert(held: set<Lock>, l: Lock) { Rooted(held) && (IsRow(l) ==> UserRow(l.owner) in held) }

  predicate MayRequest(held: set<Lock>, r: Request) {
    match r
    case For(locks) => forall l :: l in locks ==> MayAsk(held, l) && (Under(held, l) || locks == {l})
    case New(row) => MayInsert(held, row)
  }

  /** A transaction that holds `held` and goes on with `todo` keeps to the discipline. */
  predicate Strict(held: set<Lock>, todo: seq<Request>)
    decreases |todo|
  {
    todo == [] || (MayRequest(held, todo[0]) && Strict(Granted(held, todo[0]), todo[1..]))
  }

  /** The same, but for one liberty: a single session row may be all that is ever asked for. */
  predicate MayRequestLone(held: set<Lock>, r: Request) {
    MayRequest(held, r) || (held == {} && r.For? && exists l :: l in r.locks && l.SessionRow? && r.locks == {l})
  }

  predicate Follows(held: set<Lock>, todo: seq<Request>)
    decreases |todo|
  {
    todo == [] || (MayRequestLone(held, todo[0]) && Follows(Granted(held, todo[0]), todo[1..]))
  }

  lemma {:induction false} StrictFollows(held: set<Lock>, todo: seq<Request>)
    requires Strict(held, todo)
    ensures Follows(held, todo)
    decreases |todo|
  {
    if todo != [] { StrictFollows(Granted(held, todo[0]), todo[1..]); }
  }

  // Transactions side by side --------------------------------------------------------------------------------

  /** What a transaction holds, what it waits for, and what it still has to ask for. */
  datatype Thread = Thread(held: set<Lock>, waiting: Option<Lock>, todo: seq<Request>)

  predicate Taken(ts: seq<Thread>, l: Lock, t: nat) {
    exists k :: 0 <= k < |ts| && k != t && l in ts[k].held
  }

  function Got(x: Thread, l: Lock): Thread { Thread(x.held + {l}, None, x.todo) }

  const ENDED := Thread({}, None, [])

  /** One turn of thread `t`: it gets the lock it waits for, if that is free; or asks for the lock `l`
      of its next request, and waits if it is taken; or goes on to the request after; or ends. */
  function Turn(ts: seq<Thread>, t: nat, l: Lock): seq<Thread> {
    if t >= |ts| then ts
    else
      var x := ts[t];
      if x.waiting.Some? then if Taken(ts, x.waiting.value, t) then ts else ts[t := Got(x, x.waiting.value)]
      else if x.todo == [] then ts[t := ENDED]
      else
        match x.todo[0]
        case For(locks) =>
          if locks <= x.held then ts[t := x.(todo := x.todo[1..])]
          else if l !in locks || l in x.held then ts
          else if Taken(ts, l, t) then ts[t := x.(waiting := Some(l))]
          else ts[t := Got(x, l)]
        case New(row) =>
          if Taken(ts, row, t) then ts else ts[t := Thread(x.held + {row}, None, x.todo[1..])]
  }

  function Start(scripts: seq<seq<Request>>): seq<Thread> {
    seq(|scripts|, t requires 0 <= t < |scripts| => Thread({}, None, scripts[t]))
  }

  /** A schedule says whose turn it is and which lock it tries. */
  datatype Move = Move(txn: nat, lock: Lock)

  function Play(ts: seq<Thread>, moves: seq<Move>): seq<Thread> {
    if moves == [] then ts
    else
      var m := moves[|moves| - 1];
      Turn(Play(ts, moves[..|moves| - 1]), m.txn, m.lock)
  }

  // The invariant --------------------------------------------------------------------------------------------

  predicate Disjoint(a: Thread, b: Thread) { a.held * b.held == {} }

  /** A row is held with its account, or on its own by a thread that will ask for nothing else. */
  predicate Covered(x: Thread) {
    && (forall l :: l in x.held && IsRow(l) ==> UserRow(l.owner) in x.held || (x.held == {l} && x.waiting.None?))
    && (x.waiting.Some? ==> x.todo != [] && x.todo[0].For? && x.waiting.value in x.todo[0].locks - x.held)
    && Follows(x.held, x.todo)
  }

  predicate Safe(ts: seq<Thread>) {
    && (forall t :: 0 <= t < |ts| ==> Covered(ts[t]))
    && (forall t, k {:trigger Disjoint(ts[t], ts[k])} :: 0 <= t < k < |ts| ==> Disjoint(ts[t], ts[k]))
  }

  lemma HeldApart(ts: seq<Thread>, t: nat, k: nat, l: Lock)
    requires Safe(ts) && t < |ts| && k < |ts| && l in ts[t].held && l in ts[k].held
    ensures t == k
  {
    assert l in ts[t].held * ts[k].held && l in ts[k].held * ts[t].held;
    assert t < k ==> Disjoint(ts[t], ts[k]);
    assert k < t ==> Disjoint(ts[k], ts[t]);
  }

  /** Getting one of the locks asked for leaves the rest of the script in order. */
  lemma FollowsOn(held: set<Lock>, todo: seq<Request>, l: Lock)
    requires Follows(held, todo) && todo != [] && todo[0].For? && l in todo[0].locks
    ensures Follows(held + {l}, todo)
  {
    assert Granted(held + {l}, todo[0]) == Granted(held, todo[0]);
  }

  lemma GotIsCovered(x: Thread, l: Lock)
    requires Covered(x) && x.todo != [] && x.todo[0].For? && l in x.todo[0].locks - x.held
    ensures Covered(Got(x, l))
  {
    FollowsOn(x.held, x.todo, l);
  }

  lemma ChangeIsSafe(ts: seq<Thread>, t: nat, x: Thread, gained: set<Lock>)
    requires Safe(ts) && t < |ts| && Covered(x) && x.held <= ts[t].held + gained
    requires forall l :: l in gained ==> !Taken(ts, l, t)
    ensures Safe(ts[t := x])
  {
    var after := ts[t := x];
    forall a, b | 0 <= a < b < |after| ensures Disjoint(after[a], after[b]) {
      assert Disjoint(ts[a], ts[b]);
    }
  }

  lemma TurnIsSafe(ts: seq<Thread>, t: nat, l: Lock)
    requires Safe(ts)
    ensures Safe(Turn(ts, t, l)) && |Turn(ts, t, l)| == |ts|
  {
    if t < |ts| {
      var x := ts[t];
      assert Covered(x);
      if x.waiting.Some? {
        if !Taken(ts, x.waiting.value, t) {
          GotIsCovered(x, x.waiting.value);
          ChangeIsSafe(ts, t, Got(x, x.waiting.value), {x.waiting.value});
        }
      } else if x.todo == [] {
        ChangeIsSafe(ts, t, ENDED, {});
      } else {
        NextIsSafe(ts, t, l);
      }
    }
  }

  lemma NextIsSafe(ts: seq<Thread>, t: nat, l: Lock)
    requires Safe(ts) && t < |ts| && ts[t].waiting.None? && ts[t].todo != []
    ensures Safe(Turn(ts, t, l))
  {
    var x := ts[t];
    assert Covered(x);
    match x.todo[0]
    case For(locks) =>
      if locks <= x.held {
        assert Granted(x.held, x.todo[0]) == x.held;
        ChangeIsSafe(ts, t, x.(todo := x.todo[1..]), {});
      } else if l in locks && l !in x.held {
        if Taken(ts, l, t) {
          LoneAsksNothing(x, l);
          ChangeIsSafe(ts, t, x.(waiting := Some(l)), {});
        } else {
          GotIsCovered(x, l);
          ChangeIsSafe(ts, t, Got(x, l), {l});
        }
      }
    case New(row) =>
      if !Taken(ts, row, t) { ChangeIsSafe(ts, t, Thread(x.held + {row}, None, x.todo[1..]), {row}); }
  }

  /** Whoever holds nothing but one row without its account asks for no lock it does not hold. */
  lemma LoneAsksNothing(x: Thread, l: Lock)
    requires Covered(x) && x.todo != [] && x.todo[0].For? && l in x.todo[0].locks - x.held
    ensures Rooted(x.held)
  {
  }

  lemma {:induction false} PlayIsSafe(scripts: seq<seq<Request>>, moves: seq<Move>)
    requires forall t :: 0 <= t < |scripts| ==> Follows({}, scripts[t])
    ensures Safe(Play(Start(scripts), moves)) && |Play(Start(scripts), moves)| == |scripts|
  {
    if moves != [] {
      var k := |moves| - 1;
      PlayIsSafe(scripts, moves[..k]);
      TurnIsSafe(Play(Start(scripts), moves[..k]), moves[k].txn, moves[k].lock);
    }
  }

  // No cycle ---------------------------------------------------------------------------------------------------

  predicate WaitsFor(ts: seq<Thread>, a: nat, b: nat) {
    && a < |ts| && b < |ts| && a != b
    && ts[a].waiting.Some? && ts[a].waiting.value in ts[b].held
  }

  predicate Waits(ts: seq<Thread>, a: nat) { a < |ts| && ts[a].waiting.Some? }

  /** Along the waits-for relation the classes of the locks asked for rise. */
  lemma RanksRise(ts: seq<Thread>, a: nat, b: nat, c: nat)
    requires Safe(ts) && WaitsFor(ts, a, b) && WaitsFor(ts, b, c) && Waits(ts, c)
    ensures Rank(ts[a].waiting.value) < Rank(ts[b].waiting.value)
  {
    assert Covered(ts[b]) && Covered(ts[c]);
    var l := ts[b].waiting.value;
    if IsRow(l) && UserRow(l.owner) in ts[b].held {
      assert UserRow(l.owner) in ts[c].held;
      HeldApart(ts, b, c, UserRow(l.owner));
    }
  }

  predicate Edge(ts: seq<Thread>, path: seq<nat>, i: nat) { i + 1 < |path| && WaitsFor(ts, path[i], path[i + 1]) }

  predicate IsPath(ts: seq<Thread>, path: seq<nat>) {
    path != [] && forall i :: 0 <= i < |path| - 1 ==> Edge(ts, path, i)
  }

  predicate IsCycle(ts: seq<Thread>, path: seq<nat>) {
    IsPath(ts, path) && |path| > 1 && path[0] == path[|path| - 1]
  }

  lemma {:induction false} PathRises(ts: seq<Thread>, path: seq<nat>, i: nat)
    requires Safe(ts) && IsPath(ts, path) && 1 <= i && i + 1 < |path| && Waits(ts, path[|path| - 1])
    ensures Waits(ts, path[0]) && Waits(ts, path[i])
    ensures Rank(ts[path[0]].waiting.value) < Rank(ts[path[i]].waiting.value)
  {
    assert Edge(ts, path, i - 1) && Edge(ts, path, i) && Edge(ts, path, 0);
    if i + 2 < |path| { assert Edge(ts, path, i + 1); }
    RanksRise(ts, path[i - 1], path[i], path[i + 1]);
    if i > 1 { PathRises(ts, path, i - 1); }
  }

  /** However transactions that follow the discipline are scheduled, nobody waits in a circle. */
  lemma NoCycle(scripts: seq<seq<Request>>, moves: seq<Move>, path: seq<nat>)
    requires forall t :: 0 <= t < |scripts| ==> Follows({}, scripts[t])
    ensures !IsCycle(Play(Start(scripts), moves), path)
  {
    var ts := Play(Start(scripts), moves);
    PlayIsSafe(scripts, moves);
    if IsPath(ts, path) && |path| > 1 { PathsEnd(ts, path); }
  }

  lemma PathsEnd(ts: seq<Thread>, path: seq<nat>)
    requires Safe(ts) && IsPath(ts, path) && |path| > 1
    ensures path[0] != path[|path| - 1]
  {
    assert Edge(ts, path, 0);
    if path[0] == path[|path| - 1] {
      var round := path + [path[1]];
      forall i | 0 <= i < |round| - 1 ensures Edge(ts, round, i) {
        assert i + 1 < |path| ==> Edge(ts, path, i);
      }
      assert |path| > 2 ==> Edge(ts, path, 1);
      PathRises(ts, round, |path| - 1);
    }
  }

  /** Waiting for a lock that somebody else holds; any other thread goes on when its turn comes. */
  predicate Stuck(ts: seq<Thread>, t: nat) { Waits(ts, t) && Taken(ts, ts[t].waiting.value, t) }

  lemma PathGrows(ts: seq<Thread>, t: nat, rest: seq<nat>)
    requires IsPath(ts, rest) && WaitsFor(ts, t, rest[0])
    ensures IsPath(ts, [t] + rest)
  {
    var path := [t] + rest;
    forall i | 0 <= i < |path| - 1 ensures Edge(ts, path, i) {
      if i > 0 { assert Edge(ts, rest, i - 1); }
    }
  }

  /** From a stuck thread the waits-for relation leads to one that is not. */
  lemma LeadsOut(ts: seq<Thread>, t: nat) returns (path: seq<nat>)
    requires Safe(ts) && Stuck(ts, t)
    ensures IsPath(ts, path) && |path| > 1 && path[0] == t && path[|path| - 1] < |ts|
    ensures !Stuck(ts, path[|path| - 1])
    decreases 5 - Rank(ts[t].waiting.value)
  {
    hide Safe, IsRow;
    var k :| 0 <= k < |ts| && k != t && ts[t].waiting.value in ts[k].held;
    assert WaitsFor(ts, t, k);
    path := [t, k];
    assert Edge(ts, path, 0);
    if Stuck(ts, k) {
      var m :| 0 <= m < |ts| && m != k && ts[k].waiting.value in ts[m].held;
      assert WaitsFor(ts, k, m);
      if Stuck(ts, m) {
        RanksRise(ts, t, k, m);
        var rest := LeadsOut(ts, k);
        PathGrows(ts, t, rest);
        path := [t] + rest;
      } else {
        path := [t, k, m];
        assert Edge(ts, path, 0) && Edge(ts, path, 1);
      }
    }
  }

  /** However transactions that follow the discipline are scheduled, whoever is stuck waits, directly
      or through others, for somebody who is not. */
  lemma SomeoneCanGoOn(scripts: seq<seq<Request>>, moves: seq<Move>, t: nat) returns (path: seq<nat>)
    requires forall k :: 0 <= k < |scripts| ==> Follows({}, scripts[k])
    requires Stuck(Play(Start(scripts), moves), t)
    ensures var ts := Play(Start(scripts), moves);
            && IsPath(ts, path) && |path| > 1 && path[0] == t
            && path[|path| - 1] < |scripts| && !Stuck(ts, path[|path| - 1])
  {
    PlayIsSafe(scripts, moves);
    path := LeadsOut(Play(Start(scripts), moves), t);
  }

  // Nobody waits for a session row -----------------------------------------------------------------------------

  /** A thread of a strict script holds a session only with its account, and waits for none. */
  predicate Settled(x: Thread) {
    && Strict(x.held, x.todo)
    && (forall l :: l in x.held && l.SessionRow? ==> UserRow(l.owner) in x.held)
    && (x.waiting.Some? ==> !x.waiting.value.SessionRow?)
  }

  predicate AllSettled(ts: seq<Thread>) { forall t :: 0 <= t < |ts| ==> Settled(ts[t]) }

  lemma StrictOn(held: set<Lock>, todo: seq<Request>, l: Lock)
    requires Strict(held, todo) && todo != [] && todo[0].For? && l in todo[0].locks
    ensures Strict(held + {l}, todo)
  {
    assert Granted(held + {l}, todo[0]) == Granted(held, todo[0]);
  }

  lemma TurnSettles(ts: seq<Thread>, t: nat, l: Lock)
    requires Safe(ts) && AllSettled(ts)
    ensures AllSettled(Turn(ts, t, l))
  {
    if t < |ts| {
      var x := ts[t];
      assert Covered(x) && Settled(x);
      if x.waiting.Some? {
        StrictOn(x.held, x.todo, x.waiting.value);
      } else if x.todo != [] && x.todo[0].For? {
        if l in x.todo[0].locks { StrictOn(x.held, x.todo, l); }
        if x.todo[0].locks <= x.held { assert Granted(x.held, x.todo[0]) == x.held; }
        if l in x.todo[0].locks && l.SessionRow? && Taken(ts, l, t) {
          var k :| 0 <= k < |ts| && k != t && l in ts[k].held;
          assert Settled(ts[k]);
          if UserRow(l.owner) in x.held { HeldApart(ts, t, k, UserRow(l.owner)); }
        }
      }
    }
  }

  /** Where every session row is asked for under its account, nobody ever waits for one. */
  lemma {:induction false} NobodyWaitsForSession(scripts: seq<seq<Request>>, moves: seq<Move>, t: nat)
    requires forall k :: 0 <= k < |scripts| ==> Strict({}, scripts[k])
    ensures AllSettled(Play(Start(scripts), moves))
    ensures Waits(Play(Start(scripts), moves), t) ==> !Play(Start(scripts), moves)[t].waiting.value.SessionRow?
  {
    if moves != [] {
      var n := |moves| - 1;
      NobodyWaitsForSession(scripts, moves[..n], t);
      forall k | 0 <= k < |scripts| ensures Follows({}, scripts[k]) { StrictFollows({}, scripts[k]); }
      PlayIsSafe(scripts, moves[..n]);
      TurnSettles(Play(Start(scripts), moves[..n]), moves[n].txn, moves[n].lock);
    }
  }

  // A bulk update without the account's lock --------------------------------------------------------------------

  /** Some schedule of the script with others that keep to the discipline ends in a circle. */
  ghost predicate CanDeadlock(script: seq<Request>) {
    exists others: seq<seq<Request>>, moves: seq<Move>, path: seq<nat> ::
      AllStrict(others) && IsCycle(Play(Start([script] + others), moves), path)
  }

  predicate AllStrict(scripts: seq<seq<Request>>) { forall k :: 0 <= k < |scripts| ==> Strict({}, scripts[k]) }

  /** The sessions of one account. */
  predicate OfOne(rows: set<Lock>, owner: Uuid) { forall l :: l in rows ==> l.SessionRow? && l.owner == owner }

  /** Locks the account and saves it, then updates its sessions. */
  function Covering(rows: set<Lock>, owner: Uuid): seq<Request> {
    [For({UserRow(owner)}), For({UserRow(owner)}), For(rows)]
  }

  /** Two threads side by side. */
  lemma OfTwo(a: Thread, b: Thread, l: Lock)
    ensures Taken([a, b], l, 0) <==> l in b.held
    ensures Taken([a, b], l, 1) <==> l in a.held
  {
    assert l in b.held ==> l in [a, b][1].held;
    assert l in a.held ==> l in [a, b][0].held;
  }

  lemma NothingPlayed(ts: seq<Thread>)
    ensures Play(ts, []) == ts
  {
  }

  lemma FirstPlays(ts: seq<Thread>, moves: seq<Move>, a: Thread, b: Thread, l: Lock) returns (after: seq<Move>)
    requires Play(ts, moves) == [a, b]
    ensures after == moves + [Move(0, l)] && Play(ts, after) == Turn([a, b], 0, l)
    ensures Taken([a, b], l, 0) <==> l in b.held
  {
    after := moves + [Move(0, l)];
    assert after[..|moves|] == moves;
    OfTwo(a, b, l);
  }

  lemma SecondPlays(ts: seq<Thread>, moves: seq<Move>, a: Thread, b: Thread, l: Lock) returns (after: seq<Move>)
    requires Play(ts, moves) == [a, b]
    ensures after == moves + [Move(1, l)] && Play(ts, after) == Turn([a, b], 1, l)
    ensures Taken([a, b], l, 1) <==> l in a.held
  {
    after := moves + [Move(1, l)];
    assert after[..|moves|] == moves;
    OfTwo(a, b, l);
  }

  /** The covering transaction takes one session while the bare update holds another. */
  lemma Crossed(rows: set<Lock>, owner: Uuid, x: Lock, y: Lock) returns (moves: seq<Move>)
    requires OfOne(rows, owner) && x in rows && y in rows && x != y
    ensures Play(Start([[For(rows)], Covering(rows, owner)]), moves)
         == [Thread({x}, None, [For(rows)]), Thread({UserRow(owner), y}, None, [For(rows)])]
  {
    hide Play, Taken;
    var u, bare, cover := UserRow(owner), [For(rows)], Covering(rows, owner);
    var s0 := Start([bare, cover]);
    assert s0 == [Thread({}, None, bare), Thread({}, None, cover)];
    NothingPlayed(s0);
    moves := FirstPlays(s0, [], Thread({}, None, bare), Thread({}, None, cover), x);
    var a := Thread({x}, None, bare);
    assert Got(Thread({}, None, bare), x) == a;
    moves := SecondPlays(s0, moves, a, Thread({}, None, cover), u);
    assert Got(Thread({}, None, cover), u) == Thread({u}, None, cover);
    moves := SecondPlays(s0, moves, a, Thread({u}, None, cover), u);
    assert Play(s0, moves) == [a, Thread({u}, None, cover[1..])];
    moves := SecondPlays(s0, moves, a, Thread({u}, None, cover[1..]), u);
    assert Play(s0, moves) == [a, Thread({u}, None, bare)];
    moves := SecondPlays(s0, moves, a, Thread({u}, None, bare), y);
    assert Got(Thread({u}, None, bare), y) == Thread({u, y}, None, bare);
  }

  /** Where each wants what the other holds, each ends up waiting. */
  lemma Entangled(s0: seq<Thread>, moves: seq<Move>, a: Thread, b: Thread, x: Lock, y: Lock) returns (all: seq<Move>)
    requires Play(s0, moves) == [a, b] && a.waiting.None? && b.waiting.None? && a.todo != [] && b.todo != []
    requires a.todo[0].For? && y in a.todo[0].locks - a.held && y in b.held
    requires b.todo[0].For? && x in b.todo[0].locks - b.held && x in a.held
    ensures IsCycle(Play(s0, all), [0, 1, 0])
  {
    hide Play, Taken;
    all := FirstPlays(s0, moves, a, b, y);
    assert Play(s0, all) == [a.(waiting := Some(y)), b];
    all := SecondPlays(s0, all, a.(waiting := Some(y)), b, x);
    var end := Play(s0, all);
    assert end == [a.(waiting := Some(y)), b.(waiting := Some(x))];
    assert Edge(end, [0, 1, 0], 0) && Edge(end, [0, 1, 0], 1);
  }

  lemma CoveringCanDeadlock(rows: set<Lock>, owner: Uuid, x: Lock, y: Lock) returns (moves: seq<Move>)
    requires OfOne(rows, owner) && x in rows && y in rows && x != y
    ensures IsCycle(Play(Start([[For(rows)], Covering(rows, owner)]), moves), [0, 1, 0])
  {
    moves := Crossed(rows, owner, x, y);
    moves := Entangled(Start([[For(rows)], Covering(rows, owner)]), moves, Thread({x}, None, [For(rows)]),
                       Thread({UserRow(owner), y}, None, [For(rows)]), x, y);
  }

  /** The same with a transaction that locks the account and one session, then updates several. */
  lemma PickingCanDeadlock(rows: set<Lock>, some: set<Lock>, owner: Uuid, x: Lock, y: Lock) returns (moves: seq<Move>)
    requires OfOne(rows, owner) && x in rows && y in rows && x != y && x in some
    ensures IsCycle(Play(Start([[For(rows)], [For({UserRow(owner)}), For({y}), For(some)]]), moves), [0, 1, 0])
  {
    hide Play, Taken;
    var u, bare, picking := UserRow(owner), [For(rows)], [For({UserRow(owner)}), For({y}), For(some)];
    var s0 := Start([bare, picking]);
    assert s0 == [Thread({}, None, bare), Thread({}, None, picking)];
    NothingPlayed(s0);
    moves := FirstPlays(s0, [], Thread({}, None, bare), Thread({}, None, picking), x);
    var a := Thread({x}, None, bare);
    assert Got(Thread({}, None, bare), x) == a;
    moves := SecondPlays(s0, moves, a, Thread({}, None, picking), u);
    assert Got(Thread({}, None, picking), u) == Thread({u}, None, picking);
    moves := SecondPlays(s0, moves, a, Thread({u}, None, picking), u);
    assert Play(s0, moves) == [a, Thread({u}, None, picking[1..])];
    moves := SecondPlays(s0, moves, a, Thread({u}, None, picking[1..]), y);
    assert Got(Thread({u}, None, picking[1..]), y) == Thread({u, y}, None, picking[1..]);
    moves := SecondPlays(s0, moves, a, Thread({u, y}, None, picking[1..]), y);
    assert Play(s0, moves) == [a, Thread({u, y}, None, [For(some)])];
    moves := Entangled(s0, moves, a, Thread({u, y}, None, [For(some)]), x, y);
  }

  /** Bulk updating an account's sessions without its lock can deadlock exactly where there are two. */
  lemma BareUpdateDeadlocks(rows: set<Lock>, owner: Uuid)
    requires OfOne(rows, owner)
    ensures CanDeadlock([For(rows)]) <==> |rows| >= 2
  {
    if |rows| >= 2 {
      var x, y := TwoOf(rows);
      var moves := CoveringCanDeadlock(rows, owner, x, y);
      CoveringIsStrict(rows, owner);
      assert [[For(rows)]] + [Covering(rows, owner)] == [[For(rows)], Covering(rows, owner)];
      assert AllStrict([Covering(rows, owner)]);
    } else {
      LoneFollows(rows, owner);
      forall others: seq<seq<Request>>, moves: seq<Move>, path: seq<nat> | AllStrict(others)
        ensures !IsCycle(Play(Start([[For(rows)]] + others), moves), path)
      {
        var scripts := [[For(rows)]] + others;
        forall k | 0 <= k < |scripts| ensures Follows({}, scripts[k]) {
          if k > 0 { StrictFollows({}, others[k - 1]); }
        }
        NoCycle(scripts, moves, path);
      }
    }
  }

  lemma TwoOf(rows: set<Lock>) returns (x: Lock, y: Lock)
    requires |rows| >= 2
    ensures x in rows && y in rows && x != y
  {
    x :| x in rows;
    assert |rows - {x}| == |rows| - 1;
    y :| y in rows - {x};
  }

  lemma LoneFollows(rows: set<Lock>, owner: Uuid)
    requires OfOne(rows, owner) && |rows| <= 1
    ensures Follows({}, [For(rows)])
  {
    if rows != {} {
      var l :| l in rows;
      assert |rows - {l}| == |rows| - 1;
      assert rows == {l};
    }
  }

  lemma CoveringIsStrict(rows: set<Lock>, owner: Uuid)
    requires OfOne(rows, owner)
    ensures Strict({}, Covering(rows, owner))
  {
    var c, u := Covering(rows, owner), UserRow(owner);
    assert Granted({}, c[0]) == {u} && c[1..] == [c[1], c[2]];
    assert Granted({u}, c[1]) == {u} && [c[1], c[2]][1..] == [c[2]] && [c[2]][1..] == [];
    assert Strict({u}, [c[2]]) && Strict({u}, [c[1], c[2]]);
  }
}
