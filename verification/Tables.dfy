/** Loops over the values of a dictionary: the generator expressions of the in-memory store. */
module Tables {
  import opened Models

  function Matching<V>(m: map<Uuid, V>, p: V -> bool): set<Uuid> { set id | id in m && p(m[id]) }

  /** `next((v for v in m.values() if p(v)), None)` */
  method First<V>(m: map<Uuid, V>, p: V -> bool) returns (r: Option<V>)
    ensures r.Some? ==> p(r.value) && exists id :: id in m && m[id] == r.value
    ensures r.None? ==> forall id :: id in m ==> !p(m[id])
  {
    var rest := m.Keys;
    while rest != {}
      invariant rest <= m.Keys
      invariant forall id :: id in m && id !in rest ==> !p(m[id])
      decreases |rest|
    {
      var id :| id in rest;
      if p(m[id]) { return Some(m[id]); }
      rest := rest - {id};
    }
    return None;
  }

  /** `sum(1 for v in m.values() if p(v))` */
  method Count<V>(m: map<Uuid, V>, p: V -> bool) returns (n: nat)
    ensures n == |Matching(m, p)|
  {
    n := 0;
    var rest := m.Keys;
    while rest != {}
      invariant rest <= m.Keys
      invariant n == |set id | id in m && id !in rest && p(m[id])|
      decreases |rest|
    {
      var id :| id in rest;
      ghost var before := set k | k in m && k !in rest && p(m[k]);
      rest := rest - {id};
      if p(m[id]) {
        n := n + 1;
        assert (set k | k in m && k !in rest && p(m[k])) == before + {id};
      } else {
        assert (set k | k in m && k !in rest && p(m[k])) == before;
      }
    }
    assert (set id | id in m && id !in rest && p(m[id])) == Matching(m, p);
  }

  /** `max((v for v in m.values() if p(v)), key=key, default=None)` */
  method Greatest<V>(m: map<Uuid, V>, p: V -> bool, key: V -> int) returns (r: Option<V>)
    ensures r.Some? ==> p(r.value) && exists id :: id in m && m[id] == r.value
    ensures r.Some? ==> forall id :: id in m && p(m[id]) ==> key(m[id]) <= key(r.value)
    ensures r.None? ==> forall id :: id in m ==> !p(m[id])
  {
    r := None;
    var rest := m.Keys;
    while rest != {}
      invariant rest <= m.Keys
      invariant r.Some? ==> p(r.value) && exists id :: id in m && m[id] == r.value
      invariant r.Some? ==> forall id :: id in m && id !in rest && p(m[id]) ==> key(m[id]) <= key(r.value)
      invariant r.None? ==> forall id :: id in m && id !in rest ==> !p(m[id])
      decreases |rest|
    {
      var id :| id in rest;
      if p(m[id]) && (r.None? || key(r.value) < key(m[id])) { r := Some(m[id]); }
      rest := rest - {id};
    }
  }

  /** Deletes, key by key, the entries whose value satisfies `p`, and counts them. */
  method Drop<V>(m: map<Uuid, V>, p: V -> bool) returns (kept: map<Uuid, V>, n: nat)
    ensures kept == map id | id in m && !p(m[id]) :: m[id]
    ensures n == |Matching(m, p)|
  {
    kept, n := m, 0;
    var rest := m.Keys;
    ghost var gone: set<Uuid> := {};
    while rest != {}
      invariant rest <= m.Keys
      invariant kept == map id | id in m && (id in rest || !p(m[id])) :: m[id]
      invariant gone == (set id | id in m && id !in rest && p(m[id])) && n == |gone|
      decreases |rest|
    {
      var id :| id in rest;
      rest := rest - {id};
      if p(m[id]) {
        kept, n := kept - {id}, n + 1;
        gone := gone + {id};
      }
    }
    assert gone == Matching(m, p);
  }

  function Revised<V>(m: map<Uuid, V>, p: V -> bool, f: V -> V, among: set<Uuid>): map<Uuid, V> {
    map id | id in m :: if id in among && p(m[id]) then f(m[id]) else m[id]
  }

  lemma ReviseNone<V>(m: map<Uuid, V>, p: V -> bool, f: V -> V)
    ensures m == Revised(m, p, f, {}) && |Matching(m, p) * {}| == 0
  {
    assert Matching(m, p) * {} == {};
  }

  lemma ReviseOne<V>(m: map<Uuid, V>, p: V -> bool, f: V -> V, done: set<Uuid>, id: Uuid)
    requires id in m && id !in done && done <= m.Keys
    ensures Revised(m, p, f, done + {id})
            == if p(m[id]) then Revised(m, p, f, done)[id := f(m[id])] else Revised(m, p, f, done)
    ensures |Matching(m, p) * (done + {id})| == |Matching(m, p) * done| + if p(m[id]) then 1 else 0
  {
    assert Matching(m, p) * (done + {id}) == if p(m[id]) then Matching(m, p) * done + {id} else Matching(m, p) * done;
  }

  /** Replaces, key by key, the values that satisfy `p`, and counts them. */
  method Revise<V>(m: map<Uuid, V>, p: V -> bool, f: V -> V) returns (after: map<Uuid, V>, n: nat)
    ensures after == Revised(m, p, f, m.Keys)
    ensures n == |Matching(m, p)|
  {
    after, n := m, 0;
    var done: set<Uuid> := {};
    ReviseNone(m, p, f);
    while m.Keys - done != {}
      invariant done <= m.Keys
      invariant after == Revised(m, p, f, done)
      invariant n == |Matching(m, p) * done|
      decreases m.Keys - done
    {
      hide Revised, Matching;
      var id :| id in m.Keys - done;
      ReviseOne(m, p, f, done, id);
      done := done + {id};
      if p(m[id]) { after, n := after[id := f(m[id])], n + 1; }
    }
    assert done == m.Keys && Matching(m, p) * m.Keys == Matching(m, p);
  }
}
