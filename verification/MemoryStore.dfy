/** `testing/memory.py`: the store whose dictionaries the transactions change in place. What each
    method does is said by the functions of StoreState on the abstract value `View`. Beside that a
    ghost field records the statements by which the PostgreSQL store locks rows at the same calls. */
module MemoryStore {
  import opened Models
  import opened StoreState
  import opened Statements
  import opened Tables

  class MemoryAuthStore {
    var users: map<Uuid, User>
    var sessions: map<Uuid, Session>
    var passkeys: map<Uuid, Passkey>
    var passkeyChallenges: map<Uuid, PasskeyChallenge>
    var identities: map<Uuid, Identity>
    var googleChallenges: map<Uuid, GoogleChallenge>
    var links: map<Uuid, EmailLink>

    // Where the running transaction began, and the statements it has locked rows by.
    ghost var began: State
    ghost var log: seq<Statement>

    function View(): (s: State)
      reads this
    {
      State(users, sessions, passkeys, passkeyChallenges, identities, googleChallenges, links)
    }

    ghost predicate InOrder()
      reads `began, `log
    {
      Orderly(began, log)
    }

    /** A transaction that begins in `s`. */
    ghost predicate Begun(s: State)
      reads `began, `log
    {
      began == s && log == [] && InOrder()
    }

    /** A whole transaction that began in `s`. */
    ghost predicate Ran(s: State)
      reads `began, `log
    {
      began == s && InOrder()
    }

    twostate predicate Logged(st: Statement)
      reads `began, `log
    {
      && log == old(log) + [st]
      && (old(InOrder()) && MayFollow(began, old(log), st) ==> InOrder())
    }

    /** The transaction has gone on, and in order if it was in order before. */
    twostate predicate Went()
      reads `began, `log
    {
      began == old(began) && old(log) <= log && (old(InOrder()) ==> InOrder())
    }

    ghost method Record(st: Statement)
      modifies `log
      ensures Logged(st)
    {
      OrderlyOn(began, log, st);
      log := log + [st];
    }

    constructor ()
      ensures View() == EMPTY
    {
      users, sessions, passkeys, passkeyChallenges := map[], map[], map[], map[];
      identities, googleChallenges, links := map[], map[], map[];
      began, log := EMPTY, [];
    }

    // Transactions -----------------------------------------------------------------------------------

    method Begin() returns (snapshot: State)
      modifies `began, `log
      ensures snapshot == View() && Begun(snapshot)
    {
      snapshot := State(users, sessions, passkeys, passkeyChallenges, identities, googleChallenges, links);
      began, log := snapshot, [];
    }

    /** An exception puts the snapshot back. */
    method Rollback(snapshot: State)
      modifies this
      ensures View() == snapshot && began == old(began) && log == old(log)
    {
      users, sessions, passkeys := snapshot.users, snapshot.sessions, snapshot.passkeys;
      passkeyChallenges, identities := snapshot.passkeyChallenges, snapshot.identities;
      googleChallenges, links := snapshot.googleChallenges, snapshot.links;
    }

    method AcquireAdminLock()
      modifies `log
      ensures Logged(OnAdmin)
    {
      Record(OnAdmin);
    }

    // Users --------------------------------------------------------------------------------------------

    method CountUsersWithRole(role: string, activeOnly: bool) returns (n: nat)
      ensures n == |InRole(users, role, activeOnly)|
    {
      var p := (u: User) => u.HasRole(role) && (activeOnly ==> u.status == Active);
      n := Count(users, p);
      assert Matching(users, p) == InRole(users, role, activeOnly);
    }

    method GetUserByEmail(email: string, forUpdate: bool) returns (r: Option<User>)
      requires UsersUnique(users)
      modifies `log
      ensures r == UserByEmail(users, email)
      ensures if forUpdate && r.Some? then Logged(OnUser(r.value.id)) else log == old(log)
    {
      r := First(users, (u: User) => u.email == email);
      if r.Some? { assert SameEmail(UserByEmail(users, email).value, r.value); }
      if forUpdate && r.Some? { Record(OnUser(r.value.id)); }
    }

    method GetUserById(id: Uuid, forUpdate: bool) returns (r: Option<User>)
      modifies `log
      ensures r == UserById(users, id)
      ensures if forUpdate && r.Some? then Logged(OnUser(id)) else log == old(log)
    {
      r := if id in users then Some(users[id]) else None;
      if forUpdate && r.Some? { Record(OnUser(id)); }
    }

    /** False stands for StoreConflictError, here and below. */
    method InsertUser(u: User) returns (ok: bool)
      modifies `users, `log
      ensures ok <==> !(u.id in old(users) || EmailTaken(old(users), u.email, None))
      ensures View() == if ok then PutUser(old(View()), u) else old(View())
      ensures if ok then Logged(AddUser(u.id)) else log == old(log)
    {
      var twin := First(users, (x: User) => x.email == u.email);
      ok := u.id !in users && twin.None?;
      if ok {
        users := users[u.id := u];
        Record(AddUser(u.id));
      }
    }

    method UpdateUser(u: User) returns (ok: bool)
      requires u.id in users && UsersUnique(users)
      modifies `users, `log
      ensures ok <==> !EmailTaken(old(users), u.email, Some(u.id))
      ensures View() == if ok then PutUser(old(View()), u) else old(View())
      ensures Logged(OnUser(u.id))
    {
      var twin := First(users, (x: User) => x.id != u.id && x.email == u.email);
      Record(OnUser(u.id));
      ok := twin.None?;
      if ok { users := users[u.id := u]; }
    }

    // Sessions -----------------------------------------------------------------------------------------

    method GetSessionByTokenHash(hash: Hash) returns (r: Option<Session>)
      requires SessionsUnique(sessions)
      ensures r == SessionByToken(sessions, hash)
    {
      r := First(sessions, (x: Session) => x.tokenHash == hash);
      if r.Some? { assert SameToken(SessionByToken(sessions, hash).value, r.value); }
    }

    method GetSessionById(id: Uuid, forUpdate: bool) returns (r: Option<Session>)
      modifies `log
      ensures r == SessionById(sessions, id)
      ensures if forUpdate && r.Some? then Logged(OnSession(id)) else log == old(log)
    {
      r := if id in sessions then Some(sessions[id]) else None;
      if forUpdate && r.Some? { Record(OnSession(id)); }
    }

    method InsertSession(x: Session) returns (ok: bool)
      modifies `sessions, `log
      ensures ok <==> !(x.id in old(sessions) || TokenTaken(old(sessions), x.tokenHash))
      ensures View() == if ok then PutSession(old(View()), x) else old(View())
      ensures if ok then Logged(AddSession(x.id, x.userId)) else log == old(log)
    {
      var twin := First(sessions, (y: Session) => y.tokenHash == x.tokenHash);
      ok := x.id !in sessions && twin.None?;
      if ok {
        sessions := sessions[x.id := x];
        Record(AddSession(x.id, x.userId));
      }
    }

    method UpdateSession(x: Session)
      requires x.id in sessions
      modifies `sessions, `log
      ensures View() == PutSession(old(View()), x)
      ensures Logged(OnSession(x.id))
    {
      Record(OnSession(x.id));
      sessions := sessions[x.id := x];
    }

    method RevokeFamily(family: Uuid, at: Time) returns (n: nat)
      modifies `sessions, `log
      ensures View() == StoreState.RevokeFamily(old(View()), family, at)
      ensures n == |LiveInFamily(old(sessions), family)|
      ensures Logged(OnFamily(family))
    {
      Record(OnFamily(family));
      var p := (x: Session) => x.familyId == family && x.revokedAt.None?;
      assert Matching(sessions, p) == LiveInFamily(sessions, family);
      sessions, n := Revise(sessions, p, (x: Session) => x.(revokedAt := Some(at)));
      assert sessions == StoreState.RevokeFamily(old(View()), family, at).sessions;
    }

    method RevokeUserSessions(user: Uuid, at: Time) returns (n: nat)
      modifies `sessions, `log
      ensures View() == StoreState.RevokeUserSessions(old(View()), user, at)
      ensures n == |LiveOfUser(old(sessions), user)|
      ensures Logged(OnAccount(user))
    {
      Record(OnAccount(user));
      var p := (x: Session) => x.userId == user && x.revokedAt.None?;
      assert Matching(sessions, p) == LiveOfUser(sessions, user);
      sessions, n := Revise(sessions, p, (x: Session) => x.(revokedAt := Some(at)));
      assert sessions == StoreState.RevokeUserSessions(old(View()), user, at).sessions;
    }

    // Email links ----------------------------------------------------------------------------------------

    method DeleteOldEmailLinks(before: Time) returns (n: nat)
      modifies `links
      ensures View() == PruneLinks(old(View()), before)
      ensures n == |set id | id in old(links) && old(links)[id].createdAt < before|
    {
      var p := (l: EmailLink) => l.createdAt < before;
      assert Matching(links, p) == set id | id in links && links[id].createdAt < before;
      links, n := Drop(links, p);
      assert links == PruneLinks(old(View()), before).links;
    }

    method CountEmailLinkRequests(user: Uuid, purpose: Purpose, since: Time) returns (n: nat)
      ensures n == |Requests(links, user, purpose, since)|
    {
      var p := (l: EmailLink) => l.For(user, purpose) && l.createdAt >= since;
      n := Count(links, p);
      assert Matching(links, p) == Requests(links, user, purpose, since);
    }

    method GetLatestEmailLink(user: Uuid, purpose: Purpose) returns (r: Option<EmailLink>)
      requires LinksUnique(links)
      ensures r == LatestLink(links, user, purpose)
    {
      r := Greatest(links, (l: EmailLink) => l.For(user, purpose), (l: EmailLink) => l.generation);
      if HasLink(links, user, purpose) {
        LatestExists(links, user, purpose);
        assert Alike(LatestLink(links, user, purpose).value, r.value);
      }
    }

    method GetEmailLink(id: Uuid, forUpdate: bool) returns (r: Option<EmailLink>)
      modifies `log
      ensures r == if id in links then Some(links[id]) else None
      ensures if forUpdate && r.Some? then Logged(OnLink(id)) else log == old(log)
    {
      r := if id in links then Some(links[id]) else None;
      if forUpdate && r.Some? { Record(OnLink(id)); }
    }

    method GetEmailLinkByTokenHash(hash: Hash, purpose: Purpose) returns (r: Option<EmailLink>)
      requires LinksUnique(links)
      ensures r == LinkByToken(links, hash, purpose)
    {
      r := First(links, (l: EmailLink) => l.tokenHash == hash && l.purpose == purpose);
      if r.Some? { assert Alike(LinkByToken(links, hash, purpose).value, r.value); }
    }

    method InsertEmailLink(l: EmailLink) returns (ok: bool)
      modifies `links, `log
      ensures ok <==> !LinkClashes(old(links), l)
      ensures View() == if ok then PutLink(old(View()), l) else old(View())
      ensures if ok then Logged(AddLink(l.id, l.userId)) else log == old(log)
    {
      var twin := First(links, (x: EmailLink) => Alike(x, l));
      ok := l.id !in links && twin.None?;
      if ok {
        links := links[l.id := l];
        Record(AddLink(l.id, l.userId));
      }
    }

    /** The conditional UPDATE behind the next four: a link in one of `from` is replaced. */
    method ReplaceLink(id: Uuid, from: set<LinkState>, next: EmailLink -> EmailLink) returns (ok: bool)
      requires LinksUnique(links) && forall l: EmailLink :: next(l).id == l.id
      modifies `links, `log
      ensures ok <==> id in old(links) && old(links)[id].state in from
      ensures View() == if ok then PutLink(old(View()), next(old(links)[id])) else old(View())
      ensures if ok then Logged(OnLink(id)) else log == old(log)
    {
      ok := id in links && links[id].state in from;
      if ok { Record(OnLink(id)); }
      if ok { links := links[id := next(links[id])]; }
    }

    method ActivateEmailLink(id: Uuid, now: Time) returns (ok: bool)
      requires LinksUnique(links)
      modifies `links, `log
      ensures ok <==> id in old(links) && old(links)[id].state == LinkPending
      ensures View() == if ok then PutLink(old(View()), Activated(old(links)[id], now)) else old(View())
      ensures if ok then Logged(OnLink(id)) else log == old(log)
    {
      ok := ReplaceLink(id, {LinkPending}, (l: EmailLink) => Activated(l, now));
    }

    method FailEmailLink(id: Uuid, now: Time) returns (ok: bool)
      requires LinksUnique(links)
      modifies `links, `log
      ensures ok <==> id in old(links) && old(links)[id].state == LinkPending
      ensures View() == if ok then PutLink(old(View()), ClosedAs(old(links)[id], LinkFailed, now)) else old(View())
      ensures if ok then Logged(OnLink(id)) else log == old(log)
    {
      ok := ReplaceLink(id, {LinkPending}, (l: EmailLink) => ClosedAs(l, LinkFailed, now));
    }

    method RevokeEmailLink(id: Uuid, now: Time) returns (ok: bool)
      requires LinksUnique(links)
      modifies `links, `log
      ensures ok <==> id in old(links) && old(links)[id].state in {LinkPending, LinkActive}
      ensures View() == if ok then PutLink(old(View()), ClosedAs(old(links)[id], LinkRevoked, now)) else old(View())
      ensures if ok then Logged(OnLink(id)) else log == old(log)
    {
      ok := ReplaceLink(id, {LinkPending, LinkActive}, (l: EmailLink) => ClosedAs(l, LinkRevoked, now));
    }

    method ConsumeEmailLink(id: Uuid, purpose: Purpose, now: Time) returns (ok: bool)
      requires LinksUnique(links)
      modifies `links, `log
      ensures ok <==> id in old(links) && old(links)[id].purpose == purpose && old(links)[id].state == LinkActive
                      && old(links)[id].expiresAt > now
      ensures View() == if ok then PutLink(old(View()), Consumed(old(links)[id], now)) else old(View())
      ensures if ok then Logged(OnLink(id)) else log == old(log)
    {
      ok := id in links && links[id].purpose == purpose && links[id].state == LinkActive && links[id].expiresAt > now;
      if ok { Record(OnLink(id)); }
      if ok { links := links[id := Consumed(links[id], now)]; }
    }

    method RevokeOtherActiveEmailLinks(keep: EmailLink, now: Time) returns (n: nat)
      requires LinksUnique(links)
      modifies `links, `log
      ensures View() == RevokeOtherActive(old(View()), keep, now)
      ensures n == |set id | id in old(links) && IsRival(old(links)[id], keep)|
      ensures Logged(OnThread(keep))
    {
      Record(OnThread(keep));
      var p := (l: EmailLink) => l.For(keep.userId, keep.purpose) && l.id != keep.id && l.state == LinkActive;
      assert Matching(links, p) == set id | id in links && IsRival(links[id], keep);
      links, n := Revise(links, p, (l: EmailLink) => ClosedAs(l, LinkRevoked, now));
      assert links == RevokeOtherActive(old(View()), keep, now).links;
    }

    // Passkeys -------------------------------------------------------------------------------------------

    method DeleteExpiredPasskeyChallenges(now: Time) returns (n: nat)
      modifies `passkeyChallenges
      ensures View() == PrunePasskeyChallenges(old(View()), now)
      ensures n == |set id | id in old(passkeyChallenges) && old(passkeyChallenges)[id].expiresAt <= now|
    {
      var p := (c: PasskeyChallenge) => c.expiresAt <= now;
      assert Matching(passkeyChallenges, p)
          == set id | id in passkeyChallenges && passkeyChallenges[id].expiresAt <= now;
      passkeyChallenges, n := Drop(passkeyChallenges, p);
      assert passkeyChallenges == PrunePasskeyChallenges(old(View()), now).passkeyChallenges;
    }

    method InsertPasskeyChallenge(c: PasskeyChallenge) returns (ok: bool)
      modifies `passkeyChallenges
      ensures ok <==> !PasskeyChallengeClashes(old(passkeyChallenges), c)
      ensures View() == if ok then PutPasskeyChallenge(old(View()), c) else old(View())
    {
      var twin := First(passkeyChallenges, (x: PasskeyChallenge) => x.challenge == c.challenge);
      ok := c.id !in passkeyChallenges && twin.None?;
      if ok { passkeyChallenges := passkeyChallenges[c.id := c]; }
    }

    method ConsumePasskeyChallenge(id: Uuid, purpose: CeremonyPurpose, now: Time, user: Option<Uuid>,
                                   family: Option<Uuid>)
      returns (r: Option<PasskeyChallenge>)
      requires ChallengesKeyed(View())
      modifies `passkeyChallenges
      ensures r.Some? <==> PasskeyConsumable(old(passkeyChallenges), id, purpose, now, user, family)
      ensures r.Some? ==> r.value == old(passkeyChallenges)[id].(consumedAt := Some(now))
      ensures View() == if r.Some? then PutPasskeyChallenge(old(View()), r.value) else old(View())
    {
      r := None;
      if id in passkeyChallenges {
        var c := passkeyChallenges[id];
        if c.purpose == purpose && c.userId == user && c.familyId == family && c.consumedAt.None? && c.expiresAt > now {
          r := Some(c.(consumedAt := Some(now)));
          passkeyChallenges := passkeyChallenges[id := r.value];
        }
      }
    }

    method CountPasskeys(user: Uuid) returns (n: nat)
      ensures n == |UsablePasskeys(passkeys, user)|
    {
      var p := (k: Passkey) => k.userId == user && k.revokedAt.None?;
      n := Count(passkeys, p);
      assert Matching(passkeys, p) == UsablePasskeys(passkeys, user);
    }

    method GetPasskeyById(id: Uuid, user: Uuid, forUpdate: bool) returns (r: Option<Passkey>)
      modifies `log
      ensures r == if id in passkeys && passkeys[id].userId == user then Some(passkeys[id]) else None
      ensures if forUpdate && r.Some? then Logged(OnPasskey(id)) else log == old(log)
    {
      r := if id in passkeys && passkeys[id].userId == user then Some(passkeys[id]) else None;
      if forUpdate && r.Some? { Record(OnPasskey(id)); }
    }

    method GetPasskeyByCredentialId(credential: string, forUpdate: bool) returns (r: Option<Passkey>)
      requires PasskeysUnique(passkeys)
      modifies `log
      ensures r == PasskeyByCredential(passkeys, credential)
      ensures if forUpdate && r.Some? then Logged(OnPasskey(r.value.id)) else log == old(log)
    {
      r := First(passkeys, (k: Passkey) => k.credentialId == credential);
      if r.Some? { assert SameCredential(PasskeyByCredential(passkeys, credential).value, r.value); }
      if forUpdate && r.Some? { Record(OnPasskey(r.value.id)); }
    }

    method InsertPasskey(k: Passkey) returns (ok: bool)
      modifies `passkeys, `log
      ensures ok <==> !(k.id in old(passkeys) || CredentialTaken(old(passkeys), k.credentialId))
      ensures View() == if ok then PutPasskey(old(View()), k) else old(View())
      ensures if ok then Logged(AddPasskey(k.id)) else log == old(log)
    {
      var twin := First(passkeys, (x: Passkey) => x.credentialId == k.credentialId);
      ok := k.id !in passkeys && twin.None?;
      if ok {
        passkeys := passkeys[k.id := k];
        Record(AddPasskey(k.id));
      }
    }

    method UpdatePasskey(k: Passkey)
      requires k.id in passkeys
      modifies `passkeys, `log
      ensures View() == PutPasskey(old(View()), k)
      ensures Logged(OnPasskey(k.id))
    {
      Record(OnPasskey(k.id));
      passkeys := passkeys[k.id := k];
    }

    // Google ---------------------------------------------------------------------------------------------

    method DeleteExpiredGoogleChallenges(now: Time) returns (n: nat)
      modifies `googleChallenges
      ensures View() == PruneGoogleChallenges(old(View()), now)
      ensures n == |set id | id in old(googleChallenges) && old(googleChallenges)[id].expiresAt <= now|
    {
      var p := (c: GoogleChallenge) => c.expiresAt <= now;
      assert Matching(googleChallenges, p) == set id | id in googleChallenges && googleChallenges[id].expiresAt <= now;
      googleChallenges, n := Drop(googleChallenges, p);
      assert googleChallenges == PruneGoogleChallenges(old(View()), now).googleChallenges;
    }

    method InsertGoogleChallenge(c: GoogleChallenge) returns (ok: bool)
      modifies `googleChallenges
      ensures ok <==> !GoogleChallengeClashes(old(googleChallenges), c)
      ensures View() == if ok then PutGoogleChallenge(old(View()), c) else old(View())
    {
      var twin := First(googleChallenges, (x: GoogleChallenge) => x.nonce == c.nonce);
      ok := c.id !in googleChallenges && twin.None?;
      if ok { googleChallenges := googleChallenges[c.id := c]; }
    }

    method ConsumeGoogleChallenge(id: Uuid, purpose: GooglePurpose, now: Time, user: Option<Uuid>)
      returns (r: Option<GoogleChallenge>)
      requires ChallengesKeyed(View())
      modifies `googleChallenges
      ensures r.Some? <==> GoogleConsumable(old(googleChallenges), id, purpose, now, user)
      ensures r.Some? ==> r.value == old(googleChallenges)[id].(consumedAt := Some(now))
      ensures View() == if r.Some? then PutGoogleChallenge(old(View()), r.value) else old(View())
    {
      r := None;
      if id in googleChallenges {
        var c := googleChallenges[id];
        if c.purpose == purpose && c.userId == user && c.consumedAt.None? && c.expiresAt > now {
          r := Some(c.(consumedAt := Some(now)));
          googleChallenges := googleChallenges[id := r.value];
        }
      }
    }

    method GetExternalIdentity(issuer: string, subject: string, forUpdate: bool) returns (r: Option<Identity>)
      requires IdentitiesOneToOne(identities)
      modifies `log
      ensures r == IdentityBySubject(identities, issuer, subject)
      ensures if forUpdate && r.Some? then Logged(OnIdentity(r.value.id)) else log == old(log)
    {
      r := First(identities, (i: Identity) => i.issuer == issuer && i.subject == subject);
      if r.Some? { assert Rivals(IdentityBySubject(identities, issuer, subject).value, r.value); }
      if forUpdate && r.Some? { Record(OnIdentity(r.value.id)); }
    }

    method GetExternalIdentityForUser(user: Uuid, issuer: string, forUpdate: bool) returns (r: Option<Identity>)
      requires IdentitiesOneToOne(identities)
      modifies `log
      ensures r == IdentityOfUser(identities, user, issuer)
      ensures if forUpdate && r.Some? then Logged(OnIdentity(r.value.id)) else log == old(log)
    {
      r := First(identities, (i: Identity) => i.userId == user && i.issuer == issuer);
      if r.Some? { assert Rivals(IdentityOfUser(identities, user, issuer).value, r.value); }
      if forUpdate && r.Some? { Record(OnIdentity(r.value.id)); }
    }

    method InsertExternalIdentity(i: Identity) returns (ok: bool)
      modifies `identities, `log
      ensures ok <==> !IdentityClashes(old(identities), i)
      ensures View() == if ok then PutIdentity(old(View()), i) else old(View())
      ensures if ok then Logged(AddIdentity(i.id)) else log == old(log)
    {
      var twin := First(identities, (x: Identity) =>
        (x.issuer == i.issuer && x.subject == i.subject) || (x.userId == i.userId && x.issuer == i.issuer));
      ok := i.id !in identities && twin.None?;
      if ok {
        identities := identities[i.id := i];
        Record(AddIdentity(i.id));
      }
    }

    method UpdateExternalIdentity(i: Identity)
      requires i.id in identities
      modifies `identities, `log
      ensures View() == PutIdentity(old(View()), i)
      ensures Logged(OnIdentity(i.id))
    {
      Record(OnIdentity(i.id));
      identities := identities[i.id := i];
    }

    method DeleteExternalIdentity(id: Uuid)
      requires id in identities
      modifies `identities, `log
      ensures View() == DropIdentity(old(View()), id)
      ensures Logged(OnIdentity(id))
    {
      Record(OnIdentity(id));
      identities := identities - {id};
      assert identities == DropIdentity(old(View()), id).identities;
    }
  }
}
