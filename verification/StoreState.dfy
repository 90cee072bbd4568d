/** The abstract value of the store, and the effect each transaction method has on it. */
module StoreState {
  import opened Models

  datatype State = State(
    users: map<Uuid, User>,
    sessions: map<Uuid, Session>,
    passkeys: map<Uuid, Passkey>,
    passkeyChallenges: map<Uuid, PasskeyChallenge>,
    identities: map<Uuid, Identity>,
    googleChallenges: map<Uuid, GoogleChallenge>,
    links: map<Uuid, EmailLink>)

  const EMPTY := State(map[], map[], map[], map[], map[], map[], map[])

  datatype Reply = Reply(st: State, out: Outcome)

  // Users ------------------------------------------------------------------------------------

  function PutUser(s: State, u: User): State { s.(users := s.users[u.id := u]) }

  predicate EmailTaken(users: map<Uuid, User>, email: string, except: Option<Uuid>) {
    exists id :: id in users && users[id].email == email && Some(id) != except
  }

  ghost function UserByEmail(users: map<Uuid, User>, email: string): Option<User> {
    if EmailTaken(users, email, None)
    then var id :| id in users && users[id].email == email; Some(users[id])
    else None
  }

  function UserById(users: map<Uuid, User>, id: Uuid): Option<User> {
    if id in users then Some(users[id]) else None
  }

  function InRole(users: map<Uuid, User>, role: string, activeOnly: bool): set<Uuid> {
    set id | id in users && users[id].HasRole(role) && (activeOnly ==> users[id].status == Active)
  }

  // Sessions ---------------------------------------------------------------------------------

  function PutSession(s: State, x: Session): State { s.(sessions := s.sessions[x.id := x]) }

  predicate TokenTaken(sessions: map<Uuid, Session>, hash: Hash) {
    exists id :: id in sessions && sessions[id].tokenHash == hash
  }

  ghost function SessionByToken(sessions: map<Uuid, Session>, hash: Hash): Option<Session> {
    if TokenTaken(sessions, hash)
    then var id :| id in sessions && sessions[id].tokenHash == hash; Some(sessions[id])
    else None
  }

  function SessionById(sessions: map<Uuid, Session>, id: Uuid): Option<Session> {
    if id in sessions then Some(sessions[id]) else None
  }

  function RevokedIf(x: Session, hit: bool, at: Time): Session {
    if hit && x.revokedAt.None? then x.(revokedAt := Some(at)) else x
  }

  function RevokeFamily(s: State, family: Uuid, at: Time): State {
    s.(sessions := map id | id in s.sessions ::
         RevokedIf(s.sessions[id], s.sessions[id].familyId == family, at))
  }

  function RevokeUserSessions(s: State, user: Uuid, at: Time): State {
    s.(sessions := map id | id in s.sessions ::
         RevokedIf(s.sessions[id], s.sessions[id].userId == user, at))
  }

  function LiveInFamily(sessions: map<Uuid, Session>, family: Uuid): set<Uuid> {
    set id | id in sessions && sessions[id].familyId == family && sessions[id].revokedAt.None?
  }

  function LiveOfUser(sessions: map<Uuid, Session>, user: Uuid): set<Uuid> {
    set id | id in sessions && sessions[id].userId == user && sessions[id].revokedAt.None?
  }

  // Email links ------------------------------------------------------------------------------

  function PutLink(s: State, l: EmailLink): State { s.(links := s.links[l.id := l]) }

  function PruneLinks(s: State, before: Time): State {
    s.(links := map id | id in s.links && s.links[id].createdAt >= before :: s.links[id])
  }

  function Requests(links: map<Uuid, EmailLink>, user: Uuid, p: Purpose, since: Time): set<Uuid> {
    set id | id in links && links[id].For(user, p) && links[id].createdAt >= since
  }

  predicate HasLink(links: map<Uuid, EmailLink>, user: Uuid, p: Purpose) {
    exists id :: id in links && links[id].For(user, p)
  }

  predicate IsLatest(links: map<Uuid, EmailLink>, user: Uuid, p: Purpose, id: Uuid) {
    && id in links && links[id].For(user, p)
    && forall k :: k in links && links[k].For(user, p) ==> links[k].generation <= links[id].generation
  }

  lemma {:induction false} LatestExists(links: map<Uuid, EmailLink>, user: Uuid, p: Purpose)
    requires HasLink(links, user, p)
    ensures exists id :: IsLatest(links, user, p, id)
    decreases |links|
  {
    var k :| k in links && links[k].For(user, p);
    var rest := map id | id in links && id != k :: links[id];
    assert links.Keys == rest.Keys + {k};
    if HasLink(rest, user, p) {
      LatestExists(rest, user, p);
      var m :| IsLatest(rest, user, p, m);
      assert IsLatest(links, user, p, if links[m].generation <= links[k].generation then k else m);
    } else {
      assert forall id :: id in links && links[id].For(user, p) ==> id == k || id in rest;
      assert IsLatest(links, user, p, k);
    }
  }

  ghost function LatestLink(links: map<Uuid, EmailLink>, user: Uuid, p: Purpose): Option<EmailLink> {
    if HasLink(links, user, p) then
      LatestExists(links, user, p);
      var id :| IsLatest(links, user, p, id);
      Some(links[id])
    else None
  }

  predicate LinkTokenTaken(links: map<Uuid, EmailLink>, hash: Hash, p: Purpose) {
    exists id :: id in links && links[id].tokenHash == hash && links[id].purpose == p
  }

  ghost function LinkByToken(links: map<Uuid, EmailLink>, hash: Hash, p: Purpose): Option<EmailLink> {
    if LinkTokenTaken(links, hash, p)
    then var id :| id in links && links[id].tokenHash == hash && links[id].purpose == p; Some(links[id])
    else None
  }

  /** The uniqueness checks of `insert_email_link`. */
  predicate LinkClashes(links: map<Uuid, EmailLink>, l: EmailLink) {
    || l.id in links
    || exists id :: id in links && Alike(links[id], l)
  }

  predicate Alike(a: EmailLink, b: EmailLink) {
    a.tokenHash == b.tokenHash || (a.For(b.userId, b.purpose) && a.generation == b.generation)
  }

  function Activated(l: EmailLink, at: Time): EmailLink {
    l.(state := LinkActive, deliveredAt := Some(at))
  }

  function ClosedAs(l: EmailLink, state: LinkState, at: Time): EmailLink {
    l.(state := state, revokedAt := Some(at))
  }

  function Consumed(l: EmailLink, at: Time): EmailLink {
    l.(state := LinkConsumed, consumedAt := Some(at))
  }

  function RevokedUnless(l: EmailLink, keep: EmailLink, at: Time): EmailLink {
    if l.For(keep.userId, keep.purpose) && l.id != keep.id && l.state == LinkActive
    then ClosedAs(l, LinkRevoked, at) else l
  }

  function RevokeOtherActive(s: State, keep: EmailLink, at: Time): State {
    s.(links := map id | id in s.links :: RevokedUnless(s.links[id], keep, at))
  }

  // Passkeys, identities and challenges --------------------------------------------------------

  function PutPasskey(s: State, p: Passkey): State { s.(passkeys := s.passkeys[p.id := p]) }

  predicate CredentialTaken(passkeys: map<Uuid, Passkey>, credential: string) {
    exists id :: id in passkeys && passkeys[id].credentialId == credential
  }

  ghost function PasskeyByCredential(passkeys: map<Uuid, Passkey>, credential: string): Option<Passkey> {
    if CredentialTaken(passkeys, credential)
    then var id :| id in passkeys && passkeys[id].credentialId == credential; Some(passkeys[id])
    else None
  }

  function UsablePasskeys(passkeys: map<Uuid, Passkey>, user: Uuid): set<Uuid> {
    set id | id in passkeys && passkeys[id].userId == user && passkeys[id].revokedAt.None?
  }

  function PutPasskeyChallenge(s: State, c: PasskeyChallenge): State {
    s.(passkeyChallenges := s.passkeyChallenges[c.id := c])
  }

  function PrunePasskeyChallenges(s: State, now: Time): State {
    s.(passkeyChallenges := map id | id in s.passkeyChallenges && s.passkeyChallenges[id].expiresAt > now
         :: s.passkeyChallenges[id])
  }

  predicate PasskeyChallengeClashes(cs: map<Uuid, PasskeyChallenge>, c: PasskeyChallenge) {
    c.id in cs || exists id :: id in cs && cs[id].challenge == c.challenge
  }

  predicate PasskeyConsumable(cs: map<Uuid, PasskeyChallenge>, id: Uuid, purpose: CeremonyPurpose,
                              now: Time, user: Option<Uuid>, family: Option<Uuid>)
  {
    && id in cs && cs[id].purpose == purpose && cs[id].userId == user && cs[id].familyId == family
    && cs[id].consumedAt.None? && cs[id].expiresAt > now
  }

  function PutGoogleChallenge(s: State, c: GoogleChallenge): State {
    s.(googleChallenges := s.googleChallenges[c.id := c])
  }

  function PruneGoogleChallenges(s: State, now: Time): State {
    s.(googleChallenges := map id | id in s.googleChallenges && s.googleChallenges[id].expiresAt > now
         :: s.googleChallenges[id])
  }

  predicate GoogleChallengeClashes(cs: map<Uuid, GoogleChallenge>, c: GoogleChallenge) {
    c.id in cs || exists id :: id in cs && cs[id].nonce == c.nonce
  }

  predicate GoogleConsumable(cs: map<Uuid, GoogleChallenge>, id: Uuid, purpose: GooglePurpose,
                             now: Time, user: Option<Uuid>)
  {
    && id in cs && cs[id].purpose == purpose && cs[id].userId == user
    && cs[id].consumedAt.None? && cs[id].expiresAt > now
  }

  function PutIdentity(s: State, i: Identity): State { s.(identities := s.identities[i.id := i]) }

  function DropIdentity(s: State, id: Uuid): State {
    s.(identities := map k | k in s.identities && k != id :: s.identities[k])
  }

  predicate IdentityTaken(ids: map<Uuid, Identity>, issuer: string, subject: string) {
    exists id :: id in ids && ids[id].issuer == issuer && ids[id].subject == subject
  }

  predicate IssuerTaken(ids: map<Uuid, Identity>, user: Uuid, issuer: string) {
    exists id :: id in ids && ids[id].userId == user && ids[id].issuer == issuer
  }

  ghost function IdentityBySubject(ids: map<Uuid, Identity>, issuer: string, subject: string): Option<Identity> {
    if IdentityTaken(ids, issuer, subject)
    then var id :| id in ids && ids[id].issuer == issuer && ids[id].subject == subject; Some(ids[id])
    else None
  }

  ghost function IdentityOfUser(ids: map<Uuid, Identity>, user: Uuid, issuer: string): Option<Identity> {
    if IssuerTaken(ids, user, issuer)
    then var id :| id in ids && ids[id].userId == user && ids[id].issuer == issuer; Some(ids[id])
    else None
  }

  predicate IdentityClashes(ids: map<Uuid, Identity>, i: Identity) {
    i.id in ids || IdentityTaken(ids, i.issuer, i.subject) || IssuerTaken(ids, i.userId, i.issuer)
  }

  // Uniqueness ---------------------------------------------------------------------------------

  predicate SameEmail(a: User, b: User) { a.email == b.email }

  predicate UsersUnique(users: map<Uuid, User>) {
    && (forall id :: id in users ==> users[id].id == id)
    && (forall a, b {:trigger SameEmail(users[a], users[b])} ::
          a in users && b in users && SameEmail(users[a], users[b]) ==> a == b)
  }

  predicate SameToken(a: Session, b: Session) { a.tokenHash == b.tokenHash }

  predicate SessionsUnique(sessions: map<Uuid, Session>) {
    && (forall id :: id in sessions ==> sessions[id].id == id)
    && (forall a, b {:trigger SameToken(sessions[a], sessions[b])} ::
          a in sessions && b in sessions && SameToken(sessions[a], sessions[b]) ==> a == b)
  }

  predicate SameFamily(a: Session, b: Session) { a.familyId == b.familyId }

  /** The members of a family belong to one account. */
  predicate FamiliesOwned(sessions: map<Uuid, Session>) {
    forall a, b {:trigger SameFamily(sessions[a], sessions[b])} ::
      a in sessions && b in sessions && SameFamily(sessions[a], sessions[b]) ==>
        sessions[a].userId == sessions[b].userId
  }

  predicate LinksUnique(links: map<Uuid, EmailLink>) {
    && (forall id :: id in links ==> links[id].id == id)
    && (forall a, b {:trigger Alike(links[a], links[b])} ::
          a in links && b in links && Alike(links[a], links[b]) ==> a == b)
  }

  predicate SameCredential(a: Passkey, b: Passkey) { a.credentialId == b.credentialId }

  predicate PasskeysUnique(passkeys: map<Uuid, Passkey>) {
    && (forall id :: id in passkeys ==> passkeys[id].id == id)
    && (forall a, b {:trigger SameCredential(passkeys[a], passkeys[b])} ::
          a in passkeys && b in passkeys && SameCredential(passkeys[a], passkeys[b]) ==> a == b)
  }

  predicate Rivals(a: Identity, b: Identity) {
    a.issuer == b.issuer && (a.subject == b.subject || a.userId == b.userId)
  }

  /** (issuer, subject) and (user, issuer) determine each other, and the row. */
  predicate IdentitiesOneToOne(ids: map<Uuid, Identity>) {
    && (forall id :: id in ids ==> ids[id].id == id)
    && (forall a, b {:trigger Rivals(ids[a], ids[b])} ::
          a in ids && b in ids && Rivals(ids[a], ids[b]) ==> a == b)
  }

  predicate ChallengesKeyed(s: State) {
    && (forall id :: id in s.passkeyChallenges ==> s.passkeyChallenges[id].id == id)
    && (forall id :: id in s.googleChallenges ==> s.googleChallenges[id].id == id)
  }

  /** The UNIQUE constraints: what makes "the row with this key" well defined. */
  predicate Unique(s: State) {
    && UsersUnique(s.users) && SessionsUnique(s.sessions) && LinksUnique(s.links)
    && PasskeysUnique(s.passkeys) && IdentitiesOneToOne(s.identities) && ChallengesKeyed(s)
  }

  /** What the tables' constraints and the services guarantee of any stored state: keys are unique,
      sessions and links have their account, families one account. */
  predicate Fit(s: State) {
    && Unique(s) && FamiliesOwned(s.sessions)
    && (forall id :: id in s.sessions ==> s.sessions[id].userId in s.users)
    && (forall id :: id in s.links ==> s.links[id].userId in s.users)
  }
}
