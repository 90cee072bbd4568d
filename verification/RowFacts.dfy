/** What stored rows say in their own fields, without the rules of the services: who may be let in, and
    what a row looks like after a write. `SessionOutcomes` and the modules beside it state by these
    alone when each operation succeeds and what it leaves. */
module RowFacts {
  import opened Models
  import opened Config
  import opened StoreState

  // Accounts and sessions -----------------------------------------------------------------------------

  /** ACTIVE, and any lock is over. */
  predicate Standing(u: User, now: Time) {
    u.status == Active && (u.lockedUntil.None? || u.lockedUntil.value <= now)
  }

  predicate StandsAt(users: map<Uuid, User>, id: Uuid, now: Time) { id in users && Standing(users[id], now) }

  predicate Live(x: Session, now: Time) { x.revokedAt.None? && now < x.idleExpiresAt && now < x.absoluteExpiresAt }

  /** The principal's account stands, and its session is live and is the one the principal was given. */
  predicate Accepts(s: State, p: Principal, now: Time) {
    && StandsAt(s.users, p.userId, now)
    && p.sessionId in s.sessions
    && var x := s.sessions[p.sessionId];
       && Live(x, now)
       && x.id == p.sessionId && x.userId == p.userId && x.familyId == p.familyId
       && x.authenticatedAt - 1_000_000 <= p.authenticatedAt <= x.authenticatedAt + 1_000_000
  }

  /** Neither key of the session to be stored is taken. */
  predicate NewKeys(sessions: map<Uuid, Session>, draw: Fresh) {
    && draw.sessionId !in sessions
    && forall id :: id in sessions ==> sessions[id].tokenHash != Sha256(draw.refreshToken)
  }

  /** `x` is unused, not revoked, and carries what was drawn for it. */
  predicate Unused(x: Session, draw: Fresh) {
    && x.id == draw.sessionId && x.tokenHash == Sha256(draw.refreshToken) && x.csrfHash == Sha256(draw.csrfToken)
    && x.usedAt.None? && x.revokedAt.None? && x.replacedById.None?
  }

  /** `x` begins a family: a login of `user` at `now`. */
  predicate Begins(cfg: Settings, x: Session, user: Uuid, now: Time, draw: Fresh) {
    && Unused(x, draw) && x.userId == user && x.familyId == draw.familyId
    && x.createdAt == now && x.authenticatedAt == now
    && x.absoluteExpiresAt == now + 1_000_000 * cfg.refreshAbsoluteTtlSeconds
    && x.idleExpiresAt <= now + 1_000_000 * cfg.refreshIdleTtlSeconds && x.idleExpiresAt <= x.absoluteExpiresAt
    && (x.idleExpiresAt == now + 1_000_000 * cfg.refreshIdleTtlSeconds || x.idleExpiresAt == x.absoluteExpiresAt)
  }

  /** `x` continues the family of `past`, with its login time and absolute deadline. */
  predicate Succeeds(cfg: Settings, x: Session, past: Session, now: Time, draw: Fresh) {
    && Unused(x, draw) && x.userId == past.userId && x.familyId == past.familyId
    && x.createdAt == now && x.authenticatedAt == past.authenticatedAt
    && x.absoluteExpiresAt == past.absoluteExpiresAt
    && x.idleExpiresAt <= now + 1_000_000 * cfg.refreshIdleTtlSeconds && x.idleExpiresAt <= x.absoluteExpiresAt
    && (x.idleExpiresAt == now + 1_000_000 * cfg.refreshIdleTtlSeconds || x.idleExpiresAt == x.absoluteExpiresAt)
  }

  /** One session is new and begins a family of `user`; the others are as they were. */
  predicate OneBegun(cfg: Settings, a: map<Uuid, Session>, b: map<Uuid, Session>, user: Uuid, now: Time, draw: Fresh) {
    && draw.sessionId in b && Begins(cfg, b[draw.sessionId], user, now, draw)
    && b == a[draw.sessionId := b[draw.sessionId]]
  }

  /** Revoked at `at`, unless it was before. */
  function Ended(x: Session, at: Time): Session { if x.revokedAt.Some? then x else x.(revokedAt := Some(at)) }

  predicate AccountEnded(a: map<Uuid, Session>, b: map<Uuid, Session>, user: Uuid, at: Time) {
    && b.Keys == a.Keys
    && forall id :: id in a ==> b[id] == if a[id].userId == user then Ended(a[id], at) else a[id]
  }

  predicate FamilyEnded(a: map<Uuid, Session>, b: map<Uuid, Session>, family: Uuid, at: Time) {
    && b.Keys == a.Keys
    && forall id :: id in a ==> b[id] == if a[id].familyId == family then Ended(a[id], at) else a[id]
  }

  // Account rows after a write ------------------------------------------------------------------------

  /** The same account with another password: one version later, unlocked, no longer open to linking. */
  function WithPassword(u: User, hash: string, mustChange: bool, enabled: bool, at: Time): User {
    User(u.id, u.email, u.displayName, hash, u.status, u.roles, u.scopes, mustChange, enabled,
         u.emailLinkLoginEnabled, false, u.securityVersion + 1, 0, None, Some(at), u.createdAt, Some(at))
  }

  /** One version later, and otherwise the same. */
  function Advanced(u: User, at: Time): User { u.(securityVersion := u.securityVersion + 1, updatedAt := Some(at)) }

  /** One failed check more; at the limit the account is locked and one version later. */
  function Missed(cfg: Settings, u: User, at: Time): User {
    var attempts := if u.lockedUntil.Some? then 1 else u.failedLoginAttempts + 1;
    if attempts < cfg.loginMaxAttempts
    then u.(failedLoginAttempts := attempts, lockedUntil := None, updatedAt := Some(at))
    else Advanced(u, at).(failedLoginAttempts := attempts, lockedUntil := Some(at + 1_000_000 * cfg.lockoutSeconds))
  }
}
