/** What each operation of `_service_sessions.py` and `sessions.py` does to the store, as one
    atomic transaction. A `Rejected` reply keeps whatever the source commits before it raises. */
module SessionRules {
  import opened Models
  import opened Config
  import opened StoreState
  import opened Tokens

  // SessionIssuer.issue ----------------------------------------------------------------------

  // A login starts a family; a rotation keeps its family, absolute deadline and login time.
  datatype Lineage = NewLogin | Rotation(familyId: Uuid, absoluteExpiresAt: Time, authenticatedAt: Time)

  function NewSession(cfg: Settings, user: Uuid, now: Time, lineage: Lineage, draw: Fresh): Session {
    var family := if lineage.Rotation? then lineage.familyId else draw.familyId;
    var authenticatedAt := if lineage.Rotation? then lineage.authenticatedAt else now;
    var absolute := if lineage.Rotation? then lineage.absoluteExpiresAt
                    else now + Seconds(cfg.refreshAbsoluteTtlSeconds);
    Session(draw.sessionId, user, family, Sha256(draw.refreshToken), Sha256(draw.csrfToken),
            now, Min(now + Seconds(cfg.refreshIdleTtlSeconds), absolute), absolute, authenticatedAt,
            None, None, None)
  }

  function Bundle(cfg: Settings, user: User, x: Session, now: Time, draw: Fresh): SessionBundle {
    var principal := PrincipalFromSession(user, x);
    SessionBundle(IssueAccess(cfg, principal, now), draw.refreshToken, draw.csrfToken,
                  x.idleExpiresAt, x.absoluteExpiresAt, principal)
  }

  predicate SessionClashes(sessions: map<Uuid, Session>, x: Session) {
    x.id in sessions || TokenTaken(sessions, x.tokenHash)
  }

  function Issue(cfg: Settings, s: State, user: User, now: Time, lineage: Lineage, draw: Fresh): Reply {
    var x := NewSession(cfg, user.id, now, lineage, draw);
    if SessionClashes(s.sessions, x) then Reply(s, Rejected(StoreConflict))
    else Reply(PutSession(s, x), SessionIssued(Bundle(cfg, user, x, now, draw)))
  }

  /** A StoreConflictError inside the transaction restores the snapshot taken at its start; any other
      refusal of `r` was decided without an exception and commits what was written before it. */
  function OrRollback(before: State, r: Reply): Reply {
    if r.out == Rejected(StoreConflict) then Reply(before, r.out) else r
  }

  // Principals ---------------------------------------------------------------------------------

  predicate RowsStand(p: Principal, user: Option<User>, row: Option<Session>, now: Time) {
    && user.Some? && user.value.CanAuthenticate(now)
    && row.Some? && row.value.IsValidFor(p.AsSubject(), now)
  }

  /** `require_principal_session`. */
  predicate PrincipalStands(s: State, p: Principal, user: Option<User>, now: Time) {
    RowsStand(p, user, SessionById(s.sessions, p.sessionId), now)
  }

  /** A principal as `authenticate` hands it out: its session, if stored, is its user's. */
  predicate Genuine(s: State, p: Principal) {
    p.sessionId in s.sessions ==> s.sessions[p.sessionId].userId == p.userId
  }

  // Password checks ----------------------------------------------------------------------------

  function FailedAttempts(user: User, now: Time): int {
    if user.lockedUntil.Some? && user.lockedUntil.value <= now then 1 else user.failedLoginAttempts + 1
  }

  function AfterFailure(cfg: Settings, user: User, now: Time): User {
    var attempts := FailedAttempts(user, now);
    if attempts >= cfg.loginMaxAttempts
    then user.(failedLoginAttempts := attempts,
               lockedUntil := Some(now + Seconds(cfg.lockoutSeconds)),
               updatedAt := Some(now)).AdvanceSecurityVersion(now)
    else user.(failedLoginAttempts := attempts, lockedUntil := None, updatedAt := Some(now))
  }

  /** Whether `_record_password_failure` counts this failure against the account. */
  predicate Counts(user: Option<User>, now: Time) {
    user.Some? && user.value.passwordLoginEnabled && user.value.CanAuthenticate(now)
  }

  function RecordPasswordFailure(cfg: Settings, s: State, user: Option<User>, now: Time): State {
    if !Counts(user, now) then s
    else
      var failed := AfterFailure(cfg, user.value, now);
      var s1 := PutUser(s, failed);
      if failed.lockedUntil.Some? then RevokeUserSessions(s1, failed.id, now) else s1
  }

  function AfterVerification(user: User, v: PasswordVerification, now: Time): User {
    user.(passwordHash := if v.updatedHash.Some? then v.updatedHash.value else user.passwordHash,
          failedLoginAttempts := 0, lockedUntil := None, updatedAt := Some(now))
  }

  // Operations ---------------------------------------------------------------------------------

  predicate LoginRefused(user: Option<User>, v: PasswordVerification, now: Time) {
    || user.None? || !user.value.passwordLoginEnabled || !user.value.CanAuthenticate(now) || !v.valid
  }

  // The `Decide` functions start from the rows as they were read, under lock where the source locks.

  function DecideLogin(cfg: Settings, s: State, user: Option<User>, v: PasswordVerification,
                       now: Time, draw: Fresh): Reply
  {
    if LoginRefused(user, v, now)
    then Reply(RecordPasswordFailure(cfg, s, user, now), Rejected(InvalidCredentials))
    else
      var verified := AfterVerification(user.value, v, now);
      OrRollback(s, Issue(cfg, PutUser(s, verified), verified, now, NewLogin, draw))
  }

  ghost function Login(cfg: Settings, s: State, email: string, v: PasswordVerification,
                       now: Time, draw: Fresh): Reply
  {
    DecideLogin(cfg, s, UserByEmail(s.users, email), v, now, draw)
  }

  function DecideReauthenticate(cfg: Settings, s: State, p: Principal, user: Option<User>, row: Option<Session>,
                                v: PasswordVerification, now: Time): Reply
  {
    if !RowsStand(p, user, row, now) then Reply(s, Rejected(InvalidSession))
    else if !user.value.passwordLoginEnabled || !v.valid
    then Reply(RecordPasswordFailure(cfg, s, user, now), Rejected(InvalidCredentials))
    else Reply(PutUser(s, AfterVerification(user.value, v, now)),
               Reauthenticated(p.userId, p.sessionId, p.familyId, now))
  }

  function Reauthenticate(cfg: Settings, s: State, p: Principal, v: PasswordVerification, now: Time): Reply {
    DecideReauthenticate(cfg, s, p, UserById(s.users, p.userId), SessionById(s.sessions, p.sessionId), v, now)
  }

  /** `authenticate`, after the access token has been verified into `claims`. */
  function Authenticate(s: State, claims: Subject, now: Time): Option<Principal> {
    var user := UserById(s.users, claims.userId);
    var x := SessionById(s.sessions, claims.sessionId);
    if user.None? || x.None? || !user.value.CanAuthenticate(now) || !x.value.IsValidFor(claims, now)
    then None
    else Some(PrincipalFromSession(user.value, x.value))
  }

  function DecideRefresh(cfg: Settings, s: State, hash: Hash, user: Option<User>, row: Option<Session>,
                         csrf: string, now: Time, draw: Fresh): Reply
  {
    if row.None? || row.value.tokenHash != hash || row.value.revokedAt.Some?
    then Reply(s, Rejected(InvalidSession))
    else
      var x := row.value;
      if x.usedAt.Some? || x.idleExpiresAt <= now || x.absoluteExpiresAt <= now
      then Reply(RevokeFamily(s, x.familyId, now), Rejected(InvalidSession))
      else if x.csrfHash != Sha256(csrf)
      then Reply(s, Rejected(InvalidCsrf))
      else if user.None? || !user.value.CanAuthenticate(now)
      then Reply(RevokeFamily(s, x.familyId, now), Rejected(InvalidSession))
      else
        var issued := Issue(cfg, s, user.value, now,
                            Rotation(x.familyId, x.absoluteExpiresAt, x.authenticatedAt), draw);
        if issued.out.Rejected? then Reply(s, issued.out)
        else Reply(PutSession(issued.st, x.(usedAt := Some(now), replacedById := Some(draw.sessionId))),
                   issued.out)
  }

  ghost function Refresh(cfg: Settings, s: State, token: string, csrf: string,
                         now: Time, draw: Fresh): Reply
  {
    var candidate := SessionByToken(s.sessions, Sha256(token));
    if candidate.None? then Reply(s, Rejected(InvalidSession))
    else DecideRefresh(cfg, s, Sha256(token), UserById(s.users, candidate.value.userId),
                       SessionById(s.sessions, candidate.value.id), csrf, now, draw)
  }

  /** The Origin and double-submit checks that come before the transaction. */
  function GuardedRefusal(originOk: bool, cookie: string, header: string): Option<AuthError> {
    if !originOk then Some(InvalidOrigin)
    else if cookie == "" || header == "" || cookie != header then Some(InvalidCsrf)
    else None
  }

  ghost function GuardedRefresh(cfg: Settings, s: State, token: string, cookie: string, header: string,
                                originOk: bool, now: Time, draw: Fresh): Reply
  {
    var refusal := GuardedRefusal(originOk, cookie, header);
    if refusal.Some? then Reply(s, Rejected(refusal.value))
    else Refresh(cfg, s, token, cookie, now, draw)
  }

  function DecideLogout(s: State, hash: Hash, user: Option<User>, row: Option<Session>,
                        csrf: string, now: Time): Reply
  {
    if user.None? || row.None? || row.value.revokedAt.Some? || row.value.tokenHash != hash
    then Reply(s, Revoked(0))
    else if row.value.csrfHash != Sha256(csrf) then Reply(s, Rejected(InvalidCsrf))
    else Reply(RevokeFamily(s, row.value.familyId, now),
               Revoked(|LiveInFamily(s.sessions, row.value.familyId)|))
  }

  ghost function Logout(s: State, token: string, csrf: string, now: Time): Reply {
    var candidate := SessionByToken(s.sessions, Sha256(token));
    if candidate.None? || candidate.value.revokedAt.Some? then Reply(s, Revoked(0))
    else DecideLogout(s, Sha256(token), UserById(s.users, candidate.value.userId),
                      SessionById(s.sessions, candidate.value.id), csrf, now)
  }

  ghost function GuardedLogout(s: State, token: string, cookie: string, header: string,
                               originOk: bool, now: Time): Reply
  {
    if !originOk then Reply(s, Rejected(InvalidOrigin))
    else if token == "" then Reply(s, Revoked(0))
    else
      var refusal := GuardedRefusal(true, cookie, header);
      if refusal.Some? then Reply(s, Rejected(refusal.value)) else Logout(s, token, cookie, now)
  }

  /** The password verdicts: the new one meets the rules, the current one is right, they are equal. */
  datatype PasswordChange = PasswordChange(acceptable: bool, currentOk: bool, repeated: bool, newHash: string)

  function DecideChange(cfg: Settings, s: State, p: Principal, user: Option<User>, row: Option<Session>,
                        c: PasswordChange, now: Time, draw: Fresh): Reply
  {
    if !RowsStand(p, user, row, now) then Reply(s, Rejected(InvalidSession))
    else if !c.currentOk then Reply(s, Rejected(InvalidCredentials))
    else if c.repeated then Reply(s, Rejected(PasswordInvalid))
    else
      var changed := user.value.ActivatePassword(c.newHash, now);
      var cleared := RevokeUserSessions(PutUser(s, changed), changed.id, now);
      OrRollback(s, Issue(cfg, cleared, changed, now, NewLogin, draw))
  }

  function ChangePassword(cfg: Settings, s: State, p: Principal, c: PasswordChange,
                          now: Time, draw: Fresh): Reply
  {
    if !c.acceptable then Reply(s, Rejected(PasswordInvalid))
    else DecideChange(cfg, s, p, UserById(s.users, p.userId), SessionById(s.sessions, p.sessionId), c, now, draw)
  }
}
