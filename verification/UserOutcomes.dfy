/** When the operations of `_service_users.py` succeed and what they leave, told by the stored rows. */
module UserOutcomes {
  import opened Models
  import opened Config
  import opened StoreState
  import opened RowFacts
  import SessionOutcomes
  import UserRules

  /** No account has the id or the email. */
  predicate Vacant(users: map<Uuid, User>, id: Uuid, email: string) {
    id !in users && forall k :: k in users ==> users[k].email != email
  }

  /** The account a creation stores: its times are all `now`, its counters zero. */
  function Created(id: Uuid, email: string, name: string, hash: string, roles: seq<string>, scopes: seq<string>,
                   mustChange: bool, autoLink: bool, now: Time): User
  {
    User(id, email, name, hash, Active, roles, scopes, mustChange, true, false, autoLink, 0, 0, None,
         Some(now), Some(now), Some(now))
  }

  lemma CreationDecided(s: State, u: User)
    ensures UserRules.AddUser(s, u) == if Vacant(s.users, u.id, u.email)
                                       then Reply(s.(users := s.users[u.id := u]), UserSaved(u))
                                       else Reply(s, Rejected(UserExists))
  {
  }

  /** `create_admin`: only while no account of any status holds the role. */
  lemma AdminCreationDecided(cfg: Settings, s: State, id: Uuid, email: string, name: string, hash: string, now: Time)
    ensures var r := UserRules.CreateAdmin(cfg, s, id, email, name, hash, now);
            var u := Created(id, email, name, hash, [cfg.adminRole], ["auth:admin"], false, false, now);
            if exists k :: k in s.users && cfg.adminRole in s.users[k].roles
            then r == Reply(s, Rejected(AdminExists))
            else if !Vacant(s.users, id, email) then r == Reply(s, Rejected(UserExists))
            else r == Reply(s.(users := s.users[id := u]), UserSaved(u))
  {
    if exists k :: k in s.users && cfg.adminRole in s.users[k].roles {
      var k :| k in s.users && cfg.adminRole in s.users[k].roles;
      assert k in InRole(s.users, cfg.adminRole, false);
    }
    CreationDecided(s, Created(id, email, name, hash, [cfg.adminRole], ["auth:admin"], false, false, now));
  }

  lemma UserCreationDecided(s: State, id: Uuid, email: string, name: string, hash: string, roles: seq<string>,
                            scopes: seq<string>, autoLink: bool, now: Time)
    ensures var r := UserRules.CreateUser(s, id, email, name, hash, roles, scopes, autoLink, now);
            var u := Created(id, email, name, hash, roles, scopes, true, autoLink, now);
            r == if Vacant(s.users, id, email) then Reply(s.(users := s.users[id := u]), UserSaved(u))
                 else Reply(s, Rejected(UserExists))
  {
    CreationDecided(s, Created(id, email, name, hash, roles, scopes, true, autoLink, now));
  }

  // update_user ---------------------------------------------------------------------------------------

  /** An ACTIVE holder of the administrator role other than `id`. */
  predicate OtherAdmin(cfg: Settings, users: map<Uuid, User>, id: Uuid) {
    exists k :: k in users && k != id && users[k].status == Active && cfg.adminRole in users[k].roles
  }

  function Given<T>(named: Option<T>, kept: T): T { if named.Some? then named.value else kept }

  /** Each field that the update names has its value, and every other field but the version and the
      time of the update is as it was. */
  predicate Named(u: User, update: UserUpdate, w: User) {
    w == User(u.id, u.email, Given(update.displayName, u.displayName), u.passwordHash, Given(update.status, u.status),
              Given(update.roles, u.roles), Given(update.scopes, u.scopes), u.mustChangePassword,
              u.passwordLoginEnabled,
              Given(update.emailLinkLoginEnabled, u.emailLinkLoginEnabled),
              Given(update.googleAutoLinkAllowed, u.googleAutoLinkAllowed), w.securityVersion, u.failedLoginAttempts,
              u.lockedUntil, u.passwordChangedAt, u.createdAt, w.updatedAt)
  }

  /** The rows differ in more than the display name, the version and the time of the update. */
  predicate Differs(u: User, w: User) {
    w.(displayName := u.displayName, securityVersion := u.securityVersion, updatedAt := u.updatedAt) != u
  }

  predicate Updated(u: User, update: UserUpdate, now: Time, w: User) {
    && Named(u, update, w) && w.updatedAt == Some(now)
    && w.securityVersion == if Differs(u, w) then u.securityVersion + 1 else u.securityVersion
  }

  /** Nothing becomes pending, and a pending account can only be disabled. */
  predicate StatusAllowed(u: User, update: UserUpdate) {
    update.status.Some? ==>
      update.status.value == Disabled || (update.status.value == Active && u.status != PendingActivation)
  }

  /** The update takes an ACTIVE administrator's standing or role. */
  predicate Demotes(cfg: Settings, u: User, update: UserUpdate) {
    && u.status == Active && cfg.adminRole in u.roles
    && ((update.status.Some? && update.status.value != Active)
        || (update.roles.Some? && cfg.adminRole !in update.roles.value))
  }

  lemma OthersCounted(cfg: Settings, users: map<Uuid, User>, id: Uuid)
    requires id in users && users[id].status == Active && cfg.adminRole in users[id].roles
    ensures OtherAdmin(cfg, users, id) <==> |InRole(users, cfg.adminRole, true)| > 1
  {
    var admins := InRole(users, cfg.adminRole, true);
    assert |admins - {id}| == |admins| - 1;
    if OtherAdmin(cfg, users, id) {
      var k :| k in users && k != id && users[k].status == Active && cfg.adminRole in users[k].roles;
      assert k in admins - {id};
    } else {
      assert admins - {id} == {};
    }
  }

  lemma UpdateDecided(cfg: Settings, s: State, id: Uuid, update: UserUpdate, now: Time)
    requires UsersUnique(s.users) && id in s.users
    ensures var u := s.users[id];
            var r := UserRules.UpdateUser(cfg, s, id, update, now);
            if !StatusAllowed(u, update) then r == Reply(s, Rejected(Forbidden))
            else if Demotes(cfg, u, update) && !OtherAdmin(cfg, s.users, id)
            then r == Reply(s, Rejected(LastAdminRequired))
            else && r.out.UserSaved? && Updated(u, update, now, r.out.user)
                 && r.st == s.(users := s.users[id := r.out.user], sessions := r.st.sessions)
                 && if r.out.user.status == Disabled then AccountEnded(s.sessions, r.st.sessions, id, now)
                    else r.st.sessions == s.sessions
  {
    hide OtherAdmin, InRole, AccountEnded, Updated, Demotes, StatusAllowed, UsersUnique, RevokeUserSessions;
    hide UserRules.Merged, UserRules.SecurityChanged, UserRules.IsActiveAdmin, UserRules.StatusChangeRefused;
    hide UserRules.UpdateUser, NextRow;
    var u := s.users[id];
    UpdateTaken(cfg, s, id, update, now);
    UpdateMeans(cfg, u, update, now);
    SessionOutcomes.UserKey(s, id);
    if Demotes(cfg, u, update) { DemotedWas(cfg, u, update); OthersCounted(cfg, s.users, id); }
    SessionOutcomes.Ends(PutUser(s, NextRow(u, update, now)), id, 0, now);
  }

  lemma DemotedWas(cfg: Settings, u: User, update: UserUpdate)
    requires Demotes(cfg, u, update)
    ensures u.status == Active && cfg.adminRole in u.roles
  {
  }

  function NextRow(u: User, update: UserUpdate, now: Time): User {
    var merged := UserRules.Merged(u, update, now);
    if UserRules.SecurityChanged(u, merged) then merged.AdvanceSecurityVersion(now) else merged
  }

  lemma UpdateTaken(cfg: Settings, s: State, id: Uuid, update: UserUpdate, now: Time)
    requires id in s.users
    ensures var u := s.users[id];
            var w := NextRow(u, update, now);
            var r := UserRules.UpdateUser(cfg, s, id, update, now);
            if UserRules.StatusChangeRefused(u, update) then r == Reply(s, Rejected(Forbidden))
            else if UserRules.IsActiveAdmin(cfg, u)
                    && !UserRules.IsActiveAdmin(cfg, UserRules.Merged(u, update, now))
                    && |InRole(s.users, cfg.adminRole, true)| <= 1
            then r == Reply(s, Rejected(LastAdminRequired))
            else r == Reply(if w.status == Disabled then RevokeUserSessions(PutUser(s, w), id, now) else PutUser(s, w),
                            UserSaved(w))
  {
    hide UserRules.Merged, UserRules.SecurityChanged, UserRules.IsActiveAdmin, UserRules.StatusChangeRefused;
    hide InRole, RevokeUserSessions, User.AdvanceSecurityVersion;
  }

  /** What the rule computes, in the fields of the row and the update. */
  lemma UpdateMeans(cfg: Settings, u: User, update: UserUpdate, now: Time)
    ensures Updated(u, update, now, NextRow(u, update, now)) && NextRow(u, update, now).id == u.id
    ensures UserRules.StatusChangeRefused(u, update) <==> !StatusAllowed(u, update)
    ensures UserRules.IsActiveAdmin(cfg, u) && !UserRules.IsActiveAdmin(cfg, UserRules.Merged(u, update, now))
       <==> Demotes(cfg, u, update)
  {
    hide Updated, NextRow, UserRules.Merged, UserRules.IsActiveAdmin, Demotes;
    NextIsUpdated(u, update, now);
    DemotionMeans(cfg, u, update, now);
  }

  lemma NextIsUpdated(u: User, update: UserUpdate, now: Time)
    ensures Updated(u, update, now, NextRow(u, update, now)) && NextRow(u, update, now).id == u.id
  {
    var merged := UserRules.Merged(u, update, now);
    assert UserRules.SecurityChanged(u, merged) <==> Differs(u, merged);
  }

  lemma DemotionMeans(cfg: Settings, u: User, update: UserUpdate, now: Time)
    ensures UserRules.IsActiveAdmin(cfg, u) && !UserRules.IsActiveAdmin(cfg, UserRules.Merged(u, update, now))
       <==> Demotes(cfg, u, update)
  {
  }

  // reset_password and revoke_user_sessions -----------------------------------------------------------

  lemma ResetDecided(s: State, id: Uuid, hash: string, now: Time)
    requires UsersUnique(s.users) && id in s.users
    ensures var r := UserRules.ResetPassword(s, id, hash, now);
            var u := WithPassword(s.users[id], hash, true, true, now);
            && r.out == UserSaved(u) && r.st == s.(users := s.users[id := u], sessions := r.st.sessions)
            && AccountEnded(s.sessions, r.st.sessions, id, now)
  {
    SessionOutcomes.Ends(PutUser(s, WithPassword(s.users[id], hash, true, true, now)), id, 0, now);
  }

  lemma RevocationDecided(s: State, id: Uuid, now: Time)
    requires id in s.users
    ensures var r := UserRules.RevokeAllSessions(s, id, now);
            && r.out == Revoked(|set k | k in s.sessions && s.sessions[k].userId == id
                                         && s.sessions[k].revokedAt.None?|)
            && r.st == s.(sessions := r.st.sessions) && AccountEnded(s.sessions, r.st.sessions, id, now)
  {
    SessionOutcomes.Ends(s, id, 0, now);
    assert LiveOfUser(s.sessions, id)
        == set k | k in s.sessions && s.sessions[k].userId == id && s.sessions[k].revokedAt.None?;
  }

  lemma AccountUnknown(cfg: Settings, s: State, id: Uuid, update: UserUpdate, hash: string, now: Time)
    requires id !in s.users
    ensures UserRules.UpdateUser(cfg, s, id, update, now) == Reply(s, Rejected(UserNotFound))
    ensures UserRules.ResetPassword(s, id, hash, now) == Reply(s, Rejected(UserNotFound))
    ensures UserRules.RevokeAllSessions(s, id, now) == Reply(s, Rejected(UserNotFound))
  {
  }
}
