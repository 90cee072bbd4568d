/** What each operation of `_service_users.py` does to the store. */
module UserRules {
  import opened Models
  import opened Config
  import opened StoreState

  function AddUser(s: State, u: User): Reply {
    if u.id in s.users || EmailTaken(s.users, u.email, None) then Reply(s, Rejected(UserExists))
    else Reply(PutUser(s, u), UserSaved(u))
  }

  function NewAccount(id: Uuid, email: string, name: string, hash: string, roles: seq<string>,
                      scopes: seq<string>, now: Time): User
  {
    User(id, email, name, hash, Active, roles, scopes, false, true, false, false, 0, 0, None,
         Some(now), Some(now), Some(now))
  }

  function CreateAdmin(cfg: Settings, s: State, id: Uuid, email: string, name: string, hash: string,
                       now: Time): Reply
  {
    if InRole(s.users, cfg.adminRole, false) != {} then Reply(s, Rejected(AdminExists))
    else AddUser(s, NewAccount(id, email, name, hash, [cfg.adminRole], ["auth:admin"], now))
  }

  function CreateUser(s: State, id: Uuid, email: string, name: string, hash: string,
                      roles: seq<string>, scopes: seq<string>, autoLink: bool, now: Time): Reply
  {
    AddUser(s, NewAccount(id, email, name, hash, roles, scopes, now).(
              mustChangePassword := true, googleAutoLinkAllowed := autoLink))
  }

  function Or<T>(o: Option<T>, default: T): T { if o.Some? then o.value else default }

  predicate StatusChangeRefused(current: User, update: UserUpdate) {
    || update.status == Some(PendingActivation)
    || (current.status == PendingActivation && update.status != None && update.status != Some(Disabled))
  }

  function Merged(current: User, update: UserUpdate, now: Time): User {
    current.(
      displayName := Or(update.displayName, current.displayName),
      status := Or(update.status, current.status),
      roles := Or(update.roles, current.roles),
      scopes := Or(update.scopes, current.scopes),
      googleAutoLinkAllowed := Or(update.googleAutoLinkAllowed, current.googleAutoLinkAllowed),
      emailLinkLoginEnabled := Or(update.emailLinkLoginEnabled, current.emailLinkLoginEnabled),
      updatedAt := Some(now))
  }

  predicate SecurityChanged(current: User, merged: User) {
    || merged.status != current.status || merged.roles != current.roles || merged.scopes != current.scopes
    || merged.googleAutoLinkAllowed != current.googleAutoLinkAllowed
    || merged.emailLinkLoginEnabled != current.emailLinkLoginEnabled
  }

  predicate IsActiveAdmin(cfg: Settings, u: User) { u.status == Active && u.HasRole(cfg.adminRole) }

  function UpdateUser(cfg: Settings, s: State, id: Uuid, update: UserUpdate, now: Time): Reply {
    if id !in s.users then Reply(s, Rejected(UserNotFound))
    else
      var current := s.users[id];
      var merged := Merged(current, update, now);
      if StatusChangeRefused(current, update) then Reply(s, Rejected(Forbidden))
      else if IsActiveAdmin(cfg, current) && !IsActiveAdmin(cfg, merged)
              && |InRole(s.users, cfg.adminRole, true)| <= 1
      then Reply(s, Rejected(LastAdminRequired))
      else
        var updated := if SecurityChanged(current, merged) then merged.AdvanceSecurityVersion(now) else merged;
        var s1 := PutUser(s, updated);
        Reply(if updated.status == Disabled then RevokeUserSessions(s1, id, now) else s1, UserSaved(updated))
  }

  function ResetPassword(s: State, id: Uuid, hash: string, now: Time): Reply {
    if id !in s.users then Reply(s, Rejected(UserNotFound))
    else
      var updated := s.users[id].RequirePasswordChange(hash, now);
      Reply(RevokeUserSessions(PutUser(s, updated), id, now), UserSaved(updated))
  }

  function RevokeAllSessions(s: State, id: Uuid, now: Time): Reply {
    if id !in s.users then Reply(s, Rejected(UserNotFound))
    else Reply(RevokeUserSessions(s, id, now), Revoked(|LiveOfUser(s.sessions, id)|))
  }
}
