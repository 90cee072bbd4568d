/** `_service_users.py` as it runs. */
module UserService {
  import opened Models
  import opened Config
  import opened StoreState
  import opened Statements
  import opened MemoryStore
  import SessionService
  import UserRules

  class UserService {
    const store: MemoryAuthStore
    const cfg: Settings

    constructor (store: MemoryAuthStore, cfg: Settings)
      ensures this.store == store && this.cfg == cfg
    {
      this.store, this.cfg := store, cfg;
    }

    method CreateAdmin(id: Uuid, email: string, name: string, hash: string, now: Time) returns (out: Outcome)
      modifies store
      ensures Reply(store.View(), out) == UserRules.CreateAdmin(cfg, old(store.View()), id, email, name, hash, now)
      ensures store.Ran(old(store.View()))
    {
      hide Orderly, MayFollow, InRole;
      var user := User(id, email, name, hash, Active, [cfg.adminRole], ["auth:admin"], false, true, false, false,
                       0, 0, None, Some(now), Some(now), Some(now));
      var snapshot := store.Begin();
      MayOpen(snapshot, [], OnAdmin);
      store.AcquireAdminLock();
      MayOpen(snapshot, store.log, AddUser(id));
      var admins := store.CountUsersWithRole(cfg.adminRole, false);
      if admins != 0 {
        store.Rollback(snapshot);
        return Rejected(AdminExists);
      }
      var stored := store.InsertUser(user);
      if !stored {
        store.Rollback(snapshot);
        return Rejected(UserExists);
      }
      return UserSaved(user);
    }

    method CreateUser(id: Uuid, email: string, name: string, hash: string, roles: seq<string>, scopes: seq<string>,
                      autoLink: bool, now: Time) returns (out: Outcome)
      modifies store
      ensures Reply(store.View(), out)
           == UserRules.CreateUser(old(store.View()), id, email, name, hash, roles, scopes, autoLink, now)
      ensures store.Ran(old(store.View()))
    {
      var user := User(id, email, name, hash, Active, roles, scopes, true, true, false, autoLink,
                       0, 0, None, Some(now), Some(now), Some(now));
      var snapshot := store.Begin();
      var stored := store.InsertUser(user);
      if !stored {
        store.Rollback(snapshot);
        return Rejected(UserExists);
      }
      return UserSaved(user);
    }

    /** The account that `_update_user` saves, and whether it stops being an active administrator. */
    method Merge(current: User, update: UserUpdate, now: Time) returns (updated: User, losesActiveAdmin: bool)
      ensures var merged := UserRules.Merged(current, update, now);
              && updated == (if UserRules.SecurityChanged(current, merged) then merged.AdvanceSecurityVersion(now)
                             else merged)
              && (losesActiveAdmin <==> UserRules.IsActiveAdmin(cfg, current) && !UserRules.IsActiveAdmin(cfg, merged))
      ensures updated.id == current.id && updated.email == current.email
    {
      var roles := if update.roles.Some? then update.roles.value else current.roles;
      var scopes := if update.scopes.Some? then update.scopes.value else current.scopes;
      var status := if update.status.Some? then update.status.value else current.status;
      var displayName := if update.displayName.Some? then update.displayName.value else current.displayName;
      var autoLink := if update.googleAutoLinkAllowed.Some? then update.googleAutoLinkAllowed.value
                      else current.googleAutoLinkAllowed;
      var linkLogin := if update.emailLinkLoginEnabled.Some? then update.emailLinkLoginEnabled.value
                       else current.emailLinkLoginEnabled;
      losesActiveAdmin := current.status == Active && cfg.adminRole in current.roles
                          && (status != Active || cfg.adminRole !in roles);
      var securityChanged := status != current.status || roles != current.roles || scopes != current.scopes
                             || autoLink != current.googleAutoLinkAllowed || linkLogin != current.emailLinkLoginEnabled;
      updated := current.(displayName := displayName, status := status, roles := roles, scopes := scopes,
                          googleAutoLinkAllowed := autoLink, emailLinkLoginEnabled := linkLogin,
                          updatedAt := Some(now));
      if securityChanged { updated := updated.AdvanceSecurityVersion(now); }
    }

    /** `_update_user`, with its own transaction. */
    method UpdateUser(id: Uuid, update: UserUpdate, now: Time) returns (out: Outcome)
      requires Fit(store.View())
      modifies store
      ensures Reply(store.View(), out) == UserRules.UpdateUser(cfg, old(store.View()), id, update, now)
      ensures store.Ran(old(store.View()))
    {
      hide RevokeUserSessions, UserRules.Merged, UserRules.SecurityChanged, UserRules.IsActiveAdmin, InRole;
      hide User.AdvanceSecurityVersion, Unique, Orderly, Opens;
      var snapshot := store.Begin();
      MayOpen(snapshot, [], OnAdmin);
      store.AcquireAdminLock();
      MayOpen(snapshot, store.log, OnUser(id));
      var found := store.GetUserById(id, true);
      if found.None? {
        store.Rollback(snapshot);
        return Rejected(UserNotFound);
      }
      SessionService.UserKey(store.View(), id);
      SessionService.FitParts(store.View());
      var current := found.value;
      if update.status == Some(PendingActivation)
         || (current.status == PendingActivation && update.status != None && update.status != Some(Disabled)) {
        store.Rollback(snapshot);
        return Rejected(Forbidden);
      }
      var updated, losesActiveAdmin := Merge(current, update, now);
      if losesActiveAdmin {
        var admins := store.CountUsersWithRole(cfg.adminRole, true);
        if admins <= 1 {
          store.Rollback(snapshot);
          return Rejected(LastAdminRequired);
        }
      }
      if updated.status == Disabled {
        SessionService.SaveAndRevoke(store, updated, now);
      } else {
        SessionService.OwnEmail(store.users, updated);
        var _ := store.UpdateUser(updated);
      }
      return UserSaved(updated);
    }

    method ResetPassword(id: Uuid, hash: string, now: Time) returns (out: Outcome)
      requires Fit(store.View())
      modifies store
      ensures Reply(store.View(), out) == UserRules.ResetPassword(old(store.View()), id, hash, now)
      ensures store.Ran(old(store.View()))
      ensures store.log == if id in old(store.users) then [OnUser(id), OnUser(id), OnAccount(id)] else []
    {
      hide RevokeUserSessions;
      var snapshot := store.Begin();
      var current := store.GetUserById(id, true);
      if current.None? {
        store.Rollback(snapshot);
        return Rejected(UserNotFound);
      }
      SessionService.UserKey(store.View(), id);
      var updated := current.value.RequirePasswordChange(hash, now);
      SessionService.SaveAndRevoke(store, updated, now);
      return UserSaved(updated);
    }

    /** `revoke_user_sessions`: the one bulk write that takes no lock on the account. */
    method RevokeAllSessions(id: Uuid, now: Time) returns (out: Outcome)
      modifies store
      ensures Reply(store.View(), out) == UserRules.RevokeAllSessions(old(store.View()), id, now)
      ensures store.began == old(store.View())
      ensures store.log == if id in old(store.users) then [OnAccount(id)] else []
    {
      var snapshot := store.Begin();
      var user := store.GetUserById(id, false);
      if user.None? {
        store.Rollback(snapshot);
        return Rejected(UserNotFound);
      }
      var count := store.RevokeUserSessions(id, now);
      return Revoked(count);
    }
  }
}
