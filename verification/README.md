# The authentication state machine of epok-auth

This project models the transactional core of `epok-auth`: accounts, refresh-session families,
email links, Google identities, passkeys and one-time challenges, and the operations that change
them. It proves what each operation does, what all of them together keep over every run, and what
happens when calls interleave at their row locks.

`dafny verify dfyconfig.toml` checks everything.

## Layers

- **Values and rules.** `Models`, `Config` and `StoreState` hold the entities, the numeric settings
  and the abstract value of the store. `SessionRules`, `UserRules`, `LinkRules`, `GoogleRules`,
  `PasskeyRules` and `Tokens` say, operation by operation, which reply and which new store follow;
  a rejected reply keeps exactly what the source commits before it raises.
- **The imperative services.** `MemoryStore` is the store whose dictionaries are changed in place,
  with its snapshot and rollback; `Tables` has its loops. `SessionService`, `UserService`,
  `EmailLinkService`, `GoogleService` and `PasskeyService` run the operations as the source does, one
  read or write after another, and are proved to do to the store what the rules say. A ghost field of the
  store records the statements by which PostgreSQL locks rows at the same calls (`Statements`); each
  service method also proves that its transaction issues them in order.
- **Outcomes.** `SessionOutcomes`, `UserOutcomes`, `LinkOutcomes`, `GoogleOutcomes` and
  `PasskeyOutcomes` say of each operation exactly when it succeeds and what every outcome leaves, in
  the fields of the stored rows alone (`RowFacts`), so that no rule vouches for itself.
- **Runs.** `Machine` makes every transaction a step. An operation of several transactions, such as
  finishing a ceremony, is several steps, so others may come in between. `Invariant`, `SessionSafety`,
  `LinkSafety` and `Preservation` give the inductive invariant; `Frames` says which tables an operation
  depends on. `Runs`, `Constraints`, `LinkHistory`, `LinkRuns`, `Fence`, `Pruning`, `Lockout`,
  `TokenRoundTrip` and `Ceremonies` prove the properties of whole runs; `Flows` shows that the
  operations of several transactions are stretches of them.
- **Interleaving.** `Interleaving` splits session and credential calls at their locks and proves every
  schedule serial; `Progress` proves that none gets stuck. `LockOrder` proves a lock discipline free of
  deadlock; `Deadlock` proves that the transactions of all services keep to it when the store changes
  between their statements, and when administrative revocation deadlocks with them.

## Assumptions

- Identifiers, link tokens and family ids drawn at random were not drawn before (`FreshFor` in
  `Machine`). Session ids, refresh tokens, emails, credentials and identities need no such assumption:
  the store checks them, and the conflict is modelled.
- `token_hash` is injective; comparing hashes is comparing tokens.
- Whether a password, a Google credential or a WebAuthn response is right is an input of the
  operation, with everything the real verifier reports. So are the results of normalising emails,
  names and roles, and whether an origin is trusted (a canonical origin, or none).
- A step of a run acts on a clock reading of its own, which may be older than that of the step before:
  a transaction reads its clock before it waits for its locks, or in an earlier transaction of its
  operation. Only theorems about durations ask more, and say so: `Monotone`, that no step acts on an
  older reading than an earlier one did, or `Punctual`, that it does so by a given lag at most.
- `Config.Settings.Valid` is what `config.py` enforces of the numbers.
- A principal is one that `authenticate` hands out: where its session is stored, it is its user's.
  Only the lock discipline and the progress of schedules use this.
- The order of a transaction's statements is proved of its method for every state it may begin in, and
  only from what that state tells of the owners of rows, which later commits leave true
  (`Deadlock.OwnersStay`). `Deadlock` lets the statements run at any moments of a run; that a call whose
  reads are overtaken by other commits still issues one of the sequences its method can issue is taken
  from its code.

## Where the code decides

- Reporting the same delivery twice revokes the link that the first report activated
  (`LinkRuns.RepeatedDeliveryRevokes`). The documentation promises that a pending or failed replacement
  leaves the active link alone, which holds (`LinkRuns.ReplacementLeavesOthers`), and says nothing of a
  repeated report.
- A Google challenge answered from another origin is spent all the same.
- Administrative `revoke_user_sessions` takes no lock on the account before its bulk update. It is
  atomic in the runs; among interleaved transactions it can deadlock if and only if the account has
  two sessions to revoke (`Deadlock.RevocationDeadlocks`), so it is not among the calls of
  `Interleaving`.
- An account can become ACTIVE without its activation link: a pending one may be disabled and then
  enabled. Only `activate_account` itself happens at most once.

## Model

| member | source | states |
|---|---|---|
| Runs.Reachable | src/epok_auth/testing/memory.py:39-67 | every state that any sequence of committed transactions reaches, all services together, satisfies the store invariant |
| Runs.ReachableInOrder | src/epok_auth/testing/memory.py:39-67 | if moreover no step acts on an older clock reading than an earlier one did, sessions and links are dated in the order they replace each other |
| Runs.UnrevokedSessionsStand | src/epok_auth/_service_sessions.py:341-368 | in every reachable state a session without `revoked_at` belongs to an ACTIVE account whose `locked_until` is unset or past on the latest clock reading |
| Runs.FamiliesAreChains | src/epok_auth/_service_sessions.py:212-227 | a family is exactly one finite chain of `replaced_by_id`, from its login session to one unused head; all members share user, login time, absolute deadline and revocation |
| Runs.DeadlinesRise | src/epok_auth/sessions.py:44-51 | a replacement exists; no idle deadline passes the absolute one, which the family shares; and where the clock does not go back a replacement never has an earlier idle deadline |
| Runs.ReplacementsAreDistinct | src/epok_auth/postgres/tables.py:93 | `replaced_by_id` is injective |
| Runs.RefreshNeverExtendsLogin | src/epok_auth/_service_sessions.py:203-220 | a session active at t satisfies t < creation of its family's first session + absolute TTL, whatever number of refreshes |
| Runs.FamiliesRevokedWhole | src/epok_auth/testing/memory.py:163-177 | a family is either wholly revoked or wholly unrevoked |
| Runs.RevocationIsPermanent | src/epok_auth/_service_sessions.py:186-227 | no later step un-revokes a session, changes when it was revoked, or adds a member to its family |
| Runs.AdminRemains | src/epok_auth/_service_users.py:158-234 | once an ACTIVE user holds the admin role, every later state has one |
| Runs.VersionsNeverFall | src/epok_auth/models.py:86-91 | `security_version` never decreases and accounts never vanish |
| Runs.PendingNeverReturns | src/epok_auth/_service_users.py:173-181 | an account that is not PENDING_ACTIVATION never is again |
| Runs.ActivatedOnce | src/epok_auth/email_links/activation.py:143-189 | an account passes through `activate_account` at most once in a run, across all its activation links |
| Runs.IdentitiesStayOneToOne | src/epok_auth/postgres/tables.py:245-246 | identities are one-to-one between (issuer, subject) and (user, issuer) in every reachable state |
| Runs.PasskeysStayLimited | src/epok_auth/passkeys/service.py:157-178 | a user's unrevoked passkeys never exceed the configured limit |
| Runs.ReachableIsFit | src/epok_auth/postgres/tables.py:92-106 | every reachable state meets the key constraints that the service methods below and the interleaved calls start from |
| Constraints.ReachableRowsAreChecked | src/epok_auth/postgres/tables.py:94-105 | every row of every reachable state meets the CHECK constraints that relate its columns (expiry order, replacement pair, link state against its times, challenge owner and times, non-negative versions, attempts and signature counters), and those that compare the dates of one row where the clock does not go back |
| Preservation.ApplyKeeps | src/epok_auth/testing/memory.py:39-67 | every operation of every service keeps the invariant and changes only what may change |
| Preservation.ApplySessionKeeps | src/epok_auth/_service_sessions.py:38-328 | the same for login, reauthentication, refresh, logout and password change |
| Preservation.ApplyUserKeeps | src/epok_auth/_service_users.py:24-297 | the same for account administration |
| Preservation.ApplyLinkKeeps | src/epok_auth/email_links/service.py:57-300 | the same for issuing, delivering and redeeming email links and activation |
| Preservation.ApplyGoogleKeeps | src/epok_auth/google/service.py:73-161 | the same for Google login, linking and recovery |
| Preservation.ApplyPasskeyKeeps | src/epok_auth/passkeys/service.py:71-406 | the same for the passkey ceremonies |
| Preservation.AnotherAdminRemains | src/epok_auth/_service_users.py:197-214 | an account saved by `_update_user` never is the last active administrator losing that role |
| SessionSafety.FamilyIsChain | src/epok_auth/_service_sessions.py:212-227 | under the invariant the chain of a family lists exactly its members, and only its last is unreplaced |
| SessionSafety.RotationKeeps | src/epok_auth/_service_sessions.py:203-227 | a rotation appends to its family's chain and keeps keys, deadlines and standing |
| SessionSafety.RotationEvolves | src/epok_auth/_service_sessions.py:212-227 | a rotation changes one stored session by its first use and adds one session, to an unrevoked family |
| SessionSafety.RevocationKeepsChains | src/epok_auth/testing/memory.py:163-177 | revoking whole families keeps every chain |
| SessionSafety.RevokeUserKeeps | src/epok_auth/testing/memory.py:171-177 | after all sessions of an account are revoked it may be saved in any condition |
| LinkSafety.IssueKeeps | src/epok_auth/email_links/_operations.py:38-64 | issuing a link keeps versions, generation order and the single active link, with or without pruning |
| LinkSafety.ActivateKeeps | src/epok_auth/email_links/service.py:128-136 | activating the latest pending link and revoking the other active ones keeps them too |
| LinkHistory.StepDelta | src/epok_auth/email_links/_operations.py:38-64 | in any step a stored link disappears only when older than the retention period, and only the drawn link appears, pending, dated now and below the request limit |
| LinkHistory.RecordAlong | src/epok_auth/email_links/_operations.py:49-64 | the record of all links ever issued in a run is complete and faithful, and no token is used twice |
| LinkHistory.RateLimitHolds | src/epok_auth/email_links/_operations.py:40-47 | every closed interval of one request window holds at most the configured number of issued links for one user and purpose, counting links since pruned; where links are pruned, for steps whose clock reading is not older than the latest by more than the retention period exceeds the window |
| LinkRuns.RunLinksEvolve | src/epok_auth/testing/memory.py:250-340 | from any moment of a run to any later one, links only move forward through their states |
| LinkRuns.ClosedLinksStay | src/epok_auth/testing/memory.py:309-340 | consumed, failed and revoked links never change again |
| LinkRuns.ActiveLinkIsLatestDelivered | src/epok_auth/email_links/service.py:111-144 | at most one link per user and purpose is ACTIVE, and no stored link ever delivered has a higher generation |
| LinkRuns.LateDeliveryRefused | src/epok_auth/email_links/_policy.py:84-101 | delivering a link after a newer one was issued is refused, whatever the clock, closes that link and leaves every other alone |
| LinkRuns.ReplacementLeavesOthers | src/epok_auth/email_links/service.py:146-158 | issuing a replacement or failing to deliver one leaves the other links, so the active one, as they were |
| LinkRuns.RepeatedDeliveryRevokes | src/epok_auth/email_links/service.py:123-127 | reporting the delivery of an ACTIVE link again answers false and revokes the link |
| LinkRuns.VersionsBoundLinks | src/epok_auth/email_links/_operations.py:60 | every stored link's version is at most its user's |
| LinkRuns.StaleLinksAreDead | src/epok_auth/email_links/_policy.py:104-116 | a link whose user's version has moved on stays stale and is never again activated or consumed |
| LinkRuns.CompletionKillsOtherLinks | src/epok_auth/email_links/activation.py:175-179 | completing a reset, an invitation or an activation makes every other stored link of the account stale for good, for every purpose |
| LinkRuns.AccountRedemptionConsumes | src/epok_auth/email_links/service.py:225-260 | a redemption that succeeds consumes exactly the active link its token names; any other outcome consumes none |
| LinkRuns.LinkLoginConsumes | src/epok_auth/email_links/service.py:180-211 | the same for a login by link |
| LinkRuns.RedeemedOnce | src/epok_auth/testing/memory.py:309-325 | no token is redeemed twice in a run, for the same purpose or another, even after its link was pruned |
| Fence.StepIsFenced | src/epok_auth/models.py:86-136 | no step changes an account's status, roles, scopes, ways in, replaced password, passkeys or identities without advancing its security version |
| Fence.ChangeCutsLinksOff | src/epok_auth/email_links/_policy.py:104-116 | so a link stored before such a change is never activated or consumed after it |
| Pruning.PruningChangesNoDecision | src/epok_auth/email_links/_operations.py:38-50 | a store that prunes and one that never deletes give the same answer to every operation at every step of a run whose clock does not go back |
| Pruning.StoresAgree | src/epok_auth/config.py:330-342 | at every moment the pruning store is the other one without some links, all expired, outside the request window and older than what it kept; generations agree in order |
| Pruning.IdealTwin | src/epok_auth/email_links/_operations.py:38-50 | every run of the pruning store has such a twin run |
| Pruning.RequestsAgree | src/epok_auth/testing/memory.py:190-199 | the request limit is the same in both stores, because retention covers the window |
| Pruning.LatestAgrees | src/epok_auth/testing/memory.py:201-211 | a kept link is the latest of its thread in both stores or in neither |
| Pruning.IssueAgrees | src/epok_auth/email_links/_operations.py:28-79 | issuing gives the same answer in both stores and keeps them in agreement |
| Pruning.DeliveryAgrees | src/epok_auth/email_links/service.py:111-144 | so does delivery |
| Pruning.RedeemAgrees | src/epok_auth/email_links/_operations.py:82-105 | and redemption |
| Lockout.LockoutBound | src/epok_auth/_service_sessions.py:330-381 | where the clock does not go back: in any time span in which no step finds the password of an account right or replaces it, at most `login_max_attempts * (span / lockout + 1)` failures are counted against it |
| Lockout.CounterMatchesLock | src/epok_auth/_service_sessions.py:341-357 | `failed_login_attempts` equals `login_max_attempts` exactly when `locked_until` is set, and is smaller otherwise |
| Lockout.TallyExplained | src/epok_auth/_service_sessions.py:341-397 | in any step a wrong password for an account that stands and lets it in by password moves the tally on, and nothing else does; otherwise the tally stays, or is cleared by a right one or a new one |
| TokenRoundTrip.VerifiesExactly | src/epok_auth/tokens.py:46-127 | for any issuing time and verifier's clock, exactly when an issued token verifies |
| TokenRoundTrip.VerifiesWithinLifetime | src/epok_auth/tokens.py:46-127 | epoch or later: a token issued at `now` verifies at t exactly when floor(now) - leeway <= t < floor(now) + ttl + leeway |
| TokenRoundTrip.SubjectSurvives | src/epok_auth/models.py:205-215 | the verified claims name the principal's user, session and family, and flooring `auth_time` stays inside the one-second tolerance of `is_valid_for` |
| TokenRoundTrip.TokenMatchesSession | src/epok_auth/_service_sessions.py:149-162 | the token of a stored session is accepted exactly within its window while the session is active and its user may authenticate, and yields that user and session |
| TokenRoundTrip.StepFits | src/epok_auth/sessions.py:53-84 | every bundle any service hands out describes a session just stored, with its hashes, deadlines and claims |
| TokenRoundTrip.IssuedTokenRoundTrip | src/epok_auth/_service_sessions.py:149-162 | so for every token issued in a run and every later moment `authenticate` accepts it exactly under those conditions, if not before the second in which its login began; where the clock does not go back that always holds |
| Ceremonies.GoogleSpentOnce | src/epok_auth/testing/memory.py:458-476 | a Google challenge is consumed at most once in a run, including after pruning |
| Ceremonies.GoogleSpentAsBegun | src/epok_auth/google/challenges.py:56-82 | only after it was begun, before it expires, for its own purpose and user; it is accepted exactly for its own origin and client |
| Ceremonies.PasskeySpentOnce | src/epok_auth/testing/memory.py:361-381 | a passkey challenge succeeds at most once in a run, including after pruning |
| Ceremonies.PasskeySpentAsBegun | src/epok_auth/passkeys/service.py:408-426 | only after it was begun, before it expires, for its own purpose, user and family |
| Ceremonies.FailedReauthentication | src/epok_auth/passkeys/service.py:299-345 | a refused passkey reauthentication changes nothing but its own challenge; when the session check fails, that challenge is spent and the passkey's counter is back |
| GoogleRules.InsertedIsLoggedIn | src/epok_auth/google/service.py:375-395 | an identity stored for an account in good standing leads to a session, or to a store conflict |
| GoogleRules.RefusalWritesNothing | src/epok_auth/google/service.py:272-317 | a login through an unknown identity that is refused without an exception, so committed, has written nothing |
| Ceremonies.FailedLoginChangesNothing | src/epok_auth/google/service.py:192-239 | neither login transaction changes anything unless it issues a session: what commits without one has written nothing, and a conflict undoes what it wrote |
| Ceremonies.FailedGoogleLogin | src/epok_auth/google/service.py:76-94 | so a failing `finish_login` leaves at most its own challenge spent, and users, identities and sessions exactly as they were |
| Ceremonies.ConflictAfterDisabling | src/epok_auth/google/service.py:319-337 | the first Google login of an account with a password fails exactly when the account has a Google identity already or a drawn identifier is taken, and then keeps the password it had already disabled; when it succeeds the password is disabled |
| Ceremonies.FailedGoogleLink | src/epok_auth/google/service.py:104-125 | a failing `finish_link` leaves them as they were, too |
| Flows.FinishLoginIsRun | src/epok_auth/google/service.py:76-94 | `finish_login` is a stretch of a run, its login steps acting on a clock reading taken before the challenge was spent |
| Flows.FinishLinkIsRun | src/epok_auth/google/service.py:104-125 | so is `finish_link` |
| Flows.FinishRegistrationIsRun | src/epok_auth/passkeys/service.py:100-184 | so is the registration of a passkey, both steps on one reading |
| Flows.FinishAuthenticationIsRun | src/epok_auth/passkeys/service.py:221-286 | so is a login by passkey |
| Flows.FinishReauthenticationIsRun | src/epok_auth/passkeys/service.py:288-369 | so is a reauthentication by passkey |
| Interleaving.EveryScheduleIsSerial | src/epok_auth/_service_sessions.py:179-235 | any schedule of refresh, logout, login, reauthentication, password change and reset, split at their locks, ends in the store of some serial order, and every call gets the answer it has there |
| Interleaving.ConcurrentRefreshes | src/epok_auth/_service_sessions.py:179-235 | of any number of refreshes of one token at most one succeeds, and one decided after it leaves the whole family revoked |
| Interleaving.DecideIsAtomic | src/epok_auth/_service_sessions.py:184-189 | deciding from rows read under lock is the indivisible call |
| Interleaving.RefreshMarks | src/epok_auth/_service_sessions.py:192-227 | a refresh that succeeds uses up an unused token; on a used one the family ends up revoked |
| Progress.NoDeadlock | src/epok_auth/_service_sessions.py:184-185 | in every reachable state of those schedules an unfinished call can move, or waits for an account row whose holder can |
| Progress.HolderMoves | src/epok_auth/_service_sessions.py:184-185 | a call that holds its account never waits, neither for a session row nor to write one |
| LockOrder.NoCycle | src/epok_auth/postgres/store.py:105-143 | transactions that request admin lock, identity or passkey, user, then rows of that user never form a waits-for cycle, in whatever order their requests and those of one bulk update are granted; a single session row may also be all that one requests |
| LockOrder.SomeoneCanGoOn | src/epok_auth/postgres/store.py:105-143 | in every such schedule whoever waits for a lock that is taken waits, directly or through others, for somebody who does not |
| LockOrder.NobodyWaitsForSession | src/epok_auth/postgres/store.py:184-194 | where every session is requested under its account nobody ever waits for one |
| LockOrder.BareUpdateDeadlocks | src/epok_auth/postgres/store.py:227-238 | a bulk update of an account's sessions without the account's lock can deadlock with transactions in order exactly when it covers two |
| Statements.Accounting | src/epok_auth/postgres/store.py:105-238 | a transaction whose statements come in order keeps to that discipline, whatever other transactions commit between them |
| Deadlock.OwnersStay | src/epok_auth/testing/memory.py:126-177 | from any moment of a run to any later one sessions and links stay with their accounts, and families undivided |
| Deadlock.OrderlyIsStrict | src/epok_auth/postgres/store.py:105-143 | so a transaction whose statements come in order as far as the state it began in tells, and ran at any later moments of a run, kept to the discipline |
| Deadlock.NobodyDeadlocks | src/epok_auth/postgres/store.py:105-143 | any such transactions, and revocations that find at most one session, never deadlock, however their locks are granted |
| Deadlock.SessionsAreFree | src/epok_auth/_service_sessions.py:184-185 | and without the revocations none of them ever waits for a session row |
| Deadlock.RevocationDeadlocks | src/epok_auth/_service_users.py:285-288 | `revoke_user_sessions` of an account can deadlock with transactions in order if and only if it finds two sessions to revoke |
| Deadlock.RevocationMeetsReset | src/epok_auth/_service_users.py:260-268 | then it can with a password reset of the account |
| Deadlock.RevocationMeetsReplay | src/epok_auth/_service_sessions.py:184-193 | and, where two of the sessions are of one family, with a refresh that finds its token used |
| Frames.SessionOpsOnAccounts | src/epok_auth/_service_sessions.py:38-328 | session operations depend on users and sessions alone and write nothing else |
| Frames.UserOpsOnAccounts | src/epok_auth/_service_users.py:24-297 | so do the account operations |
| Frames.LinkOpFrame | src/epok_auth/email_links/service.py:57-300 | link operations write users, sessions and links alone |
| Frames.GoogleOpsOnGoogle | src/epok_auth/google/service.py:73-161 | Google operations depend on and write users, sessions, identities and Google challenges alone |
| Frames.PasskeyOpsOnPasskeys | src/epok_auth/passkeys/service.py:71-406 | passkey operations depend on and write users, sessions, passkeys and their challenges alone |
| Tables.First | src/epok_auth/testing/memory.py:91 | a match, or none where none exists |
| Tables.Count | src/epok_auth/testing/memory.py:77-82 | counts exactly the matching entries |
| Tables.Greatest | src/epok_auth/testing/memory.py:201-211 | a match with the greatest key, or none where none exists |
| Tables.Drop | src/epok_auth/testing/memory.py:182-188 | deletes exactly the matching entries and counts them |
| Tables.Revise | src/epok_auth/testing/memory.py:163-177 | replaces exactly the matching values and counts them |
| MemoryStore.MemoryAuthStore.constructor | src/epok_auth/testing/memory.py:28-37 | an empty store |
| MemoryStore.MemoryAuthStore.Begin | src/epok_auth/testing/memory.py:40-52 | a snapshot of the whole store |
| MemoryStore.MemoryAuthStore.Rollback | src/epok_auth/testing/memory.py:55-67 | an exception restores the snapshot |
| MemoryStore.MemoryAuthStore.AcquireAdminLock | src/epok_auth/testing/memory.py:74-75 | takes the administrator lock |
| MemoryStore.MemoryAuthStore.CountUsersWithRole | src/epok_auth/testing/memory.py:77-82 | how many users hold a role |
| MemoryStore.MemoryAuthStore.GetUserByEmail | src/epok_auth/testing/memory.py:84-91 | the user with that email; under `for_update` its row is locked |
| MemoryStore.MemoryAuthStore.GetUserById | src/epok_auth/testing/memory.py:93-100 | the user with that id; under `for_update` its row is locked |
| MemoryStore.MemoryAuthStore.InsertUser | src/epok_auth/testing/memory.py:109-114 | inserts unless the id or email is taken |
| MemoryStore.MemoryAuthStore.UpdateUser | src/epok_auth/testing/memory.py:116-124 | replaces a stored user unless another has the email |
| MemoryStore.MemoryAuthStore.GetSessionByTokenHash | src/epok_auth/testing/memory.py:126-140 | the session with that token hash, unlocked |
| MemoryStore.MemoryAuthStore.GetSessionById | src/epok_auth/testing/memory.py:142-149 | the session with that id; under `for_update` its row is locked |
| MemoryStore.MemoryAuthStore.InsertSession | src/epok_auth/testing/memory.py:151-156 | inserts unless the id or token hash is taken |
| MemoryStore.MemoryAuthStore.UpdateSession | src/epok_auth/testing/memory.py:158-161 | replaces a stored session |
| MemoryStore.MemoryAuthStore.RevokeFamily | src/epok_auth/testing/memory.py:163-169 | revokes exactly the unrevoked sessions of a family, and counts them |
| MemoryStore.MemoryAuthStore.RevokeUserSessions | src/epok_auth/testing/memory.py:171-177 | revokes exactly the unrevoked sessions of a user, and counts them |
| MemoryStore.MemoryAuthStore.DeleteOldEmailLinks | src/epok_auth/testing/memory.py:182-188 | deletes exactly the links created before the time, and counts them |
| MemoryStore.MemoryAuthStore.CountEmailLinkRequests | src/epok_auth/testing/memory.py:190-199 | how many links of a user and purpose were created since |
| MemoryStore.MemoryAuthStore.GetLatestEmailLink | src/epok_auth/testing/memory.py:201-211 | the link of a user and purpose with the highest generation |
| MemoryStore.MemoryAuthStore.GetEmailLink | src/epok_auth/testing/memory.py:213-220 | the link with that id |
| MemoryStore.MemoryAuthStore.GetEmailLinkByTokenHash | src/epok_auth/testing/memory.py:222-234 | the link with that token hash and purpose |
| MemoryStore.MemoryAuthStore.InsertEmailLink | src/epok_auth/testing/memory.py:236-248 | inserts unless id, token hash or generation is taken |
| MemoryStore.MemoryAuthStore.ReplaceLink | src/epok_auth/testing/memory.py:327-340 | a link in one of the given states is replaced, and no other |
| MemoryStore.MemoryAuthStore.ActivateEmailLink | src/epok_auth/testing/memory.py:250-260 | activates a pending link |
| MemoryStore.MemoryAuthStore.FailEmailLink | src/epok_auth/testing/memory.py:262-272 | fails a pending link |
| MemoryStore.MemoryAuthStore.RevokeEmailLink | src/epok_auth/testing/memory.py:274-284 | revokes a pending or active link |
| MemoryStore.MemoryAuthStore.RevokeOtherActiveEmailLinks | src/epok_auth/testing/memory.py:286-307 | revokes exactly the other active links of the thread, and counts them |
| MemoryStore.MemoryAuthStore.ConsumeEmailLink | src/epok_auth/testing/memory.py:309-325 | consumes an active, unexpired link of that purpose |
| MemoryStore.MemoryAuthStore.DeleteExpiredPasskeyChallenges | src/epok_auth/testing/memory.py:342-350 | deletes exactly the expired challenges, and counts them |
| MemoryStore.MemoryAuthStore.InsertPasskeyChallenge | src/epok_auth/testing/memory.py:352-359 | inserts unless the id or challenge is taken |
| MemoryStore.MemoryAuthStore.ConsumePasskeyChallenge | src/epok_auth/testing/memory.py:361-381 | consumes exactly a usable challenge of that purpose, user and family |
| MemoryStore.MemoryAuthStore.CountPasskeys | src/epok_auth/testing/memory.py:383-387 | how many unrevoked passkeys a user has |
| MemoryStore.MemoryAuthStore.GetPasskeyById | src/epok_auth/testing/memory.py:397-408 | a user's passkey by its id |
| MemoryStore.MemoryAuthStore.GetPasskeyByCredentialId | src/epok_auth/testing/memory.py:410-424 | the passkey with that credential |
| MemoryStore.MemoryAuthStore.InsertPasskey | src/epok_auth/testing/memory.py:426-433 | inserts unless the id or credential is taken |
| MemoryStore.MemoryAuthStore.UpdatePasskey | src/epok_auth/testing/memory.py:435-438 | replaces a stored passkey |
| MemoryStore.MemoryAuthStore.DeleteExpiredGoogleChallenges | src/epok_auth/testing/memory.py:440-448 | deletes exactly the expired challenges, and counts them |
| MemoryStore.MemoryAuthStore.InsertGoogleChallenge | src/epok_auth/testing/memory.py:450-456 | inserts unless the id or nonce is taken |
| MemoryStore.MemoryAuthStore.ConsumeGoogleChallenge | src/epok_auth/testing/memory.py:458-476 | consumes exactly a usable challenge of that purpose and user |
| MemoryStore.MemoryAuthStore.GetExternalIdentity | src/epok_auth/testing/memory.py:478-493 | the identity of an issuer and subject |
| MemoryStore.MemoryAuthStore.GetExternalIdentityForUser | src/epok_auth/testing/memory.py:495-510 | the identity of a user at an issuer |
| MemoryStore.MemoryAuthStore.InsertExternalIdentity | src/epok_auth/testing/memory.py:512-520 | inserts unless the id, (issuer, subject) or (user, issuer) is taken |
| MemoryStore.MemoryAuthStore.UpdateExternalIdentity | src/epok_auth/testing/memory.py:522-525 | replaces a stored identity |
| MemoryStore.MemoryAuthStore.DeleteExternalIdentity | src/epok_auth/testing/memory.py:527-530 | deletes a stored identity |
| SessionOutcomes.LoginDecided | src/epok_auth/_service_sessions.py:45-86 | the login for the email of a stored account issues a session if and only if the password is right, the account lets it in by password, is ACTIVE and not locked, and no drawn key is taken; then the counters are cleared and one session begun; otherwise only a counted failure is written |
| SessionOutcomes.LoginUnknown | src/epok_auth/_service_sessions.py:57-67 | an unknown email is answered like a wrong password, and nothing is written |
| SessionOutcomes.ReauthenticationDecided | src/epok_auth/_service_sessions.py:104-147 | the same for reauthentication, which wants the session of the principal and issues none |
| SessionOutcomes.AuthenticationDecided | src/epok_auth/_service_sessions.py:149-162 | `authenticate` accepts exactly a live session of an account that stands, and names that user and session |
| SessionOutcomes.RefreshDecided | src/epok_auth/_service_sessions.py:179-235 | a refresh by a stored token succeeds if and only if origin, cookie and header agree, the session is live, unused and of that cookie, its account stands and no drawn key is taken; then one session continues the family and the old one is used up |
| SessionOutcomes.RefreshRefused | src/epok_auth/_service_sessions.py:187-211 | what every other refresh by a stored token answers and leaves: a foreign cookie writes nothing; reuse, expiry and an account that does not stand end the family |
| SessionOutcomes.RefreshUnknown | src/epok_auth/_service_sessions.py:181-183 | an unknown token is refused and nothing is written |
| SessionOutcomes.LogoutDecided | src/epok_auth/_service_sessions.py:251-278 | a logout ends the family, and counts its sessions, if and only if origin, cookie and header agree and the cookie is the session's own |
| SessionOutcomes.LogoutUnknown | src/epok_auth/_service_sessions.py:252-260 | without a stored token it ends nothing |
| SessionOutcomes.ChangeDecided | src/epok_auth/_service_sessions.py:280-328 | a password is changed if and only if the new one is acceptable, the current one right, the two differ, the principal's account and session stand and no drawn key is taken; then the new session is the account's only unrevoked one; otherwise nothing is written |
| UserOutcomes.AdminCreationDecided | src/epok_auth/_service_users.py:35-74 | the first administrator is created exactly while no account of any status holds the role and the id and email are free |
| UserOutcomes.UserCreationDecided | src/epok_auth/_service_users.py:76-123 | a user is created exactly if id and email are free |
| UserOutcomes.UpdateDecided | src/epok_auth/_service_users.py:151-251 | which updates are refused, and of any other which fields change, when the version moves on and when the sessions end |
| UserOutcomes.ResetDecided | src/epok_auth/_service_users.py:253-276 | a reset sets a password to be changed, unlocks the account and ends its sessions |
| UserOutcomes.RevocationDecided | src/epok_auth/_service_users.py:278-297 | ends the sessions of the account and counts those it ended |
| UserOutcomes.AccountUnknown | src/epok_auth/_service_users.py:159-162 | an unknown account is refused and nothing is written |
| LinkOutcomes.RequestDecided | src/epok_auth/email_links/service.py:302-323 | a request for the email of a stored account issues a link exactly if the account may have one; otherwise the answer is that to an unknown email |
| LinkOutcomes.RequestUnknown | src/epok_auth/email_links/service.py:302-323 | nothing is written for an unknown email |
| LinkOutcomes.IssueForUserDecided | src/epok_auth/email_links/activation.py:117-141 | the same for an invitation and a replaced activation link, where the refusals are told apart |
| LinkOutcomes.Issues | src/epok_auth/email_links/_operations.py:38-79 | issuing prunes, stops at the request limit, and otherwise stores one pending link for the account as it is, one generation above the newest kept |
| LinkOutcomes.DeliveryDecided | src/epok_auth/email_links/service.py:111-144 | a reported delivery activates the link if and only if it is pending, the newest of its thread and up to date, and revokes the other active ones; otherwise it revokes the link unless it is closed |
| LinkOutcomes.FailureDecided | src/epok_auth/email_links/service.py:146-158 | a failed delivery fails a pending link and touches no other |
| LinkOutcomes.DeliveryOfNothing | src/epok_auth/email_links/service.py:114-116 | an unknown link is answered with false |
| LinkOutcomes.LinkLoginDecided | src/epok_auth/email_links/service.py:170-214 | a login link lets in if and only if it is active, in time, at the version and address of its account, that account may use it, the browser is the one that asked, and no drawn key is taken; in another browser nothing is written |
| LinkOutcomes.LinkLoginUnknown | src/epok_auth/email_links/_operations.py:91-95 | a token of no login link is refused and nothing is written |
| LinkOutcomes.PasswordByLinkDecided | src/epok_auth/email_links/service.py:216-260 | the same for a reset, an invitation and an activation, with the account they leave; a stale link is revoked |
| LinkOutcomes.PasswordByNoLink | src/epok_auth/email_links/_operations.py:108-119 | a token of no such link is refused and nothing is written |
| LinkOutcomes.ProvisioningDecided | src/epok_auth/email_links/activation.py:45-69 | a pending account and its first link are stored, both or neither, exactly if the role, id, email and drawn link allow it |
| LinkOutcomes.InitialAdminDecided | src/epok_auth/email_links/activation.py:71-115 | the same for the initial administrator, unless the email or the role is held |
| GoogleOutcomes.KnownLoginDecided | src/epok_auth/google/service.py:192-270 | a linked Google account is let in, at the first try and after a conflict, exactly as the account it is linked to stands |
| GoogleOutcomes.FirstLoginDecided | src/epok_auth/google/policy.py:39-57 | an unknown one with the email of a stored account is let in if and only if the mode links, Google vouches for the email, the account stands, allows linking and must change its password, and no key is taken; then it takes the place of the password; otherwise nothing is written |
| GoogleOutcomes.OpenLoginDecided | src/epok_auth/google/service.py:304-317 | an unknown one whose email no account has gets one in the open mode only, with the default role and no usable password |
| GoogleOutcomes.UnknownAfterConflict | src/epok_auth/google/service.py:222-239 | after a conflict an unknown one is refused |
| GoogleOutcomes.FinishKnownDecided | src/epok_auth/google/service.py:76-94 | `finish_login` of a linked Google account, from the challenge on: exactly when each outcome |
| GoogleOutcomes.FinishUnknownDecided | src/epok_auth/google/service.py:76-94 | `finish_login` of an unknown one: it succeeds by its first try or not at all |
| GoogleOutcomes.FinishUnverified | src/epok_auth/google/service.py:76-94 | a token that Google's verifier refuses spends the challenge and nothing else |
| GoogleOutcomes.LinkKnownDecided | src/epok_auth/google/service.py:397-486 | linking a Google account that is linked: exactly when it is one's own, and what that leaves |
| GoogleOutcomes.LinkNewDecided | src/epok_auth/google/service.py:397-486 | linking one that is not: exactly when the account has no other |
| GoogleOutcomes.FinishLinkDecided | src/epok_auth/google/service.py:104-125 | `finish_link`, from the challenge on |
| GoogleOutcomes.LinkingWantsRecentLogin | src/epok_auth/google/service.py:96-110 | neither half of linking goes on after an old login or before a due change of password |
| GoogleOutcomes.RecentLoginBegins | src/epok_auth/google/service.py:96-103 | otherwise a challenge is begun |
| GoogleOutcomes.RecoveryDecided | src/epok_auth/google/service.py:127-161 | recovery drops the identity, sets a password to be changed and ends the sessions |
| GoogleOutcomes.RecoveryRefused | src/epok_auth/google/service.py:137-149 | it is refused exactly without an account or an identity |
| GoogleOutcomes.ChallengeDecided | src/epok_auth/google/challenges.py:25-54 | a challenge is begun exactly from a trusted origin, for an account that stands if for one, with free keys; expired ones are deleted |
| GoogleOutcomes.ConsumptionDecided | src/epok_auth/google/challenges.py:56-82 | a challenge is spent exactly for its own purpose and user, once and in time, and accepted exactly for its own origin and client |
| GoogleOutcomes.NoOrigin | src/epok_auth/google/challenges.py:56-82 | from an untrusted origin nothing is finished |
| PasskeyOutcomes.FinishAuthenticationDecided | src/epok_auth/passkeys/service.py:221-286 | a login by a stored passkey succeeds if and only if its challenge answers, the passkey is not revoked, its account stands, the adapter verified it for this credential and no drawn key is taken; then the counter is the reported one |
| PasskeyOutcomes.PasskeyLoginDecided | src/epok_auth/passkeys/service.py:244-286 | its second transaction alone |
| PasskeyOutcomes.FinishReauthenticationDecided | src/epok_auth/passkeys/service.py:288-369 | a reauthentication also wants the principal's own passkey and its session |
| PasskeyOutcomes.ConfirmationDecided | src/epok_auth/passkeys/service.py:314-369 | its second transaction alone |
| PasskeyOutcomes.AcceptanceDecided | src/epok_auth/passkeys/_authentication.py:22-68 | which passkey is accepted |
| PasskeyOutcomes.LoginWithUnknown | src/epok_auth/passkeys/service.py:221-286 | an unknown credential spends the challenge and nothing else |
| PasskeyOutcomes.ReauthenticationWithUnknown | src/epok_auth/passkeys/service.py:288-369 | the same for a reauthentication |
| PasskeyOutcomes.FinishRegistrationDecided | src/epok_auth/passkeys/service.py:100-184 | a registration, from the challenge on: what the adapter accepted goes to the next row |
| PasskeyOutcomes.RegistrationDecided | src/epok_auth/passkeys/service.py:157-184 | a passkey is stored, and the version moved on, exactly for an account that stands, below the limit, with free keys |
| PasskeyOutcomes.RevocationDecided | src/epok_auth/passkeys/service.py:375-406 | a passkey is revoked, and the version moved on, exactly by its owner after a recent login |
| PasskeyOutcomes.CeremonyBegun | src/epok_auth/passkeys/service.py:71-219 | when each kind of ceremony is begun, and what challenge is stored |
| PasskeyOutcomes.ConsumptionDecided | src/epok_auth/passkeys/service.py:408-426 | a challenge is spent exactly for its own purpose, account and family, once and in time |
| PasskeyOutcomes.NoOrigin | src/epok_auth/passkeys/service.py:71-219 | from an untrusted origin nothing is begun or finished |
| SessionService.SessionIssuer.Issue | src/epok_auth/sessions.py:31-84 | the one session policy: stores the session or reports the conflict, and hands out the bundle that describes it |
| SessionService.RequirePrincipalUser | src/epok_auth/sessions.py:101-136 | the user of a principal whose session stands, both rows locked in order |
| SessionService.SaveAndRevoke | src/epok_auth/_service_users.py:267-268 | saves an account and revokes its sessions, all under the account's lock |
| SessionService.SessionService.RecordPasswordFailure | src/epok_auth/_service_sessions.py:330-381 | counts, and at the limit locks, advances and revokes |
| SessionService.SessionService.Login | src/epok_auth/_service_sessions.py:38-95 | does what the login rule says, and so what `SessionOutcomes.LoginDecided` says of it; commits a counted failure, undoes a conflict |
| SessionService.SessionService.ApplyPasswordVerification | src/epok_auth/_service_sessions.py:383-397 | saves the upgraded hash and the cleared counters |
| SessionService.SessionService.ReauthenticatePassword | src/epok_auth/_service_sessions.py:97-147 | does what the reauthentication rule says, without issuing a session |
| SessionService.SessionService.Authenticate | src/epok_auth/_service_sessions.py:149-162 | the stored user and session when both accept the claims |
| SessionService.SessionService.RevokeFamilyOf | src/epok_auth/_service_sessions.py:193 | revokes a family under its account's lock |
| SessionService.SessionService.Rotate | src/epok_auth/_service_sessions.py:211-227 | issues the next session and marks the old one used and replaced, both or neither |
| SessionService.SessionService.Refresh | src/epok_auth/_service_sessions.py:164-240 | does what the refresh rule says (`SessionOutcomes.RefreshDecided`); reuse and expiry revocations are committed before the error is raised |
| SessionService.SessionService.Logout | src/epok_auth/_service_sessions.py:242-278 | does what the logout rule says; a CSRF mismatch is undone |
| SessionService.SessionService.ChangePassword | src/epok_auth/_service_sessions.py:280-328 | does what the password-change rule says (`SessionOutcomes.ChangeDecided`) |
| UserService.UserService.CreateAdmin | src/epok_auth/_service_users.py:24-74 | creates the first administrator only, under the administrator lock |
| UserService.UserService.CreateUser | src/epok_auth/_service_users.py:76-123 | creates an account that must change its password, unless its email is taken |
| UserService.UserService.Merge | src/epok_auth/_service_users.py:163-233 | the account to save and whether it stops being an active administrator |
| UserService.UserService.UpdateUser | src/epok_auth/_service_users.py:151-251 | does what the update rule says |
| UserService.UserService.ResetPassword | src/epok_auth/_service_users.py:253-276 | sets a temporary password and revokes the sessions, by three statements in order |
| UserService.UserService.RevokeAllSessions | src/epok_auth/_service_users.py:278-297 | revokes every session of the account, by one statement that nothing precedes: its account is not locked |
| EmailLinkService.Draft | src/epok_auth/email_links/_operations.py:38-64 | prunes, counts the recent requests and numbers the next link |
| EmailLinkService.Issue | src/epok_auth/email_links/_operations.py:28-79 | prunes, limits, numbers and stores a link; what is written when it is rejected is stated too |
| EmailLinkService.FindConsumable | src/epok_auth/email_links/_operations.py:82-105 | the active link that may be consumed now; a stale one is revoked |
| EmailLinkService.IsActive | src/epok_auth/email_links/_operations.py:108-119 | whether an active, unexpired link has the token |
| EmailLinkService.RedeemLink | src/epok_auth/email_links/service.py:180-197 | consumes a consumable link of an eligible account |
| EmailLinkService.RedeemAccount | src/epok_auth/email_links/service.py:216-260 | consumes the link, saves the account as its purpose demands and revokes its sessions, all or nothing |
| EmailLinkService.IssueTo | src/epok_auth/email_links/activation.py:117-141 | issues to a given eligible account |
| EmailLinkService.EmailLinkService.RequestForEmail | src/epok_auth/email_links/service.py:302-323 | issues when the account of that email is eligible |
| EmailLinkService.EmailLinkService.Invite | src/epok_auth/email_links/service.py:86-109 | issues an invitation or says why not |
| EmailLinkService.EmailLinkService.MarkDelivered | src/epok_auth/email_links/service.py:111-144 | activates the latest pending link that is still current and revokes the thread's other active one; otherwise closes it |
| EmailLinkService.EmailLinkService.MarkDeliveryFailed | src/epok_auth/email_links/service.py:146-158 | fails a pending link |
| EmailLinkService.EmailLinkService.Login | src/epok_auth/email_links/service.py:170-214 | consumes the link and issues a session, both or neither, as `LinkOutcomes.LinkLoginDecided` says |
| EmailLinkService.EmailLinkService.ResetPassword | src/epok_auth/email_links/service.py:216-260 | the reset by link |
| EmailLinkService.EmailLinkService.ActivateInvitation | src/epok_auth/email_links/service.py:262-300 | the activation of an invited account |
| EmailLinkService.AccountActivationService.Create | src/epok_auth/email_links/activation.py:216-241 | inserts the pending account and its first link; what is written when it is rejected is stated too |
| EmailLinkService.AccountActivationService.Provision | src/epok_auth/email_links/activation.py:45-69 | provisions a pending account without the admin role |
| EmailLinkService.AccountActivationService.EnsureInitialAdmin | src/epok_auth/email_links/activation.py:71-115 | finds the administrator, or creates one pending, or says why not |
| EmailLinkService.AccountActivationService.Replace | src/epok_auth/email_links/activation.py:117-141 | issues a new activation link |
| EmailLinkService.AccountActivationService.Activate | src/epok_auth/email_links/activation.py:143-189 | the first password of a pending account |
| GoogleService.GoogleChallengeService.Begin | src/epok_auth/google/challenges.py:25-54 | prunes expired challenges and stores the new one |
| GoogleService.GoogleChallengeService.Consume | src/epok_auth/google/challenges.py:56-82 | spends the challenge; a wrong origin or client is refused after that |
| GoogleService.GoogleLoginService.LoginLinked | src/epok_auth/google/service.py:241-270 | a login through a stored identity |
| GoogleService.GoogleLoginService.InsertIdentityAndLogin | src/epok_auth/google/service.py:375-395 | stores the identity, then logs in |
| GoogleService.GoogleLoginService.LinkAndLogin | src/epok_auth/google/service.py:319-337 | disables the password, then stores the identity and logs in |
| GoogleService.GoogleLoginService.OpenAndLogin | src/epok_auth/google/service.py:316-317 | creates the account, then stores the identity and logs in |
| GoogleService.GoogleLoginService.LoginUnlinked | src/epok_auth/google/service.py:272-317 | the account modes for an identity not yet stored, as `GoogleOutcomes.FirstLoginDecided` and `OpenLoginDecided` say |
| GoogleService.GoogleLoginService.LoginOnce | src/epok_auth/google/service.py:192-220 | one login transaction, undone on a conflict |
| GoogleService.GoogleLoginService.LoginAfterConflict | src/epok_auth/google/service.py:222-239 | the second try after a conflict |
| GoogleService.GoogleLoginService.FinishLogin | src/epok_auth/google/service.py:76-94 | spends the challenge, logs in, and tries again after a conflict |
| GoogleService.GoogleLoginService.LinkingUser | src/epok_auth/google/service.py:408-411 | the account that may link, its row and its session locked in order |
| GoogleService.GoogleLoginService.LinkOnce | src/epok_auth/google/service.py:397-458 | one linking transaction |
| GoogleService.GoogleLoginService.LinkedAfterConflict | src/epok_auth/google/service.py:460-486 | what a conflict turned out to be |
| GoogleService.GoogleLoginService.FinishLink | src/epok_auth/google/service.py:104-125 | spends the challenge, links, and looks again after a conflict |
| GoogleService.GoogleLoginService.RecoverPasswordAccess | src/epok_auth/google/service.py:127-161 | drops the identity, restores a temporary password and revokes the sessions |
| GoogleService.GoogleLoginService.Recover | src/epok_auth/google/service.py:150-153 | the writes of a recovery |
| GoogleService.GoogleLoginService.SaveUser | src/epok_auth/google/service.py:436-445 | saves an account under its lock |
| PasskeyService.PasskeyService.StoreChallenge | src/epok_auth/passkeys/service.py:95-97 | prunes expired challenges and stores the new one, or undoes it |
| PasskeyService.PasskeyService.BeginRegistration | src/epok_auth/passkeys/service.py:71-98 | begins a registration below the limit |
| PasskeyService.PasskeyService.BeginAuthentication | src/epok_auth/passkeys/service.py:186-198 | begins a login |
| PasskeyService.PasskeyService.BeginReauthentication | src/epok_auth/passkeys/service.py:200-219 | begins a reauthentication bound to user and family |
| PasskeyService.PasskeyService.Consume | src/epok_auth/passkeys/service.py:408-426 | spends the challenge in its own transaction |
| PasskeyService.PasskeyService.Register | src/epok_auth/passkeys/service.py:157-184 | stores a passkey below the limit and advances the account |
| PasskeyService.PasskeyService.AdvanceUser | src/epok_auth/passkeys/service.py:170 | advances an account under its lock |
| PasskeyService.PasskeyService.FinishRegistration | src/epok_auth/passkeys/service.py:100-184 | spends the challenge, checks the response, registers |
| PasskeyService.PasskeyService.VerifyAndUpdate | src/epok_auth/passkeys/_authentication.py:22-68 | accepts an assertion for a usable passkey of an account in good standing, locks the passkey before the account, and moves the counter; a passkey that is offered but not accepted still names its account |
| PasskeyService.PasskeyService.FinishAuthentication | src/epok_auth/passkeys/service.py:221-286 | spends the challenge, then logs in |
| PasskeyService.PasskeyService.LoginByPasskey | src/epok_auth/passkeys/service.py:244-286 | the login transaction |
| PasskeyService.PasskeyService.FinishReauthentication | src/epok_auth/passkeys/service.py:288-369 | spends the challenge, then confirms |
| PasskeyService.PasskeyService.ConfirmByPasskey | src/epok_auth/passkeys/service.py:314-369 | moves the counter, and takes it back when the session no longer stands |
| PasskeyService.PasskeyService.RevokePasskey | src/epok_auth/passkeys/service.py:375-406 | revokes one's own passkey and advances the account |

## Left out

- Audit events, their metadata and the request context: no decision reads them.
- FastAPI routes, cookies, HTTP errors, mail rendering and sending, the CLI and migrations: transport and I/O.
- Argon2, SHA-256, JWT encoding, Google's verifier and WebAuthn: inputs or an injective function, as above.
- Shape checks of a decoded JWT (types, `jti`, whole-second numeric dates): only claims that `issue` writes are verified.
- `datetime.timestamp()` as a float: it is exact to the second for all dates before the year 2514, and the model takes it as exact.
- Normalisation of emails, domains, names, roles and origins, and the length and alphabet constraints of the tables.
- `list_users`, `get_user`, `list_passkeys`, role and scope checks, and `require_recent_authentication` of the session service: they only read.
- A borrowed transaction (`update_user(..., transaction=...)`): its caller decides when it commits.
- Interleaving at lock level of email-link, Google and passkey operations: they are steps of the runs, and their lock order is proved, but `Interleaving` covers the session and credential calls only.
- Row locks that PostgreSQL takes implicitly for foreign keys and unique indexes, and those of the pruning deletes.
- UserService.UserService.RevokeAllSessions: the source requests no account lock here, so its contract gives its one statement instead of that its statements are in order; `Deadlock.RevocationDeadlocks` says when that matters.
- Tables.First: it promises any match, where the source returns the first one inserted; wherever the store uses it, keys are unique and there is only one.
- SessionService.SessionService.Login: the hash upgrade and the verdict of the password check are one input, so that the check runs on the hash just read is not stated.
- Progress.NoDeadlock: it says that some call can always move, not that a fair scheduler lets each one finish.
