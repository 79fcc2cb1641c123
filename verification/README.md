# Verified model of the digital-trust common service

The common service is a multi-tenant back end: it issues OIDC grants to tenant users, limits
request rates, lets tenants override which scopes a role has, deactivates and reactivates tenants
through a job queue, purges expired records, pages and exports audit logs, and tracks long-running
operations. This project models the parts of it that keep state, and proves what they guarantee
over whole runs.

Services that change rows in place are classes here, whose methods are proved against
specification functions. Callers that run side by side are step machines: a list of events is a
run, and the theorems speak of every run. SQL statements are single steps, except the claim of
surplus sessions, which locks its rows one by one.

| file | models |
|---|---|
| `RoleScopes.dfy` | scope resolution, the role hierarchy, one validated write, audit replay |
| `RoleScopeProtocol.dfy` | concurrent role-scope writers and two-step logins |
| `OidcStore.dfy` | the `oidc_model` table: session cap, cascades, tenant switch |
| `SessionClaims.dfy` | concurrent enforcers under `FOR UPDATE SKIP LOCKED` |
| `OidcPurge.dfy` | the batched purge with upstream logout |
| `RateLimiter.dfy`, `RateLimitKey.dfy` | the sliding-window limiter, its pruner, its key format |
| `TenantLifecycle.dfy` | tenant status, the job queue, the deactivation cascade |
| `Pagination.dfy`, `AuditCsv.dfy` | keyset pagination, the CSV export |
| `Operations.dfy` | operation expiry and first-view stamping |
| `Cardinality.dfy`, `Options.dfy` | sizes of sets, optional values |

Where the code falls short of what its own text says, the model follows the code:

- A tenant switch destroys the caller's previous grant before it deletes what hangs off the old
  account's grants, so a row outside the account-bound models under that grant stays
  (`OidcStore.StrayMayStay`; `OidcStore.SwitchClearsGrantsExactly` says exactly when).
- Revoking a client for cause is meant to clear the bulk-revocation tag
  (apps/digital-trust-common-service/src/oauth-client/oauth-client.repository.ts:57-63), but the
  service returns early for a client that is already revoked, so the next reactivation restores it
  (`TenantLifecycle.ForCauseUndone`; `TenantLifecycle.ForCauseSurvives` says exactly when).
- Cursors carry whole milliseconds while rows may hold finer times, so the newest-first list can
  lose rows and the oldest-first lists can repeat for ever (`Pagination.NewestMaySkip`,
  `Pagination.OldestMayNeverEnd`; `Pagination.ListsEachRowOnce` says exactly when neither happens).
- Concurrent enforcement of the session cap can leave more sessions than the cap
  (`SessionClaims.CapMayBeMissed`; `SessionClaims.CommitLeavesExactly` says exactly when).
- A purge may delete a linked session without attempting its upstream logout: one that expires
  while the logouts of its iteration run, since each query reads the time anew, or one whose expiry
  time others share (`OidcPurge.LateSessionGoesFirst`, `OidcPurge.TiedSessionMayGoFirst`;
  `OidcPurge.LogoutFirstExactly` says exactly when it cannot).

## Model

| member | source | states |
|---|---|---|
| `RoleScopeProtocol.HierarchyAlwaysHolds` | apps/digital-trust-common-service/src/role-scope/role-scope.service.ts:169-249 | In every state of every run of writers and logins, each tenant's committed mapping keeps each role's expanded scopes inside those of every higher role, and the owner's scopes are the default. |
| `RoleScopeProtocol.SuperuserStaysWithOwner` | apps/digital-trust-common-service/src/role-scope/role-scope.service.ts:340-348 | In every state of every run no role but the owner has the superuser scope, unless the defaults give it. |
| `RoleScopeProtocol.WritesAreSerial` | apps/digital-trust-common-service/src/role-scope/role-scope.repository.ts:189-197 | However writers of any tenants interleave, each has the outcome, and the tables are those, of the same requests run one by one in the order in which they took their lock. |
| `RoleScopeProtocol.AuditReplays` | apps/digital-trust-common-service/src/role-scope/role-scope.service.ts:199-240 | In every run, replaying a tenant's UPDATE and DELETE entries in commit order from an empty table rebuilds exactly its override table, and each entry's previous scopes are what replay gives just before it. |
| `RoleScopeProtocol.OnlyWindowGrantsExceed` | apps/digital-trust-common-service/src/role-scope/role-scope.service.ts:251-296 | A stored grant exceeds its role's current scopes only if its login read before a narrowing committed, that write's delete ran before the grant was saved, and its sweep is still to run or also ran before. |
| `RoleScopeProtocol.NarrowingCanBeOutlived` | apps/digital-trust-common-service/src/role-scope/role-scope.service.ts:260-265 | The window the sweep leaves is real: after any run, any narrowing write that would be accepted can be outlived by a login that reads before the commit and saves after the sweep. |
| `RoleScopeProtocol.RunSound` | apps/digital-trust-common-service/src/role-scope/role-scope.service.ts:169-296 | The inductive invariant behind the four results above (locks and first reads, history, ticket order, grants) holds after every run. |
| `RoleScopeProtocol.LockInvAct` | apps/digital-trust-common-service/src/role-scope/role-scope.repository.ts:175-197 | Every event keeps: a writer at work holds its tenant's lock, its first read still shows the tenant's table, and its verdict is that of the same write run alone. |
| `RoleScopeProtocol.ValidateDecides` | apps/digital-trust-common-service/src/role-scope/role-scope.service.ts:182-197 | The verdict of a validation made under the lock is the verdict of the whole write run alone. |
| `RoleScopeProtocol.HistoryEnds` | apps/digital-trust-common-service/src/role-scope/role-scope.service.ts:177-249 | Ending a transaction, by commit, rejection or failure, keeps tables equal to the serial replay of the log and to the replay of the audit entries. |
| `RoleScopeProtocol.AbortLeavesNothing` | apps/digital-trust-common-service/src/role-scope/role-scope.service.ts:177-180 | A transaction that is cut off leaves tables, grants and audit log as they were and frees its tenant's lock alone. |
| `RoleScopeProtocol.GrantsCommit` | apps/digital-trust-common-service/src/role-scope/role-scope.service.ts:195-197 | A commit keeps the grant invariant: every grant is inside its role's scopes or in the window, every pending login read scopes it still may have or was overtaken by a narrowing. |
| `RoleScopeProtocol.GrantsSweep` | apps/digital-trust-common-service/src/role-scope/role-scope.service.ts:266-267 | The sweep after the commit keeps the same invariant, though it takes away the excuse of every grant saved before it. |
| `RoleScopeProtocol.SweepReports` | apps/digital-trust-common-service/src/role-scope/role-scope.service.ts:266-294 | A sweep takes exactly the role's grants in the tenant, and adds one entry to the audit log if and only if there were any. |
| `RoleScopeProtocol.GrantsLoginSave` | libs/oidc/src/oidc-interaction.controller.ts:196-255 | Saving a grant from an earlier read keeps the same invariant, whatever committed in between. |
| `RoleScopeProtocol.LoginExactly` | libs/oidc/src/oidc-interaction.controller.ts:222-241 | A login goes on to save its grant if and only if everything it asked for is a protocol scope or one its role has in the tenant at that moment. |
| `RoleScopes.AdjacentIsEnough` | apps/digital-trust-common-service/src/role-scope/role-scope.service.ts:413-438 | Comparing each role with the one just above it is equivalent to comparing it with every role above it. |
| `RoleScopes.CheckHierarchy` | apps/digital-trust-common-service/src/role-scope/role-scope.service.ts:413-438 | The index loop finds no violation exactly when the whole mapping is contained, and otherwise names the most privileged role that holds scopes its parent lacks, with exactly those scopes. |
| `RoleScopes.SeededDefaultsContained` | libs/database/src/migrations/000013_create-role-scopes.ts:23-38 | The seeded defaults satisfy the hierarchy, compared on expanded scopes. |
| `RoleScopes.AcceptedExactly` | apps/digital-trust-common-service/src/role-scope/role-scope.service.ts:169-197 | A write is accepted if and only if it is not about the owner, a replacement names tenant scopes only, the actor is a platform admin or holds every scope the role would get, and the table it would leave keeps the hierarchy. |
| `RoleScopes.RefusedInOrder` | apps/digital-trust-common-service/src/role-scope/role-scope.service.ts:328-399 | Which error a refused write gets: the first condition that fails, in the order immutable role, unknown scope, unassignable scope, escalation, hierarchy. |
| `RoleScopes.AcceptedWrite` | apps/digital-trust-common-service/src/role-scope/role-scope.service.ts:169-197 | An accepted write leaves a contained mapping, no owner override, the promised scopes for its role and every other role as it was; it narrows exactly when a scope is lost, is audited exactly when the table changes, gives no role the superuser scope, and gives none a scope its actor lacks. |
| `RoleScopes.AuditEntryTellsChange` | apps/digital-trust-common-service/src/role-scope/role-scope.service.ts:199-233 | A write's audit entry names its tenant and role, the role's scopes before and after, and exactly what it took away. |
| `RoleScopes.AuditedWrite` | apps/digital-trust-common-service/src/role-scope/role-scope.service.ts:199-240 | The entry an accepted write adds replays to the table it leaves, records the previous scopes, and affects no other tenant; an override of no scopes stays distinct from inheriting. |
| `RoleScopes.RoleScopeService.Write` | apps/digital-trust-common-service/src/role-scope/role-scope.service.ts:114-159 | A replace or reset has the outcome of the specification: its error and no effect at all, or its table, its narrowing flag, its audit entry, and a result that names the role's new effective scopes and where they come from. |
| `OidcStore.EnforceAlone` | libs/oidc/src/session-limit.service.ts:49-93 | Run alone with a positive limit and a live new session, enforcement removes exactly the claimed sessions, their grants and the rows under those grants. It leaves all other live sessions if and only if none hangs off such a grant, and then min(prior, limit) are left, the new one among them, none older than an evicted one. |
| `OidcStore.ClaimLeaves` | libs/oidc/src/oidc-account-session.repository.ts:283-316 | What the claiming statement takes: nothing but live sessions, never the new one, the oldest ones, and just enough. |
| `OidcStore.EnforcedSessions` | libs/oidc/src/oidc-account-session.repository.ts:168-191 | The cascade after a claim removes the claimed sessions, the grants they name and the rows under those grants, and nothing else; it takes a further live session with it exactly when that one hangs off such a grant. |
| `OidcStore.SurplusLeavesNewest` | libs/oidc/src/oidc-account-session.repository.ts:283-316 | Dropping all but the newest `keep` in (created, id) order leaves min(count, keep) rows, each newer than every one dropped. |
| `OidcStore.SelectSurplus` | libs/oidc/src/oidc-account-session.repository.ts:283-316 | Picking the newest one by one until `keep` are kept leaves the surplus of the order: just enough rows, and none newer than a kept one. |
| `OidcStore.CollectGrants` | libs/oidc/src/oidc-account-session.repository.ts:339-353 | The loop over the claimed sessions gathers every grant their authorizations name. |
| `OidcStore.SwitchMovesEverything` | apps/digital-trust-common-service/src/auth/auth.service.ts:107-130 | A completed switch leaves no account-bound row of the old account, moves each of its sessions with its entry for the client naming the new grant, keeps the new grant and tokens, and leaves every row of a third account, and every row of another model under none of the old account's grants, as it was. |
| `OidcStore.SwitchClearsGrantsExactly` | apps/digital-trust-common-service/src/auth/auth.service.ts:113-130 | Nothing is left under the old account's grants if and only if no row outside the account-bound models hung off the grant of the presented access token while both that token and that grant were unexpired. |
| `OidcStore.StrayMayStay` | apps/digital-trust-common-service/src/auth/auth.service.ts:113-130 | A table and a switch after which such a row is left under a grant of the old account. |
| `OidcStore.AccountSessions.ClaimSurplusSessions` | libs/oidc/src/oidc-account-session.repository.ts:283-316 | What the claim takes is live, never the new session, just enough, and older than every other candidate it leaves; it deletes those sessions alone and returns the grants they name. |
| `OidcStore.AccountSessions.Enforce` | libs/oidc/src/session-limit.service.ts:49-93 | Leaves the table of the specification and reports the prior and evicted counts; a limit of zero does nothing. |
| `OidcStore.AccountSessions.RebindSessionsToAccount` | libs/oidc/src/oidc-account-session.repository.ts:78-110 | The loop over the account's sessions rewrites each of them, and only them, as the specification says. |
| `OidcStore.AccountSessions.RevokeGrant` | apps/digital-trust-common-service/src/auth/auth.service.ts:227-234 | Destroys the grant if it is found live, and the access and refresh tokens under it in any case. |
| `OidcStore.AccountSessions.SwitchTenant` | apps/digital-trust-common-service/src/auth/auth.service.ts:107-130 | Issue, revoke, rebind and delete, in that order, leave the table the two switch lemmas speak of. |
| `SessionClaims.NeverClaimedTwice` | libs/oidc/src/oidc-account-session.repository.ts:283-316 | Over every interleaving of enforcers that lock rows one at a time and skip locked ones, no session is deleted twice, and what is deleted is no longer stored. |
| `SessionClaims.DeletingCommitKeeps` | libs/oidc/src/oidc-account-session.repository.ts:283-316 | After every commit that deletes, at least `keep` of the account's sessions are still stored, and each kept one is newer than each deleted one. |
| `SessionClaims.CommitLeavesExactly` | libs/oidc/src/oidc-account-session.repository.ts:283-316 | At every commit of every run, the candidates the enforcer started with that are still stored number what it keeps of those it took plus those it passed over and nobody deleted; so it leaves at most `keep` of them if and only if the ones passed over fit into what it has left to keep. |
| `SessionClaims.LeftWithinKeeps` | libs/oidc/src/oidc-account-session.repository.ts:283-316 | Once every enforcer of a run has committed and none has given up, each session that any of them found and that is still stored was kept by one of them, so these number at most what they keep between them. |
| `SessionClaims.AloneMeetsCap` | libs/oidc/src/oidc-account-session.repository.ts:283-316 | In every run, an enforcer that starts while no row is locked and beside which no other one scans a row before it commits deletes exactly the surplus: min(prior, limit) of the sessions live at its start are left, the new one among them. Logins and other enforcers' starts, commits and aborts may come between. |
| `SessionClaims.RunKeeps` | libs/oidc/src/oidc-account-session.repository.ts:283-316 | The invariant over every run: each enforcer holds exactly the locks on the stored rows it has taken, in newest-first order. |
| `SessionClaims.OffsetIsSurplus` | libs/oidc/src/oidc-account-session.repository.ts:283-316 | `OFFSET keep` over the newest-first order is the surplus of the set. |
| `SessionClaims.CapMayBeMissed` | libs/oidc/src/oidc-account-session.repository.ts:283-316 | The cap can be missed: two enforcers with limit 1 that pass over each other's rows both finish and leave two sessions, as many as they keep between them. |
| `RateLimiter.WindowBound` | apps/digital-trust-common-service/src/rate-limit/rate-limit-storage.service.ts:48-76 | With at most c requests of a bucket in flight, the requests let through in any closed window no longer than the ttl of the one that counted last number at most its limit + c - 1, over every interleaving with prunings that had not reached into that one's window when it counted, and with resets of the tracker outside the window. |
| `RateLimiter.SharedLimitBound` | apps/digital-trust-common-service/src/rate-limit/rate-limit-storage.service.ts:48-76 | The same with one ttl and limit for the bucket, asking of prunings only that they had not reached into the window of an admitted request when it counted; one at a time, never more than the limit. |
| `RateLimiter.PromptBound` | apps/digital-trust-common-service/src/rate-limit/rate-limit-storage.service.ts:48-76 | The same bound where each request's window, with the delay before its count, lies within the retention: prunings at any times then need no further condition. |
| `RateLimiter.PruneSafeIsClear` | apps/digital-trust-common-service/src/rate-limit/rate-limit-storage.service.ts:48-76 | Prunings that stay clear of every window still to be counted had not reached into any request's window when it counted. |
| `RateLimiter.BoundIsReached` | apps/digital-trust-common-service/src/rate-limit/rate-limit-storage.service.ts:55-63 | The bound is exact: for every limit and c some run lets limit + c - 1 requests through one window. |
| `RateLimiter.BucketsAreIndependent` | apps/digital-trust-common-service/src/rate-limit/rate-limit-hit.repository.ts:18-26 | Over every run the requests of a bucket get the answers they would get if no request of any other bucket, of the same caller's other routes included, had ever come. |
| `RateLimiter.PruningIsInvisible` | apps/digital-trust-common-service/src/rate-limit/rate-limit-prune.worker.ts:47-62 | Pruning that stays clear of the windows of requests still to count gives every request of every run the answer it would get from the full history. |
| `RateLimiter.PromptIsPruneSafe` | apps/digital-trust-common-service/src/rate-limit/rate-limit-hit.repository.ts:14-26 | A retention at least as long as the window, plus whatever passes between fixing the window and counting, keeps every pruning clear. |
| `RateLimiter.LongRetentionIsInvisible` | apps/digital-trust-common-service/src/rate-limit/rate-limit-prune.worker.ts:47-62 | A retention that covers the longest window and the delay before counting gives every request of every run the answer it would get without pruning. |
| `RateLimiter.ShortRetentionShows` | apps/digital-trust-common-service/src/rate-limit/rate-limit-prune.worker.ts:47-62 | For every window and every delay before counting, a retention shorter than the two together is visible in some run whose requests all count within the delay, even one that handles them one at a time. |
| `RateLimiter.LookBack` | apps/digital-trust-common-service/src/rate-limit/rate-limit-storage.service.ts:55-63 | How a request that has counted stood at any earlier event of its run. |
| `RateLimiter.CountBeforeAnswer` | apps/digital-trust-common-service/src/rate-limit/rate-limit-storage.service.ts:55-63 | A request's count comes no later than its answer. |
| `RateLimiter.HitsAccounted` | apps/digital-trust-common-service/src/rate-limit/rate-limit-hit.repository.ts:14-26 | A recorded hit is stored until a pruning or a reset reaches it. |
| `RateLimiter.AdmittedEarlier` | apps/digital-trust-common-service/src/rate-limit/rate-limit-storage.service.ts:55-66 | Every other request admitted in the window was in flight at the last count or was counted by it. |
| `RateLimiter.AnswerFor` | apps/digital-trust-common-service/src/rate-limit/rate-limit-storage.service.ts:65-75 | A request is let through exactly when fewer than limit hits were counted, and then it is always recorded; the total counts its own hit in where that is written; the window, and for a blocked request its block (the window where no duration is set), are given in the least number of seconds that covers them. |
| `RateLimiter.UninterruptedRequest` | apps/digital-trust-common-service/src/rate-limit/rate-limit-storage.service.ts:48-76 | The three steps of a request run together do what one call of `Increment` does. |
| `RateLimiter.RateLimitStorage.Increment` | apps/digital-trust-common-service/src/rate-limit/rate-limit-storage.service.ts:48-76 | The answer and the stored hits for every key, a malformed key included; the total is the number of the bucket's hits in the window after the call, the caller's own included. |
| `RateLimiter.RateLimitStorage.Prune` | apps/digital-trust-common-service/src/rate-limit/rate-limit-prune.worker.ts:47-62 | Removes exactly the hits older than the configured retention (five minutes where that is not positive) and reports how many. |
| `RateLimiter.RateLimitStorage.DeleteForTenant` | apps/digital-trust-common-service/src/rate-limit/rate-limit-hit.repository.ts:56-65 | Removes exactly the tracker's hits and reports how many. |
| `RateLimitKey.ParseBuiltKey` | apps/digital-trust-common-service/src/rate-limit/rate-limit-key.ts:18-38 | Parsing a built key gives back its tracker and route, whatever bytes they hold. |
| `RateLimitKey.BuiltKeysDiffer` | apps/digital-trust-common-service/src/rate-limit/rate-limit-key.ts:18-20 | Two pairs share a key only if they are equal. |
| `RateLimitKey.EncodeThenDecode` | apps/digital-trust-common-service/src/rate-limit/rate-limit-key.ts:18-38 | Percent-decoding undoes percent-encoding, and an encoded component holds no colon. |
| `RateLimitKey.SeparatorIndex` | apps/digital-trust-common-service/src/rate-limit/rate-limit-key.ts:26-30 | The first place where two colons stand side by side, or none. |
| `TenantLifecycle.DrainedQueue` | apps/digital-trust-common-service/src/tenant/tenant-status-change.worker.ts:52-78 | With jobs cut off and retried any number of times, a drained queue means: a deactivated tenant has no live client, active connector or open connection among those present at its last job; any other tenant has no client tagged as bulk-revoked. |
| `TenantLifecycle.NothingEscapes` | apps/digital-trust-common-service/src/tenant/tenant-status-change.worker.ts:55-60 | Whatever a tenant owned at any moment when it was not deactivated is dead once it is deactivated and the queue is drained. |
| `TenantLifecycle.RunKeeps` | apps/digital-trust-common-service/src/tenant/tenant.service.ts:350-384 | The four invariants behind both: queued jobs chain allowed changes up to the current status, attempts stay within their job, tags are explained, swept rows stay dead. |
| `TenantLifecycle.ChainStep` | apps/digital-trust-common-service/src/tenant/tenant.service.ts:40-46 | Every event keeps each tenant's queued jobs a chain of allowed status changes that ends in its current status. |
| `TenantLifecycle.TagStep` | apps/digital-trust-common-service/src/oauth-client/oauth-client.repository.ts:77-99 | Every event keeps: a tagged client's tenant has had its deactivation handled and not undone, or is having it handled. |
| `TenantLifecycle.SweepStep` | apps/digital-trust-common-service/src/connection/connection.repository.ts:71-80 | Every event keeps: what a handled deactivation swept stays dead until the tenant is reactivated. |
| `TenantLifecycle.RevokedOnItsOwnStays` | apps/digital-trust-common-service/src/oauth-client/oauth-client.repository.ts:64-99 | A client revoked on its own while live keeps its revocation time, and gets no tag, through every further run. |
| `TenantLifecycle.DeactivateThenReactivate` | apps/digital-trust-common-service/src/oauth-client/oauth-client.repository.ts:77-99 | Between two moments of any run when the queue is drained and the tenant is not deactivated, any deactivations and reactivations, other tenants' jobs, cut-offs and retries give each of its clients not revoked for cause meanwhile back exactly its earlier revocation fields. |
| `TenantLifecycle.ForCauseSurvives` | apps/digital-trust-common-service/src/oauth-client/oauth-client.service.ts:166-174 | In every run, a for-cause revocation is still there at the next moment when the queue is drained and the tenant is not deactivated if and only if the client was not bulk-revoked when it was asked for. |
| `TenantLifecycle.ForCauseUndone` | apps/digital-trust-common-service/src/oauth-client/oauth-client.service.ts:166-174 | A run in which a bulk-revoked client is revoked for cause and is live again after its tenant's reactivation. |
| `TenantLifecycle.HandlerRun` | apps/digital-trust-common-service/src/tenant/tenant-status-change.worker.ts:52-78 | A job handled to the end has the effect of its bulk updates on exactly the tables it concerns. |
| `TenantLifecycle.HandledRowByRow` | apps/digital-trust-common-service/src/tenant/tenant-status-change.worker.ts:52-78 | What a whole job does, row by row: rows of other tenants stay; a deactivation revokes and tags live clients, makes connectors inactive and abandons connections neither completed nor abandoned; a reactivation makes tagged clients live; nothing else changes. |
| `TenantLifecycle.UnnamedTenantUntouched` | apps/digital-trust-common-service/src/connection/connection.repository.ts:71-80 | Through every run, a tenant whose jobs are not worked on keeps its clients, connectors and connections, but for requests about those rows themselves. |
| `TenantLifecycle.Lifecycle.UpdateStatus` | apps/digital-trust-common-service/src/tenant/tenant.service.ts:350-384 | A status change succeeds exactly for the five allowed pairs of a tenant that exists; it then sets or clears the deactivation time and enqueues one job, and otherwise nothing changes and the error says why. |
| `TenantLifecycle.Lifecycle.RevokeClient` | apps/digital-trust-common-service/src/oauth-client/oauth-client.service.ts:166-174 | Revokes a live client of the tenant; returns early for one already revoked, and does not find another tenant's. |
| `TenantLifecycle.Lifecycle.Handle` | apps/digital-trust-common-service/src/tenant/tenant-status-change.worker.ts:52-78 | The handler is a run of the step machine, its bulk updates and then the completion of the job, and leaves every row as `HandledRowByRow` says. |
| `OidcPurge.BatchWithinLogouts` | libs/oidc/src/oidc-purge.repository.ts:46-106 | A linked session in a batch of the first k expired rows is among the first k linked ones, unless rows tie around it. |
| `OidcPurge.LogoutFirstExactly` | libs/oidc/src/oidc-purge.repository.ts:46-106 | With the logout query at one time and the delete at a later one, every outcome has each deleted linked session among the attempted ones if and only if no session the first query sees has a tie around it and none that expires in between finds room in the batch. |
| `OidcPurge.LateSessionGoesFirst` | libs/oidc/src/oidc-purge.service.ts:81-113 | A linked session that expires between the two queries is deleted without an attempt, with no tie anywhere. |
| `OidcPurge.TiedSessionMayGoFirst` | libs/oidc/src/oidc-purge.repository.ts:59-96 | For every batch size, one linked session more with the same expiry time can be deleted without an attempt. |
| `OidcPurge.DistinctTimesSuffice` | libs/oidc/src/oidc-purge.repository.ts:46-106 | Distinct expiry times meet that condition. |
| `OidcPurge.FirstThenFirst` | libs/oidc/src/oidc-purge.service.ts:77-113 | Batches add up: the first k and then the first l of the rest are the first k + l. |
| `OidcPurge.BatchAttempted` | libs/oidc/src/oidc-purge.service.ts:77-113 | With distinct expiry times, the linked sessions a batch removes had their logout attempted in this iteration or an earlier one if and only if none of them expired after the iteration's logout query. |
| `OidcPurge.ProgressMore` | libs/oidc/src/oidc-purge.repository.ts:79-106 | Each batch, whenever it runs, extends what is gone to the earliest rows expired by then. |
| `OidcPurge.RunMore` | libs/oidc/src/oidc-purge.service.ts:73-140 | What holds between iterations, each query at its own time: the earliest-expired rows are gone, totals count them by model, and with distinct expiry times logouts come first exactly where no purged linked session was late. |
| `OidcPurge.SelectFirst` | libs/oidc/src/oidc-purge.repository.ts:79-106 | The selection loop returns a possible outcome of `ORDER BY expires_at LIMIT k`. |
| `OidcPurge.AddCounts` | libs/oidc/src/oidc-purge.service.ts:132-137 | The totals map gains each model's batch count and nothing else. |
| `OidcPurge.OidcPurgeService.LogoutLinked` | libs/oidc/src/oidc-purge.service.ts:81-103 | Attempts the logout of the first linked expired sessions, five hundred at most; only a successful one drops its link, and those are counted. |
| `OidcPurge.OidcPurgeService.AttemptEach` | libs/oidc/src/oidc-purge.service.ts:86-102 | Every session handed over is attempted; the number reported is the number of links dropped. |
| `OidcPurge.OidcPurgeService.PurgeExpiredBatch` | libs/oidc/src/oidc-purge.repository.ts:79-106 | Deletes the first expired rows, as many as a batch holds, and reports them by model. |
| `OidcPurge.OidcPurgeService.PurgeOnce` | libs/oidc/src/oidc-purge.service.ts:77-137 | One pass of the loop: logouts at the first query's time, delete at the second's, totals counted on. |
| `OidcPurge.OidcPurgeService.PurgeNext` | libs/oidc/src/oidc-purge.service.ts:77-137 | One more pass keeps what holds between iterations; an empty batch means that everything expired by its delete is gone. |
| `OidcPurge.OidcPurgeService.PurgeBatches` | libs/oidc/src/oidc-purge.service.ts:77-137 | The loop ends with an empty batch or at the cap of fifty, with the invariant of the run. |
| `OidcPurge.OidcPurgeService.PurgeExpiredModels` | libs/oidc/src/oidc-purge.service.ts:65-140 | A run over any times that never go back deletes the earliest-expired rows and nothing else: all expired by its last delete, or, where fifty batches end it, at least as many as they hold of those expired by its first; its totals are exact. With distinct expiry times each linked session's logout comes before its deletion if and only if none it deletes expired after its iteration's logout query, as none does where none expires between the two queries of an iteration. |
| `Pagination.ListsEachRowOnce` | apps/digital-trust-common-service/src/audit-log/audit-log.repository.ts:77-116 | Following cursors from the first page lists every row exactly once, in order, and stops, if and only if every page break is clean. |
| `Pagination.WholeMillisList` | apps/digital-trust-common-service/src/tenant/tenant.repository.ts:25-60 | With whole-millisecond timestamps both directions list every row exactly once, in order, and stop. |
| `Pagination.OldestNeverSkips` | apps/digital-trust-common-service/src/tenant-user/tenant-user.repository.ts:62-101 | With finer timestamps the oldest-first lists never skip a row. |
| `Pagination.NewestNeverRepeats` | apps/digital-trust-common-service/src/audit-log/audit-log.repository.ts:77-116 | With finer timestamps the newest-first list never repeats a row and stops. |
| `Pagination.NewestMaySkip` | apps/digital-trust-common-service/src/audit-log/audit-log.repository.ts:90-113 | A newest-first list that loses a row. |
| `Pagination.OldestMayNeverEnd` | apps/digital-trust-common-service/src/tenant/tenant.repository.ts:34-57 | An oldest-first list that gives the same row for ever. |
| `Pagination.MatchingIsSuffix` | apps/digital-trust-common-service/src/audit-log/audit-log.repository.ts:77-116 | Over an ordered table the cursor clause selects exactly the rows from some position on. |
| `Pagination.PageContents` | apps/digital-trust-common-service/src/tenant/tenant.repository.ts:25-60 | A page holds the next `limit` rows, and carries a cursor exactly when rows are left. |
| `Pagination.CursorPosition` | apps/digital-trust-common-service/src/tenant-user/tenant-user.repository.ts:62-101 | Where a truncated cursor resumes: oldest first it may fall back, newest first it may jump ahead, and exactly when. |
| `Pagination.FollowIsStride` | apps/digital-trust-common-service/src/audit-log/audit-log.repository.ts:77-116 | Following cursors is the same as walking positions in the ordered table. |
| `AuditCsv.ExportRoundTrip` | apps/digital-trust-common-service/src/audit-log/audit-log.service.ts:103-142 | A reader following section 2 of RFC 4180, with LF as the record break, gets the header and one record of eleven fields per exported row back: under each header name the row's attribute of that name, as the leading-formula step left it, with a missing operation or address empty; no field starts with one of the four signs, and up to ten thousand rows are exported. |
| `AuditCsv.ReadLines` | apps/digital-trust-common-service/src/audit-log/audit-log.service.ts:137-141 | Reading any lines of escaped fields gives the fields back. |
| `AuditCsv.FeedField` | apps/digital-trust-common-service/src/audit-log/audit-log.service.ts:164-171 | One escaped field, whatever it holds, leaves exactly its neutral text pending. |
| `AuditCsv.Neutral` | apps/digital-trust-common-service/src/audit-log/audit-log.service.ts:164-167 | The leading-formula step gives a text that starts no formula and is the value itself or the value behind an apostrophe. |
| `Operations.OneStampWins` | apps/digital-trust-common-service/src/operation/operation.service.ts:92-161 | However polls and the purge interleave, at most one poll stamps a finished operation, all that answer give the same viewed time, which some poll of the run read, and the same expiry, which follows the written-out rule, and not-found is answered only once the row is gone. |
| `Operations.LoserRereads` | apps/digital-trust-common-service/src/operation/operation.service.ts:143-155 | A poll whose stamp found nothing answers the winner's values, or not-found where the row is gone. |
| `Operations.PurgedIsNotFound` | apps/digital-trust-common-service/src/operation/operation.service.ts:143-155 | Once the purge has come the row stays gone, and a poll that starts then finds nothing. |
| `Operations.PollsSettle` | apps/digital-trust-common-service/src/operation/operation.repository.ts:79-102 | The invariant of every run of polls: what a viewed copy looks like is settled once. |
| `Operations.ExpiryFollowsRule` | apps/digital-trust-common-service/src/operation/operation.service.ts:55-190 | Over every run of create, view and state change the stored expiry is what the written-out rule gives for the stored state and times, and a view time is set at most once. |
| `Operations.StepFollowsRule` | apps/digital-trust-common-service/src/operation/operation.service.ts:55-190 | One such call keeps that. |
| `Operations.ViewKeepsInFlightExpiry` | apps/digital-trust-common-service/src/operation/operation.service.ts:106-125 | Viewing an unfinished operation never moves its expiry, and polling it writes nothing. |
| `Operations.ViewMovesOnlyFinished` | apps/digital-trust-common-service/src/operation/operation-ttl.util.ts:115-152 | The states classified as finished are exactly those whose expiry responds to a view. |
| `Operations.RuleWrittenOut` | apps/digital-trust-common-service/src/operation/operation-ttl.util.ts:128-152 | The expiry rule written out: from creation 24 hours when pending, 72 when processing, 72 or 7 days when completed or failed and not viewed; from the view 1 hour or 24 hours; or the tenant's own duration for that case. |
| `Operations.OverrideMovesExactly` | apps/digital-trust-common-service/src/operation/operation-ttl.util.ts:84-113 | A readable override moves the expiry of exactly the operations its key governs, by exactly the difference to the default; no key moves a processing one, and an unreadable or non-positive value moves none. |
| `Operations.ResolveTtls` | apps/digital-trust-common-service/src/operation/operation-ttl.util.ts:84-113 | Every key gets its readable override or its system default, and always a positive duration. |
| `Operations.OperationService.CreateOperation` | apps/digital-trust-common-service/src/operation/operation.service.ts:55-83 | Stores a pending operation whose expiry follows the written-out rule, or finds no tenant and stores nothing. |
| `Operations.OperationService.MarkFirstView` | apps/digital-trust-common-service/src/operation/operation.repository.ts:79-102 | Stamps once: an operation already stamped, or gone, is left alone, and the result says which. |
| `Operations.OperationService.ApplyViewed` | apps/digital-trust-common-service/src/operation/operation.service.ts:127-161 | Run alone, stamps the operation it was given with the time of the call and the expiry of the written-out rule, and returns what is stored. |
| `Operations.OperationService.GetForTenant` | apps/digital-trust-common-service/src/operation/operation.service.ts:92-104 | Stamps a finished operation on its first poll only, with the time of the call and the expiry of the written-out rule, returns what is stored, and fails exactly for a missing operation, another tenant's, or a missing tenant. |
| `Operations.OperationService.MarkViewed` | apps/digital-trust-common-service/src/operation/operation.service.ts:113-125 | Stamps in any state, once, with the time of the call and the expiry of the written-out rule. |
| `Operations.OperationService.TransitionState` | apps/digital-trust-common-service/src/operation/operation.service.ts:163-190 | Stores the new state with the expiry that the written-out rule gives for it, and nothing else. |

## Left out

- PostgreSQL, TypeORM, oidc-provider, pg-boss and cryptography: statements are atomic steps, grants, sessions and tokens are plain rows, and saving a stale entity over another writer's change is not modelled.
- Scope lists are sets: they are sorted and free of duplicates wherever they are compared, and two lists from different sources always differ in source as well.
- Resource scopes of a grant, which the login passes through unchecked, and the other records a role sweep deletes with the grants: the protocol follows the OIDC scopes of grants only.
- Role changes of users and changes to the seeded defaults during a run of role-scope writes.
- Audit entries stand in commit order; their `created_at` is the transaction's start, so sorting by it may give another order. The count of revoked records, in their metadata and in the result of a write, is not modelled.
- The comment that skipping the write of a blocked request never changes when its caller unblocks is not stated: it does not hold in general.
- Clock skew: each model has one clock that never goes back, and an operation's `created_at` is the time its expiry was computed from.
- Text in rate-limit keys is its UTF-8 bytes; decoding errors other than malformed escapes do not arise there.
- Tenant jobs are handled in order, and a tenant's connectors and connections change on request only while it is active, as the status guard enforces. Seed and bootstrap writers, and deleting or restoring tenants, are outside the runs.
- Upstream interactions and pending sessions in the purge loop: the loop stops on the `oidc_model` count alone, so nothing is promised about draining them. Errors that end a run early, and rows that others insert or change while a run is under way, are not modelled.
- The operation purge beyond removing the polled row: deleting a batch parent cascades to its children.
- Fractional and textual TTL durations: a TTL is a whole number of milliseconds or unreadable.
- Operations.OperationService.ApplyViewed: stated for a call that runs alone, because its interleavings with other polls and the purge are the subject of `Operations.OneStampWins`.
- Operations.OneStampWins: assumes no state change while the polls run, because a state change may overwrite the stamped expiry.
- RateLimiter.WindowBound: assumes that no administrator's reset of the tracker falls inside the window, because a reset is meant to let its requests start over, and that no pruning had reached into the window of the request that counted last when it counted, which a long enough retention ensures (`RateLimiter.PromptBound`).
- OidcStore.SwitchMovesEverything: assumes conventions of oidc-provider, that rows under a grant share its account, that neither sessions nor grants carry a grant id, and that new ids are unused, and of the token check, that the access token presented belongs to the old account. `OidcStore.SwitchClearsGrantsExactly` assumes the same.
- Cursor encoding, page-size parsing, filters, controllers, guards, configuration, logging, the Traction client and the user interface: easy branching or I/O.
