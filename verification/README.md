# Verified model of the Discord support hub

The hub gives every merchant one private Discord channel. Postgres says who may see which channel; workers
project that onto Discord and must survive failing calls, rate limits, crashes, retries and each other. This
project models the parts where that is hard, and proves what they promise over every history:

- `TokenBucket`, `RateLimit`, `Budget`, `BudgetLag`: the distributed token bucket (Lua take script, 429 freezes, header
  seeding, key expiry), the limiter over one Valkey key space, and the budget it imposes on the Discord calls
  of concurrent provision runs.
- `Lock`: SET NX locks with fencing tokens, for any number of workers.
- `Domain`, `Postgres`, `Discord`: the tables and the overwrite maps, with the calls the workers make on them.
- `Reconcile`, `Convergence`, `Sweeps`: the reconcile engine and what runs of faulty passes and guild sweeps lead to.
- `Provision`, `ProvisionOutcomes`, `FailClosed`: the provision handler, what one run comes to, and what any history of attempts leaves behind, in sequence
  and interleaved under the merchant lock.
- `Membership`, `LifecycleChange`, `Access`, `Interleaving`: invite, expel and lifecycle handlers, a system in which
  all of these steps and the API's writes run in any order, and one in which their Discord calls interleave.
- `Relay`, `Outbox`, `ProvisionRequest`: the outbox relay, the outbox protocol with several crashing relays, and
  the request that writes the outbox.
- `Idempotency`, `OAuthState`, `AuditWalk`: the Idempotency-Key middleware, single-use OAuth2 state tokens, and
  the audit log's cursor pages.

Code that changes state step by step is a class with methods; each method is proved against a function of the old
state, and the lemmas are about that function. Every remote call that writes takes an outcome: `Done`, `Rejected` (an
error, and nothing happened) or `Lost` (an error, although the call took effect); every read may fail. Clocks,
generated ids, reachability and the answers of Discord, Valkey and Postgres are parameters, and every statement holds
for all of them. Times are whole milliseconds, token counts exact reals.

Assumptions, stated where they are used: Discord never hands out a snowflake twice, and a user's snowflake is never the
@everyone role's; fencing tokens, nonces and row ids are fresh; the MAC accepts only payloads that were signed; SHA-256
is injective; the agent role is not @everyone (the handler's own guard when the configured @everyone role is the guild).

Where the code and its comments disagree, the model follows the code:

- `UnarchiveChannel` says that the creation-time deny is in place again afterwards; it deletes the one overwrite under
  @everyone, and the deny with it (`Access.HiddenUnlessLifted` says exactly when that happens).
- `failClosed` reads an empty channel id as "no channel exists"; a create that Discord carried out but answered with an
  error leaves a channel behind a row that says failed (`FailClosed.FailedHidesAChannelIff`).
- The invite handler expects reconcile to mark rows whose overwrite already exists; reconcile marks only what it re-applies
  (`Convergence.MarkedIff`, `Convergence.ShownIsNeverMarked`).
- `RetryDelayFunc` speaks of jitter; there is none. `UpdateFromHeaders` speaks of ignoring a negative remaining count; it
  stores 0.
- `ListActiveSpaceMembers` speaks of rows with overwrite_applied; the query asks for rows that are not revoked.
- A repeated provision run is meant to be a no-op; it reopens its completed job first and leaves it active
  (`FailClosed.CompletedJobIff`).
- The idempotency table's expiry is meant to bound its growth; nothing deletes rows, and a key that has expired never
  protects a request again (`Idempotency.ExpiredForGood`).

## Model

| member | source | states |
|---|---|---|
| TokenBucket.ExpiryUnobservable | internal/ratelimit/ratelimit.go:122-167 | for every history of takes, penalties and headers whose writers leave time to refill, a bucket whose key expires gives the same answers, and ends the same, as one that never expires |
| TokenBucket.CurrentHeadersAreTame | internal/ratelimit/ratelimit.go:207-240 | on a route bucket a header whose reset time is not in the past always leaves that time |
| TokenBucket.HeaderExpiryUnobservableIff | internal/ratelimit/ratelimit.go:207-240 | a header write's TTL can be told apart by no later history exactly when the bucket it seeds is full by the time the key dies |
| TokenBucket.StaleHeaderIsObservable | internal/ratelimit/ratelimit.go:218-234 | a concrete stale reset time after which an emptied bucket comes back full too early |
| TokenBucket.BurstNeedsTokens | internal/ratelimit/ratelimit.go:142-154 | n takes at one instant are all granted exactly when n tokens are there |
| TokenBucket.RemainingIsExact | internal/ratelimit/ratelimit.go:142-148 | the remaining count a grant reports is exactly how many more takes would be granted at the same instant |
| TokenBucket.KeyOutlivesTheRefill | internal/ratelimit/ratelimit.go:142-148 | a granted take's key dies five seconds after an empty bucket would have filled |
| TokenBucket.HeaderBurst | internal/ratelimit/ratelimit.go:214-233 | right after a header as many takes are granted as it says are left, within the capacity, and none for a negative count |
| TokenBucket.HeaderKeyDies | internal/ratelimit/ratelimit.go:219-233 | the seeded key dies five seconds after the reset time but within five minutes, and after five seconds when that time is over already |
| TokenBucket.WindowBound | internal/ratelimit/ratelimit.go:122-193 | with capacity at most ten times the rate, grants stamped in any window never exceed capacity plus the window's refill, over every history of takes, denials, penalties and key expiry |
| TokenBucket.WindowBoundAnyClock | internal/ratelimit/ratelimit.go:122-155 | for takes alone the bound holds even when workers' clocks are out of order |
| TokenBucket.DeniedWaitIsLeast | internal/ratelimit/ratelimit.go:149-154 | the wait a denial reports is the least whole number of milliseconds after which the untouched bucket grants |
| TokenBucket.FrozenTake | internal/ratelimit/ratelimit.go:248-275 | a bucket frozen by a 429, whatever it held, grants exactly from now + min(retryAfter, 300 000 ms) + one token's refill on |
| TokenBucket.FrozenKeyDies | internal/ratelimit/ratelimit.go:254-269 | the frozen key dies ten seconds after the delay, at the latest after five minutes and ten seconds |
| TokenBucket.FreezeIsExact | internal/ratelimit/ratelimit.go:248-275 | takes before the thaw are all denied without delaying it, and the first take at or after it is granted |
| RateLimit.ValKeyLimiter.ReadState | internal/ratelimit/ratelimit.go:128-136 | the script's field loop finds both fields in whatever order HGETALL lists them, and the defaults when they are absent |
| RateLimit.ValKeyLimiter.Eval | internal/ratelimit/ratelimit.go:122-155 | the script on the stored hash is one step of the bucket; no other key changes |
| RateLimit.ValKeyLimiter.Take | internal/ratelimit/ratelimit.go:169-193 | what the caller is told; a take whose reply is lost has spent its token all the same, one that never arrives changes nothing |
| RateLimit.ValKeyLimiter.TakeGlobal | internal/ratelimit/ratelimit.go:158-161 | a take steps the global bucket by its own capacity and rate and touches no other |
| RateLimit.ValKeyLimiter.TakeRoute | internal/ratelimit/ratelimit.go:164-167 | a take steps only the named route's bucket, whose rate equals its capacity |
| RateLimit.ValKeyLimiter.UpdateFromHeaders | internal/ratelimit/ratelimit.go:207-240 | the named route is seeded with the clamped count and TTL; no other bucket changes |
| RateLimit.ValKeyLimiter.PenalizeUntil | internal/ratelimit/ratelimit.go:248-275 | the global and the named route bucket are frozen, every other bucket is untouched, non-positive delays do nothing |
| RateLimit.ValKeyLimiter.KeysAreApart | internal/ratelimit/ratelimit.go:159-165 | route keys and the global key never collide, and routes share a key only when they are equal |
| RateLimit.RetryDelayFunc | internal/worker/errors.go:45-58 | a rate-limit delay is kept exactly; any other lies between one second and ten minutes |
| RateLimit.RetriesDouble | internal/worker/errors.go:45-58 | any other delay is one second at first, doubles with each attempt and stops at ten minutes |
| RateLimit.RetryLandsOnTheFirstGrant | internal/worker/errors.go:45-70 | a refused take is rescheduled for the first millisecond at which it is granted, whatever the attempt number, and is not a failure |
| RateLimit.RefusalFailsIff | internal/worker/errors.go:60-70 | a refused take counts as a failure exactly when the limiter could not be reached |
| Budget.RunsPayAhead | internal/worker/provision_space.go:175-205 | at every point of a run each Discord call follows a global token granted for just that call |
| Budget.RunsPayForTheirCalls | internal/worker/provision_space.go:249-259 | however the operations of any number of runs interleave, when each call is made within a lag of its take, the calls made in a window are at most the tokens granted in the window and the lag before it |
| Budget.PaidIsGranted | internal/ratelimit/ratelimit.go:158-193 | in every window the tokens the runs were told of are at most the bucket's grants; a lost reply is a grant nobody uses |
| Budget.CallsStayInBudget | internal/worker/provision_space.go:175-259 | any number of interleaved runs on one global bucket, each calling within a lag of its take, make in any window at most capacity plus the refill of window and lag calls, counted when they are made |
| BudgetLag.StalledCallsExceedTheWindow | internal/worker/provision_space.go:175-182 | the lag cannot be dropped: for every bucket and every lag of at least a millisecond there are runs that make more calls in some window than capacity and that window's refill |
| BudgetLag.UnshiftedBoundIff | internal/worker/provision_space.go:175-182 | on every bucket of capacity at most ten times its rate the bound without the lag holds of all interleavings within a lag exactly when the lag is zero |
| Lock.KeysNeverCollide | internal/lock/lock.go:43-47 | space and merchant lock keys are distinct for all ids |
| Lock.ValKeyLocker.Default | internal/lock/lock.go:71-74 | without a TTL of its own a locker uses thirty seconds |
| Lock.ValKeyLocker.Acquire | internal/lock/lock.go:105-120 | SET NX: granted iff the key is absent or expired; a lost reply has set it all the same |
| Lock.ValKeyLocker.Release | internal/lock/lock.go:122-131 | compare-and-delete: only the holder's own token removes the key |
| Lock.RunKeepsInv | internal/lock/lock.go:105-131 | in every interleaving an unexpired grant is what the key holds |
| Lock.MutualExclusion | internal/lock/lock.go:49-62 | two workers never both hold an unexpired lock on one key |
| Lock.StaleReleaseIsHarmless | internal/lock/lock.go:49-62 | a release, however late, never frees another worker's lock |
| Lock.ReleaseFreesTheLock | internal/lock/lock.go:122-131 | over every run, when a holder's release takes effect the key is gone and whoever asks next at the same instant holds it |
| Lock.UnreleasedLocksOut | internal/lock/lock.go:122-131 | when a holder's release never arrives nobody gets the key before its lease is over, and anybody does from then on |
| Lock.LostGrantLocksOut | internal/lock/lock.go:105-120 | a grant whose reply was lost is held by nobody and keeps everybody out for exactly one TTL |
| Lock.NothingIsLockedForEver | internal/lock/lock.go:105-120 | one TTL after anything at all a key nobody asks for is free |
| Postgres.Store.TransitionJob | internal/worker/provision_space.go:319-342 | the space's job row moves when there is one; failures are not reported |
| Postgres.Store.SetSpaceMemberOverwriteApplied | internal/store/postgres/postgres.go:912-918 | sets one row's flag and nothing else |
| Postgres.Store.RevokeSpaceMember | internal/store/postgres/postgres.go:921-927 | revokes one row, keeps it, and touches nothing else |
| Postgres.Store.InsertAuditEntry | internal/store/postgres/postgres.go:677-691 | appends one audit row |
| Postgres.Store.UpdateSpaceACLState | internal/store/postgres/postgres.go:504-514 | changes one space's acl_state and nothing else |
| Postgres.Store.UpdateSpaceLifecycle | internal/store/postgres/postgres.go:1074-1091 | changes one space's lifecycle and nothing else |
| Postgres.Store.UpdateSpaceDiscordChannel | internal/store/postgres/postgres.go:489-501 | records channel, category (kept when absent) and acl_state together |
| Discord.Session.CreateChannelDenied | internal/discord/discord.go:173-195 | a new channel carries exactly the @everyone deny |
| Discord.Session.ApplyCategoryAgentAllow | internal/discord/discord.go:202-213 | sets the role's allow on the category and nothing else |
| Discord.Session.SetCollaboratorOverwrite | internal/discord/discord.go:218-230 | sets one member overwrite on one channel |
| Discord.Session.DeleteCollaboratorOverwrite | internal/discord/discord.go:235-241 | removes what stands under one snowflake on one channel |
| Discord.Session.ArchiveChannel | internal/discord/discord.go:278-290 | replaces the @everyone overwrite by a wider deny |
| Discord.Session.UnarchiveChannel | internal/discord/discord.go:294-303 | deletes the @everyone overwrite |
| Reconcile.Engine.BuildDesired | internal/reconcile/reconcile.go:188-212 | the loop yields exactly the Discord ids that unrevoked rows back, each with its row, and fails iff some user read fails |
| Reconcile.Engine.Prepare | internal/reconcile/reconcile.go:153-247 | the early exits, in order: lock, row, state, members, users, overwrites, circuit breaker |
| Reconcile.Engine.RevokeUnbacked | internal/reconcile/reconcile.go:249-272 | after the first loop, in whatever order: overwrites, audit rows and both counters |
| Reconcile.Engine.ReapplyMissing | internal/reconcile/reconcile.go:274-300 | after the second loop, in whatever order: overwrites, row flags, audit rows and both counters |
| Reconcile.Engine.Repair | internal/reconcile/reconcile.go:249-300 | the two loops together do exactly what the pass function says |
| Reconcile.Engine.ReconcileSpace | internal/reconcile/reconcile.go:152-309 | one pass as a function of the state and of how its calls come out: the new state, the report, the audit rows |
| Reconcile.Engine.ReconcileEach | internal/reconcile/reconcile.go:117-124 | one pass per listed space with its audit rows; an error is counted and the sweep goes on |
| Reconcile.Engine.ReconcileGuild | internal/reconcile/reconcile.go:103-138 | a sweep over every active space with a channel, its audit rows included, failing iff the listing or some pass failed |
| Reconcile.Engine.ListActiveProvisionedSpaces | internal/store/postgres/postgres.go:1208-1231 | lists every active space with a channel exactly once |
| Reconcile.PassKeepsUnique | internal/reconcile/reconcile.go:274-300 | a pass keeps the uniqueness of rows and accounts |
| Convergence.RepairLeavesTheRefusals | internal/reconcile/reconcile.go:251-300 | after the repair phase, what Discord shows too much is the refused revokes and what it lacks the refused re-applies |
| Convergence.RepairTouchesOnlyDrift | internal/reconcile/reconcile.go:220-300 | role overwrites and members on which both sides agree are never touched |
| Convergence.PassUnder | internal/reconcile/reconcile.go:249-300 | what a pass leaves under each snowflake: nothing under a member's whom no unrevoked row backs, an overwrite to view and write under a missing member's, and otherwise, or where Discord refuses, what was there |
| Convergence.AuditRowsAre | internal/reconcile/reconcile.go:262-297 | exactly which audit rows a pass adds, under which action |
| Convergence.ReportIsExact | internal/reconcile/reconcile.go:249-307 | drift found is the symmetric difference before; found less repaired is the one after, plus the calls whose success got lost |
| Convergence.OneAuditRowPerRepair | internal/reconcile/reconcile.go:262-297 | never more audit rows than repairs, and one each when the inserts work |
| Convergence.PassKeepsPostgres | internal/reconcile/reconcile.go:152-309 | a pass never changes what Postgres asks for in any space |
| Convergence.PassShrinksDrift | internal/reconcile/reconcile.go:239-300 | no pass, whatever fails, adds to the drift; one that gets a call through strictly shrinks it |
| Convergence.RunsConverge | internal/reconcile/reconcile.go:239-302 | over every run of faulty passes at most as many are productive as there was drift, and after that many Discord shows exactly what Postgres asks for |
| Convergence.AgreementIsQuiet | internal/reconcile/reconcile.go:251-300 | once they agree, no pass writes an overwrite, a flag or an audit row |
| Convergence.FaultFreePassAgreesIff | internal/reconcile/reconcile.go:228-300 | a pass in which nothing fails ends in agreement exactly when the circuit breaker is not tripped |
| Convergence.BreakerTripsIff | internal/reconcile/reconcile.go:228-247 | a pass in which nothing fails stops at the breaker exactly when some row is unrevoked, no unrevoked row's user has a Discord identity and the channel shows a member overwrite |
| Convergence.FaultFreePassShows | internal/reconcile/reconcile.go:249-300 | otherwise it leaves member overwrites for exactly the Discord ids of unrevoked rows |
| Convergence.EmptiedSpaceShowsNobody | internal/reconcile/reconcile.go:239-272 | a space whose last row was revoked loses its last member overwrite |
| Convergence.TrippedStaysTripped | internal/reconcile/reconcile.go:228-247 | while Postgres stays as it is, a tripped breaker is never left by any run of passes |
| Convergence.SweepIsPassPerSpace | internal/reconcile/reconcile.go:117-124 | what a sweep does to a listed space's channel is what its own pass alone would have done |
| Convergence.UnlistedChannelsStay | internal/reconcile/reconcile.go:117-124 | a channel no listed space owns is unchanged |
| Convergence.SweepErrsIff | internal/reconcile/reconcile.go:117-132 | a sweep errs iff some listed space's own pass errs |
| Convergence.PassErrsIff | internal/reconcile/reconcile.go:153-247 | which passes err: every failed read of one that gets the lock and finds an applied space, a broken lock, a tripped breaker; a busy lock or an unprovisioned space is no error |
| Convergence.OnlyActiveSpacesAreSwept | internal/store/postgres/postgres.go:1208-1231 | a sweep leaves the channels of resolved and archived spaces as they are |
| Convergence.MarkedIff | internal/reconcile/reconcile.go:274-300 | after a pass that reaches its loops a backing row is marked iff it was before, or its overwrite was missing, its re-apply was confirmed and its mark landed |
| Convergence.ShownIsNeverMarked | internal/worker/invite_collaborator.go:163-169 | a row whose overwrite is there already is marked by no run of passes |
| Convergence.InvitedUnmarkedStaysUnmarked | internal/worker/invite_collaborator.go:163-169 | a concrete state in which an invite could not mark its row and reconcile never does |
| Convergence.GuildIsolation | internal/reconcile/reconcile.go:103-138 | after a sweep each fault-free, untripped, applied listed space shows exactly its own desired set; every space that erred, was skipped (lock held, or not applied) or is not listed is as it was |
| Sweeps.SweepDrift | internal/reconcile/reconcile.go:117-124 | a sweep leaves each applied space the drift its own pass would have left |
| Sweeps.SweepsConverge | internal/reconcile/reconcile.go:103-138 | over every run of faulty sweeps the drift of all listed spaces together never grows, every sweep that gets one call through costs it an id, and after as many such sweeps as there was drift every applied listed space agrees with Postgres |
| Provision.NewHandler | internal/worker/provision_space.go:66-94 | a handler exists only with an agent role that is neither empty nor the guild |
| Provision.Handler.TakeTokens | internal/worker/provision_space.go:249-259 | the route's token is asked for only after the global one was granted |
| Provision.Handler.Handle429 | internal/worker/provision_space.go:262-270 | freezes for Discord's delay, or five seconds, and retries after just that |
| Provision.Handler.FailClose | internal/worker/provision_space.go:279-314 | failed without a channel, degraded with one; the job is archived, never retried, and the failure audited |
| Provision.Handler.AllowAgents | internal/discord/discord.go:202-213 | the allow is confirmed only on a category Discord has; on any other it counts as failed |
| Provision.Handler.Handle | internal/worker/provision_space.go:99-244 | one run as a function of its row and its calls' outcomes: verdict, operations in order, row, job, audit rows, guild, and the global bucket those operations account for; Discord confirms an allow only on a category it has |
| ProvisionOutcomes.IdleRuns | internal/worker/provision_space.go:107-154 | a run without a space id, lock, row or anything left to do touches nothing, and which of them are retried |
| ProvisionOutcomes.WorkBeginsIff | internal/worker/provision_space.go:156-176 | a run on a row that wants a channel begins with a global take exactly when the payload or the configuration names a category, and else fails for good without a call |
| ProvisionOutcomes.CategoryUsed | internal/worker/provision_space.go:156-163 | every allow and every recorded row names the payload's category, or the configured one where the payload has none |
| ProvisionOutcomes.CallsHoldBothTokens | internal/worker/provision_space.go:249-259 | just before each Discord call the run was granted a global token and then one of that call's route |
| ProvisionOutcomes.AnswersAreSeen | internal/worker/provision_space.go:175-205 | a run acts on what the limiter and Discord answered, call by call |
| ProvisionOutcomes.LastOpDecides | internal/worker/provision_space.go:175-270 | verdict and write of a run as its last operation tells: refused token, 429, failed create, failed allow, confirmed allow |
| ProvisionOutcomes.RowIsWritten | internal/worker/provision_space.go:214-314 | the row such a write leaves, and that no other row changes |
| ProvisionOutcomes.JobAndAuditFollow | internal/worker/provision_space.go:226-342 | the job ends completed on success, archived on a terminal failure and else active, with one audit row for either end |
| FailClosed.AppliedWriteIsEarned | internal/worker/provision_space.go:179-226 | a run writes applied only with the channel it has just created denied and the category it has just allowed the agents on |
| FailClosed.AppliedWriteIsProjected | internal/worker/provision_space.go:179-226 | in the guild as such a run leaves it the recorded channel denies @everyone and the recorded category allows the agents |
| FailClosed.AppliedIsEarned | internal/worker/provision_space.go:133-226 | after any history of attempts with any outcomes, applied holds iff the row names a channel, and some one attempt earned that channel and category |
| FailClosed.AppliedIsFinal | internal/worker/provision_space.go:145-154 | once applied, no later attempt changes the row or calls Discord |
| FailClosed.TerminalFailureState | internal/worker/provision_space.go:279-314 | a terminal failure whose update lands leaves failed iff the run was told of no channel, else degraded, and changes nothing else |
| FailClosed.FailedHidesAChannelIff | internal/worker/provision_space.go:182-190 | failed is recorded over a channel that exists exactly when the create took effect behind an error |
| FailClosed.CompletedJobIff | internal/worker/provision_space.go:129-154 | a successful run leaves its job completed iff it is the one that provisioned; a repeated run leaves it active |
| FailClosed.WriteIsSequentialIff | internal/worker/provision_space.go:145-226 | a worker's write is what its attempt would write on the row as it now stands, whatever the attempt did, exactly when its reading and the row agree on whether the space is provisioned |
| FailClosed.LockSerializes | internal/worker/provision_space.go:132-154 | for any number of racing workers whose readings are current in that sense when they write, late or not, the row goes through a sequential history of their attempts |
| FailClosed.TimelyIsCurrent | internal/worker/provision_space.go:132-143 | workers that write within their leases always write on current readings |
| FailClosed.FailClosedUnderTheLock | internal/worker/provision_space.go:132-226 | under every interleaving of writes on current readings, applied is earned and final |
| FailClosed.TimelyWorkersFailClosed | internal/worker/provision_space.go:132-226 | in particular when every worker writes within its lease |
| FailClosed.LateWriteReplacesTheChannel | internal/worker/provision_space.go:214-226 | a worker still to write on an unprovisioned reading replaces whatever channel the row names, when its attempt goes well |
| FailClosed.StalledWorkerIsReachable | internal/worker/provision_space.go:132-226 | and such a worker can be waiting while the row is already applied |
| Membership.Handlers.GetSpaceMemberBySpaceAndUser | internal/store/postgres/postgres.go:904-909 | finds the one row of the pair, revoked or not |
| Membership.Handlers.HandleExpel | internal/worker/expel_collaborator.go:54-143 | one run at either scope: tables, overwrites, guild, audit and verdict, under every failure |
| Membership.ExpelDropsTheOverwrite | internal/worker/expel_collaborator.go:103-112 | an expulsion whose delete takes effect leaves the user no overwrite on the space's channel, and every other overwrite as it was |
| Membership.ExpelMarksTheRow | internal/worker/expel_collaborator.go:126-130 | it revokes and keeps the user's row, changes no other, and succeeds on Postgres' word whatever Discord said |
| Membership.ExpelStopsIdle | internal/worker/expel_collaborator.go:60-101 | one that cannot get to work changes nothing, and which of those are retried |
| Membership.Handlers.HandleInvite | internal/worker/invite_collaborator.go:66-186 | one run: tables, overwrites, guild, audit and verdict, under every failure |
| Membership.InviteGrants | internal/worker/invite_collaborator.go:155-160 | an invite whose call takes effect lets the user view and write in the space's channel, and leaves every other overwrite as it was |
| Membership.InviteMarksTheRow | internal/worker/invite_collaborator.go:157-169 | the row is marked only once Discord has confirmed, and the run succeeds on that even if the mark fails |
| Membership.InviteStopsIdle | internal/worker/invite_collaborator.go:72-140 | one that cannot get to work changes nothing, and which of those are retried |
| Membership.InviteOnce | internal/worker/invite_collaborator.go:123-169 | once an invite has gone through and marked its row, no later run of it changes anything |
| LifecycleChange.Handler.ApplyDiscordChange | internal/worker/change_lifecycle.go:119-131 | the overwrite each action writes |
| LifecycleChange.Handler.Handle | internal/worker/change_lifecycle.go:55-115 | the row and the audit row follow only when Discord did not refuse; the job is active meanwhile and ends completed on success and archived on any error, retried ones included |
| LifecycleChange.SucceedsIff | internal/worker/change_lifecycle.go:55-145 | when a run succeeds, and that the row then says what the action asks for; which runs are not retried |
| LifecycleChange.RowFollowsDiscord | internal/worker/change_lifecycle.go:84-102 | the row changes in nothing but its lifecycle, and not before Discord has confirmed |
| LifecycleChange.ChannelFollowsAction | internal/worker/change_lifecycle.go:119-131 | archiving leaves @everyone denied viewing and writing, opening leaves @everyone no overwrite, resolving changes nothing |
| LifecycleChange.JobTellsSuccess | internal/worker/change_lifecycle.go:148-170 | the job row ends completed on success, archived otherwise, and active when that update fails |
| Access.StepKeepsDeny | internal/discord/discord.go:173-241 | every step but a reopen or open keeps the @everyone deny on every channel that has it |
| Access.HiddenUnlessLifted | internal/discord/discord.go:278-303 | after any step all channels the hub made are hidden from @everyone exactly when the step is no reopen or open that reached Discord |
| Access.ReopenedIsOpen | internal/discord/discord.go:292-303 | the lifted deny is reached where nothing fails: a space is provisioned, archived and reopened, hidden up to the reopen and open after it |
| Access.RecordedIsMade | internal/worker/provision_space.go:179-226 | a recorded channel is one the recording run made |
| Access.EveryChannelStaysHidden | internal/discord/discord.go:173-241 | in every state reachable by provision, invite, expel, reconcile, archive, resolve and API steps every channel ever made, orphans included, denies @everyone, and no two spaces share a channel |
| Interleaving.CallKeepsHiddenIff | internal/discord/discord.go:173-303 | call by call: every channel ever made stays hidden, and outside every pass's reading, exactly when the call does not lift such a channel's deny |
| Interleaving.HiddenThroughout | internal/discord/discord.go:173-290 | however the calls of provision runs, invites, expulsions, passes and archivings interleave, and wherever any of them stops, every channel ever made stays hidden |
| Access.RevokedForGood | internal/store/postgres/postgres.go:884-969 | no step ever gives a revoked row back, or moves a row to another space or user |
| Access.ExpelRevokes | internal/worker/expel_collaborator.go:93-130 | when expel reports success for an existing row that row is revoked, whatever its Discord calls returned |
| Access.ExpulsionSticks | internal/worker/expel_collaborator.go:93-130 | after a successful expel and any steps at all, the next fault-free pass leaves no overwrite for the user's account, unless unrevoked rows remain and none of their users has a Discord identity |
| Access.InviteRegrantsIff | internal/worker/invite_collaborator.go:111-169 | an invite gives a revoked member access exactly when its row is not yet marked applied and its calls come through |
| Interleaving.ProvisionCalls | internal/discord/discord.go:173-213 | what a provision run's operations do to the guild is those calls |
| Interleaving.PassCalls | internal/reconcile/reconcile.go:252-283 | each turn of a pass's loops is one such call, or none when it has no effect |
| Interleaving.PassCallsAllowed | internal/reconcile/reconcile.go:220-283 | whatever has come in between, what a pass revokes is in its own reading and what it grants is a user's, so none of its calls touches @everyone |
| Interleaving.MembershipCalls | internal/worker/expel_collaborator.go:103-112 | an expulsion or an invite makes one such call at most, for a user who is not @everyone |
| Interleaving.LifecycleCalls | internal/worker/change_lifecycle.go:119-131 | an archive, reopen or open that lands is one such call |
| Interleaving.ProvisionMakesOnce | internal/worker/provision_space.go:175-205 | a provision run makes no channel twice |
| Interleaving.StepIsARun | internal/discord/discord.go:173-303 | every handler run and API write has, on the guild, the effect of some run of allowed calls, with a lift among them exactly when it is a reopen or open that reached Discord |
| Relay.OutboxStore.ListPendingOutbox | internal/store/postgres/postgres.go:799-820 | the oldest unsent rows up to the limit, ties in any order |
| Relay.OutboxStore.StampOutboxEnqueued | internal/store/postgres/postgres.go:846-858 | stamps exactly the named rows |
| Relay.Client.Enqueue | internal/queue/queue.go:109-124 | accepted, refused by id, refused by uniqueness or failed, and what the queue then holds |
| Relay.OutboxRelay.constructor | internal/worker/relay.go:44-52 | the default batch of 100 |
| Relay.OutboxRelay.EnqueueRow | internal/worker/relay.go:114-137 | both conflicts count as enqueued |
| Relay.OutboxRelay.EnqueueBatch | internal/worker/relay.go:82-93 | a row that fails to enqueue is skipped and the others go on |
| Relay.OutboxRelay.Tick | internal/worker/relay.go:73-105 | the queue after the batch, and that exactly the enqueued rows are stamped |
| Relay.AdmitIs | internal/queue/queue.go:109-124 | an enqueue is accepted exactly when neither its id nor its payload is taken, and takes both |
| Relay.QueueGrowsByTheBatch | internal/worker/relay.go:82-93 | a batch loses no task and adds only its own rows', with their payloads |
| Relay.BatchIsQueued | internal/worker/relay.go:82-93 | every row of a batch whose enqueue arrives is queued under its key or has its payload taken |
| Relay.StampedByATickIff | internal/worker/relay.go:86-104 | a tick stamps exactly the listed rows whose enqueue came back without an error |
| Relay.TickTicks | internal/worker/relay.go:73-105 | the relay's own tick stamps every listed row that can be enqueued and loses no stamp |
| Relay.TickProgress | internal/worker/relay.go:73-105 | with f rows that never enqueue, a tick stamps at least min(batch - f, remaining) of the other rows that are older than the rest of the outbox, whatever becomes visible meanwhile |
| Relay.AllStampedInTime | internal/worker/relay.go:73-105 | n such rows are all stamped within ceil(n / (batch - f)) ticks, in whatever order ties come, as long as rows that arrive are younger |
| Relay.MovesIff | internal/store/postgres/postgres.go:799-820 | with the failing rows oldest, a tick stamps another row iff they leave room in the batch |
| Outbox.RunKeepsInv | internal/worker/relay.go:73-137 | with any number of relays crashing anywhere: births and retirements of queued ids balance, and locks, batches and stamps all stand for accepted ids |
| Outbox.StampedMeansOneTask | internal/worker/relay.go:73-137 | a stamped row's id was accepted by the queue, and while the queue has forgotten none of that id there is exactly one |
| Outbox.PatchedFirstIsCarried | internal/store/postgres/postgres.go:822-843 | in every reachable state, a patch that lands while no relay holds a listing of the row and nothing is queued for it reaches all that is ever queued under its key: each payload is the row's own merchant, space and category |
| Outbox.TaskIsFrozen | internal/worker/relay.go:114-137 | what is queued under a key keeps its payload while the queue keeps it |
| Outbox.RunKeepsProvenance | internal/worker/relay.go:73-137 | over every run, each relay's copies and each queued payload are the row as the listing they came from saw it |
| Outbox.LatePatchIsLost | internal/worker/provision_space.go:107-113 | over every run, a worker ends what is queued for a row for good, with no Discord call and no store write, iff the listing it came from was made before the row's patch landed; otherwise it carries the row's own space |
| Outbox.LaterListingCarries | internal/worker/relay.go:73-105 | it is that listing that counts: a row listed too early by a relay that crashed is queued with its space id by the next |
| Outbox.LatePatchHappens | internal/api/handlers/spaces.go:178-222 | that race is reachable: the row is patched and stamped, the queued payload has no space_id |
| ProvisionRequest.Handlers.CreateSpaceWithOutbox | internal/store/postgres/postgres.go:747-796 | both rows or neither, and when it conflicts |
| ProvisionRequest.Handlers.UpdateOutboxPayload | internal/store/postgres/postgres.go:825-843 | only unsent rows of the key take the payload |
| ProvisionRequest.Handlers.ProvisionSpace | internal/api/handlers/spaces.go:148-272 | the status code, the body and all tables, under every failure |
| ProvisionRequest.RequestKeepsWellFormed | internal/store/postgres/postgres.go:743-796 | whatever fails or is lost, spaces and outbox rows stay paired one to one, and a payload names its own merchant's space or none |
| ProvisionRequest.AcceptedIs | internal/api/handlers/spaces.go:168-265 | a 202 means this request created the space and its one unsent outbox row, which carries the space id and category iff the patch took effect; its job row and body |
| ProvisionRequest.CodeIs | internal/api/handlers/spaces.go:148-200 | which requests get 202, 404, 409 and 500 |
| ProvisionRequest.RefusedIs | internal/store/postgres/postgres.go:747-796 | a refused request changes nothing, but for a commit whose reply was lost, which leaves both rows |
| ProvisionRequest.ReplayableIff | internal/api/handlers/spaces.go:224-265 | a 202 can be replayed iff the job mirror row was created as well and the update landed |
| ProvisionRequest.RepeatGetsTheSame202 | internal/api/handlers/spaces.go:264-271 | from then on, whatever other requests are under way, a repeat under the key gets that very 202 until the key expires |
| Idempotency.Middleware.Check | internal/api/middleware/idempotency.go:36-105 | the decision for a keyed request and the row it may insert |
| Idempotency.RegisteredIs | internal/api/middleware/idempotency.go:56-105 | a registered key answers for 24 hours: the same text runs its handler until a response is stored, any other gets 409; a key with a row is never registered again |
| Idempotency.Middleware.StoreIdempotencyResponse | internal/api/middleware/idempotency.go:118-140 | stores code and body on the key's row, if there is one |
| Idempotency.RunKeepsInv | internal/api/handlers/spaces.go:224-265 | over every interleaving a key's unique job row lets in one request at most to store a response, and none once one is stored |
| Idempotency.AnsweredForGood | internal/api/middleware/idempotency.go:56-105 | over every interleaving, with any requests under way, a stored response never changes again, and until the key expires no later request comes to run its handler |
| Idempotency.LaterRequestsAreReplayed | internal/api/middleware/idempotency.go:67-88 | over every interleaving, until the key expires, the same hash gets exactly the stored response and any other 409 |
| Idempotency.AtMostOneCompletion | internal/api/middleware/idempotency.go:56-140 | over every interleaving of any number of requests, for every key and even after it has expired, at most one storing handler completes |
| Idempotency.ExpiredForGood | internal/store/postgres/postgres.go:604-650 | an expired row is never replaced or renewed: its key is unprotected from then on |
| Idempotency.AnsweredAsTheFirstIff | internal/api/middleware/idempotency.go:56-88 | a second request under a key is answered with the first's response iff the row is visible and answered and method, route pattern and body, run together, are the same text, whatever the merchants; any other text gets 409 |
| Idempotency.SecondMerchantGetsTheFirstsResponse | internal/api/middleware/idempotency.go:142-149 | so over every interleaving another merchant's request with the same key and body gets the response stored for the first |
| OAuthState.NonceStore.SetNonce | internal/oauth/nonce_store.go:28-34 | binds a nonce to its user until the TTL |
| OAuthState.NonceStore.ConsumeNonce | internal/oauth/nonce_store.go:46-89 | get and delete in one step, for both stores and their different expiry instants |
| OAuthState.StateManager.Issue | internal/oauth/oauth.go:82-112 | a signed payload and its stored nonce, or an error |
| OAuthState.StateManager.Validate | internal/oauth/oauth.go:116-162 | signature first, then the nonce, then the user |
| OAuthState.ValidateIs | internal/oauth/oauth.go:116-162 | on any store: what an authentic token is accepted for, and that it spends its own nonce and no other |
| OAuthState.AcceptedAtMostOnce | internal/oauth/oauth.go:114-162 | over every run no nonce is accepted twice, whatever is tried and however the store fails |
| OAuthState.AcceptedIff | internal/oauth/oauth.go:79-162 | in every reachable state a token is accepted iff authentic, unspent, reached and in time, and then for the user it was issued to |
| OAuthState.ForgeryConsumesNothing | internal/oauth/oauth.go:135-141 | a bad signature leaves every nonce where it is |
| AuditWalk.CursorRoundTrip | internal/api/handlers/transversal.go:146-172 | the cursor text parses back to the id it was made from |
| AuditWalk.CursorIsLeadingNumber | internal/api/handlers/transversal.go:146-154 | a cursor is read as its leading decimal number, signed or not, whatever follows; text without one, or with one too large for 64 bits, is no cursor |
| AuditWalk.Audit.ListAuditEntries | internal/store/postgres/postgres.go:1109-1161 | the newest matching rows below the cursor, up to the limit, 50 when it is not positive |
| AuditWalk.Audit.GetAudit | internal/api/handlers/transversal.go:132-175 | one page, and a next_cursor iff it is full, naming its last row |
| AuditWalk.WalkListsEverything | internal/api/handlers/transversal.go:132-174 | following next_cursor ends within n / limit + 1 pages and lists the n rows that matched at the start exactly once, newest first, whatever is appended meanwhile |

## Left out

- HTTP routing, authorisation, input validation, JSON decoding (and so the exits for undecodable payloads), configuration, logging, metrics, caching: no hard properties.
- discordgo, asynq, pgx, Valkey and the crypto libraries are maps and parameters; Discord's permission evaluation is not modelled, only overwrites are.
- cmd/worker/main.go gives the worker handlers neither limiter nor locker, so there they fall back to no-ops; the model wires in the real ones. The Discord calls of the invite, expel and reconcile paths take no tokens in the code either, so the call budget is about provision runs.
- Budget.CallsStayInBudget: how long a run can take between a token and its call is a parameter; nothing in the code bounds it.
- Floating-point rounding in the Lua script and sub-millisecond durations.
- HSET and PEXPIRE in one pipeline are taken as one step, although Valkey pipelines are not transactions.
- RateLimit.ValKeyLimiter.UpdateFromHeaders: reads the clock once, while the code reads it once for the TTL and once for last_ms.
- Provision.Handler.Handle: welcome messages, cache invalidation and provisioning latency are not modelled; of the job row only the status is kept.
- Reconcile.Engine.ReconcileSpace: reconciled_at, drift_count and metrics are left out, and nobody else edits the channel while a pass runs; between passes any other step may.
- Access.EveryChannelStaysHidden: the steps are whole handler runs one after the other; Interleaving.HiddenThroughout states the deny over interleaved Discord calls, and interleavings inside a run are otherwise modelled for the lock, the provision handler, the outbox and the idempotency table.
- Access.ExpelRevokes: says nothing for a member without a row, where the handler reports success and does nothing.
- "One channel per space" is not claimed: a retryable exit after creation leaves an orphan and the next run makes another channel.
- Overwrites that people edit in Discord by hand, deleted channels, and categories other than as overwrite maps.
- Relay.OutboxRelay.Tick: the queue a row goes to (queueForKind) and the retry limit are not modelled; Run's ticker is not either.
- Relay.AllStampedInTime: rows that arrive later must be strictly younger than the n rows; created_at is when a transaction starts, so a slow one can commit an older row late, and Relay.TickProgress then counts it among the rows to drain from the next tick on.
- Outbox.StampedMeansOneTask: outbox rows are those of ProvisionSpace, the one writer, whose payloads differ by merchant.
- Idempotency.AnsweredForGood: a stored response without a body is kept but not replayed (Idempotency.HandlerRunsIff); the three storing handlers always have one. Two requests that both arrive before a response is stored can both run their handlers; the one without the job row then stores nothing.
- AuditWalk.WalkListsEverything: appended rows have larger ids; serial ids that commit out of order can slip behind a cursor. A malformed `since` is not modelled, nor white space before a cursor's digits.
- The created_at cursors of merchants and spaces and the directory cursor do not make an exact walk; the cached ListSpaces does not refine the store read.
- OAuth2 token storage and exchange, nicknames, agent roles, welcome messages, API keys: easy members.
