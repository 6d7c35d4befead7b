# IdenGrid protocols in Dafny

A model of the stateful core of IdenGrid, a control plane with Edge relays and native clients, and
proofs of what its protocols keep over whole runs. `dafny verify dfyconfig.toml` checks everything.

| component | files |
|---|---|
| Native sessions: login, access tokens, rotating refresh tokens, revocation on replay | `NativeSessions`, `NativeTables`, `NativeSessionsProofs`, `NativeEffects`, `AccessTokenProofs` |
| Login throttle: keyed counters, a tumbling window, escalating blocks, a purge | `LoginThrottle`, `LoginThrottleProofs`, `LoginBlocksProofs` |
| Store leases, capability tickets and the Edge's one-use cache, end to end | `StoreLeases`, `EdgeTickets`, `EdgeAccess`, `EdgeAccessProofs`, `EdgeBindingProofs`, `EdgeRequestProofs` |
| Node registration and enrollment | `NodeLifecycle`, `NodeTables`, `NodeLifecycleProofs`, `NodeEffects` |
| Windows store lifecycle: launch, close, crash and quit-all tasks, interleaved | `StoreManager`, `StoreManagerProofs`, `StoreProgressProofs`, `StoreOutcomesProofs` |
| Health probing of an Edge | `EdgeHealth` |
| Schema migration planners | `SchemaMigration` |
| Log redaction, latency tracker and SOCKS5 front end of the native agent | `Redaction`, `LatencyTracker`, `Socks5` |

## How the model is built

A protocol is a total function `Step(world, event)` that leaves the world as it is when the event is
not possible, so every sequence of events is a run and a theorem about `Run` is about all runs and all
interleavings. Invariants are proved step by step and reach the theorems through `Reachable`. Handlers
that change rows, caches or counters in place are methods of a class, and their postconditions tie the
new state to the functions that the theorems are about.

Times are integer microseconds; events with a time before the last one have no effect, so time never
goes back. Clocks, random draws, row lookups and foreign calls are parameters of the events: an id that
a query yields, an `ok` for a check on an address, a signature, a process or a file. A hash or an HMAC is
modelled by what it was computed from, so it is injective and cannot be forged; a fresh secret is a counter.

A handler that writes rows it has read is two steps, its read and its commit, with anything in between. This
holds for the native session, lease and node handlers alike. The commits are of three kinds:

- A conditional update compares the row once more: the token refresh (`app.py:1227`), prove, accept, reject
  and the two claims of a node.
- An object-relational save compares nothing. It writes the columns that the handler set to something else
  than it had read, over whatever the row holds by then. A save fails as a whole if one of its rows is gone.
- Revoking all sessions of a user (`app.py:722`) increments in the database itself.

Some handlers lock what they read until their commit, as MySQL does for `SELECT ... FOR UPDATE`. A native
login holds the user's row (`app.py:1126`), so account saves and other logins of that user wait for it.
Connect, preflight, heartbeat and the deletion of a store hold the store's row; tickets, disconnects and rebinds
do not. What a refresh or a login issues carries the account version that it read, because sessions are
configured with `expire_on_commit=False` (`app.py:474`). The monitor lists the enabled nodes once, reads the
rows of each after probing it, and commits once.

## Where the code does less than one might expect

Most of what follows has one reason: handlers save rows that they read earlier without comparing them again.

Access tokens. "A dead access token stays dead" is false of the code. A session's `token_generation` and an
account's `token_version` are incremented in the handler and saved (`cloudbrowser/app.py:1163`, `:1211`, `:1249`,
`:1320`, `:1334` and `:1523`, `:1629`, `:1661`, `:1720`, `:3862`), so a save that completes late sets them back.

- `GenerationComesBack` is a reachable run: a logout completes over a session that two refreshes have moved on,
  and the next login of the device arrives at the generation of a token that was rejected already.
- `VersionComesBack` is one for the account version: a late web logout, and the account enabled again.
- `RevivedExactly` says exactly which commit makes an issued, rejected token acceptable. `DeadTokenStaysDead` says
  that in every run in which no save of a generation or version completes over a row whose own has moved since the
  read, a dead token stays dead. `DeletedForGood` needs no such condition.

Leases. A ticket request checks the lease (`cloudbrowser/app.py:3317`) and reads the clock later (`:3337`), without a
lock. `LateTicket` has, for every delay within the lease's lifetime, a ticket issued that much after the lease
ended, so the bound of `BoundedRevocation` has to contain the time that the request took. "A store is never
rebound while a lease is live" is false too: the check (`:2922`) and the commit are apart. `ReboundWhileLive` is a
reachable run that leaves a live lease with tickets for two nodes, `RebindMeetsNewLeases` says which leases a
rebind can meet, and `OneNodePerLease` that without such a meeting all tickets of a lease are for one node.

Enrollments. Three statements are false because reports (`cloudbrowser/app.py:2538-2580`), claim-approved
(`cloudbrowser/app.py:2376-2408`), revocations, regenerations, listings and the monitor
(`cloudbrowser/edge_health.py:128-165`) all save.

- "Revoked is left only through regenerate": `RevokedComesBack` is a reachable run in which a report that
  had read the enrollment before it was revoked brings it back.
- "Online is final until the node is deleted": `OnlineIsNotFinal` is one for online.
- "A stored report token implies claimed, installing, ready or failed": `RevokedWithToken` is a reachable
  run in which a revocation that read the enrollment before it was claimed completes after the claim. It had
  read no report token, so it writes none, and the one that the claim stored stays beside the status revoked.

`StatusIsLeft` says exactly when a status is left: when a handler completes that had read the enrollment and
sets another one. `RevokedStays` and `OnlineStays` say over whole runs what that leaves: if no handler has
read the enrollment when it is revoked, or goes online, it stays so in every continuation without a
regeneration of it (which online refuses) or the deletion of its node. `ReportTokenIsStranded` says exactly
which commit leaves a report token beside another status, and `ReportTokenMeansClaimed` that without one such
handler being open when a claim completes the implication holds in every run.

The smoothed round-trip time of the agent stays within its samples below 2^62 milliseconds only;
`ConstantIsKept` shows that from there on not even a constant value is kept.

## Model

| member | source | states |
|---|---|---|
| StoreManagerProofs.EveryScheduleKeepsInv | windows-client/src/IdenGrid.Windows.Wpf/WindowsStoreProcessManager.cs:64-379 | every interleaving of launch, close, crash, cleanup and quit-all steps keeps slots, gate, registry, latencies and the drain bookkeeping consistent, and never undoes cleanup progress |
| StoreManagerProofs.QuitAllDrains | windows-client/src/IdenGrid.Windows.Wpf/WindowsStoreProcessManager.cs:364-379 | when a quit-all is about to release the gate without an error, no store is registered as running and no launch owns a slot |
| StoreManagerProofs.LateLaunchesNeverRegister | windows-client/src/IdenGrid.Windows.Wpf/WindowsStoreProcessManager.cs:64-141 | after it, no launch that read the drain generation before the bump ever owns a slot or stands registered again |
| StoreManagerProofs.CleanedUpAtMostOnce | windows-client/src/IdenGrid.Windows.Wpf/WindowsStoreProcessManager.cs:722-771 | close calls, exit handlers and the failed launch each ask for the claim and walk through the cleanup by themselves; in every schedule at most one of them ever enters it for a record, and once |
| StoreManagerProofs.EachStageOnce | windows-client/src/IdenGrid.Windows.Wpf/WindowsStoreProcessManager.cs:750-771 | each access of the cleanup (latency, state, registration, completion) is made at most once per record |
| StoreManagerProofs.ClaimIsHonoured | windows-client/src/IdenGrid.Windows.Wpf/WindowsStoreProcessManager.cs:335-362 | a claimed record is cleaned up already, or exactly one task is at it, and the at most four steps which that task has left complete the cleanup whatever its foreign calls answer; in what state that leaves the store is said by the StoreOutcomesProofs rows |
| StoreProgressProofs.EveryCallCanEnd | windows-client/src/IdenGrid.Windows.Wpf/WindowsStoreProcessManager.cs:64-379 | no deadlock: from every reachable state every launch, close, quit-all and exit handler can be scheduled to its end in finitely many turns, whatever the foreign calls answer, so gate, slots and cleanups never block each other for good |
| StoreProgressProofs.HolderEnds | windows-client/src/IdenGrid.Windows.Wpf/WindowsStoreProcessManager.cs:114-130 | whoever holds a store's slot comes to its end and gives it back, while everybody who waits stands still |
| StoreProgressProofs.RunIsGood | windows-client/src/IdenGrid.Windows.Wpf/WindowsStoreProcessManager.cs:64-379 | in every schedule, what a waiting task waits for is on its way: a slot's holder, a claimed record or a reported exit |
| StoreManagerProofs.ClaimedRecordStaysSilent | windows-client/src/IdenGrid.Windows.Wpf/WindowsStoreProcessManager.cs:216-265 | a record whose cleanup is claimed never again publishes a latency or the Running state, in any continuation |
| StoreManagerProofs.NoLatencyWithoutRecord | windows-client/src/IdenGrid.Windows.Wpf/WindowsStoreProcessManager.cs:708-720 | a store with no registered record has no latency entry, and a record whose cleanup is over is not registered |
| StoreManagerProofs.UndisturbedLaunch | windows-client/src/IdenGrid.Windows.Wpf/WindowsStoreProcessManager.cs:64-294 | from any state that neither drains nor uses the store, a launch that runs on undisturbed registers it, shows it as running and gives slot and gate back |
| StoreOutcomesProofs.UndisturbedClose | windows-client/src/IdenGrid.Windows.Wpf/WindowsStoreProcessManager.cs:327-362 | from any state in which the store runs, with an unclaimed record and nobody at its slot, a close that runs on undisturbed leaves it unregistered, without a latency, shown as idle and its slot free; it reports an error exactly if stopping the processes failed |
| StoreOutcomesProofs.UndisturbedExit | windows-client/src/IdenGrid.Windows.Wpf/WindowsStoreProcessManager.cs:722-740 | an exit handler that runs on undisturbed leaves the store unregistered, without a latency and shown as failed, and touches no slot |
| StoreOutcomesProofs.LateExit | windows-client/src/IdenGrid.Windows.Wpf/WindowsStoreProcessManager.cs:722-726 | an exit handler that finds the record claimed does nothing |
| StoreOutcomesProofs.LosingClose | windows-client/src/IdenGrid.Windows.Wpf/WindowsStoreProcessManager.cs:335-339 | a close that lost the claim waits for the end of the cleanup, gives its slot back and reports no error |
| StoreOutcomesProofs.LaunchFails | windows-client/src/IdenGrid.Windows.Wpf/WindowsStoreProcessManager.cs:241-265 | a launch that fails after it built its record cleans it up: failed, no latency, not registered for that record, slot free |
| StoreOutcomesProofs.PreparationFails | windows-client/src/IdenGrid.Windows.Wpf/WindowsStoreProcessManager.cs:266-291 | a launch that fails before that shows the store as failed, changes neither registry nor latencies and frees its slot |
| StoreOutcomesProofs.SetUpFails | windows-client/src/IdenGrid.Windows.Wpf/WindowsStoreProcessManager.cs:145-158 | a launch that fails while it makes the directories frees its slot and shows nothing |
| StoreOutcomesProofs.IdleClose | windows-client/src/IdenGrid.Windows.Wpf/WindowsStoreProcessManager.cs:329-333 | a close that finds nothing registered shows the store as idle and gives its slot back |
| StoreOutcomesProofs.LaunchOfRunning | windows-client/src/IdenGrid.Windows.Wpf/WindowsStoreProcessManager.cs:70-83 | a launch of a store that runs already changes nothing |
| StoreOutcomesProofs.FollowerWaits | windows-client/src/IdenGrid.Windows.Wpf/WindowsStoreProcessManager.cs:104-122 | a launch behind another call of the store ends exactly when that call has ended, and launches nothing |
| StoreOutcomesProofs.ScannerWaits | windows-client/src/IdenGrid.Windows.Wpf/WindowsStoreProcessManager.cs:84-86 | a launch that found a record in cleanup looks again exactly when the cleanup is complete |
| StoreOutcomesProofs.LaunchWhileDraining | windows-client/src/IdenGrid.Windows.Wpf/WindowsStoreProcessManager.cs:68-69 | a launch that begins while a quit-all drains is refused |
| StoreOutcomesProofs.DrainingExactly | windows-client/src/IdenGrid.Windows.Wpf/WindowsStoreProcessManager.cs:364-379 | in every schedule the draining flag is up exactly while a quit-all that holds the gate is between its raising and its lowering of it |
| StoreOutcomesProofs.QuitLeaves | windows-client/src/IdenGrid.Windows.Wpf/WindowsStoreProcessManager.cs:374-378 | a quit-all, failed or not, lowers the flag and releases the gate |
| StoreOutcomesProofs.ProgressShows | windows-client/src/IdenGrid.Windows.Wpf/WindowsStoreProcessManager.cs:176-192 | a preparing launch shows its progress, but never running, and nobody else shows any |
| StoreOutcomesProofs.PollShows | windows-client/src/IdenGrid.Windows.Wpf/WindowsStoreProcessManager.cs:708-720 | a poll shows its latency exactly for the registered, unclaimed record |
| StoreOutcomesProofs.CloseCancels | windows-client/src/IdenGrid.Windows.Wpf/WindowsStoreProcessManager.cs:303-307 | a close that finds the slot taken by a launch cancels it before it waits for it |
| StoreOutcomesProofs.CancelledNeverRegisters | windows-client/src/IdenGrid.Windows.Wpf/WindowsStoreProcessManager.cs:219-222 | a launch that is cancelled before it registered its store never does, in any continuation |
| StoreOutcomesProofs.CancelledByCaller | windows-client/src/IdenGrid.Windows.Wpf/WindowsStoreProcessManager.cs:64-66 | the same when its own caller cancels it |
| NativeTables.Tables.RevokeDeviceSessions | cloudbrowser/app.py:722-732 | afterwards no access token of the user is accepted and no refresh of theirs succeeds, nobody else is affected, and doing it again changes nothing |
| NativeTables.Tables.ReadLogin | cloudbrowser/app.py:1124-1172 | goes on exactly for an active account with unchanged password and version, and with the session of the device if there is one |
| NativeTables.Tables.CommitLogin | cloudbrowser/app.py:1160-1180 | the access token is accepted at once unless the session ran out or was revoked since the read; of the session's refresh tokens only the new one works |
| NativeTables.Tables.ReadRefreshToken | cloudbrowser/app.py:1188-1222 | goes on to the conditional update exactly for the current token of a live session and account; whoever presents a redeemed token finds the session revoked or goes on to revoke it |
| NativeTables.Tables.CommitRefreshToken | cloudbrowser/app.py:1224-1262 | redeems the token exactly when nothing changed since the read, and never a second time; a loser is issued nothing and finds the session revoked or goes on to revoke it |
| NativeTables.Tables.SaveSession | cloudbrowser/app.py:1302-1338 | whatever happened since its read, a revocation, logout or replay leaves its session revoked, and touches no refresh token and no other session |
| NativeTables.Tables.SaveAccount | cloudbrowser/app.py:1620-1725 | a save that revokes signs the user out; no login that verified the version read completes; after a deletion nobody logs in; nobody else is affected; which handlers revoke, and what they set, is said by the NativeEffects rows |
| NativeSessionsProofs.EveryRunKeepsInv | cloudbrowser/app.py:1120-1340 | in every interleaving of reads and commits a redeemed token is stored nowhere, logins draw tokens and sessions of their own, the account of a login under way stands still, and tokens belong to the sessions they were issued for |
| NativeSessionsProofs.RedeemedAtMostOnce | cloudbrowser/app.py:1224-1242 | no interleaving of split handlers redeems a refresh token twice |
| NativeSessionsProofs.ReplayRevokes | cloudbrowser/app.py:1207-1214 | presenting an already redeemed token finds its session revoked, or its commit leaves it so, whatever happens before that commit |
| NativeSessionsProofs.LoserRevokes | cloudbrowser/app.py:1243-1258 | the same of the request that read a token in time and lost the race for it; it is issued nothing |
| NativeSessionsProofs.RedeemedHasLost | cloudbrowser/app.py:1224-1242 | a redeemed token has lost every race for it that is still open |
| NativeSessionsProofs.RevokedIsLeft | cloudbrowser/app.py:1160-1169 | a revoked session is brought back exactly by the completion of a login that had read it as revoked |
| NativeSessionsProofs.RevokedUntilLogin | cloudbrowser/app.py:1160-1169 | until the next native login of a revoked session, and with none under way that had read it as revoked, none of its access tokens is accepted and none of its refresh tokens redeemed, whatever other handlers are open |
| NativeSessionsProofs.DeletedForGood | cloudbrowser/app.py:1676-1725 | a deleted account stays deleted in every continuation, and none of its tokens is accepted again |
| NativeEffects.PasswordSignsOut | cloudbrowser/app.py:1620-1645 | whatever happens between its read and its commit, a password change leaves the member signed out everywhere, the version one above what it read, and the new hash stored |
| NativeEffects.DisablingSignsOut | cloudbrowser/app.py:1651-1675 | disabling an enabled member leaves the member signed out, off, and the version one above what it read |
| NativeEffects.EnablingRevokesNothing | cloudbrowser/app.py:1651-1675 | enabling, and disabling a member who is off, moves neither version nor sessions |
| NativeEffects.DeletingSignsOut | cloudbrowser/app.py:1683-1735 | a deletion leaves the member signed out everywhere, deleted and the version one above what it read; off, and without a usable password, unless the row was so when read |
| NativeEffects.WebLogoutMovesVersion | cloudbrowser/app.py:1521-1526 | a web logout moves the version, so that no access token of the version it read is accepted, and keeps all sessions |
| NativeEffects.OldDisableMovesVersion | cloudbrowser/app.py:3855-3865 | the older disable route moves the version and keeps all sessions |
| NativeEffects.MembersOnly | cloudbrowser/app.py:1562-1566 | the member routes leave administrators and deleted accounts alone |
| NativeEffects.LoginOpensSession | cloudbrowser/app.py:1124-1180 | a login that finds what was verified opens a session for 30 days, or takes the device's over one generation on, with the token it drew and an access token for 15 minutes |
| NativeEffects.LoginRefused | cloudbrowser/app.py:1124-1139 | a login is refused when the account is off or no longer what was verified |
| NativeEffects.RefreshRotates | cloudbrowser/app.py:1224-1262 | a refresh that finds nothing changed stores a fresh token for 30 days from its read, one generation on, and issues an access token for 15 minutes with the version it read |
| NativeEffects.RefreshRefused | cloudbrowser/app.py:1195-1222 | a current token is refused when its session is revoked or has run out, or its account is off |
| NativeEffects.ReplayRevoked | cloudbrowser/app.py:1207-1214 | a token that is not the current one revokes its session, one generation above what was read |
| NativeEffects.DeviceRevoked | cloudbrowser/app.py:1302-1323 | revoking a device of one's own revokes that session, one generation above what was read |
| NativeEffects.LoggedOut | cloudbrowser/app.py:1326-1337 | a logout does the same to the session of its access token |
| NativeEffects.RevocationRefused | cloudbrowser/app.py:1302-1337 | nobody revokes with a token that is not accepted, nor a session of another user |
| NativeEffects.AccessLastsQuarterHour | cloudbrowser/app.py:642-651 | in every run no access token is accepted 15 minutes after its issue, or later |
| NativeEffects.SessionLastsThirtyDays | cloudbrowser/app.py:653-680 | in every reachable state no session that is left alone accepts or refreshes anything 30 days later |
| AccessTokenProofs.RevivedExactly | cloudbrowser/app.py:653-680 | an issued token that is rejected is accepted after one more event exactly if that event is a commit that arrives at its generation or version again, as spelled out there |
| AccessTokenProofs.DeadTokenStaysDead | cloudbrowser/app.py:653-680 | a dead access token stays dead across all handlers in every run in which no save of a generation or version completes over a row whose own has moved since the read |
| AccessTokenProofs.GenerationComesBack | cloudbrowser/app.py:1326-1337 | a reachable run in which a late logout and the next login make a dead token acceptable |
| AccessTokenProofs.VersionComesBack | cloudbrowser/app.py:1521-1526 | a reachable run in which a late web logout and the enabling of the account do |
| LoginThrottle.Throttles.LockThrottles | cloudbrowser/app.py:974-1011 | the rows afterwards are those there were and those of the attempt; missing ones start with nothing counted at this moment, the others stay |
| LoginThrottle.Throttles.ActiveRetryAfter | cloudbrowser/app.py:1013-1028 | zero exactly when nothing blocks; otherwise the least whole number of seconds after which none of the present blocks holds |
| LoginThrottle.Throttles.BeginLogin | cloudbrowser/app.py:1034-1048 | forgets what was not touched for 24 hours, makes room for the attempt, and refuses exactly the attempts with a blocked key, with the least whole number of seconds to wait |
| LoginThrottle.Throttles.CountFailure | cloudbrowser/app.py:1078-1091 | one throttle row after a failure: a window of 600 s, the 5th or for a source the 20th failure, blocks of 300, 900 and 1800 s |
| LoginThrottle.Throttles.CountFailures | cloudbrowser/app.py:1077-1091 | all rows of an attempt, and the least whole number of seconds that outlasts the blocks triggered |
| LoginThrottle.Throttles.FailLogin | cloudbrowser/app.py:1066-1092 | a failure is counted against all three keys or, when one is blocked, against none; the wait it answers is the least that outlasts every block |
| LoginThrottle.Throttles.SucceedLogin | cloudbrowser/app.py:1135-1139 | account and device block no more and count from one again; the source keeps its count and its block, and alone decides whether the attempt is blocked |
| LoginThrottleProofs.RunContinues | cloudbrowser/app.py:1066-1092 | how the row of a key continues the log of its counted failures, through window resets, blocks and purges |
| LoginThrottleProofs.SlidingBound | cloudbrowser/app.py:974-1092 | for a key with threshold T that no success clears, any half-open 300 second interval holds at most 2T - 1 counted failures |
| LoginThrottleProofs.SlidingBoundIsReached | cloudbrowser/app.py:1078-1091 | the bound cannot be lowered for any key: a run with 2T - 1, for a source 39 over ever new accounts and devices |
| LoginThrottleProofs.EveryRowInv | cloudbrowser/app.py:1078-1091 | counts stay below their threshold, penalties in 0..3, and no block ends more than 1800 s after the row's last update |
| LoginThrottleProofs.PurgeKeepsBlocks | cloudbrowser/app.py:1034-1039 | the 24 hour purge never lifts an active block |
| LoginThrottleProofs.BlockLastsItsWait | cloudbrowser/app.py:1086-1090 | every block in the table was set by a counted failure of its own key and ends 300, 900 or 1800 s after it, as its penalty says |
| LoginThrottleProofs.BlocksNeverShorten | cloudbrowser/app.py:1086-1090 | until its row is removed, a key's later block lasts, from the counted failure of that key that set it, at least as long as an earlier one, and ends no sooner |
| LoginBlocksProofs.BlocksEscalate | cloudbrowser/app.py:1077-1091 | told by the history of a row's counted failures alone: every 5th in its window blocks an account or device, every 20th a source; the first block of the row lasts 300 s, the second 900 s, every later one 1800 s; no other failure changes the block |
| LoginBlocksProofs.RowTellsHistory | cloudbrowser/app.py:1078-1091 | in every run count, window and penalty of a row are those of its counted failures since it was created |
| LoginBlocksProofs.OnlyFailuresChange | cloudbrowser/app.py:1034-1092 | nothing but a counted failure, a success and the purge changes a row |
| LoginBlocksProofs.CountedAgainst | cloudbrowser/app.py:1066-1077 | a wrong password is counted against the account from that source, the device from that source, and the source |
| LoginBlocksProofs.BlockedCountsNothing | cloudbrowser/app.py:1066-1077 | while one of the three is blocked, nothing is counted |
| EdgeTickets.VerifyBounds | edge-tunnel/edge_tunnel/tickets.py:63-96 | what the verification of a ticket guarantees about its times, node, port and signature |
| EdgeTickets.VerifiesExactly | edge-tunnel/edge_tunnel/tickets.py:48-96 | a token verifies to a ticket exactly when it is signed with the node's secret, its claims spell that ticket, and the ticket is for this node, a web port, now, and no longer than allowed |
| EdgeTickets.RefusedFor | edge-tunnel/edge_tunnel/tickets.py:48-96 | why a token is refused, in the order of the checks |
| EdgeTickets.IssuedTicketVerifies | cloudbrowser/edge_tickets.py:34-53 | a ticket verifies at its own node from its issue on, exactly until its lifetime in whole seconds has run out |
| EdgeTickets.ReplayCache.Claim | edge-tunnel/edge_tunnel/app.py:39-45 | true exactly when no unexpired entry with that identifier is cached; the cache afterwards |
| EdgeTickets.AcceptedAtMostOnce | edge-tunnel/edge_tunnel/app.py:34-45 | on a clock that never goes back no ticket is accepted twice although entries are pruned, and every entry expires within the lifetime limit plus the skew |
| StoreLeases.LeaseTable.ActiveStoreLeases | cloudbrowser/app.py:3113-3137 | expires the store's leases that are past their end or 90 s without a heartbeat, and returns exactly the live ones |
| StoreLeases.LeaseTable.Connect | cloudbrowser/app.py:3225-3290 | renews the caller's live lease of the device, and opens one only if there is none |
| StoreLeases.LeaseTable.ForceDisconnect | cloudbrowser/app.py:2985-3026 | ends all live leases of a store, or changes nothing when there is none |
| EdgeAccessProofs.EveryRunKeepsInv | cloudbrowser/app.py:3113-3413 | leases, open handlers, issued tickets and Edge caches stay consistent in every interleaving of checks and commits on one clock; a dead lease stays dead and no ended one is revived |
| EdgeAccessProofs.VerifiedIsYoung | edge-tunnel/edge_tunnel/tickets.py:79-86 | an issued ticket that any verifier accepts names the store, host, port and node it was issued for, is less than 60 s old, before the end the lease had at the check, and less than 150 s, plus the time its request took, after the heartbeat read at the check |
| EdgeAccessProofs.BoundedRevocation | cloudbrowser/app.py:3309-3350 | once a lease is dead, a ticket issued under it, in any continuation, belongs to a request that had checked the lease before, and verifies for less than 60 s after that moment, and 150 s after the last connect, preflight or heartbeat, plus the time from the check to the issue |
| EdgeAccessProofs.TunnelsAreBounded | edge-tunnel/edge_tunnel/app.py:208-210 | every tunnel an Edge opened used a ticket of the control plane within those bounds, and its ticket names the store, the host and the port of the request it was issued for |
| EdgeAccessProofs.LiveLeaseGetsTicket | cloudbrowser/app.py:3337-3350 | conversely a request whose lease, as checked, has a second or more to go at the issue gets a ticket, which verifies at once, at the node the store had at the check, to exactly the store, host and port asked for, for 60 s or what the lease has left |
| EdgeAccessProofs.TouchKeepsAlive | cloudbrowser/app.py:3293-3306 | a connect or heartbeat that found the lease keeps it live for the 90 s after its commit, exactly unless the lease was ended since the check |
| EdgeAccessProofs.TicketsAreUsedOnce | edge-tunnel/edge_tunnel/app.py:208-210 | in every run of the whole system no ticket is let through twice, at one Edge or at two, as long as nodes have different names |
| EdgeAccessProofs.AtMostOneActiveLease | cloudbrowser/app.py:3231-3290 | at most one active lease per store, user and device, without the database index |
| EdgeAccessProofs.EndedLeasesStayEnded | cloudbrowser/app.py:3113-3137 | an ended lease never becomes active again |
| EdgeBindingProofs.OthersLeasesOnlyExpire | cloudbrowser/app.py:3154-3185 | whatever happens between its check and its commit, a user's request touches another user's lease only by expiring it, and only if it was stale at the check |
| EdgeBindingProofs.ReboundExactly | cloudbrowser/app.py:2905-2950 | a store changes its node exactly when a rebind to another one completes |
| EdgeBindingProofs.RebindMeetsNewLeases | cloudbrowser/app.py:2919-2946 | the live leases that a completing rebind can meet were opened since its check, or were being renewed at the time of it |
| EdgeBindingProofs.OneNodePerLease | cloudbrowser/app.py:2919-2946 | in every run in which no rebind completes while a lease of the store is live, all tickets ever issued under one lease are for one node |
| EdgeBindingProofs.ReboundWhileLive | cloudbrowser/app.py:2919-2946 | a reachable run in which a rebind completes under a live lease, which then has tickets for two nodes |
| EdgeBindingProofs.LateTicket | cloudbrowser/app.py:3309-3350 | for every delay within the lease's lifetime a reachable run in which a ticket is issued that much after its lease has ended, and verifies |
| EdgeBindingProofs.ConnectAtOnce | cloudbrowser/app.py:3225-3290 | check and commit with nothing in between make of the leases what the method on the table does |
| EdgeRequestProofs.IssuedWasAsked | cloudbrowser/app.py:3309-3350 | every ticket ever issued answers a request that was allowed, of the user who had the lease at its check, for the store, host and port it names, at the node the store then had |
| EdgeRequestProofs.DecimalReads | cloudbrowser/app.py:3348 | a ticket names its store in decimal, without a leading zero |
| EdgeRequestProofs.StoresHaveTheirNames | cloudbrowser/app.py:3348 | different stores have different names in tickets |
| EdgeRequestProofs.TicketRefused | cloudbrowser/app.py:3154-3185 | a ticket request that finds no such lease opens nothing; it expires the stale leases, unless the user has several live ones and named none |
| EdgeRequestProofs.TicketTooLate | cloudbrowser/app.py:3337-3343 | a lease with less than a second to go at the issue gets no ticket and expires |
| EdgeRequestProofs.TicketPresented | edge-tunnel/edge_tunnel/app.py:203-213 | a presented ticket is let through exactly when it verifies with 5 s of skew and none with its identifier is remembered; nothing else happens |
| EdgeRequestProofs.LeaseLives | cloudbrowser/app.py:3225-3306 | a lease that is opened or renewed is live for 90 s exactly, for at most 8 hours, unless it was ended |
| EdgeRequestProofs.StaleExpire | cloudbrowser/app.py:3113-3137 | exactly the active leases past their end, or 90 s without a heartbeat, expire |
| EdgeRequestProofs.ListingExpires | cloudbrowser/app.py:2842-2844 | looking at a store expires its stale leases and does nothing else |
| EdgeRequestProofs.UserDisconnects | cloudbrowser/app.py:3395-3420 | a user's disconnect ends the lease it names, or the only one the user has there, and of the others only expires what was stale |
| EdgeRequestProofs.StoreDisconnected | cloudbrowser/app.py:2985-3026 | a forced disconnect of a store ends all leases that were live there at the check, or none if one of them is gone |
| EdgeRequestProofs.LeaseDisconnected | cloudbrowser/app.py:3028-3055 | a forced disconnect of a live lease ends it |
| EdgeRequestProofs.UserDropped | cloudbrowser/app.py:1631-1638 | a password change or deletion ends all active leases of the user |
| EdgeRequestProofs.NoLeaseNoEffect | cloudbrowser/app.py:3154-3185 | without a live lease of that user at the store, and on the device named, nothing is renewed, ended or issued |
| EdgeRequestProofs.NotAllowed | cloudbrowser/app.py:3078-3106 | whoever may not use the store gets nothing from it |
| EdgeRequestProofs.DeletedExactly | cloudbrowser/app.py:2948-2982 | a store disappears exactly when it is deleted with no live lease and nobody at its row, and its leases with it |
| NodeTables.Tables.Prove | cloudbrowser/app.py:2070-2087 | a challenge works once, and only for a request that is neither accepted nor rejected; the request then awaits approval for 24 hours |
| NodeTables.Tables.Accept | cloudbrowser/app.py:2212-2275 | takes effect at most once and never after a rejection, on a node that no other enrollment or registration is bound to; the new rows in full |
| NodeTables.Tables.ClaimApproved | cloudbrowser/app.py:2382-2408 | a second call for the same request is refused; the first spends the request's token and saves the enrollment |
| NodeTables.Tables.ClaimEnrollment | cloudbrowser/app.py:2455-2505 | a spent token is refused, and after a success no enrollment stores the token any more; the enrollment is claimed for 30 minutes with a report token |
| NodeTables.Tables.ReadReport | cloudbrowser/app.py:2538-2579 | what a report is going to save: the enrollment, the node's switch and the one registration of the node |
| NodeTables.Tables.ListNodes | cloudbrowser/edge_health.py:108-110 | a pass of the monitor is about the nodes enabled when it begins |
| NodeTables.Tables.ReadMonitor | cloudbrowser/edge_health.py:128-164 | what the monitor is going to save grows by the rows of the node just probed, by lookups that find at most one row each |
| NodeTables.Tables.SaveAll | cloudbrowser/app.py:2580-2581 | a save takes all of its rows or none, and leaves every status and token alone that the handler did not set |
| NodeTables.Tables.RunOnce | cloudbrowser/edge_health.py:105-166 | a pass with nothing in between saves all rows in one commit: where a listed node is online its watched enrollment is online without a report token and its registration online, where it is down both are failed, otherwise they stay; no other row and no node's switch changes |
| NodeEffects.ReportMoves | cloudbrowser/app.py:2538-2581 | whatever happens before its commit, a report makes enrollment and registration installing, ready or failed as it says; ready switches the node on; if a row is gone nothing is saved |
| NodeEffects.ReportRefused | cloudbrowser/app.py:2548-2554 | a report is refused without the present report token, too late, or for a revoked, expired or online enrollment |
| NodeEffects.RevocationRevokes | cloudbrowser/app.py:2589-2600 | whatever happens before its commit, a revocation leaves the enrollment revoked with another token, without the report token if it had read one, and the node off if it had read it on |
| NodeEffects.RegenerationRenews | cloudbrowser/app.py:2609-2624 | the same of a regeneration: a fresh token, and pending, unclaimed, 15 minutes and no report token where the row was not so when read |
| NodeEffects.AdministrationRefused | cloudbrowser/app.py:2589-2611 | revoked and online enrollments cannot be revoked; only pending, expired and revoked ones can be regenerated |
| NodeEffects.ListingExpires | cloudbrowser/app.py:1887-1892 | the listing expires exactly the pending enrollments whose time is over |
| NodeEffects.ListingForgets | cloudbrowser/app.py:2140-2184 | the listing of requests expires those pending beyond their time and forgets those expired for seven days |
| NodeEffects.RegistrationBegins | cloudbrowser/app.py:1990-2013 | a registration begins pending proof, with a token, a challenge and 15 minutes |
| NodeEffects.EnrollmentBegins | cloudbrowser/app.py:1852-1872 | an enrollment begins pending for 15 minutes on a new node that is off |
| NodeEffects.RejectionRejects | cloudbrowser/app.py:2304-2321 | exactly a request that awaits approval is rejected, and loses its challenge |
| NodeEffects.DeletionForgets | cloudbrowser/app.py:2722-2733 | the deletion of a node deletes its enrollments and unbinds its registrations |
| NodeEffects.ProofOpens | cloudbrowser/app.py:2032-2070 | a proof is taken up exactly with the request's token and present challenge, while it is pending proof and in time |
| NodeEffects.LateProofExpires | cloudbrowser/app.py:2044-2050 | a proof that comes too late expires its request |
| NodeEffects.AcceptanceOpens | cloudbrowser/app.py:2207-2211 | an acceptance is taken up exactly for a proved request that awaits approval |
| NodeEffects.ApprovedClaimOpens | cloudbrowser/app.py:2341-2382 | a claim is taken up exactly with token and claim challenge of an approved request, in time, for its node's claimed enrollment |
| NodeEffects.EnrollmentClaimOpens | cloudbrowser/app.py:2443-2472 | a claim is taken up exactly with the enrollment's token while it is pending, unclaimed and in time |
| NodeEffects.LateClaimExpires | cloudbrowser/app.py:2473-2478 | a claim that comes too late expires the enrollment |
| NodeEffects.UnfinishedPass | cloudbrowser/edge_health.py:105-166 | a pass of the monitor that ends before it has probed all its nodes saves nothing |
| NodeLifecycleProofs.EveryRunKeepsInv | cloudbrowser/app.py:2070-2630 | the invariants of both status machines, of their binding to nodes and of what open handlers are going to save hold in every run |
| NodeLifecycleProofs.EarnedMeansAccepted | cloudbrowser/app.py:2212-2245 | a request in approved, installing, ready, failed or online was proved and accepted before |
| NodeLifecycleProofs.DecidedOnce | cloudbrowser/app.py:2304-2321 | accept and reject never both take effect |
| NodeLifecycleProofs.ClaimedOnce | cloudbrowser/app.py:2382-2402 | claim-approved succeeds at most once per request, and only for an accepted one |
| NodeLifecycleProofs.TokenConsumedOnce | cloudbrowser/app.py:2455-2505 | an enrollment token is consumed at most once, however claims, regenerations and revocations interleave |
| NodeLifecycleProofs.SpentStaysSpent | cloudbrowser/app.py:2609-2622 | no late save stores a spent token again |
| NodeLifecycleProofs.OnePerNode | cloudbrowser/edge_health.py:128-152 | a node has at most one enrollment and one registration, so lookups by node are unambiguous |
| NodeLifecycleProofs.StatusIsLeft | cloudbrowser/app.py:2558-2580 | outside of pending, an enrollment's status changes exactly when a handler completes that had read it and sets another status |
| NodeLifecycleProofs.RevokedStays | cloudbrowser/app.py:2589-2600 | revoked while no handler has read it, an enrollment stays revoked in every continuation without its regeneration or its node's deletion |
| NodeLifecycleProofs.OnlineStays | cloudbrowser/edge_health.py:128-144 | the same of online, which cannot be regenerated |
| NodeLifecycleProofs.RevokedComesBack | cloudbrowser/app.py:2538-2580 | a reachable run in which a late report brings a revoked enrollment back |
| NodeLifecycleProofs.OnlineIsNotFinal | cloudbrowser/app.py:2538-2580 | a reachable run in which a late report takes an online enrollment back to installing |
| NodeLifecycleProofs.ReportTokenIsStranded | cloudbrowser/app.py:2589-2622 | a report token comes to stand beside another status exactly when a handler completes that sets such a status without writing the token, over a row that holds one by now |
| NodeLifecycleProofs.ReportTokenMeansClaimed | cloudbrowser/app.py:2455-2505 | in every run in which no claim completes while such a handler has read the row, a stored report token implies claimed, installing, ready or failed |
| NodeLifecycleProofs.RevokedWithToken | cloudbrowser/app.py:2589-2600 | a reachable run that ends with a report token beside the status revoked |
| EdgeHealth.Probe | cloudbrowser/edge_health.py:168-217 | online exactly when no sample was fatal, the quorum held, all addresses agreed and the last payload passes; exactly when it is offline or a report; what a report contains |
| EdgeHealth.StatusIs | cloudbrowser/edge_health.py:300-309 | quarantined exactly with another address than the expected one; otherwise degraded exactly below 128 MiB of memory or 2 GiB of disk or from four fifths of the connections on |
| EdgeHealth.TrimmedMeanIs | cloudbrowser/edge_health.py:204-209 | the trimmed mean is the average of what is left without one least and one greatest sample |
| EdgeHealth.Collect | cloudbrowser/edge_health.py:174-186 | sorts samples into successes, errors and fatal errors, in order |
| EdgeHealth.SortedOut | cloudbrowser/edge_health.py:174-186 | the sorting keeps the order of the samples |
| EdgeHealth.OrderDoesNotMatter | cloudbrowser/edge_health.py:204-209 | the latency does not depend on the order of the samples |
| EdgeHealth.OneSampleCannotMoveIt | cloudbrowser/edge_health.py:204-209 | whatever one sample is replaced by, the trimmed mean stays between the least and the greatest of the others |
| EdgeHealth.LatencyIsRobust | cloudbrowser/edge_health.py:204-209 | the same of the reported whole milliseconds |
| EdgeHealth.RoundIsNearest | cloudbrowser/edge_health.py:206-209 | rounding goes to the nearest integer, and to the even one in a tie |
| SchemaMigration.LeaseStatements | cloudbrowser/schema.py:104-144 | the planned statements are the missing ones of the lease migration, in order |
| SchemaMigration.UniquenessStatements | cloudbrowser/schema.py:147-170 | the same of the whole uniqueness migration, with the inspected tables cached |
| SchemaMigration.EdgeStatements | cloudbrowser/schema.py:16-45 | the same of the Edge platform migration, per dialect |
| SchemaMigration.DeviceStatements | cloudbrowser/schema.py:183-203 | the same of the device platform constraint |
| SchemaMigration.CutAndReplan | cloudbrowser/schema.py:173-180 | cut after any number of statements, all of them were applicable, and planning again yields exactly the rest |
| SchemaMigration.Resumable | cloudbrowser/schema.py:173-180 | running to the end, or cut anywhere and planned again, reaches one schema, at which the plan is empty |
| SchemaMigration.UniquenessMigration | cloudbrowser/schema.py:57-170 | from any schema with the tables' own columns: the above; every planned statement drops the legacy index or adds one of the twelve named columns and indexes on the columns named for it; and the final schema is the old one without the legacy index and with exactly those twelve |
| SchemaMigration.EdgeMigration | cloudbrowser/schema.py:16-45 | the same from any schema for the two platform columns and, on MySQL, their two constraints |
| SchemaMigration.DeviceMigration | cloudbrowser/schema.py:183-203 | the supported constraint replaces the macOS-only one, and where it exists nothing changes |
| Redaction.RunPass | native-client/agent-rs/src/redaction.rs:5-14 | the cursor loop ends and computes the pass that the theorems are about |
| Redaction.RunRedact | native-client/agent-rs/src/redaction.rs:2-37 | all passes in order |
| Redaction.EveryBearerIsRedacted | native-client/agent-rs/src/redaction.rs:4-15 | in the output every bearer marker is directly followed by the replacement, and that by the end, white space, a quote or a brace |
| Redaction.EveryKeyIsRedacted | native-client/agent-rs/src/redaction.rs:16-35 | in the output each of the six secret keys whose value is closed by a quote has exactly the replacement as its value; later passes never undo earlier ones |
| Redaction.RedactIsIdempotent | native-client/agent-rs/src/redaction.rs:2-37 | redacting twice is redacting once |
| Redaction.RedactFixpoints | native-client/agent-rs/src/redaction.rs:2-37 | a text is left alone exactly when every marker in it is already redacted |
| Redaction.PassOnlyReplacesValues | native-client/agent-rs/src/redaction.rs:5-14 | a pass keeps every character outside the values behind its marker, and replaces each of those as a whole |
| Redaction.BearerPassOnlyTakesTokens | native-client/agent-rs/src/redaction.rs:8-12 | what a bearer pass takes away holds no white space, quote or brace |
| Redaction.KeyPassOnlyTakesValues | native-client/agent-rs/src/redaction.rs:24-34 | what a key's pass takes away holds no quote |
| Redaction.MarkersAre | native-client/agent-rs/src/redaction.rs:4-24 | the two bearer markers and the six keys, in order |
| LatencyTracker.Tracker.RelayStarted | native-client/agent-rs/src/metrics.rs:57-71 | before identifiers wrap around, the new lease's identifier is no other live lease's, and the counter is the number of live leases |
| LatencyTracker.Tracker.TryClaimProbe | native-client/agent-rs/src/metrics.rs:150-160 | won exactly if nobody or the caller owned the probe; the owner stays a live lease |
| LatencyTracker.Tracker.NextNonce | native-client/agent-rs/src/metrics.rs:173-181 | nonces count up, wrap and are never zero |
| LatencyTracker.Tracker.Drop | native-client/agent-rs/src/metrics.rs:184-197 | the counter is the number of the leases left, and the probe is free exactly if the dropped lease owned it or nobody did |
| LatencyTracker.Tracker.RecordSuccess | native-client/agent-rs/src/metrics.rs:73-92 | the average lies between itself and the sample, the jitter goes a quarter of the way to the distance of the last two samples, and with a relay the tracker shows itself fresh for the next 30 s |
| LatencyTracker.Tracker.RecordFailure | native-client/agent-rs/src/metrics.rs:94-101 | the tracker then shows neither fresh nor warming at any time, and no measurement is touched |
| LatencyTracker.ShownIs | native-client/agent-rs/src/metrics.rs:115-128 | in terms of relays, samples, failures and age alone: when the tracker shows itself unavailable, warming, stale after 30 s, degraded or fresh |
| LatencyTracker.StateTellsHistory | native-client/agent-rs/src/metrics.rs:73-101 | in every run the tracker has samples exactly after a success, shows the time of the last one, and counts failures exactly if there was one since |
| LatencyTracker.CountsLiveLeases | native-client/agent-rs/src/metrics.rs:56-71 | with fewer than 2^64 starts the relay counter is the number of live leases, the probe's owner is one of them, and the tracker is unavailable exactly when there is none |
| LatencyTracker.EwmaStaysWithin | native-client/agent-rs/src/metrics.rs:199-201 | in every run with samples below 2^62 the smoothed time stays within the samples and the jitter within their spread |
| LatencyTracker.ConstantIsKept | native-client/agent-rs/src/metrics.rs:199-201 | a constant time is kept exactly below 2^62; from there on it collapses to 2^62 - 1 |
| LatencyTracker.StandsStill | native-client/agent-rs/src/metrics.rs:199-201 | the average stands still exactly from three below the sample up to it |
| LatencyTracker.Settles | native-client/agent-rs/src/metrics.rs:199-201 | under a constant time the average settles in at most as many samples as it was milliseconds away: exactly on it from above, at most three below it from below |
| LatencyTracker.ConstantRttSettles | native-client/agent-rs/src/metrics.rs:73-92 | the same of the tracker's displayed average |
| Socks5.RoundTrip | native-client/agent-rs/src/socks.rs:26-59 | parsing the request of section 4 of RFC 1928 for any valid target returns it, with its hostname in lower case, whatever follows |
| Socks5.AcceptsOnlyEncodings | native-client/agent-rs/src/socks.rs:26-59 | conversely every accepted buffer starts with the encoding of a valid target, which is the one returned |
| Socks5.ParsedIsNormal | native-client/agent-rs/src/socks.rs:35-43 | a returned target is valid, and encoded and parsed again unchanged |
| Socks5.HostnamesAreJoinedLabels | native-client/agent-rs/src/socks.rs:61-79 | valid labels joined by dots are a valid hostname exactly when they are at most 253 bytes together |
| Socks5.EveryHostnameIsJoined | native-client/agent-rs/src/socks.rs:61-79 | conversely every valid hostname is its valid labels joined by dots |
| Socks5.LabelIs | native-client/agent-rs/src/socks.rs:61-79 | a valid label is a letter or digit, or two of them around at most 61 letters, digits and hyphens |
| Socks5.LowerIs | native-client/agent-rs/src/socks.rs:35-43 | lower case changes capital letters and nothing else |
| Socks5.OtherPortsRefused | native-client/agent-rs/src/socks.rs:26-59 | a request of any of the three address types for a port other than 80 and 443 is refused for its port |
| Socks5.Negotiate | native-client/agent-rs/src/socks.rs:81-113 | the result, the unread bytes and the replies of a negotiation on any stream |
| Socks5.NoCommonMethod | native-client/agent-rs/src/socks.rs:89-92 | a greeting without method 0 is answered with 255 and refused |
| Socks5.GreetingDropped | native-client/agent-rs/src/socks.rs:84-86 | a greeting of another version or without methods is refused without an answer |
| Socks5.GreetingCutOff | native-client/agent-rs/src/socks.rs:82-88 | a greeting that the stream cuts off ends with the stream |
| Socks5.OtherAddressesRefused | native-client/agent-rs/src/socks.rs:96-104 | an address type other than the three is refused |
| Socks5.ConsumesExactly | native-client/agent-rs/src/socks.rs:81-113 | from a valid greeting and request followed by anything it takes exactly those two, answers "no authentication" and returns the target |
| Socks5.AgreesWithParser | native-client/agent-rs/src/socks.rs:94-112 | wherever a complete request follows the greeting, the result is the parser's on all that is left of the stream |

## Left out

- StoreManager: calls, dictionaries and flags are values of one state and a call is its program counter, so objects, aliasing and memory ordering are not modelled; "in flight" means holding the store's slot, so the last statements of a call's `finally`, after it gave the slot back, do not count.
- Windows processes, windows, pipes, icons, lock files and agent requests: an `ok` or an event "the process exited" stands for them; stopping the processes of a claimed record is part of the way to its cleanup and touches no shared state.
- Registering, rejecting, listing, regenerating, revoking, enabling and deleting are functions on the world; the class over the node tables has the conditional updates, the reads with lookups and the save that the others end in. Creating, switching and deleting a node are one step each.
- NativeSessions: the reads of the account handlers and of a logout are functions on the world; the class over the two tables has the login, the refresh and the two kinds of save.
- EdgeAccess: heartbeat, ticket, disconnect, rebind and deletion handlers are functions on the world; the three lease handlers with loops or lookups are methods, with no time between check and commit. Listing and deleting a store are one step each.
- SQL isolation levels: a read and a commit are one atomic step each, and a read sees what is committed. Row locks are those of MySQL; on SQLite, which has none, a login locks the whole database and two connects of one device are told apart by the unique index.
- HMAC, SHA-256, Argon2, Ed25519 and the rotation of secrets: hashes are injective, signatures cannot be forged, and each node keeps its secret.
- NodeTables.Tables.Accept: the new rows are dated at the commit; the code reads the clock just before its conditional update.
- EdgeTickets: base64url and JSON text are not modelled, since nothing that is proved looks at the text; a token that decodes is its payload with a signature.
- Edge relaying, its connection limit and the byte account shared by both directions: no protocol state depends on them.
- Clock differences between control plane and Edge, and time passing within one half of a handler: one clock, read once at the check and once at the commit.
- EdgeHealth: durations are real numbers, so floating-point rounding of the sum is not modelled; of a payload only the fields that decide the status are kept, and validating a payload is part of what a sample returned.
- SchemaMigration: data that would make a unique index fail, the column types and the unnamed inline check on SQLite; a statement is the object it creates or drops and the columns it is defined on.
- Socks5: a byte that is not UTF-8 and a byte that no hostname may hold give the same error; writing never fails; an IP address is its octets, not their text.
- LatencyTracker: locking, since every method holds the mutex throughout.
- HTTP routing, bodies, audit records, CSV export, user interfaces, packaging and signing tools: plumbing around the state changes.
