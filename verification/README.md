# QLTS: proofs about its protocols and data transformations

A Dafny model of the parts of QLTS (an admissions management system: FastAPI backend,
Next.js frontend) whose correctness needs an argument over whole runs, with proofs of what
those parts promise. `dafny verify dfyconfig.toml` checks everything.

| files | what they model |
|---|---|
| `Heartbeat`, `ForceDisconnect`, `ForceDisconnectAwaited`, `ForceDisconnectScope`, `ForceDisconnectPublisher`, `ForceDisconnectRuns` | socket workers that register, prove their life with an expiring key, serve, drain and leave; publishers that cut sockets on every worker and wait for an ACK of each |
| `PasswordWatchdog` | the per-worker loop that cuts sockets of users who must change their password |
| `SocketRooms`, `SocketCuts` | rooms a socket joins while other handlers run, and the cuts of sessions, of users, of flagged users, of everybody |
| `SessionRevalidation`, `SessionAnswers`, `SessionRuns` | the periodic check of a live socket against concurrent token refreshes and revocations |
| `RedisKeys`, `MfaReservation`, `TotpReplay`, `OneTimeClaim`, `ConnectionLimiter`, `DistributedLock` | the Redis scripts and the lock, with the Python code that reads their replies |
| `Basics`, `Decimal`, `CriteriaTables`, `CriteriaUnsharing`, `UnsharingRuns`, `PathSeeding` | the migration that gives every admission path its own criteria row, its crashes and re-runs, and the importer that has to keep it so |
| `HtmlUnescape` | the backfill that takes repeated HTML escaping off stored texts |
| `RedirectProxy`, `RedirectRuns` | the navigation proxy of the frontend and where its redirects lead |

## How it is modelled

- A protocol is a state and one atomic step per Redis command, database statement or await
  that others can observe. Runs are arbitrary sequences of steps; crashes, lost replies,
  calls that raise before or after they took effect, and expiring keys are steps or
  parameters like any other.
- Code that updates state is a class or a method with the loop of the original. What other
  tasks do at its awaits, and how long its calls take, are parameters, so its contract
  covers every interleaving. The contracts tie it to the specification functions that the
  lemmas are about.
- Constants of timing are symbolic, with the exact side condition proved, and then
  instantiated with the deployed numbers. Integers are unbounded. Redis times are in
  milliseconds; TTL is rounded to seconds as Redis does it. A key is alive strictly before
  its expiry.

## Where code and documentation disagree, or a promise has a condition

- **ACK of a force-disconnect.** What a returned publish proves is about workers that were in
  the worker set when it was read. A worker that registers between that read and PUBLISH is
  not asked and keeps its socket (`LateStarterKeepsItsSocket`); the comment at
  socket_manager.py:1550-1551 says that such workers hold no sockets older than the command.
  A worker whose drain failed to disconnect somebody (every failure there is swallowed,
  main.py:517-554) leaves the set with the socket alive (`LeakyShutdownKeepsItsSocket`).
  These are the only two ways (`SurvivorOfReturned`).
- **Heartbeat.** A vanished key proves a vanished process if and only if the survival time
  stays under the TTL; with 5 s and 30 s that means attempts shorter than 3.75 s. The
  comment at socket_manager.py:1033-1037 counts 2 s for an attempt. An attempt that spends
  2 s on connecting and then 2 s on the reply takes 4 s and is not covered.
- **Watchdog.** The 120 s bound holds, and holds for every run exactly when two intervals
  and a cut fit into the staleness limit. The figure `2 * INTERVAL + CUT_BUDGET` of the
  docstring (socket_manager.py:1396-1398), for a socket that connects while the loop is
  stale, holds in every continuation if and only if no cut-all is under way at that moment,
  nor a sweep that began too recently (`FigureHoldsExactly`); with the deployed numbers, if
  and only if neither is under way (`DeployedFigure`). One second into a cut a socket may
  live for 79 s instead of 70 (`MidCutSocketLivesLonger`).
- **Connection limiter.** At most `2 * limit - 1` connections in any interval as long as the
  window, and that many do happen.
- **TOTP.** Accepted counters increase in every run if and only if the TTL covers `2w + 1`
  steps plus the delay between matching a code and the script; deployed, a delay of up
  to 90 s.
- **One-time claim of an MFA token.** At most one login per token in every run if and only if
  the claim is kept for the token's life plus the time between checking and claiming it;
  deployed it is kept for the life itself.
- **Lock.** It excludes in every run if and only if no critical section outlasts the timeout.
- **Revalidation.** A key that is not there is taken for a revocation
  (socket_manager.py:592-605). A live session is answered "revoked" if and only if Redis answered
  and its key was gone at that read (`RevokedExactlyWhenDisagreed`). That happens in these
  ways and no others (`DisagreementHasACause`), each with a run that gets there:
  a refresh that rotated Redis and did not commit, whether it died (`CrashedRefreshDisagrees`)
  or its compensation is yet to come (`FailedCommitDisagrees`); a refresh whose commit was
  applied but reported as failed, and which was then compensated
  (`CompensatedCommitDisagrees`); a revocation that has deleted the key and has not committed
  (session_service.py:146-165, 222-245, 696-701, 841; tasks/session_tasks.py:62-76;
  user_service.py:1421), for a moment (`EarlyDropDisagrees`) or, if it is rolled back
  (auth.py:353-369, 664-677), for good (`RolledBackRevocationDisagrees`); and a key that
  Redis lost (`LostKeyDisagrees`).
- **Un-sharing migration.** The unique constraint can be created if and only if no row that
  already carried a clone's name is in use, and contents are kept if and only if such rows
  are faithful. A re-run after a crash gives the uninterrupted result if and only if the
  crash was not between making a clone and copying its (existing) subject groups.
- **Importer.** Rows never come to be shared: the sheet is refused instead. A new path says
  what the row it named says, if and only if a row already carrying its clone's name does.
  Names are free for new ids as long as ids do not come round again; the script's own reset
  of the sequences (seed_from_xlsx.py:1265-1279) can make them.
- **Unescape.** Layers of escaping come off if and only if there are at most 20 of them (or
  there is nothing to escape). The docstring calls the backfill idempotent; a second run is a
  no-op if and only if one of the first 20 passes over the text finds nothing to do
  (`SecondRunExactly`), so for n layers exactly if n is at most 20 or there is nothing to
  escape (`SecondRunOnLayers`). An ampersand escaped 21 times takes two runs
  (`TwentyOneLayersTakeTwoRuns`).
- **MFA attempts.** A completed login deletes the counter (auth.py:1645), so a window holds at
  most `max_attempts` attempts for each completed login in it and once more.
- **Redirects.** With clock and cookies fixed there are never more than three in a row. When
  they change freely, runs are finite unless the access cookie keeps turning into something
  that is no token, or into one that is 30 days old.

## Model

| member | source | states |
|---|---|---|
| Heartbeat.StepKeepsOnTime | Backend_FastAPI/app/socket_manager.py:1022-1070 | every step of the heartbeat thread keeps the age of its key within the budget that its counted failures leave |
| Heartbeat.KeyOutlivesProcess | Backend_FastAPI/app/socket_manager.py:1022-1070 | in every run of a process with safe timing, as long as the process lives its key is alive |
| Heartbeat.SurvivalIsAttained | Backend_FastAPI/app/socket_manager.py:1022-1070 | a concrete schedule on which the process lives exactly the survival time after its last stored refresh |
| Heartbeat.KeyIsProofOfLifeExactlyWhenSafe | Backend_FastAPI/app/socket_manager.py:1022-1032 | "key gone means process gone" holds in all runs if and only if the survival time is below the TTL |
| Heartbeat.DeployedTiming | Backend_FastAPI/app/socket_manager.py:985-994 | refresh 5 s and TTL 30 s are safe if and only if one attempt takes less than 3.75 s |
| Heartbeat.Loop | Backend_FastAPI/app/socket_manager.py:1045-1065 | the instants at which the key is oldest are exactly those of these attempts and pauses; at none is it older than the survival time; the loop exits the process exactly at the third failure in a row |
| ForceDisconnect.StepKeeps | Backend_FastAPI/app/socket_manager.py:999-1110 | each of the kinds of steps of workers, heartbeats, sockets, subscribers, publishers and clock keeps the invariant |
| ForceDisconnect.EveryRunKeeps | Backend_FastAPI/app/socket_manager.py:999-1110 | so does every run |
| ForceDisconnect.BeatingIsLive | Backend_FastAPI/app/socket_manager.py:1022-1032 | a process whose heartbeat thread runs has a live key |
| ForceDisconnect.CheckIsSound | Backend_FastAPI/app/socket_manager.py:1095-1110 | a worker found without a key is past its duty for good |
| ForceDisconnect.SocketHoldersAreRegistered | Backend_FastAPI/app/main.py:468-570 | in every reachable state whoever holds a socket is on duty, in the worker set and has a live key, or is at the end of a shutdown whose drain left that socket |
| ForceDisconnect.OnlyFinishedWorkersArePruned | Backend_FastAPI/app/socket_manager.py:1095-1110 | in every reachable state pruning only meets workers that will never serve again |
| ForceDisconnect.SurvivorOfReturned | Backend_FastAPI/app/socket_manager.py:1544-1587 | a target socket that outlived a returned publish is on a worker that was not in the set at SMEMBERS or that shut down without disconnecting it |
| ForceDisconnect.ReturnedMeansGone | Backend_FastAPI/app/socket_manager.py:1544-1587 | ACK safety for all runs: after the publish returned, sockets in a target room on workers in the set at SMEMBERS are gone, but for leaky shutdowns; ACKs of other commands do not help |
| ForceDisconnect.DutyIsListed | Backend_FastAPI/app/socket_manager.py:999-1020 | every worker that may hold sockets is in the worker set |
| ForceDisconnectAwaited.AwaitedExactlyWhenAlive | Backend_FastAPI/app/socket_manager.py:1095-1110 | in every run a listed worker is waited for if and only if its key was alive at the moment it was looked at, and counted dead if and only if it was not; once pruned, none of the dead is in the worker set |
| ForceDisconnectAwaited.RefusedExactlyWhenNobodyIsAlive | Backend_FastAPI/app/socket_manager.py:1551-1555 | after the pruning the publish is refused if and only if no listed worker's key was alive when it was looked at |
| ForceDisconnectAwaited.PollReturnsExactly | Backend_FastAPI/app/socket_manager.py:1559-1566 | the next poll returns if and only if it finds the ACK of every listed worker whose key was alive when it was looked at |
| ForceDisconnectAwaited.RecordsAreTrue | Backend_FastAPI/app/socket_manager.py:1544-1566 | in every run the listed workers, what was seen of each and the targets were there at the moments of SMEMBERS, EXISTS and PUBLISH |
| ForceDisconnectScope.OnlyTargetsAreCut | Backend_FastAPI/app/socket_manager.py:1113-1186 | in every run a socket goes only by its own leaving, with its process, or while its worker is at a published command and it is in a room of that command |
| ForceDisconnectRuns.LateStarterKeepsItsSocket | Backend_FastAPI/app/socket_manager.py:1550-1557 | a reachable state in which a worker that started after the snapshot keeps a target socket |
| ForceDisconnectRuns.LeakyShutdownKeepsItsSocket | Backend_FastAPI/app/main.py:514-570 | a reachable state in which a worker listed at the snapshot left the set with a target socket alive |
| ForceDisconnectRuns.CrashedWorkerIsNotAwaited | Backend_FastAPI/app/socket_manager.py:1104-1109 | a reachable state in which a publish returned although a listed worker had crashed, which is out of the set |
| ForceDisconnectPublisher.SurvivorsOfReturned | Backend_FastAPI/app/socket_manager.py:1544-1587 | the same exclusion for all targets of one command |
| ForceDisconnectPublisher.Cluster.RequiredWorkers | Backend_FastAPI/app/socket_manager.py:1095-1110 | the state afterwards is the old one after a run in which the publisher's own steps are its snapshot, one check for each member and the pruning, and all others come from outside; it requires exactly the listed workers whose keys were alive when checked, and the others are out of the set; it gives up only for a call that failed or because nobody's key was alive |
| ForceDisconnectPublisher.Cluster.PublishStrict | Backend_FastAPI/app/socket_manager.py:1544-1587 | the same for the whole publish: when it returns, every listed worker whose key was alive has acknowledged, and nobody survives beyond the two exceptions; it raises only for a failed call, because nobody's key was alive, or after its last poll in vain, with the ACK of somebody whose key was alive missing |
| PasswordWatchdog.TurnKeeps | Backend_FastAPI/app/socket_manager.py:1416-1451 | one turn keeps the promise, whether its pass finishes, raises or hangs and whether it cuts |
| PasswordWatchdog.FlaggedSocketsAreCut | Backend_FastAPI/app/socket_manager.py:1382-1398 | for every behaviour of passes and cuts, a socket visible from v whose user is flagged from f is cut by max(v, f) + MAX_STALE + CUT_BUDGET, or its time is not up when the loop ends |
| PasswordWatchdog.BoundHoldsExactlyWhenEnough | Backend_FastAPI/app/socket_manager.py:1377-1451 | the bound holds in every run if and only if 2 * INTERVAL + CUT_BUDGET <= MAX_STALE |
| PasswordWatchdog.OnlyWhenStale | Backend_FastAPI/app/socket_manager.py:1430-1451 | nobody is cut wholesale and the loop does not end unless no pass has completed for MAX_STALE; it ends only if a cut-all raised or was not done in time |
| PasswordWatchdog.CutsAllOnlyWhenStale | Backend_FastAPI/app/socket_manager.py:1416-1451 | so for every cut-all of every run |
| PasswordWatchdog.HealthyLoopOnlySweeps | Backend_FastAPI/app/socket_manager.py:1416-1430 | while passes complete, and two of them and an interval fit into MAX_STALE, every turn completes one, nobody is cut wholesale and the loop goes on |
| PasswordWatchdog.StaleTurnIsShort | Backend_FastAPI/app/socket_manager.py:1396-1398 | a socket that appears between two cuts of a stale loop, before its sweep, is cut within two intervals and a budget, and three delays |
| PasswordWatchdog.FigureHoldsExactly | Backend_FastAPI/app/socket_manager.py:1396-1398 | for every timing and every stale state, a socket that appears at m is cut within two intervals and a budget in every continuation if and only if no cut-all is under way at m, nor a sweep that began too recently |
| PasswordWatchdog.DeployedFigure | Backend_FastAPI/app/socket_manager.py:238-241 | with the deployed numbers, if and only if neither is under way |
| PasswordWatchdog.MidCutSocketLivesLonger | Backend_FastAPI/app/socket_manager.py:1396-1398 | a reachable run in which a socket that appears during a cut lives for 79 s |
| PasswordWatchdog.DeployedBound | Backend_FastAPI/app/socket_manager.py:238-241 | the deployed constants satisfy the condition, with the bound 120 s |
| PasswordWatchdog.Watchdog.Within | Backend_FastAPI/app/socket_manager.py:1355-1374 | waits no longer than the timeout, and succeeds exactly if a result was there by then |
| PasswordWatchdog.Watchdog.Run | Backend_FastAPI/app/socket_manager.py:1407-1451 | the loop, for any outcomes, behaves as specified and keeps the promise at every instant |
| SocketRooms.RoomsNameTheirOwner | Backend_FastAPI/app/socket_manager.py:213-219 | of the rooms joined for a session, a session's room is among them if and only if it is that session's, and likewise for users |
| SocketRooms.RolesAndUnits | Backend_FastAPI/app/socket_manager.py:437-452 | the same for the rooms of a role and of a unit |
| SocketRooms.LeavesWhatItJoined | Backend_FastAPI/app/socket_manager.py:479-518 | the rooms left one by one are those joined if and only if the session id is not 0 |
| SocketRooms.RoomMeansSession | Backend_FastAPI/app/socket_manager.py:408-452 | in every run a fully connected socket is in a session's (user's) room if and only if that is its session (user), a connecting one only if |
| SocketRooms.RunKeeps | Backend_FastAPI/app/socket_manager.py:408-452 | in every run a socket is in exactly the rooms its handler has entered so far, and before its session is saved in none |
| SocketRooms.RunIsLocal | Backend_FastAPI/app/socket_manager.py:368-518 | what becomes of a socket does not depend on the other sockets |
| SocketCuts.LocalSockets.Connect | Backend_FastAPI/app/socket_manager.py:402-472 | a connect ends fully joined under the authenticated session, exactly if it was not refused or closed meanwhile, or with the socket gone; all other sockets are what the other handlers made of them |
| SocketCuts.LocalSockets.CutAll | Backend_FastAPI/app/socket_manager.py:1338-1345 | the cutting loop removes exactly the sockets of its snapshot, unless a disconnect raises; everything else is what the other handlers did during its awaits |
| SocketCuts.LocalSockets.CutRooms | Backend_FastAPI/app/socket_manager.py:1128-1148 | who was in a listed room at the start is gone at the end; who was cut had been in one; each is counted once; all else is what the other handlers did during its awaits; it fails only if the disconnect of such a socket raised |
| SocketCuts.LocalSockets.ForceDisconnectSessions | Backend_FastAPI/app/socket_manager.py:1151-1186 | every fully connected socket of the listed sessions is gone, each counted once however often it is listed; sockets of other sessions are what the other handlers made of them, and untouched if these did nothing to them |
| SocketCuts.LocalSockets.ForceDisconnectUser | Backend_FastAPI/app/socket_manager.py:1113-1148 | the same for users |
| SocketCuts.LocalSockets.PasswordChangeSweep | Backend_FastAPI/app/socket_manager.py:1299-1335 | a pass that completes has cut exactly the sockets of flagged users that were there at its start, and no others; it fails only if flags cannot be read or such a disconnect raises |
| SocketCuts.LocalSockets.CutEveryLocalSocket | Backend_FastAPI/app/socket_manager.py:1338-1345 | when it completes, nobody who was there is left |
| SocketCuts.CutFromRuns | Backend_FastAPI/app/socket_manager.py:1113-1186 | a cut commutes with what other handlers do: cut sockets stay gone, the others go on as if nothing had been cut |
| SessionRevalidation.StepKeeps | Backend_FastAPI/app/socket_manager.py:559-688 | every step of refreshes, of revocations up to their commit or rollback, of expiries, losses and re-validations keeps row, cache, lock and readers consistent |
| SessionRevalidation.ValidMeansLive | Backend_FastAPI/app/socket_manager.py:668-688 | in every run "valid" means that the row of this session was live when checked and still carried the same JTI, unrevoked, at the answer |
| SessionRevalidation.RevokedExactlyWhenDisagreed | Backend_FastAPI/app/socket_manager.py:573-625 | in every run, with any refreshes and revocations around it, a session that is live at the answer is answered "revoked" if and only if Redis answered and key and live row disagreed at that read |
| SessionAnswers.AnsweredExactly | Backend_FastAPI/app/socket_manager.py:590-688 | in every run, "valid" and each refusal is answered if and only if the reads call for it: valid if the key was seen or Redis did not answer, the blacklist was read and did not hold the user, the row was live under that JTI and the flag was off; a refusal if its read was the first to say so |
| SessionAnswers.MomentsAreTrue | Backend_FastAPI/app/socket_manager.py:590-688 | what is on record of each read was there when it was made |
| SessionRevalidation.DisagreementHasACause | Backend_FastAPI/app/services/session_service.py:146-165 | in every run, a live row without its key that can be read was left so by a refresh that rotated and did not commit, by the compensation of a committed one, by a revocation that has not committed, or by a loss |
| SessionRevalidation.HarmExactly | Backend_FastAPI/app/routers/auth.py:1238-1302 | in every run, whatever goes on around it, a refresh leaves such a disagreement if and only if the row is live and it took the old key without committing and without compensation, or committed and was compensated |
| SessionRevalidation.CrashedRefreshDisagrees | Backend_FastAPI/app/routers/auth.py:1238-1302 | a run in which a refresh dies between rotation and commit |
| SessionRevalidation.CompensatedCommitDisagrees | Backend_FastAPI/app/routers/auth.py:1270-1302 | a run in which an applied commit is reported as failed and compensated |
| SessionRevalidation.EarlyDropDisagrees | Backend_FastAPI/app/services/session_service.py:146-165 | a run in which a revocation has deleted the key and not yet flushed |
| SessionRevalidation.RolledBackRevocationDisagrees | Backend_FastAPI/app/routers/auth.py:664-677 | a run in which a revocation deletes the key and is rolled back |
| SessionRevalidation.MismatchIsRefused | Backend_FastAPI/app/socket_manager.py:605-625 | while Redis and the live row disagree, a re-validation answers "Session revoked" |
| SessionRuns.Sessions.RefusalReason | Backend_FastAPI/app/socket_manager.py:559-688 | the state afterwards is the old one after a run in which the reader's own steps are the first of these five reads, in their order and up to the answer, and all others come from outside; the answer is the one that what these reads met calls for |
| MfaReservation.Script | Backend_FastAPI/app/database.py:331-365 | the script leaves the key and replies as specified, from every state of the key |
| MfaReservation.AllowedOnlyForThese | Backend_FastAPI/app/database.py:405-445 | over arbitrary replies, "allowed" is decoded from exactly these |
| MfaReservation.HonestReplyIsUnderstood | Backend_FastAPI/app/database.py:372-445 | an honest reply is decoded as the script's decision; a refusal is unproved only within half a second of the expiry |
| MfaReservation.SlidingWindow | Backend_FastAPI/app/database.py:331-365 | over every run, with resets, lost replies, lost expiries and spoiled values, any half-open interval as long as the window holds at most max_attempts allowed attempts for each reset in it and once more |
| MfaReservation.OneLife | Backend_FastAPI/app/database.py:340-365 | of k calls in one life of the key at count n exactly the first max_attempts - n are allowed, each replied with the next count; all others are told that the ceiling is reached |
| MfaReservation.CeilingIsReached | Backend_FastAPI/app/database.py:340-365 | from every state without a live key exactly max_attempts attempts are allowed in one window |
| MfaReservation.BrokenCounterFailsClosed | Backend_FastAPI/app/database.py:334-349 | with a counter that is no whole number of at least one, or nonsense arguments, nothing changes and nothing is decided |
| MfaReservation.ObservedAtMostAdmitted | Backend_FastAPI/app/database.py:372-445 | clients never see more successes than the server granted, and exactly as many if no reply is lost |
| MfaReservation.LockoutIsInert | Backend_FastAPI/app/database.py:352-360 | any number of blocked calls leaves counter and expiry as they were |
| MfaReservation.FirstCallAfterLockout | Backend_FastAPI/app/database.py:340-365 | the first call at or after the expiry is allowed and counts one |
| MfaReservation.LostExpiryIsRepaired | Backend_FastAPI/app/database.py:352-360 | a lockout without expiry ends one window after the next call, whatever calls follow |
| TotpReplay.Script | Backend_FastAPI/app/database.py:492-529 | the script leaves the key and replies as specified, from every state of the key |
| TotpReplay.DecodedOnlyWhenConsistent | Backend_FastAPI/app/database.py:635-709 | over arbitrary replies, "accepted" and "refused" are decoded from exactly the replies consistent with the requested counter |
| TotpReplay.HonestReplyIsUnderstood | Backend_FastAPI/app/database.py:582-709 | an honest reply is decoded as the script's decision |
| TotpReplay.AcceptedIncrease | Backend_FastAPI/app/database.py:492-529 | accepted counters strictly increase over every run, across expiries of the key, so each code is accepted once (section 5.2 of RFC 6238) |
| TotpReplay.AcceptedExactlyWhenLater | Backend_FastAPI/app/database.py:492-529 | from a fresh key, over every run with expiries and lost expiries, a counter is accepted if and only if it is later than every counter before it |
| TotpReplay.LostExpiryIsRepaired | Backend_FastAPI/app/database.py:513-529 | after any call the key has an expiry, and a refusal changes nothing but a missing one |
| TotpReplay.BrokenCounterFailsClosed | Backend_FastAPI/app/database.py:492-512 | with a stored text that is no counter, or nonsense arguments, nothing changes and nothing is decided |
| TotpReplay.AcceptedOnceExactlyWhenCovered | Backend_FastAPI/app/services/mfa_service.py:86-110 | they do in every run if and only if the TTL covers 2w + 1 periods plus the delay of a call |
| TotpReplay.ReplayWhenNotCovered | Backend_FastAPI/app/database.py:492-529 | otherwise this run accepts one code twice |
| TotpReplay.DeployedPolicy | Backend_FastAPI/app/services/mfa_service.py:176-180 | 180 s, 30 s steps and one step each side cover delays up to 90 s and no longer ones |
| TotpReplay.ConfirmedIncrease | Backend_FastAPI/app/database.py:582-709 | what clients are told is part of what was accepted, in the same order |
| OneTimeClaim.ClaimOnce | Backend_FastAPI/app/database.py:725-777 | claimed and already claimed are answered exactly when the command answered so; everything else is unproved, and the key is as the command left it |
| OneTimeClaim.GrantedAtMostOnce | Backend_FastAPI/app/database.py:725-737 | a claim kept long enough is granted at most once in every run, from every state of the key and with lost expiries |
| OneTimeClaim.GrantedExactlyOnce | Backend_FastAPI/app/database.py:725-777 | from a fresh key, if anybody claims it at all, exactly one claim is granted |
| OneTimeClaim.OneLoginExactlyWhenCovered | Backend_FastAPI/app/routers/auth.py:1590-1635 | at most one login per token is told "claimed" in every run if and only if the claim is kept for the token's life plus the delay of a claim |
| OneTimeClaim.TwoLogins | Backend_FastAPI/app/routers/auth.py:1607-1610 | otherwise this run has two |
| OneTimeClaim.DeployedClaim | Backend_FastAPI/app/routers/auth.py:1607-1610 | kept for the configured life of the token, the claim covers no delay at all |
| ConnectionLimiter.Script | Backend_FastAPI/app/socket_manager.py:85-100 | the script counts, sets the window at one only, and admits up to the limit |
| ConnectionLimiter.CheckRateLimit | Backend_FastAPI/app/socket_manager.py:116-175 | the verdict and the key for every fate of the two calls: the first call that answers decides, and it fails open exactly if neither does |
| ConnectionLimiter.FixedWindow | Backend_FastAPI/app/socket_manager.py:85-100 | any half-open interval as long as the window admits at most 2 * limit - 1 connections, over every run |
| ConnectionLimiter.OneLife | Backend_FastAPI/app/socket_manager.py:85-100 | within one life of the key no call moves its end, and exactly as many are admitted as the limit has left |
| ConnectionLimiter.FixedWindowIsTight | Backend_FastAPI/app/socket_manager.py:85-100 | a run that admits 2 * limit - 1 |
| DistributedLock.ExcludesExactlyWhenShortEnough | Backend_FastAPI/app/database.py:871-941 | at most one client is inside in every reachable state if and only if no critical section outlasts the timeout |
| DistributedLock.OthersCannotEndALease | Backend_FastAPI/app/database.py:908-931 | with no assumption on durations, a live lease ends only by its own expiry or its owner's release |
| DistributedLock.BlockedForAtMostOneTimeout | Backend_FastAPI/app/database.py:876-903 | from any reachable state, after one timeout without a grant the next SET gets the lock, whoever crashed |
| DistributedLock.Locks.Acquire | Backend_FastAPI/app/database.py:874-903 | the state afterwards is the old one after a run in which the client's own steps are its entry and its SETs, and all others come from outside; it ends inside, alone and with a full lease, or still trying, or with a call that raised |
| DistributedLock.Locks.ReleaseLock | Backend_FastAPI/app/database.py:908-931 | the release deletes the key exactly if it still holds this client's value, and changes nothing else |
| CriteriaTables.CloneCodeInjective | Backend_FastAPI/alembic/versions/adm003path001_admission_path_unique_criteria_id.py:84 | two different pairs of row and path never have the same clone code |
| CriteriaTables.CloneCodeText | Backend_FastAPI/scripts/seed_from_xlsx.py:986 | the code is the text with the row's id first and the path's second, in decimal |
| CriteriaUnsharing.InsertKeeps | Backend_FastAPI/alembic/versions/adm003path001_admission_path_unique_criteria_id.py:97-110 | the clone insert keeps the record of progress |
| CriteriaUnsharing.CopyKeeps | Backend_FastAPI/alembic/versions/adm003path001_admission_path_unique_criteria_id.py:115-129 | so does the copy of the subject groups |
| CriteriaUnsharing.RepointKeeps | Backend_FastAPI/alembic/versions/adm003path001_admission_path_unique_criteria_id.py:131-140 | so does moving the path |
| CriteriaUnsharing.UnsharedExactlyWhenOldClonesFree | Backend_FastAPI/alembic/versions/adm003path001_admission_path_unique_criteria_id.py:81-146 | after all moves no row is shared if and only if no row that already carried a needed clone code is in use |
| CriteriaUnsharing.ContentKeptExactlyWhenOldClonesFaithful | Backend_FastAPI/alembic/versions/adm003path001_admission_path_unique_criteria_id.py:94-129 | every path's columns and subject groups are the old ones if and only if such rows are faithful copies |
| CriteriaUnsharing.SmallestKeepsOriginal | Backend_FastAPI/alembic/versions/adm003path001_admission_path_unique_criteria_id.py:82-83 | the smallest sharer, and every path that shares nothing, is untouched |
| UnsharingRuns.Database.MovePath | Backend_FastAPI/alembic/versions/adm003path001_admission_path_unique_criteria_id.py:83-140 | one turn moves the path with at most three statements, or stops after any of them with the state recorded |
| UnsharingRuns.Database.Upgrade | Backend_FastAPI/alembic/versions/adm003path001_admission_path_unique_criteria_id.py:66-146 | the loops over the query's answer move exactly the paths to be moved, with at most three statements each; the constraint is refused if and only if an old clone is in use; a crash after any statement leaves a recorded state |
| UnsharingRuns.SecondRunDoesNothing | Backend_FastAPI/alembic/versions/adm003path001_admission_path_unique_criteria_id.py:69-81 | after a completed run the query has no answer |
| UnsharingRuns.CrashLeavesReady | Backend_FastAPI/alembic/env.py:75-77 | a harmless crash leaves a state that satisfies the precondition of the next run |
| UnsharingRuns.RerunMatchesExactlyWhenHarmless | Backend_FastAPI/alembic/versions/adm003path001_admission_path_unique_criteria_id.py:81-140 | crash and re-run give every path the code and content of the uninterrupted run if and only if no clone was left without subject groups it should have |
| UnsharingRuns.HarmfulCrashHappens | Backend_FastAPI/alembic/versions/adm003path001_admission_path_unique_criteria_id.py:97-115 | a ready state and a crash of its run that is not harmless |
| UnsharingRuns.GroupsAreLost | Backend_FastAPI/alembic/versions/adm003path001_admission_path_unique_criteria_id.py:94-115 | such a path ends without subject groups |
| PathSeeding.ResolveGives | Backend_FastAPI/scripts/seed_from_xlsx.py:983-1019 | the row resolved for a new path is the named one if free, else its clone; it is taken if and only if the name is blocked, and says what the named row says if and only if a row already carrying the name does |
| PathSeeding.RowAdds | Backend_FastAPI/scripts/seed_from_xlsx.py:963-1025 | adding a path keeps rows unshared and everything that was there |
| PathSeeding.Importer.SeedRow | Backend_FastAPI/scripts/seed_from_xlsx.py:891-1027 | a sheet row is skipped, refused or added exactly in these cases, with these effects |
| PathSeeding.Importer.Seed | Backend_FastAPI/scripts/seed_from_xlsx.py:887-1027 | a sheet keeps rows unshared whatever it holds, adds exactly the logged paths, changes nothing that was there, and is taken back whole when refused; with free names it completes and leaves names free |
| PathSeeding.AddedPathsSayWhatTheyNamed | Backend_FastAPI/scripts/seed_from_xlsx.py:965-1019 | with free names every added path has the content of the row its code named |
| PathSeeding.AddedPathHasCriteriaExactly | Backend_FastAPI/scripts/seed_from_xlsx.py:978-982 | an added path refers to a criteria row if and only if its code is not empty and some row carried it |
| PathSeeding.StaleCloneIsTaken | Backend_FastAPI/scripts/seed_from_xlsx.py:989-996 | a state in which a stale clone is taken that says something else |
| HtmlUnescape.RoundTrip | Backend_FastAPI/alembic/versions/ampfix01_20260609_backfill_school_name_unescape.py:7-12 | unescape undoes escape for every text, whatever other references unescape knows |
| HtmlUnescape.ChangingShortens | Backend_FastAPI/alembic/versions/ampfix01_20260609_backfill_school_name_unescape.py:41-45 | a round that changes a text shortens it |
| HtmlUnescape.LayersComeOffExactlyWhenFew | Backend_FastAPI/alembic/versions/ampfix01_20260609_backfill_school_name_unescape.py:36-46 | n layers over a text without references come off if and only if n is at most the number of rounds or nothing in it needs escaping |
| HtmlUnescape.SecondRunExactly | Backend_FastAPI/alembic/versions/ampfix01_20260609_backfill_school_name_unescape.py:14-17 | a second run changes nothing if and only if some text on the way down, from the input to the one after the last round, is stable; in a short text one is |
| HtmlUnescape.SecondRunOnLayers | Backend_FastAPI/alembic/versions/ampfix01_20260609_backfill_school_name_unescape.py:14-17 | for n layers over a text without references, if and only if n is at most the number of rounds or nothing in it needs escaping |
| HtmlUnescape.TwentyOneLayersTakeTwoRuns | Backend_FastAPI/alembic/versions/ampfix01_20260609_backfill_school_name_unescape.py:14-17 | an ampersand escaped 21 times is changed by the second run |
| HtmlUnescape.UnescapeStable | Backend_FastAPI/alembic/versions/ampfix01_20260609_backfill_school_name_unescape.py:36-46 | the loop with its early exit gives what 20 rounds give |
| HtmlUnescape.FieldCleaned | Backend_FastAPI/alembic/versions/ampfix01_20260609_backfill_school_name_unescape.py:55-60 | a listed field that holds a text gets 20 rounds for each time it is listed, every other field stays |
| HtmlUnescape.CleanList | Backend_FastAPI/alembic/versions/ampfix01_20260609_backfill_school_name_unescape.py:49-61 | in place, an entry that is no dict stays; of a dict every listed text becomes what 20 rounds make of it and all else stays; the answer is true if and only if some listed text is changed by unescaping it |
| HtmlUnescape.FewLayersAreStoredClean | Backend_FastAPI/alembic/versions/ampfix01_20260609_backfill_school_name_unescape.py:36-61 | a listed text with at most 20 layers is stored without any |
| HtmlUnescape.EscapeText | Backend_FastAPI/alembic/versions/ampfix01_20260609_backfill_school_name_unescape.py:7-12 | the texts that html.escape writes |
| RedirectProxy.CounterRoundTrip | frontend/src/lib/auth/sr-marker.ts:43-107 | the round counter written is read back up to its maximum, is taken off without a trace, and survives the removal of `_rsc` |
| RedirectRuns.RedirectDescends | frontend/src/proxy.ts:248-524 | with clock and cookies fixed, but for the proxy's own deletions, every redirect leads to a page of lower rank |
| RedirectRuns.Chain | frontend/src/proxy.ts:248-524 | so every chain of redirects ends, after at most three |
| RedirectRuns.ThreeRedirectsHappen | frontend/src/proxy.ts:226-234 | three do happen |
| RedirectRuns.TargetsAreNoAuthPages | frontend/src/lib/auth/login-redirect.ts:122-160 | no return target is an authentication page or the refresh page |
| RedirectRuns.TargetIsKeptExactly | frontend/src/lib/auth/login-redirect.ts:122-160 | a link to go back to is kept if and only if it stays on this site, with nothing encoded that would leave it, and is no authentication page; else the target is the dashboard |
| RedirectRuns.ProtectedPageExactly | frontend/src/proxy.ts:350-524 | a protected page is rendered if and only if the token is live and its role may see the page: admin and manager everything, accountants finance, officers and collaborators not the plain dashboard; a prefetch never starts a refresh |
| RedirectRuns.LiveTokenGoesHome | frontend/src/proxy.ts:324-345 | where a live token is sent from pages it may not see and from authentication pages, by role |
| RedirectRuns.WithoutLiveTokenGoesOut | frontend/src/proxy.ts:358-456 | without one a protected page leads to the login page if the session must be over and else to the refresh page, both knowing the way back |
| RedirectRuns.AuthPagesExactly | frontend/src/proxy.ts:261-265 | which pages are authentication pages |
| RedirectRuns.SessionIsKept | frontend/src/proxy.ts:306-322 | after every answer the refresh and CSRF cookies are there if and only if they were before and it was not the full logout |
| RedirectRuns.AccessIsDeletedExactly | frontend/src/proxy.ts:306-456 | the access cookie is deleted by exactly these answers, and never set or changed |
| RedirectRuns.LogoutLeavesNothing | frontend/src/proxy.ts:314-322 | the full logout is rendered with no cookie left; whatever is requested next comes without a token, sees no protected page and still has none |
| RedirectRuns.RescueRoundTrip | frontend/src/proxy.ts:198-239 | a page with an expired token goes to the refresh page, and with a usable token it comes straight back, one round up, if and only if the token's fingerprint is another one |
| RedirectRuns.RefusedTakesNoShortcut | frontend/src/proxy.ts:219-223 | a page that the server refused never gets the shortcut, whatever its token |
| RedirectRuns.ShortcutExactly | frontend/src/proxy.ts:198-239 | before the cap, the refresh page goes straight back exactly for an unexpired access token with a fingerprint other than the one given |
| RedirectRuns.CapClosesAfterTwo | frontend/src/proxy.ts:198-236 | whatever clock and cookies do, a target gets a shortcut or the bootstrap page exactly SR_MAX times and then the login page, without the counter |
| RedirectRuns.ReauthIsFinal | frontend/src/proxy.ts:306-311 | that login page is rendered whatever the cookies are, and keeps the session |
| RedirectRuns.StepDescends | frontend/src/proxy.ts:198-524 | in a browsing run with free clock, cookies, server refusals and refreshes, each step gets nearer to the end unless the token is lost |
| RedirectRuns.RunsEnd | frontend/src/app/session-refresh/SessionRefreshBootstrap.tsx:56-131 | such a run ends within 22 steps, plus 23 for each time the token is lost |
| RedirectRuns.LossesCanGoOn | frontend/src/proxy.ts:386-397 | with a cookie that flaps between no token and a good one, it goes on for as long as the flapping |

## Left out

- Redis, SQL, Socket.IO, JWT and HTTP themselves, logging, metrics and the notices sent before a cut: only their effect on the modelled state is there.
- The circuit breaker: a call may fail before or after it took effect instead.
- PasswordWatchdog.FlaggedSocketsAreCut: counts time in which the event loop runs, as the source scopes it; how late the loop resumes a finished wait is the parameter `lag`. That a completed sweep cuts the right sockets is proved separately, in `SocketCuts`.
- ForceDisconnect.SocketHoldersAreRegistered: assumes a bound on the time from registration to the first heartbeat attempt, and that every attempt ends within its time limit; the deployed client's limit is not part of this model.
- ForceDisconnect.ReturnedMeansGone: is about sockets already in the room at PUBLISH; sockets that are still connecting are the watchdog's.
- SocketCuts.LocalSockets.CutAll: the participants of a room are read in one step, and the room that the library gives each socket under its own id is not modelled.
- SessionRevalidation.RevokedExactlyWhenDisagreed: one refresh of a session at a time holds the row, nobody outside a refresh holds the new token before it is over, a session is revoked by transactions that delete its key and commit or roll back in any order, and the blacklist keys of rotated tokens are not modelled.
- MfaReservation.SlidingWindow: the Lua number is a real, without rounding, and INCR does not overflow.
- TotpReplay.AcceptedIncrease: takes codes as counters; that a code belongs to one counter only is not part of this model.
- DistributedLock.Locks.Acquire: stops after a given number of rounds where the source retries for ever; every number is covered.
- UnsharingRuns.Database.Upgrade: the answer of the duplicates query is a parameter that satisfies the query's meaning, and nobody else writes while the migration runs.
- PathSeeding.Importer.Seed: the lookups of a row come with it as one key, of a path's other columns only the key is there, and the offering configurations derived afterwards are left out.
- HtmlUnescape.UnescapePass: the table of other HTML references is a parameter, of which only that none is shorter than its text is used; the pattern that selects rows is left out.
- RedirectProxy.CounterRoundTrip: URLs are structured values, so parsing, percent-encoding, dot segments and the last-resort guards against leaving the site are not modelled.
- RedirectRuns.RunsEnd: the fingerprint of a token is an arbitrary function, and server components of public pages get no forwarded path.
- OneTimeClaim.ClaimOnce: the refusal of an empty key name is left out, and the early EXISTS of the router, which decides nothing.
- Casbin, other migrations, the other sheets of the importer, routers, Celery tasks, validators, forms and pages.
