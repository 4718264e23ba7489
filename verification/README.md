# Verification of the eufy NVR bridge

The NVR accepts one live session. Several supervisor processes, an adaptive warmer and a Home
Assistant snapshot cache compete for it. This project models that competition, the stream names
the rest of the system relies on, and the engine's two message streams, and proves what they
guarantee.

Run `dafny verify dfyconfig.toml` to check everything.

## How it is organised

| part | modules |
|---|---|
| session gate (`bridge/eufy_run.py`) | `Text`, `Tickets`, `TicketQueue`, `SessionGate`, `GateProtocol`, `GateInvariant`, `GateTheorems`, `GateLimits`, `GateRefinement` |
| warmer and preemption (`bridge/eufy_warm.py`) | `Warmer`, `Preemption`, `PreemptionProofs` |
| supervision of one session, retries | `Watchdog`, `StallTimer`, `Timeouts`, `Retry` |
| snapshot cache (`custom_components/eufy_nvr/snapshot.py`) | `SnapshotStore`, `SnapshotCache`, `SnapshotProtocol`, `SnapshotInvariant`, `SnapshotTheorems`, `SnapshotLimits`, `SnapshotAnswers`, `SnapshotGap` |
| stream names (`bridge/gen_go2rtc.py`) | `StreamNames`, `SlugWords`, `Manifest`, `StreamRegistry`, `Generation` |
| engine messages (`bridge/eufy_stream.py`, `bridge/sctp_oracle.js`) | `Signaling`, `OraclePipe` |

Code that changes state is a class whose methods are proved against functions on values
(`SessionGate.Gate`, `Warmer.AdaptiveWarmer`, `Watchdog.SessionState`, `StallTimer.Engine`,
`SnapshotCache.SnapshotCache`, `Generation.Generator`, `Signaling.Connection`,
`OraclePipe.Reader`). Where tasks or processes interleave, a `State`, a `Step` type and a `Next`
function built from those same functions describe one access to shared state, or one await-free
segment, per step. A step that is not enabled changes nothing, so every sequence of steps is a
run, and the theorems range over all of them. `stored`, `touched`, `moves`, `ever` and `lastEnd`
record history only; no step reads them, except that `ever` keeps a process number from coming
back with an old start time. `orphans` counts the engine groups alive without a supervisor.

## What turned out not to hold

Each of these has a lemma with a concrete run, and a theorem that says when the promise does hold.

- Arrival order. Computing the stamp and writing the ticket are two accesses. A gate that stamps
  first but writes after another's snapshot is overtaken (`LateWriterIsOvertaken`). With both in
  one step arrival order holds over all runs (`ArrivalOrder`). In general a winner was stamped
  first exactly when no earlier stamp was unpublished at its snapshot (`ArrivalOrderIff`).
- Progress. An abandoned ticket whose start time is "0" and whose process number is in use again
  blocks every later arrival for as long as that process lives (`OrphanArises`,
  `BlindOrphanStarvesEveryone`). A waiter's poll and try succeed on a free flock exactly when it
  was the least live one and no such ticket, and none whose owner cannot be read, sorted before
  it (`WinsIffLeast`).
- One session. A supervisor that is killed frees the flock while its engine group lives on
  (`KilledSupervisorBreaksTheRule`). The next engine is alone exactly when every engine orphaned
  so far has died (`NextEngineAloneIff`).
- Release delay. A supervisor killed while it sleeps out the delay frees the flock at once
  (`KilledSleeperRun`), and an orphaned engine dies without anybody waiting after it
  (`OrphanEndCutsDelay`). A run keeps the spacing exactly when it has no step of these two kinds
  (`SpacedRun`).
- Rate limit of captures. The handler of a refresh that timed out runs later, under the lock, and
  overwrites the freshness of an image that a foreground capture has stored meanwhile, so the next
  capture starts `failure_ttl` instead of `ttl` after the delivery
  (`TimedOutRefreshCutsFreshness`). `HeldStep` names exactly the steps that end the hold early.
- Stale fallback. A miss under the lock means there is no entry for the key at all, so the two
  branches of `async_get` that return the stale image after a failed capture (lines 82-85 and
  88-91) are never taken; the caller gets the capture's own image or error
  (`ForegroundOnlyOnMiss`, `CaptureIsAnswered`). The docstring's "failures retain the stale image"
  is true of background refreshes only.
- Lease expiry. The restart branch comes before the lease check, so a consumer that keeps ending
  outlives its lease (`RestartOutlivesLease`; `QuietPass` is the exact condition).
- Preemption. If go2rtc still lists the cancelled warm consumer at the next fetch, the stream is
  warmed again (`RewarmedFromQuiet`; `RewarmedIffLingering` is the exact condition).
- Rejection. A -104 line read just before the engine exits gives the reason "exit", and after an
  error exit the supervisor retries (`RejectionLostAtExit`). It becomes the reason exactly when a
  tick without a stop comes before the exit (`RejectionDecides`, `RejectionRetriedIff`).

The default in `msg.link || LINK.Cmd` would send a frame for link 0 on the command channel, so
the pipe keeps all channels exactly when no link is zero (`PipeKeepsLinks`). The engine passes
link 1 everywhere, so this does not happen here (`CommandsArrive`).

## Model

| member | source | states |
|---|---|---|
| Tickets.ParsesBack | bridge/eufy_run.py:130-133 | every generated ticket name splits back into the process number and start time it was built from |
| Tickets.PaddedStampsSort | bridge/eufy_run.py:161-165 | below 10^20, string order of ticket names is numeric order of stamps |
| Tickets.EarlierStampSortsFirst | bridge/eufy_run.py:161-165 | for every value of the 64-bit clock the earlier arrival sorts first, whatever the other fields |
| Tickets.NameOrderFollowsStamps | bridge/eufy_run.py:130-130 | a name that does not sort after another was stamped no later |
| Tickets.TwentyPlacesAreTheLimit | bridge/eufy_run.py:164-164 | the width is exact: 10^20 sorts before 10^20 - 1 |
| TicketQueue.SortedIsUnique | bridge/eufy_run.py:130-130 | a directory has one ascending listing, so the order of `_queue` is determined |
| TicketQueue.HeadOfQueue | bridge/eufy_run.py:127-150 | a surviving ticket heads the queue exactly when every earlier file is dropped |
| SessionGate.Gate.Queue | bridge/eufy_run.py:127-150 | the loop returns exactly the live tickets, oldest first, and leaves exactly those files |
| SessionGate.Gate.Enter | bridge/eufy_run.py:152-165 | opens the lock file and computes the ticket from clock, process number, its start time if readable, and gate |
| SessionGate.Gate.WriteTicket | bridge/eufy_run.py:171-172 | adds the ticket to the directory and touches nothing else |
| SessionGate.Gate.TryTake | bridge/eufy_run.py:175-185 | only the first ticket (or an empty queue) takes the flock, and only a free one |
| SessionGate.Gate.Hint | bridge/eufy_run.py:186-189 | the marker is touched exactly when a second has passed, and the clock restarts only then |
| SessionGate.Gate.Leave | bridge/eufy_run.py:204-208 | the own ticket goes on every way out; the lock is given up only when it was not acquired |
| SessionGate.Gate.Release | bridge/eufy_run.py:221-229 | unlocks only what this gate holds, and is harmless when repeated |
| GateRefinement.Enter | bridge/eufy_run.py:152-165 | opening the file and stamping is the protocol's stamp |
| GateRefinement.Announce | bridge/eufy_run.py:171-172 | writing the ticket is the protocol's publication, a step of its own |
| GateRefinement.Turn | bridge/eufy_run.py:173-203 | one turn of the polling loop makes exactly the protocol's steps: poll, try, then clear and unlink, or hint and rest |
| GateRefinement.Abandon | bridge/eufy_run.py:204-209 | leaving without the session is the protocol's step of giving up |
| GateRefinement.GiveBack | bridge/eufy_run.py:221-229 | releasing after the delay is the protocol's step that ends the session |
| GateInvariant.FreshTicket | bridge/eufy_run.py:161-165 | a new ticket names its own process and a start time that has existed, or "0" |
| GateInvariant.LiveTicketKept | bridge/eufy_run.py:137-148 | pruning never drops the ticket of a live gate, whichever start times are unreadable |
| GateInvariant.SpawnClaims | bridge/eufy_run.py:139-141 | a process with a reused number never becomes the owner of an older ticket |
| GateInvariant.StepInv | bridge/eufy_run.py:152-209 | flock, phases, ticket files and process table stay consistent in every step, including crashes and reused process numbers |
| GateInvariant.RunInv | bridge/eufy_run.py:152-209 | the same over every run |
| GateTheorems.OneSession | bridge/eufy_run.py:363-412 | over every run that kills no supervisor while its engine is alive, at most one engine is alive and its supervisor owns the flock |
| GateTheorems.NextEngineAloneIff | bridge/eufy_run.py:299-309 | over every run the next engine to start is alone exactly when as many orphaned engines have died in it as it has orphaned |
| GateTheorems.StartingCountsOrphans | bridge/eufy_run.py:299-309 | starting an engine makes one session more than there are orphaned engines alive |
| GateTheorems.SpacedAtStart | bridge/eufy_run.py:397-410 | at the start of an engine the spacing says just that it is not too early |
| GateTheorems.SpacedStep | bridge/eufy_run.py:397-410 | a step breaks the spacing exactly when it kills a supervisor still sleeping out the delay, or an orphaned engine dies and nobody sleeps out a whole delay from then on, there being a delay |
| GateTheorems.SpacedRun | bridge/eufy_run.py:397-410 | a run keeps the spacing all along exactly when it has no such step |
| GateTheorems.ReleaseDelayKept | bridge/eufy_run.py:397-410 | over every run without such a step an engine starts at least SESSION_RELEASE_DELAY after any other engine died, orphaned or not |
| GateTheorems.NoDelayNothingCut | bridge/eufy_run.py:402-410 | with a delay of zero no run has such a step |
| GateTheorems.SurvivorIsLive | bridge/eufy_run.py:137-149 | a surviving ticket with readable start times belongs to a gate inside `acquire` |
| GateTheorems.HeadIffNothingBlind | bridge/eufy_run.py:127-150 | the least live waiter heads its snapshot exactly when no unreadable or unidentified ticket sorts before it |
| GateTheorems.PollLeaves | bridge/eufy_run.py:127-150 | a poll leaves a file exactly when it names a running process that may still be its owner, and its snapshot lists just these in order |
| GateTheorems.HeadIffLeast | bridge/eufy_run.py:127-150 | a live waiter heads its snapshot exactly when it sorts before every published gate and no unreadable or unidentified ticket sorts before it |
| GateTheorems.WinsIffLeast | bridge/eufy_run.py:173-185 | whatever happens between the snapshot and the try, with the flock free at the try it succeeds exactly under those two conditions on the snapshot |
| GateTheorems.LeavingFreesNobody | bridge/eufy_run.py:204-208 | a gate that leaves the queue never unlocks another's session |
| GateTheorems.StoppedNeverGranted | bridge/eufy_run.py:173-173 | over every run a waiter that has been told to stop is never granted the session |
| GateTheorems.SessionEndWaits | bridge/eufy_run.py:399-410 | whether the engine ran or failed to start, the session goes from there into the release delay, still locked |
| GateTheorems.LaterArrivalSortsBehind | bridge/eufy_run.py:161-165 | a later arrival never sorts before a gate already stamped |
| GateTheorems.GrantsAheadBounded | bridge/eufy_run.py:173-185 | over every run of atomic arrivals, the waiters ahead at the end plus the grants to waiters ahead are at most the waiters ahead at the start |
| GateTheorems.NoOvertaking | bridge/eufy_run.py:173-185 | whoever wins sorts before every live gate whose ticket was there at its snapshot, whatever happens in between |
| GateTheorems.ArrivalOrderIff | bridge/eufy_run.py:161-185 | a winner was stamped first among all gates of its snapshot exactly when no earlier stamp was still unpublished then |
| GateTheorems.FairRun | bridge/eufy_run.py:173-185 | with atomic arrivals every pending snapshot lists each queued ticket, or one stamped no earlier |
| GateTheorems.ArrivalOrder | bridge/eufy_run.py:108-113 | with atomic arrivals the gate serves in arrival order over all runs |
| GateLimits.LateWriterIsOvertaken | bridge/eufy_run.py:163-172 | a ticket stamped first and written after another's snapshot is overtaken |
| GateLimits.GrantRuns | bridge/eufy_run.py:152-209 | from a quiet gate, arriving, polling, locking and clearing ends with an engine and a clean directory |
| GateLimits.KilledSupervisorBreaksTheRule | bridge/eufy_run.py:299-309 | killing a supervisor outright leads to two live engine groups |
| GateLimits.KilledSleeperCutsDelay | bridge/eufy_run.py:402-410 | after a sleeping supervisor is killed the next one starts its engine at once, so too early exactly when the delay was not over |
| GateLimits.KilledSleeperRun | bridge/eufy_run.py:402-410 | such a run from a quiet gate: the second engine starts the moment the first one has died |
| GateLimits.OrphanEndCutsDelay | bridge/eufy_run.py:299-309 | a run that kills no sleeping supervisor and still cuts the delay: an orphaned engine dies and the next one starts at that moment, alone |
| GateLimits.OrphanArises | bridge/eufy_run.py:163-172 | from any gate with all supervisors outside, four steps leave such an orphan ticket in front of everyone to come |
| GateLimits.BlindOrphanStarvesEveryone | bridge/eufy_run.py:139-148 | while the process of an unidentified orphan ticket lives, the flock is never granted again |
| Warmer.ExternalConsumerCounts | bridge/eufy_warm.py:40-61 | counts consumers that are not snapshots, minus the warmer's own, of exactly the eufy streams |
| Warmer.LiveCountIs | bridge/eufy_warm.py:51-57 | the consumers counted are those that are no objects or name no snapshot format |
| Warmer.ChooseStream | bridge/eufy_warm.py:64-71 | the current stream if it has viewers, else the one with most, the earlier name on a tie |
| Warmer.ChoiceIsMost | bridge/eufy_warm.py:64-71 | spelled out: none without demand, the current stream if active, else the most consumers, then the first name |
| Warmer.ChoiceUnique | bridge/eufy_warm.py:64-71 | the answer does not depend on dictionary order |
| Warmer.AdaptiveWarmer.StopWarmer | bridge/eufy_warm.py:147-158 | afterwards there is no warm stream and no running consumer |
| Warmer.AdaptiveWarmer.StartWarmer | bridge/eufy_warm.py:138-145 | the old consumer is gone before the new one runs, and it is the only one |
| Warmer.AdaptiveWarmer.Serve | bridge/eufy_warm.py:182-197 | one pass after a fetch acts on the choice that the consumer lists dictate |
| Warmer.DemandServed | bridge/eufy_warm.py:187-192 | a poll with demand renews the lease, leaves a running consumer of the stream alone, and starts one otherwise, a restart of the same stream only after the delay |
| Warmer.LeaseDroppedAtOnce | bridge/eufy_warm.py:165-180 | a preempt request and an API error drop the lease and leave nothing running |
| Warmer.LeaseClock | bridge/eufy_warm.py:187-188 | over any passes the lease counts from the latest poll that found demand |
| Warmer.LeaseFromLastViewer | bridge/eufy_warm.py:187-197 | from that poll on the stream stays warm until its time plus the lease, and the first quiet poll later that finds the consumer running releases it |
| Warmer.WarmInvariant | bridge/eufy_warm.py:160-200 | at each loop head stream and task are both there or both absent, one consumer runs at most, and the stream is the last one chosen |
| Warmer.QuietPass | bridge/eufy_warm.py:193-197 | a poll without demand releases the lease exactly when it has expired and the restart branch does not come first |
| Warmer.LeaseHeld | bridge/eufy_warm.py:187-197 | without viewer, marker or error the lease is never released before last_external_at + lease |
| Warmer.LeaseEnds | bridge/eufy_warm.py:193-197 | the first later poll that finds the consumer running releases it |
| Warmer.RestartOutlivesLease | bridge/eufy_warm.py:193-197 | over every run in which each poll finds the consumer ended, no sooner than the restart delay, the stream stays warm however long ago the lease expired |
| Preemption.ReportedIsCounts | bridge/eufy_warm.py:40-61 | what the controller computes from go2rtc's lists is viewers plus cancelled consumers still listed |
| PreemptionProofs.VisitWarms | bridge/eufy_warm.py:160-200 | a viewer that comes and goes leaves exactly the warm-only state, by the controller's own steps |
| PreemptionProofs.SituationArises | bridge/eufy_run.py:152-209 | from a quiet gate and an idle controller a run leads to a warm-only session with a waiting supervisor, so the theorems below are about runs that exist |
| PreemptionProofs.MarkerStays | bridge/eufy_run.py:178-189 | while a session lasts only the warmer takes the marker away, although any acquirer may clear it |
| PreemptionProofs.StaysCold | bridge/eufy_warm.py:164-191 | in a step without demand a dropped stream is not warmed again |
| PreemptionProofs.StepRank | bridge/eufy_run.py:173-189 | no calm step of any process moves the session away from its release |
| PreemptionProofs.HelpfulDecreases | bridge/eufy_warm.py:105-113 | each helpful step (hint, fetch, act, interrupt, end, wait) brings the release strictly closer |
| PreemptionProofs.SomeHelpful | bridge/eufy_warm.py:160-199 | until the release some helpful calm step other than an API failure can be taken |
| PreemptionProofs.NeverStuck | bridge/eufy_warm.py:160-199 | the same after every calm run that has not yet released the session |
| PreemptionProofs.WarmLeaseYields | bridge/eufy_run.py:186-189 | over all calm runs a warm-only session outlasts no more helpful steps than the measure before the flock leaves its holder |
| PreemptionProofs.HandedOver | bridge/eufy_run.py:173-185 | at the step that releases it the flock is free, and the least waiter's next poll and try take it exactly when no unreadable or unidentified ticket sorts before it |
| PreemptionProofs.NeverRewarmed | bridge/eufy_warm.py:164-191 | over every run without demand for it a dropped stream is not warmed again, during its session, after the release, and whoever is killed |
| PreemptionProofs.EvictedIffUnconsumed | bridge/eufy_warm.py:160-200 | a session that does not end by itself is evicted over a run exactly when go2rtc looks at a moment without any consumer of its stream |
| PreemptionProofs.WatchedSessionStays | bridge/eufy_warm.py:105-113 | so it stays when there is a viewer at those moments, however often the marker is touched |
| PreemptionProofs.RewarmedIffLingering | bridge/eufy_warm.py:40-71 | with no viewers and nothing warm the next poll warms the stream exactly when go2rtc still lists its cancelled consumer |
| PreemptionProofs.LingeringConsumerRewarms | bridge/eufy_warm.py:164-191 | a run from a warm-only session: marker taken, consumer cancelled, fetched too early, warmed again |
| PreemptionProofs.RewarmedFromQuiet | bridge/eufy_run.py:186-189 | the same from a quiet gate and an idle controller, with the waiting supervisor's own hint |
| Watchdog.SessionState.InspectLogLine | bridge/eufy_run.py:62-90 | each field after a line, by itself; the TURN statuses shadow one another |
| Watchdog.Supervise | bridge/eufy_run.py:313-350 | the loop ends with the reason of the first tick whose checks fire, or with the engine's exit |
| Watchdog.LogMeaning | bridge/eufy_run.py:49-90 | every field is a fact about the whole log: seen at all, first seen, last seen, last TURN status, last progress |
| Watchdog.OutcomeIsFirstEnd | bridge/eufy_run.py:313-350 | the reason is decided by the first event that ends the attempt, on the log read by then |
| Timeouts.TickFinds | bridge/eufy_run.py:319-350 | what a tick finds, wholly in facts of the log, in the order of the checks |
| Timeouts.TickDecides | bridge/eufy_run.py:313-350 | over whole attempts a tick without stop, rejection or busy line ends the attempt with the first clock that is due, and goes on when none is |
| Timeouts.SignalingTimesOut | bridge/eufy_run.py:332-335 | without an offer the attempt ends SIGNAL_TIMEOUT after the start, and no earlier |
| Timeouts.ConnectionTimesOut | bridge/eufy_run.py:336-340 | with an offer but no open channel it ends CONNECTION_TIMEOUT after the last TURN, offer, channel or video line, and no earlier |
| Timeouts.FirstFrameTimesOut | bridge/eufy_run.py:341-345 | with an open channel but no video it ends FIRST_FRAME_TIMEOUT after the last progress, no earlier, and not in discovery |
| Timeouts.SilentAttempt | bridge/eufy_run.py:313-350 | a silent attempt ends with the signaling timeout exactly when some tick comes that late |
| StallTimer.Engine.OnVideo | bridge/eufy_stream.py:459-482 | the first written frame is marked, later ones at most every five seconds; failures set the fatal flag |
| StallTimer.FatalIff | bridge/eufy_stream.py:459-473 | over any frames the engine fails for good exactly when one meets a dead ffmpeg or cannot be written |
| StallTimer.MarkedLineIsSeen | bridge/eufy_run.py:81-85 | a line with a marker counts as video however the logger frames it |
| StallTimer.StreamIsCovered | bridge/eufy_stream.py:475-482 | with frames at most g apart the marks are less than 5 + g apart and cover the stream |
| StallTimer.FlowingNeverStalls | bridge/eufy_run.py:346-350 | with lines relayed within d and 5 + g + d at most STALL_TIMEOUT, an attempt never ends with stream_stall |
| StallTimer.SilenceIsSeen | bridge/eufy_run.py:346-350 | when markers have stopped for STALL_TIMEOUT some check fires, and it is stream_stall unless an earlier one does |
| StallTimer.SilenceEndsAttempt | bridge/eufy_run.py:313-350 | the first tick that late ends the attempt, and with stream_stall when nothing ended it before and no earlier check can fire |
| StallTimer.DiscoveryHasNoTimer | bridge/eufy_run.py:341-350 | in discovery, once the channel is open, exactly a stop, a rejection or a busy line ends the attempt |
| Watchdog.RejectionDecides | bridge/eufy_run.py:313-327 | over whole attempts a rejection read while the loop runs becomes the reason exactly when a tick without a stop comes next |
| Watchdog.RejectionLostAtExit | bridge/eufy_run.py:313-327 | a rejection read just before the engine exits does not |
| Retry.DelayIsCappedPower | bridge/eufy_run.py:384-385 | the back-off is the power of two capped at four seconds |
| Retry.RunSessions | bridge/eufy_run.py:383-485 | the exit code, the sessions and the back-off belong to the first pass that does not call for another; 1 exactly when all sessions failed curably |
| Retry.TurnTable | bridge/eufy_run.py:412-478 | which endings call for another session and which exit code the others give |
| Retry.BusyDecides | bridge/eufy_run.py:328-331 | over whole attempts a busy line gives exit code 75, or another session in discovery |
| Retry.RejectionRetriedIff | bridge/eufy_run.py:412-478 | after such a rejection the exit code is 78 exactly then, and the supervisor retries exactly when the engine exits first and with an error |
| SnapshotCache.SnapshotCache.constructor | custom_components/eufy_nvr/snapshot.py:21-42 | an empty cache with valid limits |
| SnapshotCache.SnapshotCache.Clear | custom_components/eufy_nvr/snapshot.py:44-49 | forgets all images and cancels every registered refresh |
| SnapshotCache.SnapshotCache.Discard | custom_components/eufy_nvr/snapshot.py:51-55 | forgets one image and cancels its refresh, and nothing else |
| SnapshotCache.SnapshotCache.PurgeExpired | custom_components/eufy_nvr/snapshot.py:102-107 | removes exactly the expired entries and keeps the order of the rest |
| SnapshotCache.SnapshotCache.CachedImage | custom_components/eufy_nvr/snapshot.py:95-118 | hit, image, refresh and new state of a lookup |
| SnapshotAnswers.AnswerIsTheEntry | custom_components/eufy_nvr/snapshot.py:95-118 | a request is answered from the cache exactly when an unexpired entry is there, and with its image |
| SnapshotAnswers.LookupKeeps | custom_components/eufy_nvr/snapshot.py:102-118 | a lookup leaves exactly the unexpired entries, unchanged |
| SnapshotAnswers.LookupTouches | custom_components/eufy_nvr/snapshot.py:111-117 | an answered key moves to the end |
| SnapshotAnswers.StaleAnswerRefreshes | custom_components/eufy_nvr/snapshot.py:114-130 | a stale answer has a refresh registered afterwards, a new one if there was none; nothing else starts one |
| SnapshotCache.SnapshotCache.Refresh | custom_components/eufy_nvr/snapshot.py:120-130 | starts a task only when none is registered for the key |
| SnapshotCache.SnapshotCache.RefreshDone | custom_components/eufy_nvr/snapshot.py:132-137 | forgets its own task only |
| SnapshotCache.SnapshotCache.EvictSurplus | custom_components/eufy_nvr/snapshot.py:185-186 | pops from the front until the bound holds |
| SnapshotCache.SnapshotCache.RememberImage | custom_components/eufy_nvr/snapshot.py:179-186 | the new entry goes to the end, then the surplus goes |
| SnapshotCache.SnapshotCache.FinishGet | custom_components/eufy_nvr/snapshot.py:79-93 | what a foreground capture stores and answers |
| SnapshotAnswers.RequestsGoOn | custom_components/eufy_nvr/snapshot.py:68-93 | a request is gone with its reply, and without one goes on to the lock and then, holding it, to its own capture |
| SnapshotAnswers.CancelLeaves | custom_components/eufy_nvr/snapshot.py:72-73 | a deadline or cancellation takes the request and its lock away and nothing else |
| SnapshotAnswers.RefreshesGoOn | custom_components/eufy_nvr/snapshot.py:139-177 | where each segment leaves a refresh task and the lock |
| SnapshotCache.SnapshotCache.RefreshNeeded | custom_components/eufy_nvr/snapshot.py:146-151 | a refresh goes on exactly when a lookup would still be answered with a stale image, given that entries without image never go stale |
| SnapshotCache.SnapshotCache.FinishRefresh | custom_components/eufy_nvr/snapshot.py:152-166 | what a background capture stores |
| SnapshotCache.SnapshotCache.RecoverRefresh | custom_components/eufy_nvr/snapshot.py:167-177 | the cooldown that a timed-out refresh writes |
| SnapshotStore.RememberBounded | custom_components/eufy_nvr/snapshot.py:179-186 | after a store the bound holds, the key is last, and the others are unchanged or evicted |
| SnapshotAnswers.StoreLeaves | custom_components/eufy_nvr/snapshot.py:179-184 | a stored image is fresh for ttl and presentable for stale_ttl, a failure both for failure_ttl |
| SnapshotAnswers.FailedRefreshLeaves | custom_components/eufy_nvr/snapshot.py:154-165 | a failed refresh keeps image and expiry and rests for failure_ttl from when it began; no other entry changes |
| SnapshotAnswers.RecoveryLeaves | custom_components/eufy_nvr/snapshot.py:170-177 | a timed-out refresh does the same to an unexpired entry, from now |
| SnapshotAnswers.DiscardLeaves | custom_components/eufy_nvr/snapshot.py:51-55 | a discard removes one entry and one registration, cancels just that task, and touches nothing else |
| SnapshotAnswers.ClearLeaves | custom_components/eufy_nvr/snapshot.py:44-49 | a clear removes all entries and registrations and cancels just the registered tasks |
| SnapshotInvariant.LookInv | custom_components/eufy_nvr/snapshot.py:95-118 | a lookup by any task keeps the invariant while another is suspended in its capture |
| SnapshotInvariant.StepInv | custom_components/eufy_nvr/snapshot.py:57-186 | bound, lock, tasks, entries and captures in flight stay consistent in every step |
| SnapshotInvariant.RunInv | custom_components/eufy_nvr/snapshot.py:57-186 | the same over every interleaving |
| SnapshotTheorems.SizeBound | custom_components/eufy_nvr/snapshot.py:185-186 | at no yield point are there more than max_entries images |
| SnapshotTheorems.SingleFlight | custom_components/eufy_nvr/snapshot.py:72-80 | at most one capture runs over all keys, and it is the lock holder's |
| SnapshotTheorems.ForegroundOnlyOnMiss | custom_components/eufy_nvr/snapshot.py:73-80 | a foreground capture starts only when nothing presentable is there, and then there is no entry at all |
| SnapshotTheorems.BoundedStaleness | custom_components/eufy_nvr/snapshot.py:102-118 | every image from the cache was captured for that key and stored less than stale_ttl ago |
| SnapshotTheorems.HistoryIsCaptures | custom_components/eufy_nvr/snapshot.py:179-186 | only a capture that just delivered that image for that key enters the history |
| SnapshotTheorems.RefreshGoesOnIffStale | custom_components/eufy_nvr/snapshot.py:144-153 | a refresh that gets the lock goes on to capture exactly when a lookup of its key would still be answered with a stale image, and it starts from that image |
| SnapshotTheorems.CaptureIsAnswered | custom_components/eufy_nvr/snapshot.py:79-93 | a request that captures gets its own capture's image or error |
| SnapshotTheorems.OneRefreshPerKey | custom_components/eufy_nvr/snapshot.py:120-130 | over all runs a key has at most one live uncancelled refresh, the registered one |
| SnapshotTheorems.CallbackKeepsNewer | custom_components/eufy_nvr/snapshot.py:132-137 | a callback unregisters its own task and no other |
| SnapshotTheorems.DiscardedIsGone | custom_components/eufy_nvr/snapshot.py:51-55 | after a discard neither an entry nor an uncancelled refresh of the key is left |
| SnapshotTheorems.ClearedIsGone | custom_components/eufy_nvr/snapshot.py:44-49 | the same for every key after a clear |
| SnapshotTheorems.StaysGone | custom_components/eufy_nvr/snapshot.py:139-177 | over every run no background refresh puts the key back |
| SnapshotLimits.DeliveredIsHeld | custom_components/eufy_nvr/snapshot.py:179-186 | a delivered image holds for ttl: it stays fresh and nothing captures its key |
| SnapshotLimits.EvictsIff | custom_components/eufy_nvr/snapshot.py:179-186 | the end of a capture pushes a key out exactly when it stores a new key into a full cache whose oldest key that is |
| SnapshotLimits.HeldStep | custom_components/eufy_nvr/snapshot.py:111-118 | exactly discard, clear, such an eviction and a late cooldown end that hold early |
| SnapshotLimits.RateLimit | custom_components/eufy_nvr/snapshot.py:111-118 | after a delivery at t nothing captures the key before t + ttl, unless such a step intervenes |
| SnapshotAnswers.DeliveredIsServed | custom_components/eufy_nvr/snapshot.py:111-113 | over every uncut run each request for the key gets what the capture brought, image or failure, until it ceases to be fresh |
| SnapshotAnswers.FailedRefreshRests | custom_components/eufy_nvr/snapshot.py:154-165 | after a failed refresh the old image is answered and nothing captures the key for failure_ttl, or until it expires |
| SnapshotLimits.LruRun | custom_components/eufy_nvr/snapshot.py:112-117 | over every run the listing is the order of last touches |
| SnapshotLimits.EvictsLeastRecent | custom_components/eufy_nvr/snapshot.py:179-186 | whatever the end of a capture pushes out, delivered, empty or failed, was touched before everything that stays, and the key written stays |
| SnapshotGap.TimedOutRefreshCutsFreshness | custom_components/eufy_nvr/snapshot.py:167-177 | a run in which a timed-out refresh brings the next capture forward to t + failure_ttl |
| StreamNames.Slug | bridge/gen_go2rtc.py:37-39 | whatever the camera is called, the result matches the stream-name pattern |
| SlugWords.SlugIsWords | bridge/gen_go2rtc.py:37-39 | the slug is `eufy_` and the words of the lower-cased name joined by single underscores, or the channel when there are none |
| StreamNames.CandidateIsName | bridge/gen_go2rtc.py:112-119 | every name the collision loop tries matches the pattern |
| StreamNames.CandidatesDiffer | bridge/gen_go2rtc.py:112-119 | the names the loop tries are pairwise different |
| StreamNames.CollisionsBounded | bridge/gen_go2rtc.py:117-119 | taken candidates cannot outnumber the taken names |
| StreamNames.PickName | bridge/gen_go2rtc.py:113-119 | the loop ends within |used| rounds with the first free candidate |
| Manifest.Validate | bridge/gen_go2rtc.py:42-75 | accepts exactly the inputs that denote a manifest with distinct channels and serials, and returns it |
| Manifest.CameraMeaning | bridge/gen_go2rtc.py:51-74 | what an item has to be for a given camera to come out |
| Manifest.StatusMeaning | bridge/gen_go2rtc.py:69-74 | a status is null, or 0 or 1 as a number or spelt out |
| StreamRegistry.KeysDiffer | bridge/gen_go2rtc.py:96-100 | accepted cameras have pairwise different keys |
| StreamRegistry.SameKeyIff | bridge/gen_go2rtc.py:96-100 | across manifests two cameras share a key exactly when the station is the same and so is the serial, or without any the channel |
| StreamRegistry.AscendingIsCanonical | bridge/gen_go2rtc.py:109-109 | unique channels leave one ascending order |
| StreamRegistry.AssignAllKeeps | bridge/gen_go2rtc.py:103-123 | the registry stays injective and well formed, only grows, and renames nobody |
| StreamRegistry.AssignIdempotent | bridge/gen_go2rtc.py:103-123 | assigning again on its own output changes nothing |
| StreamRegistry.AssignOrderFree | bridge/gen_go2rtc.py:109-109 | the order in which discovery lists the cameras does not matter |
| StreamRegistry.NamesPairwiseDistinct | bridge/gen_go2rtc.py:103-123 | no two cameras of a manifest share a stream name |
| StreamRegistry.AssignCamera | bridge/gen_go2rtc.py:110-121 | one round of the loop, with its set of used names |
| StreamRegistry.NewCameraNamed | bridge/gen_go2rtc.py:111-121 | a new camera gets its slug if free, else the first free suffixed name |
| StreamRegistry.AssignNames | bridge/gen_go2rtc.py:103-123 | the loop computes the assignment and pairs each camera with its registered name |
| Generation.SameSizeIffInjective | bridge/gen_go2rtc.py:91-92 | comparing sizes is the duplicate test |
| Generation.AcceptedIsValid | bridge/gen_go2rtc.py:78-93 | exactly well-formed injective registries are accepted |
| Generation.Generator.Generate | bridge/gen_go2rtc.py:220-241 | what is on disk after a run stopped at any write, refused or complete; which runs succeed; and what these write and return, camera by camera |
| Generation.ConfigurationIsExact | bridge/gen_go2rtc.py:159-172 | for every accepted manifest the configuration lists exactly the enabled online cameras under their registered names, once each, in channel order |
| Generation.AlwaysBacked | bridge/gen_go2rtc.py:237-240 | over any runs, wherever they stop, the configuration names only registered streams |
| Generation.RerunRepairs | bridge/gen_go2rtc.py:229-241 | a run stopped anywhere and repeated on the same manifest ends as if never stopped |
| Generation.StreamIdentity | bridge/gen_go2rtc.py:229-241 | over any runs, crashes and refusals the registry is accepted again, stays injective, only grows, and renames no camera |
| Generation.SameNameIffSameCamera | bridge/gen_go2rtc.py:96-123 | over any runs a camera of a later manifest gets the name of an earlier one exactly when station and serial agree, or without serials the channel |
| Generation.EveryCameraSettles | bridge/gen_go2rtc.py:109-123 | every camera of an accepted manifest gets a name |
| Generation.StreamsAreCounted | bridge/eufy_warm.py:45-47 | every registered name is one whose consumers the warmer counts |
| Signaling.Connection.AddCand | bridge/eufy_stream.py:645-652 | the candidate is attempted, and its LAN host address kept if it is the first |
| Signaling.Connection.Flush | bridge/eufy_stream.py:698-699 | the buffered candidates are attempted in order and the buffer is emptied |
| Signaling.Connection.Handle | bridge/eufy_stream.py:654-703 | the new state after each kind of message, wherever the offer branch fails |
| Signaling.CandidatesConserved | bridge/eufy_stream.py:697-703 | candidates attempted followed by those pending are those received, in order |
| Signaling.OneAnswer | bridge/eufy_stream.py:688-699 | one answer goes out however many offers arrive, to the first, unless its handling failed before |
| Signaling.FatalIff | bridge/eufy_stream.py:682-686 | the engine fails for good exactly when it looks at an unusable offer |
| Signaling.NvrAddress | bridge/eufy_stream.py:645-652 | the address kept is that of the first host candidate received, buffered or not |
| Signaling.FirstHostIs | bridge/eufy_stream.py:647-649 | the first host candidate is the first one with an address |
| OraclePipe.Writer.Start | bridge/eufy_stream.py:322-331 | from then on objects are written |
| OraclePipe.Writer.Write | bridge/eufy_stream.py:364-372 | one object becomes one line, and nothing is written without a process |
| OraclePipe.Reader.OnData | bridge/sctp_oracle.js:146-160 | a chunk is cut into its complete lines; the rest waits |
| OraclePipe.LinesConcat | bridge/sctp_oracle.js:147-150 | reading on after the last newline gives the same lines as reading all at once |
| OraclePipe.ChunkingIsIrrelevant | bridge/sctp_oracle.js:146-160 | the effects depend on the bytes only, not on how they are cut into chunks |
| OraclePipe.JunkIsSkipped | bridge/sctp_oracle.js:151-153 | a blank or unreadable line makes no difference anywhere in the stream |
| OraclePipe.PipeConserves | bridge/sctp_oracle.js:145-160 | the operations dispatched are those written, in order and once each |
| OraclePipe.FeedAll | bridge/sctp_oracle.js:146-160 | the reader fed chunk by chunk ends where the theorems on chunks say |
| OraclePipe.Transfer | bridge/sctp_oracle.js:145-160 | a reader fed what a writer wrote, in any chunks, has done just the writer's operations and has nothing left over |
| OraclePipe.PipeNeverAhead | bridge/sctp_oracle.js:145-160 | while bytes are on their way, what was dispatched is a prefix of what was written |
| OraclePipe.LinkTables | bridge/sctp_oracle.js:11-33 | exactly links 1 to 5 and 99 survive the two tables |
| OraclePipe.PipeKeepsLinks | bridge/sctp_oracle.js:145-160 | through the whole pipe every frame keeps the channel its link names exactly when no link is zero |
| OraclePipe.CommandsArrive | bridge/eufy_stream.py:537-552 | what the engine sends, all on link 1, reaches the command channel |

## Left out

- Processes: SIGKILL is taken to work, so `_terminate_tree` is the one step `EndEngine`; the pair (process number, start time) never repeats; `flock` excludes across open files and is dropped when its holder dies.
- `SessionGate.acquire` as one method: other processes act between its accesses, so these are methods of `SessionGate.Gate` and steps of `GateProtocol`; `GateRefinement` runs one turn of the loop without interference. The lines it logs are not modelled.
- SessionGate.Gate.Queue: listing the directory and pruning it are one step of the protocol, and an I/O error while listing counts as leaving the gate; the number in a file name is a plain ASCII numeral, and neither one too large for `os.kill` nor number 0, which no generated ticket has, is modelled.
- SessionGate.Gate.Hint: a marker that cannot be written is not modelled; the gate's safety theorems do not use the marker, and `PreemptionProofs.WarmLeaseYields` needs it written.
- The Windows branches of the gate take no lock and are not part of this model.
- GateRefinement.Turn: runs one turn without interference; what other processes do in between is covered by the steps of `GateProtocol`.
- GateTheorems.ArrivalOrder: assumes stamp and publication in one step, because it is false otherwise (`GateLimits.LateWriterIsOvertaken`); `GateTheorems.ArrivalOrderIff` has no such assumption.
- GateTheorems.OneSession: assumes that no supervisor is killed while its engine is alive, because it is false otherwise (`GateLimits.KilledSupervisorBreaksTheRule`, `GateTheorems.NextEngineAloneIff`).
- GateTheorems.ReleaseDelayKept: assumes that no supervisor is killed while it sleeps out the delay and that no orphaned engine dies without somebody sleeping out a delay from then on, because it is false otherwise (`GateLimits.KilledSleeperRun`, `GateLimits.OrphanEndCutsDelay`).
- PreemptionProofs.WarmLeaseYields: supposes calm runs (no viewer joins the watched stream, the holder is not killed, go2rtc drops a cancelled warm consumer before the next fetch; without the last it is false, see `PreemptionProofs.LingeringConsumerRewarms`). It counts helpful moves, so that release in finite time still needs a scheduler that goes on making them; `PreemptionProofs.NeverStuck` shows that one can always be made. A nanosecond of waiting counts as a move.
- Warmer.AdaptiveWarmer.Serve: awaiting the cancelled consumer is part of the call; `at` is the clock after it. HTTP, JSON decoding and the controller's final stop are not modelled, and `format_name` is taken as already lower-cased.
- Watchdog.Supervise: the process's exit code and the clean-up after the loop are not part of it; lines arrive with the time at which they are read.
- StallTimer.Engine.OnVideo: only the video branch of `on_frame`; parsing of frames, byte counts and the frame log are not modelled.
- Retry.RunSessions: what each pass meets is an input; the messages printed are not modelled.
- SnapshotProtocol: the lock is granted to any waiter, while `asyncio.Lock` grants it in order, and a deadline may strike at any moment, so the model has more runs than the code; the theorems hold on all of them. `capture()` lets cancellation through.
- SnapshotLimits.RateLimit: assumes that no step cuts the image's freshness; `SnapshotLimits.HeldStep` says exactly which steps do.
- StreamNames.Slug: `str.lower` is a parameter; the theorems hold for every such function.
- Manifest.Validate: works on parsed JSON; keys that the bridge does not read are dropped, and which fault is reported is not part of the contract beyond acceptance.
- Generation.Generator.Generate: rendering the YAML text, quoting and the temporary files behind `atomic_write` are not modelled; the configuration is the list of online streams and the settings.
- `camera_key`'s JSON text: the key is a datatype, which takes `json.dumps` to be injective on those lists.
- Signaling.Connection.Handle: what an offer or candidate says is not modelled; the host address in a candidate is a parameter, and a message that makes any await fail ends the loop.
- OraclePipe.PipeConserves: JSON is a pair of functions that round trip and produce one non-blank line; base64 payloads are opaque, the stream is ASCII, and an exception from the framing library is an effect like any other.
- `fixedControlStatus`, `close_live`, discovery over the data channel, SDP rewriting, cloud login, ffmpeg, WebRTC, the framing library and the Home Assistant glue are not modelled.
