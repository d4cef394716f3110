# A verified model of the Nuvio streaming engine

Nuvio Engine streams a torrent file over a loopback HTTP server while the torrent is still
downloading. This project models the parts of it whose correctness is not visible in one
function, and proves what they guarantee over all inputs, all runs and all interleavings.

| file | what it models |
|---|---|
| `Common.dfy`, `Sorting.dfy` | 64-bit arithmetic, the division facts behind piece numbers, sorting |
| `PieceScheduler.dfy` | byte windows to piece priorities, with saturating arithmetic |
| `DemandPlan.dfy`, `DemandPlanProperties.dfy` | the plan for all readers of a torrent and its deadline order |
| `PlanWindows.dfy`, `PlanDeadlines.dfy` | which pieces a plan wants, byte by byte, and in which order they are due, in terms of the readers alone |
| `DemandSelection.dfy` | which demands of a torrent a plan is made for |
| `ScheduleInstall.dfy`, `ReaderService.dfy` | the incremental installation of a plan in the torrent handle, and what the readers get from it |
| `StreamBody.dfy` | serving a response from verified and not yet verified data |
| `StreamBridge.dfy`, `StreamBridgeSafety.dfy`, `StreamBridgeOutcomes.dfy`, `StreamBridgeEngine.dfy` | the protocol between HTTP handlers and the engine: steps, invariant, who is told what and when, and the engine's code with its loops |
| `StreamBridgeLookups.dfy`, `StreamBridgePlanning.dfy`, `StreamBridgeMembers.dfy`, `StreamBridgeEndings.dfy` | which demands lack data, where each torrent is anchored, which step adds or removes a member of the tables, and the end of a handler's demand |
| `StreamActivity.dfy` | request leases and the expiry of unused streams |
| `Progress.dfy` | the ready and contiguous byte counts of a stream |
| `ByteRanges.dfy`, `RangeStandard.dfy` | range headers and the responses built from them; where the reading differs from RFC 9110 |
| `HttpHandler.dfy` | answering one request: response header, then the body it announces |
| `EngineEvents.dfy`, `EngineOutcomes.dfy` | command and event queues of the runtime, the client actor that drains them, and how each command ends |
| `TorrentLifecycle.dfy`, `TorrentGuarantees.dfy`, `TorrentSaves.dfy` | adding, removing, saving and unloading one torrent: steps, invariant, guarantees over runs |
| `TorrentBackend.dfy`, `BackendGuarantees.dfy` | the backend's records for all torrents, its loops over them, and what each torrent sees of them |
| `DiskCache.dfy` | eviction of payload directories |
| `PieceCache.dfy` | the byte-budget cache of verified pieces |
| `AtomicFile.dfy` | crash-safe replacement of a state file |

Code that changes state is a class or a method with loops, proved against functions; the
theorems are about those functions. Concurrent parts are state machines whose steps interleave
freely: HTTP handlers step between any two steps of the engine's poll, requests end and time
passes during the expiry scan, and the torrent session executes calls and posts alerts at its own pace.

What the environment is taken to do: calls on a torrent handle succeed and metadata is present;
piece sizes of routes are not zero; stream ids are fresh; demand ids are distinct and start at 1;
a completed waiter carries data or an error; handlers leave by returning; the session executes
calls, and the engine handles alerts, in order; a finished block on disk holds the torrent's
bytes; resetting a piece's deadline also clears its first block.

Four properties one might expect do not hold as such; the model keeps the code's behaviour, gives
the input and proves the exact condition.
- An accepted add does not always protect the payload: if it finds a handle whose removal is
  already under way, the removal completes and the payload can be evicted.
  `TorrentGuarantees.AddDuringUnloadLosesPayload` gives the run and
  `TorrentGuarantees.AddProtectsPayloadIff` the condition.
- A pass of the wait loop does not always make progress: `StreamBody.EmptyCompletionSpins` gives the
  pass, `StreamBody.NoProgressIff` the condition, and `StreamBody.EmptyCompletionEndsIffStopped`
  what it means for the loop.
- A more urgent piece does not always get at least the download priority of a less urgent one: the tail
  of the file is preferred to playback. `ScheduleInstall.TailBeforePlayback` gives the pieces and
  `ScheduleInstall.PriorityFollowsClassIff` the condition.
- Range specifications are not always read as RFC 9110 has it. `RangeStandard.ReversedExample`,
  `RangeStandard.OverlongExample` and `RangeStandard.EmptySuffixExample` give inputs and
  `RangeStandard.AnswersIff` the condition.

## Model

| member | source | states |
|---|---|---|
| `PieceScheduler.ScheduleIsExact` | src/scheduler/piece_scheduler.cpp:85-131 | a schedule is refused exactly for the stated reasons; otherwise it lists every touched piece once, with the most urgent class of any window that touches it in unbounded arithmetic, sorted by class and piece |
| `PieceScheduler.BuildPieceSchedule` | src/scheduler/piece_scheduler.cpp:85-131 | the program with its running start and map returns that schedule, or that refusal, for every request |
| `PieceScheduler.AddRange` | src/scheduler/piece_scheduler.cpp:29-53 | raises exactly the pieces between the clamped ends of a range, computed without saturation, or reports the piece index overflow |
| `PieceScheduler.SaturationIsHarmless` | src/scheduler/piece_scheduler.cpp:13-18 | dividing saturated sums gives the true piece numbers unless the last one is out of range anyway, and it is out of range exactly when the true one is |
| `PieceScheduler.BlockingDemandRangeIsMaximal` | src/scheduler/piece_scheduler.cpp:57-83 | the range cut for a position holds exactly the rest of the response that lies in the piece of that position |
| `PieceScheduler.SortedUnique` | src/scheduler/piece_scheduler.cpp:124-130 | there is only one sorted schedule with given entries |
| `PlanWindows.WindowsInBytes` | src/scheduler/piece_scheduler.cpp:98-122 | byte by byte, the windows of a request are the demand, then the critical, playback and readahead bytes that follow it without gap, and the tail, each cut at the end of the file |
| `PlanWindows.ScheduleUrgency` | src/scheduler/piece_scheduler.cpp:85-131 | a piece has the smallest rank of the bytes it holds |
| `DemandPlan.BuildStreamDemandPlan` | src/scheduler/stream_demand_plan.cpp:24-134 | the program with its loops over demands, schedules and deadlines computes, for all demands and windows, the plan that `PlanWindows.PlanIsExact` describes by the bytes wanted and `PlanDeadlines.DeadlinesFollowReaders` by the readers, or the first error, exactly in the cases of `PlanWindows.PlanRefusedIff` |
| `DemandPlan.MergeSchedule` | src/scheduler/stream_demand_plan.cpp:10-20 | the loop that overwrites the combined map is the merge function |
| `DemandPlanProperties.MergeTakesMostUrgent` | src/scheduler/stream_demand_plan.cpp:10-20 | merging gives each piece the more urgent of its two classes |
| `DemandPlanProperties.DeadlineOrderTheorem` | src/scheduler/stream_demand_plan.cpp:93-126 | in every plan the deadline list has no duplicates, holds exactly the blocking and critical pieces, and names the focused reader's blockers, then other readers' newest first, then critical pieces ascending |
| `DemandPlanProperties.CriticalLimitTheorem` | src/scheduler/stream_demand_plan.cpp:37-62 | with a focused reader at most `critical_piece_limit` pieces are critical, however the window is aligned |
| `DemandPlanProperties.DeadlineBoundTheorem` | src/scheduler/stream_demand_plan.cpp:93-126 | with one-piece demands the deadline list has at most one entry per demand plus the critical limit |
| `DemandPlanProperties.BlockingDemandIsOnePiece` | src/scheduler/piece_scheduler.cpp:57-83 | demands cut for a position satisfy the assumption of the deadline bound |
| `DemandPlanProperties.PlanIgnoresOrder` | src/scheduler/stream_demand_plan.cpp:33-35 | with distinct demand ids the whole plan is the same for every order of the demands |
| `DemandPlanProperties.FocusIsNewest` | src/scheduler/stream_demand_plan.cpp:33-41 | the focused demand is the one with the greatest id |
| `PlanWindows.PlanIsExact` | src/scheduler/stream_demand_plan.cpp:24-134 | a plan lists a piece with a class if and only if the class is the most urgent with which the focus wants one of its bytes or a reader is blocked on one: the critical, playback and readahead windows after the focus, the tail, and the start of the file exactly while the focus reads within the last max(tail, size/64) bytes |
| `PlanWindows.CriticalPiecesAre` | src/scheduler/stream_demand_plan.cpp:39-62 | a piece is critical if and only if no reader is blocked on it and it holds one of the first min(window, limit × piece size) bytes after a warm focus, or a byte of a focus that is no reader |
| `PlanWindows.ColdHasNoWindow` | src/scheduler/stream_demand_plan.cpp:39-45 | the plan of a cold focused reader has no critical piece |
| `PlanWindows.ColdExactly` | src/scheduler/stream_demand_plan.cpp:39-39 | a plan is cold if and only if its newest demand is a prefetch or marked cold |
| `PlanWindows.BlockingPiecesAre` | src/scheduler/stream_demand_plan.cpp:93-117 | the blocking pieces are exactly those that hold a byte some reader is blocked on |
| `PlanWindows.HeadBytesAre` | src/scheduler/stream_demand_plan.cpp:66-75 | how much of the start of the file is wanted, with the 64-bit wrap of the sum, and that it is nothing unless the focus reads near the end |
| `PlanWindows.PlanRefusedIff` | src/scheduler/stream_demand_plan.cpp:24-134 | there is no plan if and only if the focus or a reader is malformed or a wanted piece has no 32-bit number |
| `PlanDeadlines.DeadlinesFollowReaders` | src/scheduler/stream_demand_plan.cpp:93-122 | with distinct ids every piece of the deadline list is due before the next: blocked pieces before critical ones, those of newer readers first, smaller numbers first where that is equal |
| `DemandSelection.CollectDemands` | src/torrent/libtorrent_stream_bridge.cpp:1001-1039 | the loop over all active demands selects, by ascending id, one reader for each demand of the torrent that lacks data, and only if there is none the anchor |
| `DemandSelection.SelectionIsPlannable` | src/torrent/libtorrent_stream_bridge.cpp:1001-1039 | the selection has distinct ids and a newest member, as the theorems about plans ask; it is empty if and only if nothing lacks data and there is no anchor |
| `DemandSelection.PlanServesNewest` | src/torrent/libtorrent_stream_bridge.cpp:1001-1056 | while some demand lacks data the plan is focused on the newest such demand, and is cold if and only if no block of the piece it is blocked on is finished |
| `DemandSelection.PlanServesAnchor` | src/torrent/libtorrent_stream_bridge.cpp:1026-1039 | while none does the plan serves the anchor, blocks on nothing, and is cold if and only if the anchor prefetches |
| `ScheduleInstall.TorrentSchedule.Recompute` | src/torrent/libtorrent_stream_bridge.cpp:1000-1239 | after the incremental update the handle's priorities, deadlines and first blocks are those of an installation of the stored schedule from scratch: exactly the listed pieces are due, the first at once, each next a tenth of a second later and none after more than two seconds, and every piece has the priority of its class, unlisted ones none; a failed plan changes nothing |
| `ScheduleInstall.TorrentSchedule.InstallDeadlines` | src/torrent/libtorrent_stream_bridge.cpp:1132-1189 | whether the reader jumped or not, exactly the pieces of the new order are due, in that order, a tenth of a second apart up to two seconds |
| `ScheduleInstall.TorrentSchedule.InstallFirstBlocks` | src/torrent/libtorrent_stream_bridge.cpp:1190-1213 | each piece with a deadline is pointed at the block its reader needs, and no stale setting is left |
| `ScheduleInstall.TorrentSchedule.InstallPriorities` | src/torrent/libtorrent_stream_bridge.cpp:1083-1131 | sending only changed pieces leaves the priority vector of the new classes, through changes between cold and warm |
| `ScheduleInstall.PriorityUpdates` | src/torrent/libtorrent_stream_bridge.cpp:1101-1126 | the updates sent name every piece whose priority changes, with the right value |
| `ScheduleInstall.Replay` | src/torrent/libtorrent_stream_bridge.cpp:1065-1238 | over every run of recomputations the handle agrees with an installation from scratch of the schedule stored last, with deadlines in the order of its list and the priority of each class |
| `ScheduleInstall.EarlierIsDueEarlier` | src/torrent/libtorrent_stream_bridge.cpp:125-128 | along the deadline list deadlines never decrease, strictly increase for the first twenty steps, start at 0 and never exceed 2000 |
| `ScheduleInstall.StoredLaws` | src/torrent/libtorrent_stream_bridge.cpp:106-128 | a handle that agrees with a stored schedule has its deadlines in list order and its priorities by class |
| `ScheduleInstall.UrgentGoesFirst` | src/torrent/libtorrent_stream_bridge.cpp:106-123 | blocking and critical pieces have the top priority, every listed piece is downloaded, and unlisted ones have a lower priority than any listed one |
| `ScheduleInstall.PriorityFollowsClassIff` | src/torrent/libtorrent_stream_bridge.cpp:106-123 | for all pieces of a schedule the more urgent one has at least the priority of the other if and only if they are not playback and tail, in this order |
| `ScheduleInstall.TailBeforePlayback` | src/torrent/libtorrent_stream_bridge.cpp:116-119 | the pieces for which it fails |
| `ReaderService.StoredClasses` | src/torrent/libtorrent_stream_bridge.cpp:1048-1064 | the class stored for a piece is the most urgent one with which the focus or a reader wants one of its bytes |
| `ReaderService.BlockedIsServed` | src/torrent/libtorrent_stream_bridge.cpp:1083-1180 | whatever was installed before, a piece a reader is blocked on gets the top priority and a deadline |
| `ReaderService.OnlyWantedIsDownloaded` | src/torrent/libtorrent_stream_bridge.cpp:1083-1131 | a piece is downloaded if and only if the focus or a reader wants one of its bytes |
| `ReaderService.DueEarlierIsSooner` | src/torrent/libtorrent_stream_bridge.cpp:1155-1183 | of two pieces that are due the one due earlier is the one the readers need sooner |
| `ReaderService.IdleKeepsPieces` | src/torrent/libtorrent_stream_bridge.cpp:1073-1082 | without demands an open stream keeps its pieces, none of them urgent and none due |
| `ReaderService.ClosedDropsPieces` | src/torrent/libtorrent_stream_bridge.cpp:1215-1217 | without demands and without a stream nothing stays scheduled |
| `ReaderService.FirstBlockMeans` | src/torrent/libtorrent_stream_bridge.cpp:1040-1047 | the first block of a demand is the one that holds its first byte, unless the sum wraps |
| `ReaderService.LastDemandDecides` | src/torrent/libtorrent_stream_bridge.cpp:1040-1047 | of the demands that start in one piece the last decides which block comes first |
| `ReaderService.DueStartsAtBlock` | src/torrent/libtorrent_stream_bridge.cpp:1190-1213 | a piece that is due starts at the block its reader needs first |
| `ReaderService.BlockedIsRead` | src/torrent/libtorrent_stream_bridge.cpp:1155-1189 | a piece somebody is blocked on and waits for is asked for; a read asked for before is forgotten exactly if its deadline is taken back |
| `ReaderService.RevisionTellsChange` | src/torrent/libtorrent_stream_bridge.cpp:1218-1225 | the revision stays if and only if classes, deadlines and focus stay, and never falls |
| `StreamBody.StreamRange` | src/torrent/libtorrent_stream_bridge.cpp:474-525 | for every behaviour of events, writer and payload file the output is a gap-free prefix of the range's bytes; it is the whole range if and only if the range can be addressed and nothing fails, and otherwise the place where it ended shows the stop, the full queue or the failing pass at the byte reached; the demand ranges issued are consecutive, one piece each and maximal |
| `StreamBody.ServePiece` | src/torrent/libtorrent_stream_bridge.cpp:527-630 | mixing verified and unverified data writes a prefix of the slice: all of it if and only if nothing goes wrong, otherwise up to the cursor at which the last pass shows what did |
| `StreamBody.ServedIffUndisturbed` | src/torrent/libtorrent_stream_bridge.cpp:550-628 | the wait loop serves the slice to its end exactly when no look finds a stop, an error, a short piece, nothing new before the time-out, or a writer that refuses; an unreadable payload file only means waiting for the verified piece |
| `StreamBody.ServedOrExplained` | src/torrent/libtorrent_stream_bridge.cpp:550-628 | any other ending is explained by its last pass at the cursor reached; a time-out means that no finished block could be read there |
| `StreamBody.PassMakesProgress` | src/torrent/libtorrent_stream_bridge.cpp:558-628 | each pass with a result returns, advances the cursor, or gives up the payload file for good |
| `StreamBody.NoProgressIff` | src/torrent/libtorrent_stream_bridge.cpp:566-613 | a pass makes no progress if and only if the handler is not stopped, the waiter was completed with neither data nor error, and no payload file is left to give up |
| `StreamBody.EmptyCompletionEndsIffStopped` | src/torrent/libtorrent_stream_bridge.cpp:550-628 | a handler whose waiter stays completed with neither data nor error ends if and only if it is stopped |
| `StreamBody.CarryingLoopEnds` | src/torrent/libtorrent_stream_bridge.cpp:550-628 | with results the loop always ends |
| `StreamBody.EmptyCompletionSpins` | src/torrent/libtorrent_stream_bridge.cpp:581-592 | the pass that neither returns nor advances when a completion has neither data nor an error |
| `StreamBody.PassWritesContent` | src/torrent/libtorrent_stream_bridge.cpp:558-628 | what a pass writes are the torrent's bytes at the cursor |
| `StreamBody.RunIsFinished` | src/torrent/libtorrent_stream_bridge.cpp:632-642 | the run end is the end of the finished blocks from the cursor on, cut at the limit |
| `StreamBody.SliceIsDemandRange` | src/torrent/libtorrent_stream_bridge.cpp:499-518 | the slice served and the demand range issued for it are the same bytes, without overflow |
| `StreamBody.SlicesMeet` | src/torrent/libtorrent_stream_bridge.cpp:495-518 | the slice of the next piece starts where the last one ended |
| `HttpHandler.HandleHttp` | src/torrent/libtorrent_stream_bridge.cpp:405-466 | every request is answered in one of five ways, each exactly in its case; exactly Content-Length bytes are sent if and only if the response finished, and it finishes if and only if it can be addressed and nothing fails |
| `HttpHandler.ResponseAnnounces` | src/http/http_protocol.cpp:251-276 | a response with a body range has one Content-Length, the length of that range inside the file |
| `StreamBridgeSafety.StepKeepsSound` | src/torrent/libtorrent_stream_bridge.cpp:672-731 | every step of handlers and engine, in every interleaving, keeps the invariant of the tables, queues, waiters and handlers |
| `StreamBridgeSafety.AfterEveryPoll` | src/torrent/libtorrent_stream_bridge.cpp:672-731 | after every poll of every run: one route per torrent, demands and anchors on live routes, partial blocks only for awaited pieces, every registered waiter of an active demand of its torrent |
| `StreamBridgeSafety.RetiredForever` | src/torrent/libtorrent_stream_bridge.cpp:1313-1412 | once retired, a stream never again has a route, demand, anchor or registered waiter |
| `StreamBridgeSafety.NoReaderLeftWaiting` | src/torrent/libtorrent_stream_bridge.cpp:679-724 | every waiter held or queued by a retired stream's handlers is completed or abandoned once the next poll is over, whatever happens meanwhile |
| `StreamBridgeSafety.CompletedOnce` | src/torrent/libtorrent_stream_bridge.cpp:1268-1283 | a waiter is completed at most once, for ever, and with the data of the piece it asked for |
| `StreamBridgeSafety.WaitingIsLive` | src/torrent/libtorrent_stream_bridge.cpp:860-904 | between polls, whoever still waits from before the last poll is registered for an active demand on a live route |
| `StreamBridgeSafety.StopRetires` | src/torrent/libtorrent_stream_bridge.cpp:1381-1412 | stopping retires the stream |
| `StreamBridgeSafety.RemovalRetires` | src/torrent/libtorrent_stream_bridge.cpp:1313-1352 | removing a torrent retires its stream |
| `StreamBridgeSafety.RegistrationRetires` | src/torrent/libtorrent_stream_bridge.cpp:371-398 | registering a stream retires the torrent's previous one |
| `StreamBridgeSafety.ExpiryRetires` | src/torrent/libtorrent_stream_bridge.cpp:779-803 | a poll retires a stream it expires exactly when the stream has no active demand |
| `StreamBridgeOutcomes.CompletedExactlyWhen` | src/torrent/libtorrent_stream_bridge.cpp:1241-1295 | in every run a waiting reader is completed exactly by its own read command, the delivery of its piece, or the end of its stream or torrent, with exactly the outcome that event calls for |
| `StreamBridgeOutcomes.CommandOutcome` | src/torrent/libtorrent_stream_bridge.cpp:711-724 | a read is answered at once exactly when the piece is cached or the demand, torrent or piece cannot be served |
| `StreamBridgeOutcomes.RecordsStayExact` | src/torrent/libtorrent_stream_bridge.cpp:964-998 | through every run of finished blocks and failed hashes, the record of an awaited piece says exactly which of its blocks are on disk |
| `StreamBridgeLookups.LacksDataExactly` | src/torrent/libtorrent_stream_bridge.cpp:679-724 | in every state of every run a live demand lacks data if and only if the last lookup for it, at its beginning or for its last read, found the piece missing |
| `StreamBridgeLookups.WaitingReaderLacksData` | src/torrent/libtorrent_stream_bridge.cpp:860-904 | after every poll of every run the demand of a reader that still waits lacks data if and only if the lookup for this very read found the piece missing |
| `StreamBridgePlanning.OnlyTouchedChange` | src/torrent/libtorrent_stream_bridge.cpp:678-724 | a command changes the demands of no torrent but the one it is noted for |
| `StreamBridgePlanning.StepPlans` | src/torrent/libtorrent_stream_bridge.cpp:1000-1064 | every step keeps a torrent anchored at its newest demand that lacks data, or notes it to be planned by the poll under way, as long as its plans succeed |
| `StreamBridgePlanning.AnchoredAfterEveryPoll` | src/torrent/libtorrent_stream_bridge.cpp:726-731 | after every poll of every run a torrent whose plans succeed is anchored, without prefetch, at the newest of its demands that lacks data |
| `StreamBridgePlanning.WaitingReaderIsPlanned` | src/torrent/libtorrent_stream_bridge.cpp:860-904 | a reader that waits for a piece found missing is planned for: its torrent is anchored at its demand or a newer one that lacks data |
| `StreamBridgeMembers.DemandsExactly` | src/torrent/libtorrent_stream_bridge.cpp:680-710 | in every run a demand becomes active exactly by its command on a live route that is not revoked, ends exactly with its handler or its route, and is told to give up exactly if refused or cut off |
| `StreamBridgeMembers.RoutesExactly` | src/torrent/libtorrent_stream_bridge.cpp:371-398 | in every run a stream has a route exactly from its registration until it is stopped, removed, replaced, or expires without a demand |
| `StreamBridgeMembers.RevokedExactly` | src/torrent/libtorrent_stream_bridge.cpp:1313-1330 | a torrent is revoked exactly from its removal until a stream of it is registered |
| `StreamBridgeMembers.RegistrationAnchors` | src/torrent/libtorrent_stream_bridge.cpp:371-398 | a new stream takes over its torrent: its route is live, no other demand is left, and the torrent is anchored to prefetch it |
| `StreamBridgeMembers.WaitersExactly` | src/torrent/libtorrent_stream_bridge.cpp:860-904 | in every run a waiter is registered exactly from the read that has to wait until its piece is delivered, its route ends, or it is found abandoned |
| `StreamBridgeMembers.RecordsExactly` | src/torrent/libtorrent_stream_bridge.cpp:896-903 | in every run the blocks of a piece are recorded exactly from a read that misses it until nobody waits for it |
| `StreamBridgeEndings.NoDemandOutlivesHandler` | src/torrent/libtorrent_stream_bridge.cpp:655-661 | between polls of every run a handler that has ended, and whose last command was taken, has no active demand |
| `StreamBridgeEngine.Engine.StopStream` | src/torrent/libtorrent_stream_bridge.cpp:1381-1412 | the loop over demands and their waiters ends exactly the stream's part of the tables, and a new plan is made for its torrent: the protocol's stop step |
| `StreamBridgeEngine.Engine.CancelDemandWaiters` | src/torrent/libtorrent_stream_bridge.cpp:820-841 | the nested loops complete and remove exactly the demand's registered waiters, and the block records of pieces nobody else waits for |
| `StreamBridgeEngine.Engine.RemoveTorrent` | src/torrent/libtorrent_stream_bridge.cpp:1313-1352 | the loops clear exactly the torrent's part of these tables, complete its waiters and make a new plan: the protocol's removal step |
| `StreamBridgeEngine.Engine.PruneCancelledWaiters` | src/torrent/libtorrent_stream_bridge.cpp:1297-1311 | abandoned waiters leave every line; no waiter is completed by it |
| `StreamBridgeEngine.Engine.FinishPieceRead` | src/torrent/libtorrent_stream_bridge.cpp:1241-1295 | a finished or failed read completes exactly the piece's waiters |
| `StreamBridgeEngine.Engine.Poll` | src/torrent/libtorrent_stream_bridge.cpp:672-804 | a whole poll, with its loops over commands, waiters, changed torrents and inactive streams, is a run of the protocol's steps that plans every torrent whose demands changed; a torrent whose plan succeeds is left anchored, without prefetch, at its newest demand that lacks data |
| `StreamBridgeEngine.Engine.RegisterStream` | src/torrent/libtorrent_stream_bridge.cpp:371-398 | collecting and stopping the previous streams one by one, then entering the new one, is the protocol's registration, which stops them at once |
| `StreamBridgeEngine.Engine.ExpireOne` | src/torrent/libtorrent_stream_bridge.cpp:781-803 | a stream expires exactly if the walk over the demands finds none of its own |
| `StreamBridgeEngine.Engine.Recompute` | src/torrent/libtorrent_stream_bridge.cpp:1000-1064 | the torrent is anchored at its newest demand that lacks data, if there is one |
| `StreamBridgeEngine.DrainIsRun` | src/torrent/libtorrent_stream_bridge.cpp:672-724 | draining a batch at once is a run of the protocol's single steps |
| `StreamActivity.ExpiryIsSafe` | src/torrent/libtorrent_stream_bridge.cpp:764-804 | in every run a scan removes a route exactly when no demand and no open request uses it and the whole timeout had passed since the last release when the scan read the clock |
| `StreamActivity.RouteInUseStays` | src/torrent/libtorrent_stream_bridge.cpp:411-422 | no step other than an explicit stop takes away the route of an open request |
| `StreamActivity.StepKeepsSound` | src/torrent/libtorrent_stream_bridge.cpp:137-187 | the counter is the number of open requests, and an idle record remembers the last release |
| `StreamActivity.StreamActivityRecord.ReleaseHttpRequest` | src/torrent/libtorrent_stream_bridge.cpp:149-158 | the record's release is the transition the scan reasoning is about |
| `StreamActivity.ExpireInactiveStreams` | src/torrent/libtorrent_stream_bridge.cpp:764-804 | the loop splits the routes into kept and expired ones, expired exactly if unused for the timeout and without demand; timeout 0 expires nothing |
| `Progress.ProgressFor` | src/torrent/libtorrent_stream_bridge.cpp:1458-1505 | contiguous bytes are the longest ready prefix of the file, verified bytes the number of ready bytes, contiguous ≤ verified ≤ file size, and all bytes are verified exactly when the file lies in the torrent and every overlapping piece is ready; a file that cannot be measured reports zero |
| `ByteRanges.TrimView` | src/http/byte_range.cpp:10-18 | the two loops strip all blanks at both ends |
| `ByteRanges.TrimOf` | src/http/byte_range.cpp:10-18 | trimming returns what stands between the blanks |
| `ByteRanges.ServedRangeIsInside` | src/http/byte_range.cpp:44-104 | for every header and size the accepted range satisfies start ≤ end < size and its 64-bit length does not wrap |
| `ByteRanges.HeaderMeaning` | src/http/byte_range.cpp:54-104 | however it is spaced, a header with one specification means what its two bounds say |
| `ByteRanges.OnlySuchHeaders` | src/http/byte_range.cpp:54-104 | only headers of that form select part of a resource or are unsatisfiable |
| `ByteRanges.RangeRoundTrip` | src/http/byte_range.cpp:54-104 | every range inside a resource, printed as `bytes=start-end`, parses to itself |
| `ByteRanges.PrintParses` | src/http/byte_range.cpp:20-30 | every printed 64-bit number parses to itself |
| `RangeStandard.AnswersIff` | src/http/byte_range.cpp:32-104 | for all bounds and sizes the server answers as sections 14.1.1 and 14.1.2 of RFC 9110 have it if and only if the specification is neither a suffix that is too long for 64 bits or asked of an empty resource, nor a range with exactly one of these: reversed ends, a number too long for 64 bits |
| `RangeStandard.HeaderAnswersIff` | src/http/byte_range.cpp:54-104 | the same for every header with one specification, however it is spaced |
| `RangeStandard.ReversedExample` | src/http/byte_range.cpp:94-98 | `bytes=9-3` is unsatisfiable to the server and invalid by the standard |
| `RangeStandard.OverlongExample` | src/http/byte_range.cpp:85-88 | a last position beyond 64 bits is malformed to the server and means the rest of the resource by the standard |
| `RangeStandard.EmptySuffixExample` | src/http/byte_range.cpp:37-39 | a suffix of an empty resource is unsatisfiable to the server and satisfiable by the standard |
| `ByteRanges.ResponseIsConsistent` | src/http/http_protocol.cpp:223-276 | for every request Content-Length is the length of the body range, a body is sent exactly for a GET with something to send, and the range asked for again is served again |
| `ByteRanges.BodyHeaders` | src/http/http_protocol.cpp:246-270 | a response with something to send has its length and, exactly if it is partial, a Content-Range |
| `ByteRanges.EmptyHeaders` | src/http/http_protocol.cpp:278-296 | an error or an empty resource announces length 0, and an unsatisfiable range the size of the resource |
| `ByteRanges.StatusExactly` | src/http/http_protocol.cpp:223-247 | 206 goes with a part of the resource, 200 with a blank or missing header and the whole of it, 416 with what cannot be served, 400 with what cannot be read |
| `ByteRanges.ContentRangeExactly` | src/http/http_protocol.cpp:262-270 | the one value Content-Range can have: the body range and the size in a 206, the size alone in a 416, none otherwise |
| `ByteRanges.ContentRangeTells` | src/http/http_protocol.cpp:262-270 | a printed Content-Range belongs to one range and size only |
| `EngineEvents.StepKeepsSound` | src/core/engine_runtime.cpp:443-458 | every step of runtime, backend and client keeps the invariant linking the queue to everything ever posted and the client to what it has seen |
| `EngineEvents.ConservationTheorem` | src/core/engine_runtime.cpp:443-458 | polled, queued and dropped events add up to those posted; queued sequence numbers are consecutive; the newest queued event carries the drop count |
| `EngineEvents.DrainedClientTheorem` | platform/apple/Sources/NuvioEngine/NuvioEngine.swift:359-419 | a client that has drained the queue waits for no command whose completion was posted, even if it was discarded |
| `EngineEvents.ResumedOnceTheorem` | platform/apple/Sources/NuvioEngine/NuvioEngine.swift:433-458 | each accepted command is resumed exactly once or still waits, and nothing else is resumed |
| `EngineEvents.NobodyWaitsOnDeadClient` | platform/apple/Sources/NuvioEngine/NuvioEngine.swift:550-561 | after a failure or a shutdown nobody waits |
| `EngineOutcomes.WaitsExactly` | platform/apple/Sources/NuvioEngine/NuvioEngine.swift:397-458 | in every run of a usable client a request waits if and only if it was accepted, not cancelled, and no event seen since completes it or tells of more dropped events than any before |
| `EngineOutcomes.EndsExactly` | platform/apple/Sources/NuvioEngine/NuvioEngine.swift:397-458 | in every run, for every outcome: a request ended with it if and only if its history calls for it; its event is delivered if and only if it is the first to concern the request, completes it and shows no new loss |
| `EngineOutcomes.NothingDroppedNothingLost` | platform/apple/Sources/NuvioEngine/NuvioEngine.swift:397-419 | while no event is dropped exactly those requests wait that were accepted, not cancelled, and have had no completion polled |
| `EngineOutcomes.ProcessDecides` | platform/apple/Sources/NuvioEngine/NuvioEngine.swift:397-419 | what one event does to a waiting command: lost if it shows a loss, else answered if it completes the command, else still waiting |
| `EngineEvents.EngineRuntime.Enqueue` | src/core/engine_runtime.cpp:71-89 | a command is refused while stopping or when the queue is full, else accepted under the next request id |
| `EngineEvents.EngineRuntime.WorkerTurn` | src/core/engine_runtime.cpp:224-308 | commands are processed in order, a refused one is answered by one error event, and shutdown is only decided when every accepted command has been processed |
| `EngineEvents.EngineRuntime.PostEvent` | src/core/engine_runtime.cpp:443-458 | posting is the queue's push: the oldest event makes room and is counted |
| `EngineEvents.EngineRuntime.TakeEvent` | src/core/engine_runtime.cpp:186-194 | polling returns the oldest event, if any, and removes only that |
| `EngineEvents.EngineClient.Handle` | platform/apple/Sources/NuvioEngine/NuvioEngine.swift:397-419 | the actor's turn on an event is the client transition, with its outcomes, whose closed form over runs is `EngineOutcomes.WaitsExactly` and `EngineOutcomes.EndsExactly` |
| `EngineEvents.EngineClient.FailAllPending` | platform/apple/Sources/NuvioEngine/NuvioEngine.swift:555-561 | every pending command is resumed once and none is left |
| `TorrentLifecycle.StepKeepsSound` | src/torrent/libtorrent_backend.cpp:371-427 | every step of commands, alert handlers, checkpoints, cache unloads and the session keeps the invariant linking handles, queued calls, alerts and torrent objects |
| `TorrentGuarantees.RemovedFileStaysAway` | src/torrent/libtorrent_backend.cpp:371-427 | after an accepted removal no interleaving of late alerts brings the resume file back before the torrent is sent to the session again, even with a cache unload under way |
| `TorrentGuarantees.FileDeletedOnlyOnRequest` | src/torrent/libtorrent_backend.cpp:1730-1770 | the resume file is deleted only when an explicit removal is accepted or completed |
| `TorrentGuarantees.CacheKeepsFile` | src/torrent/libtorrent_backend.cpp:942-1053 | while nobody asks for a removal, unloading by the cache keeps the file through every run |
| `TorrentGuarantees.RemovalsAreAnsweredOnce` | src/torrent/libtorrent_backend.cpp:1730-1748 | accepted removals are the answered ones plus at most one under way, and exactly the answered ones when nothing is left to do |
| `TorrentGuarantees.AddProtectsPayloadIff` | src/torrent/libtorrent_backend.cpp:1131-1146 | an accepted add protects the payload through every run without a release exactly if it did not find a handle whose removal was under way |
| `TorrentGuarantees.AddDuringUnloadLosesPayload` | src/torrent/libtorrent_backend.cpp:253-284 | the run in which an add during the cache's removal loses the payload |
| `TorrentGuarantees.HeldRun` | src/torrent/libtorrent_backend.cpp:1131-1146 | a torrent held in the session or on its way there keeps its payload |
| `TorrentSaves.FileExactly` | src/torrent/libtorrent_backend.cpp:992-1025 | after every run the resume file exists if and only if saved data of a torrent not removed on request was written and no removal was accepted or completed since |
| `TorrentSaves.SavedFileExists` | src/torrent/libtorrent_backend.cpp:992-1025 | without removals the file exists if and only if some save was written |
| `TorrentSaves.CheckpointSaves` | src/torrent/libtorrent_backend.cpp:1067-1080 | in every run a checkpoint has a save under way for a torrent that is there and not being removed |
| `TorrentSaves.UnloadSavesFirst` | src/torrent/libtorrent_backend.cpp:962-990 | in every run an unload the cache starts first waits for a save of the torrent |
| `TorrentSaves.LeavingCompletes` | src/torrent/libtorrent_backend.cpp:942-960 | unless the torrent is asked for again, an unload or removal that has begun ends with the torrent out of the session once every call is executed and every alert handled |
| `TorrentSaves.NothingLeftHalfDone` | src/torrent/libtorrent_backend.cpp:922-1053 | when every call is executed and every alert handled no add, save, unload or removal is still waited for |
| `TorrentBackend.Replay` | src/torrent/libtorrent_backend.cpp:240-427 | every run of the backend with any number of torrents is, for each torrent, the run of its own steps of the life cycle; records of different torrents never meet |
| `TorrentBackend.Backend.AddTorrent` | src/torrent/libtorrent_backend.cpp:240-330 | an add on the maps of all torrents is the life-cycle step of its own torrent and leaves every other torrent's records as they were |
| `TorrentBackend.Backend.RemoveTorrent` | src/torrent/libtorrent_backend.cpp:371-427 | refused exactly without a live handle or with a removal pending; the accepted removal is the step of its torrent alone |
| `TorrentBackend.Backend.RequestCacheUnloads` | src/torrent/libtorrent_backend.cpp:962-990 | the loop over warm torrents, in whatever order, is one unload step of each of them and nothing for the others |
| `TorrentBackend.Backend.RunCheckpoint` | src/torrent/libtorrent_backend.cpp:1067-1080 | the loop over the handles is one checkpoint step of every torrent |
| `TorrentBackend.Backend.ProtectedTorrents` | src/torrent/libtorrent_backend.cpp:1131-1146 | the loops over handles and pending contexts collect exactly the torrents that are protected |
| `TorrentBackend.Backend.EvictUnprotected` | src/torrent/libtorrent_backend.cpp:1165-1175 | evicting victims outside the protected set is the eviction step of each of them |
| `TorrentBackend.Backend.ProcessAlert` | src/torrent/libtorrent_backend.cpp:992-1053 | an alert is the handling step of its own torrent alone, and one removed event names the request that asked, or 0; saved resume data is written exactly as `TorrentSaves.FileExactly` has it |
| `BackendGuarantees.RemovedTorrentStaysAway` | src/torrent/libtorrent_backend.cpp:371-427 | with any number of torrents, a removed torrent's resume file stays away until it is sent to the session again |
| `BackendGuarantees.EveryTorrentIsAnswered` | src/torrent/libtorrent_backend.cpp:1730-1748 | each torrent's accepted removals are answered once |
| `BackendGuarantees.EveryFileExactly` | src/torrent/libtorrent_backend.cpp:992-1025 | with any number of torrents each has a resume file if and only if data of it was written and no removal of it was accepted or completed since |
| `BackendGuarantees.SavedTorrentHasFile` | src/torrent/libtorrent_backend.cpp:992-1025 | a torrent nobody removes has its file from the first save of it that is written |
| `BackendGuarantees.EveryTorrentSettles` | src/torrent/libtorrent_backend.cpp:922-1053 | nothing of a torrent is left half done when its calls are executed and its alerts handled |
| `DiskCache.EnforceTheorem` | src/cache/disk_cache_manager.cpp:244-301 | the evicted directories are the shortest prefix, by last use and id, of the unprotected ones that reaches the target, or all of them; usage ends at most at the larger of target and protected bytes |
| `DiskCache.OldestGo` | src/cache/disk_cache_manager.cpp:274-294 | for every outcome of the deletions, no directory that goes was used later than an unprotected one that could be deleted and stays |
| `DiskCache.EvictionIgnoresListing` | src/cache/disk_cache_manager.cpp:274-279 | which directories go does not depend on the order in which they are listed |
| `DiskCache.DiskCacheManager.Enforce` | src/cache/disk_cache_manager.cpp:244-301 | for every outcome of the deletions: which directories go, that a refused deletion the target still needs is reported and leaves the last usage figures, and otherwise the usage that remains after the deletions that succeeded |
| `DiskCache.DiskCacheManager.Evict` | src/cache/disk_cache_manager.cpp:280-294 | the loop stops at the first candidate at which the target is met or the deletion refused, or after the last, and fails exactly if it stopped for a refusal |
| `DiskCache.EnforceEvictsRightly` | src/cache/disk_cache_manager.cpp:244-301 | when every deletion succeeds this is the shortest prefix of the theorem above |
| `DiskCache.DiskCacheManager.Measure` | src/cache/disk_cache_manager.cpp:303-330 | usage is the saturated total of reported sizes, and protected bytes are measured afresh |
| `DiskCache.MeasureIsExact` | src/cache/disk_cache_manager.cpp:303-330 | remembered sizes that still hold give the true total |
| `PieceCache.RunTheorem` | src/cache/verified_piece_cache.cpp:21-110 | over every run the cache has distinct keys, stays within capacity, and a lookup returns the latest put or nothing |
| `PieceCache.TrimDropsShortestSuffix` | src/cache/verified_piece_cache.cpp:36-74 | making room drops exactly the shortest least recently used suffix |
| `PieceCache.PutKeepsSound` | src/cache/verified_piece_cache.cpp:36-74 | a put keeps keys distinct and the total within capacity |
| `PieceCache.PutExactly` | src/cache/verified_piece_cache.cpp:36-74 | a piece that can be stored is found at once and is the most recent, with as many of the others, in their order, as fit beside it; one that cannot leaves the others alone |
| `PieceCache.GetKeepsSound` | src/cache/verified_piece_cache.cpp:21-30 | a get keeps exactly the same entries, puts a hit in front and leaves a miss alone |
| `PieceCache.VerifiedPieceCache.FindGet` | src/cache/verified_piece_cache.cpp:21-30 | map and recency list together answer and change as the recency-ordered sequence does |
| `PieceCache.VerifiedPieceCache.Store` | src/cache/verified_piece_cache.cpp:36-74 | replacing, refusing and evicting are those of the sequence |
| `PieceCache.VerifiedPieceCache.MakeRoom` | src/cache/verified_piece_cache.cpp:47-56 | the eviction loop is the trimming of the sequence |
| `PieceCache.VerifiedPieceCache.EraseAllOf` | src/cache/verified_piece_cache.cpp:76-85 | exactly the torrent's entries leave, in whatever order the map is walked |
| `PieceCache.VerifiedPieceCache.Erase` | src/cache/verified_piece_cache.cpp:104-110 | one entry leaves map, list and byte count together |
| `AtomicFile.FileSystem.WriteFileAtomically` | src/storage/atomic_file.cpp:217-237 | at every crash point the destination holds complete contents, one of those that could be found before or the new ones, also when an earlier directory flush had failed; the write succeeds if and only if no call that matters fails, and then only the new contents can be found; when a temporary file is left behind |
| `AtomicFile.FileSystem.Replay` | src/storage/atomic_file.cpp:217-237 | over any sequence of writes, retries and crashes each write succeeds exactly when its calls do, and what is found is complete and allowed |
| `AtomicFile.AllowedMeaning` | src/storage/atomic_file.cpp:217-237 | allowed are exactly the contents written since the last success, that one included, or the first ones if none succeeded |
| `AtomicFile.FileSystem.CommitFile` | src/storage/atomic_file.cpp:134-166 | succeeds if and only if no temporary file is in the way and no call fails, and then the new contents are settled on disk; every intermediate state is safe |
| `AtomicFile.FileSystem.WriteAll` | src/storage/atomic_file.cpp:94-109 | succeeds if and only if every call made before the contents are through is merely interrupted or writes something, and then short writes add up to exactly the contents |
| `AtomicFile.FileSystem.SyncParentDirectory` | src/storage/atomic_file.cpp:111-132 | succeeds if and only if its three calls do, and then only the current destination can be found |
| `AtomicFile.RenameIsSafe` | src/storage/atomic_file.cpp:160-165 | renaming keeps every crash outcome complete because the new contents are already flushed |
| `AtomicFile.CrashTheorem` | src/storage/atomic_file.cpp:134-166 | wherever the machine crashes, the next start finds one of the allowed contents, settled |

## Left out

- libtorrent itself, including that it drops deadlines of completed pieces; it appears only as environment steps and handle settings.
- Sockets, worker threads, disconnect monitoring and TLS: the HTTP writer is a sink that may refuse.
- Exceptions from handle calls and file-system scans, and the shutdown paths of the stream bridge and the backend.
- Clocks: time is an abstract number that never decreases; check intervals and wait time-outs are inputs.
- JNI, JNA, Kotlin and C wrappers, statistics, telemetry, file selection, content types and header-name checks: they would only add easy members.
- Windows branches of the file code.
- `StreamBridge` leaves out byte ranges of demands, which `DemandSelection` and `ReaderService` treat for one recomputation, the read watchdog and the copying of partial blocks to waiters; `StreamBody` takes the blocks a waiter has seen as arbitrary input instead.
- The quiescing and focusing of warm torrents, which only decides when the cache may ask for an unload; the unload may be asked for at any time here.
- The order between calls and alerts of different torrents, which `TorrentBackend` leaves open; only the order within each torrent is kept.
- Request, sequence and revision counters do not wrap around, and HTTP request counts are unbounded.
- Torrent ids in `DiskCache` are compared as numbers in place of fixed-length strings.
- The defensive branches of the piece cache for a recency key without an entry, which its invariant excludes.
- EngineEvents.EngineRuntime.WorkerTurn: the events a backend posts during a turn are inputs, because the backend is a separate component.
- Progress.ProgressFor: piece sizes are those torrent metadata prescribes, so the branch for a piece of no size is not modelled.
- The contents of the resume file and the error event for data that cannot be written; whether it is written is an input.
- TorrentGuarantees.RemovalsAreAnsweredOnce: says nothing about how soon a removal is answered, since that is up to the session.
- StreamBridgeEngine.Engine.FinishPieceRead: storing the piece in the memory cache and clearing the outstanding read are not part of these tables; `PieceCache` models the cache, and `ScheduleInstall` the outstanding reads of a plan.
- StreamBridgeEngine.Engine.RemoveTorrent: the memory cache and the outstanding reads it also clears are not part of these tables; `PieceCache.VerifiedPieceCache.EraseAllOf` models the former.
- StreamBridgeEngine.Engine.Poll: the read watchdog between the plans and the expiry is left out, since it only repeats requests to the torrent.
