# Verification of the school server's stateful core

This project models nine stateful parts of the server and proves what they are for: two protocols, a relational
transformation, a crash-recovering migration, a semaphore with its middleware, a registry with derived indexes, an
expiring presence store with the queue that feeds it, two import loops and an idle clock. Every operation is a function
on values; where the source changes state in place, a class with the source's fields performs the same steps, and each
of its methods is proved to have the effect of that function. The theorems are then about those functions, over every
input, every run and every interleaving. `dafny verify dfyconfig.toml` checks everything.

| part | modules |
|---|---|
| Duplicate-student cleanup | `Ranking`, `Consolidation`, `MergeTables`, `MergeProofs`, `MergeOutcome`, `MergeIdentity`, `MergeRows`, `MergeTransaction` |
| Ordered publication between tasks | `Watermarks`, `OrderedDelivery`, `OrderedPublication`, `OrderedAgreement` |
| Command-update scheduler | `CommandScheduler` |
| Online index replacement | `HeartbeatIndex`, `HeartbeatMigration`, `HeartbeatClient` |
| Tile admission | `AdmissionGate`, `TileAdmission` |
| Socket registry | `SocketRegistry` |
| Staff presence | `StaffPresence`, `PresenceQueue` |
| Roster imports | `RosterImport` |
| Idle clock | `SessionIdle` |

## How things are modelled

- **Cleanup.** Tables are maps from row id to row. `CleanupClient` has one method per SQL statement. A statement that can
  violate a modelled constraint is a loop that visits its rows in any order and tests, after every row, the unique
  indexes (they are not deferrable), the row trigger if its columns are touched, and the restricting foreign key; its
  contract says exactly when some row is rejected. `permitted` and `fault` stand for any constraint outside the model. A
  `WITH ranked` expression is modelled by counting predecessors in the partition, apart from the code that decides who
  survives.
- **Ordered publication.** A state has the Redis register, a FIFO inbox and a bounded ledger per task, and accepted
  replies in flight. Losing a message, failing a reply after Redis accepted, giving up before or without acceptance, and
  the register's expiry are steps. There are two publishers: command updates (src/realtime/websocket.ts:316-338) are
  fanned out locally only once accepted, device status updates (src/routes/classpilot/devices.ts:747-775) also on
  failure; `IsStatusKey` tells their keys apart, and `KeysOfPublishers` says exactly when. Logs of decisions and fan-outs
  are kept beside the state so that a property can speak about a whole run. Revisions are natural numbers below 2^53: the
  script compares them as Lua numbers, the ledger as big integers, and on that range both agree.
- **Scheduler.** Timers and settlements are events in any order. An attempt ends as published, as failed, or as
  `CommandGone`: the broadcast-lock wrapper (src/services/storage.ts:16637-16677) resolves without running the callback
  when the command row is gone, so the retry count is not reset then. The callback is the wrapper's last step, so it
  cannot reject after the reset at src/realtime/websocket.ts:360.
- **Indexes.** A script of effects decides what each statement does: succeed, fail without effect, fail leaving an invalid
  index, or fail although it took effect. Every catalog passed through is recorded.
- **Admission.** Wait timers, abort signals and releases are events; a call's identity is its calling number.
- **Presence.** Each Redis script is one atomic operation carrying the caller's observation time and Redis's clock.

## What the proofs found

- `DrainedTaskAgrees`: messages and replies may be lost and keys evicted in any number; what decides whether a task agrees
  with the register in the end is only whether it missed the key's last accepted publication (it came by no way, or only
  before the task evicted the key), or, for a status update, whether the task had given up on a higher one. `FailedReplyLeavesTasksBehind`: when nobody listened and
  the reply failed, all tasks are behind and that revision is stale, so agreement needs the scheduler's fresh one.
- `StatusUpdateNeedsNoAcceptance`: a task may deliver its own status update although Redis never accepted it, by design of
  its publisher. `DeliveriesIncrease` holds for those keys too; acceptance holds for all others.
- `DeviceIsReachedIff`, `StaleSocketSwallowsMessage`: a broadcast with a message id marks a device as served at its first targeted socket, before it
  looks at the filter and at whether that socket is open, so a stale socket in front keeps the message from a later open
  one of the same device.
- `AuthenticatingKeeps`, `RemovingKeeps`: a latent property of the exported registry functions. They keep the indexes in
  agreement with the primary map except, exactly, when a client indexed under the empty school id is moved or removed.
  Both authentication paths exclude an empty school id (staff: src/realtime/websocket.ts:908-912), so no run reaches such
  a client, and `RunAgrees` holds.
- `ClosedConnectionIsPresent`, `LateRoleCheckLeavesPresence`: recording presence follows an awaited role check and does
  not look whether the socket is still open, so a socket that closes during the check leaves an entry until it expires.
- `FastObserverHides`: pruning uses the caller's clock, so one process 90 s ahead hides a live connection from all.
- `BadPinBlocksLaterCsvRow`: a CSV row rejected for its PIN still claims its address; the bulk loop does not do that.
- `SafeGapIsLargest`: the idle clock lags by up to a minute, so a session may end 59 minutes and 1 ms of inactivity after
  its last request, although the middleware's comment speaks of one hour.
- `DeliveryFirstIsRejected`: the cleanup's comment on statement order is right; the opposite order would be rejected.

## Model

| member | source | states |
|---|---|---|
| MergeProofs.MappingIsSound | src/index.ts:4412-4436 | keepers and duplicates are disjoint, each duplicate has one keeper, and that is the oldest mergeable one |
| MergeIdentity.MappingInColumns | src/index.ts:4412-4436 | in the table's columns: a student is folded into another exactly when both share a non-null address and a school, the keeper has a grade, the duplicate has none and no immutable history, and the keeper is the oldest such student |
| Consolidation.LoserIff | src/index.ts:4474-4497 | a ranked row is retired exactly when another active row of the same person and slot stands before it |
| Consolidation.WinnerSurvives | src/index.ts:4539-4569 | the row that retired rows point at is itself not retired, is of the same person and slot, and nothing beats it |
| Consolidation.SurvivorsAreDistinct | src/index.ts:4470-4473 | after retirement no two active rows of one slot belong to one person, read through the mapping |
| Consolidation.ReparentingKeepsIndex | src/index.ts:4499-4504 | after the ranking statement that condition holds, so the index holds after re-parenting any subset of the rows |
| Consolidation.ReparentingKeepsIndexIff | src/index.ts:4470-4473 | re-parenting alone, row by row in any order, keeps the index exactly when no two active rows of one slot belong to one person |
| MergeProofs.FreshestSessionSurvives | src/index.ts:4474-4503 | of one person's active sessions exactly one stays active, the freshest, and it belongs to the keeper |
| MergeProofs.SessionOutcome | src/index.ts:4474-4503 | row by row: which sessions end, that an ended-at time is kept, and whose each session is |
| MergeProofs.SessionIndexesHold | src/schema/classpilot.ts:71-77 | both partial unique indexes hold after the retiring statement and throughout re-parenting |
| MergeProofs.EarliestHandSurvives | src/index.ts:4507-4538 | of one person's raised hands in a session exactly the earliest stays raised |
| MergeProofs.HandOutcome | src/index.ts:4507-4538 | row by row: which hands are cleared, when, and whose they are |
| MergeProofs.HandIndexHolds | src/index.ts:1897-1901 | the raised-hand index holds after retirement and throughout re-parenting |
| MergeProofs.EarliestAnswerSurvives | src/index.ts:4539-4575 | of one person's standing answers to a poll exactly the earliest stands, and the later ones point at it |
| MergeProofs.AnswerOutcome | src/index.ts:4539-4575 | row by row: which answers are superseded, by which answer, and whose they are |
| MergeProofs.AnswerIndexHolds | src/index.ts:2345 | the standing-answer index holds after retirement and throughout re-parenting |
| MergeOutcome.LinksStayUnique | src/index.ts:4456-4469 | the device-link constraint holds after the insert and after the delete |
| MergeOutcome.DevicesAreUnited | src/index.ts:4456-4469 | a student's devices afterwards are exactly the union over the identities folded into that student |
| MergeOutcome.LinkRows | src/index.ts:4456-4469 | links the keeper already had are untouched; an inserted one spans exactly its group's first and last sighting |
| MergeOutcome.HandTriggersPass | src/index.ts:1924-1968 | both hand statements pass the parent trigger on every row, before and after the duplicates are deleted |
| MergeOutcome.AnswerTriggersPass | src/index.ts:2297-2327 | the answer statements pass the poll-response trigger, before and after the delete |
| MergeOutcome.DeliveryTriggersPass | src/index.ts:2073-2099 | after its message moved, a delivery may move too and again names its message's student |
| MergeOutcome.DeliveryFirstIsRejected | src/index.ts:4576-4589 | moving a duplicate's delivery before its message is rejected |
| MergeOutcome.MergePreservesConstraints | src/index.ts:4409-4606 | every modelled index, unique constraint and trigger condition holds after the cleanup |
| MergeOutcome.NoOrphans | src/index.ts:4590-4595 | no modelled child row names a deleted student |
| MergeOutcome.NullableOwnersMove | src/index.ts:4450-4454 | heartbeats and messages move with the mapping and change in nothing else |
| MergeOutcome.RowsAreKept | src/index.ts:4450-4589 | sessions, hands, answers, messages, deliveries and heartbeats are neither lost nor created |
| MergeOutcome.OnlyDuplicatesDisappear | src/index.ts:4412-4436 | the students deleted are exactly those with a mergeable keeper; the others are untouched |
| MergeIdentity.OthersAreUntouched | src/index.ts:4417-4434 | a student without an address, with an address nobody else in the school has, with a grade, or with immutable history is untouched |
| MergeIdentity.DisappearedHasKeeper | src/index.ts:4417-4434 | a deleted student leaves another one, unchanged, with the same address in the same school |
| MergeIdentity.ChildrenKeepTheirPerson | src/index.ts:4499-4588 | every session, hand, answer and delivery keeps an owner of the same address and school |
| MergeIdentity.NullableChildrenKeepTheirPerson | src/index.ts:4450-4454 | so does every heartbeat and message that has an owner |
| MergeIdentity.DevicesKeepTheirPerson | src/index.ts:4456-4469 | each device a person was linked to stays linked to a student of the same address and school |
| MergeIdentity.ParentsAfterCleanup | src/index.ts:4409-4606 | after the cleanup the parents of every hand, answer and delivery exist in the row's own school, and a delivery names its message's student and session |
| MergeOutcome.MergeIsIdempotent | src/index.ts:4409-4606 | a second cleanup, at any time and with any generated ids, is the identity |
| MergeTransaction.SessionStatementsAccepted | src/index.ts:4474-4504 | tables that satisfy the constraints meet the exact acceptance conditions of both session statements |
| MergeTransaction.HandStatementsAccepted | src/index.ts:4507-4538 | the same for both hand statements, index and trigger |
| MergeTransaction.AnswerStatementsAccepted | src/index.ts:4539-4575 | the same for both answer statements, index and trigger |
| MergeTransaction.DeliveryStatementAccepted | src/index.ts:4576-4588 | the same for the delivery statement after the message statement |
| MergeTransaction.AnswersReleaseDuplicates | src/index.ts:2366-2385 | the same for the final delete: no answer holds a duplicate back |
| MergeTransaction.CleanupClient.InsertKeeperLinks | src/index.ts:4456-4464 | group by group in any order, skipping conflicts with rows inserted meanwhile too: no row is rejected, and the result is the one computed from the table as it was |
| MergeTransaction.CleanupClient.RetireSessions | src/index.ts:4474-4498 | row by row in any order, neither index ever rejects, and exactly the ranked losers end |
| MergeTransaction.CleanupClient.ReparentSessions | src/index.ts:4499-4504 | row by row in any order, some row is rejected exactly when two active sessions are one person's; otherwise all duplicates' sessions move |
| MergeTransaction.CleanupClient.RetireHands | src/index.ts:4507-4533 | row by row in any order, some row is rejected exactly when the trigger rejects a losing hand; otherwise exactly the losers are cleared |
| MergeTransaction.CleanupClient.ReparentHands | src/index.ts:4534-4538 | row by row in any order, some row is rejected exactly when two raised hands of one session are one person's or the trigger rejects a moved hand |
| MergeTransaction.CleanupClient.RetireAnswers | src/index.ts:4542-4570 | row by row in any order, the index never rejects, and exactly the losers are superseded, each by its winner |
| MergeTransaction.CleanupClient.ReparentAnswers | src/index.ts:4571-4575 | row by row in any order, some row is rejected exactly when two standing answers to one poll are one person's or the trigger rejects a moved answer |
| MergeTransaction.CleanupClient.ReparentDeliveries | src/index.ts:4583-4588 | row by row in any order, some row is rejected exactly when the trigger rejects a moved delivery |
| MergeTransaction.CleanupClient.DeleteDuplicates | src/index.ts:4590-4594 | row by row in any order, some row is restricted exactly when an answer names a student to be deleted |
| MergeTransaction.CleanupClient.Statements | src/index.ts:4450-4594 | no row of any of the twelve writing statements is ever rejected by a modelled constraint, in any row order, and their joint effect |
| MergeTransaction.CleanupClient.Run | src/index.ts:4409-4606 | commits the whole cleanup or restores every table, the latter only for a constraint outside the model |
| Watermarks.LastRiseIsMark | src/realtime/ws-redis.ts:74-89 | a key's watermark is its last rise, unless forgotten since |
| Watermarks.RiseIsFaithful | src/realtime/ws-redis.ts:81-83 | raising a watermark keeps it justified by its log |
| Watermarks.ForgetIsFaithful | src/realtime/ws-redis.ts:84-87 | forgetting a key keeps the others justified |
| OrderedDelivery.RecordingKeepsOrder | src/realtime/ws-redis.ts:71-89 | the ledger lists each of its keys once, in order of first insertion |
| OrderedDelivery.RecordingPassesLimitIff | src/realtime/ws-redis.ts:84-87 | a recording exceeds 10 000 keys exactly when a new key meets a full ledger whose oldest key is empty |
| OrderedDelivery.KeysOfPublishers | src/services/classpilotRealtimeStatus.ts:398-400 | both publishers' keys are non-empty, and exactly when a command key looks like a status key |
| OrderedDelivery.DeliveryLedger.RecordOrderedDelivery | src/realtime/ws-redis.ts:74-89 | accepts exactly the newer revisions, records them and evicts the oldest key |
| OrderedDelivery.OrderedRegister.Eval | src/realtime/ws-redis.ts:57-70 | accepts exactly the newer revisions and reserves them, whoever listens; the protocol uses the same function |
| OrderedPublication.RunIsSafe | src/realtime/ws-redis.ts:57-93 | in every run registers and ledgers match their logs, nothing travels that Redis did not accept, and nothing else is delivered but a task's own status updates |
| OrderedPublication.LedgersStayLimited | src/realtime/ws-redis.ts:71-89 | in every run no task's ledger exceeds 10 000 keys |
| OrderedPublication.DeliveriesIncrease | src/realtime/ws-redis.ts:326-357 | in every run, a task's deliveries of any key strictly increase unless evicted in between, and Redis accepted each but for the task's own status updates |
| OrderedPublication.StatusUpdateNeedsNoAcceptance | src/routes/classpilot/devices.ts:757-773 | that exception is real: a status update is delivered locally without acceptance |
| OrderedPublication.AcceptancesIncrease | src/realtime/ws-redis.ts:57-70 | in every run, Redis's acceptances of a key strictly increase unless it expired, and the register holds the last |
| OrderedPublication.ExpiredKeyStartsAnew | src/realtime/ws-redis.ts:56-67 | after the register's life has ended any revision of the key is accepted |
| OrderedPublication.OwnFanOutNeedsReply | src/realtime/websocket.ts:312-338 | in every run, before each fan-out of a task's own publication came its accepted reply, or its receipt if included, or, for a status key alone, a failure; and for command keys Redis had accepted it before |
| OrderedAgreement.LosslessRunConverges | src/realtime/ws-redis.ts:326-357 | in a run that loses nothing, each task that has not itself evicted the key has the register's revision or it is on its way to it; any number of keys |
| OrderedAgreement.DrainedRunAgrees | src/realtime/ws-redis.ts:57-93 | a drained run that lost nothing leaves every task's watermark equal to the register, the last accepted revision, for every key the task has not itself evicted |
| OrderedAgreement.DrainedTaskAgrees | src/realtime/ws-redis.ts:57-93 | any run in which the key's register does not expire, with any number of keys, losses and evictions: a drained task holds the register's revision exactly when it did not miss the last accepted publication (never came, or came before the task evicted the key) and had given up on no higher one, or had given up on that very one |
| OrderedAgreement.DrainedTaskAgreesOnCommand | src/realtime/websocket.ts:316-350 | on the same runs, for command keys: exactly when it did not miss that publication |
| OrderedAgreement.FailedReplyLeavesTasksBehind | src/realtime/websocket.ts:326-350 | for any number of tasks: nobody listening and a failed reply leave all of them behind, and the same revision cannot repair it |
| CommandScheduler.SchedulingKeeps | src/realtime/websocket.ts:417-437 | scheduling keeps the invariant and leaves the update owed and provided for |
| CommandScheduler.DrainingKeeps | src/realtime/websocket.ts:382-415 | after a drain the queue is empty or two publications run, and no owed update was dropped |
| CommandScheduler.FiringKeeps | src/realtime/websocket.ts:250-259 | a timer keeps the invariant and loses no update |
| CommandScheduler.SettlingKeeps | src/realtime/websocket.ts:394-413 | the end of a publication, however it ended, keeps the invariant and loses no update |
| CommandScheduler.SettlementOutcome | src/realtime/websocket.ts:394-413 | a failure is retried up to three times, a success restores the retries, and a key is dropped exactly when it is not dirty and did not fail or had been retried three times |
| CommandScheduler.TimerOutcome | src/realtime/websocket.ts:250-259 | a timer sends its key on, queued or in flight and clean, with its retries as they were |
| CommandScheduler.FailingKeyIsStartedFourTimes | src/realtime/websocket.ts:394-413 | a new key whose publications all fail, without further calls, has been started exactly four times when the run is at rest |
| CommandScheduler.NoUpdateIsLost | src/realtime/websocket.ts:250-437 | after every run, an update scheduled and not published since is armed, queued or dirty in flight; one phase per key; the queue is exactly the queued states in order; at most two publications |
| CommandScheduler.RetryingIsBounded | src/realtime/websocket.ts:394-413 | without schedule calls a run has at most as many events as the measure says, and a key at most as many publications as its remaining attempts, four at most |
| CommandScheduler.SomethingCanHappen | src/realtime/websocket.ts:382-413 | while a state is left, some timer or settlement is enabled |
| CommandScheduler.RetryingEnds | src/realtime/websocket.ts:394-413 | a run without schedule calls that has come to rest has removed every state, within the bound |
| CommandScheduler.CommandUpdateScheduler.ScheduleCommandUpdate | src/realtime/websocket.ts:417-437 | marks a known key dirty or arms a new one |
| CommandScheduler.CommandUpdateScheduler.DrainCommandUpdates | src/realtime/websocket.ts:382-415 | the loop computes the specified drain and ends settled |
| CommandScheduler.CommandUpdateScheduler.TimerFired | src/realtime/websocket.ts:250-259 | queues the key and drains, unless queued, in flight or closed |
| CommandScheduler.CommandUpdateScheduler.PublicationSettled | src/realtime/websocket.ts:394-413 | in the states' own fields: exactly which key is dropped, and how a kept one is re-armed and its retries counted |
| CommandScheduler.CommandUpdateScheduler.CloseServer | src/realtime/websocket.ts:440-448 | empties queue and states |
| HeartbeatIndex.SwappingContinues | src/db/heartbeatHistoryIndex.ts:238-258 | while the canonical index is swapped an expected index exists at every moment |
| HeartbeatIndex.RebuildingContinues | src/db/heartbeatHistoryIndex.ts:216-258 | the same for the whole rebuild, from any leftover build |
| HeartbeatIndex.EnsureOnlineIsSafe | src/db/heartbeatHistoryIndex.ts:196-259 | for any effects: an access path is never lost, a foreign, unique or constraint-owned index never touched, the canonical one replaced only while an expected one exists, and success means expected and no build left |
| HeartbeatIndex.HealthyRunSucceeds | src/db/heartbeatHistoryIndex.ts:174-259 | with succeeding statements a run fails exactly when a foreign index stands under one of its names |
| HeartbeatIndex.HalfwayStatementsLeaveInvalid | src/db/heartbeatHistoryIndex.ts:238-240 | a drop or create that fails half-way leaves an index of that name that is not valid |
| HeartbeatMigration.MigrationOutcome | src/db/heartbeatHistoryIndex.ts:270-349 | for any effects: both replacements keep everything at every moment; a normal return has both indexes, no builds, the lock released and the timeout restored |
| HeartbeatMigration.HealthySessionOutcome | src/db/heartbeatHistoryIndex.ts:286-307 | a healthy session fails exactly for want of the lock or for a foreign index |
| HeartbeatMigration.SessionsKeep | src/db/heartbeatHistoryIndex.ts:238-240 | at every moment of any number of sessions, with any failures, locks and timeouts, the access paths and foreign indexes of the beginning are there |
| HeartbeatMigration.CrashedSessionsConverge | src/db/heartbeatHistoryIndex.ts:196-303 | after any sessions the first healthy one completes both replacements, unless a foreign index was there from the start, and every catalog of the whole history keeps the access paths |
| HeartbeatMigration.SuccessInFields | src/db/heartbeatHistoryIndex.ts:89-108 | after a normal return both indexes stand under their names, live, valid and ready over their columns, and neither build does |
| HeartbeatMigration.ForeignIndexesStay | src/db/heartbeatHistoryIndex.ts:174-194 | at every moment of any sessions, an index that is unique, constraint-owned, on another table or under another name is unchanged |
| HeartbeatMigration.AnalyzeRunsLast | src/db/heartbeatHistoryIndex.ts:305-307 | ANALYZE runs also when both indexes were there, and its failure fails the session, with lock and timeout restored |
| HeartbeatClient.MigrationClient.SwapInBuild | src/db/heartbeatHistoryIndex.ts:241-258 | performs drop, rename and verification, stopping at the first failure |
| HeartbeatClient.MigrationClient.RebuildIndex | src/db/heartbeatHistoryIndex.ts:216-258 | performs the rebuild, stopping at the first failure |
| HeartbeatClient.MigrationClient.EnsureIndexOnline | src/db/heartbeatHistoryIndex.ts:196-259 | performs the whole replacement as specified |
| AdmissionGate.AcquiringKeeps | src/middleware/classpilotTileAdmission.ts:122-178 | acquire keeps the invariant and changes no earlier verdict |
| AdmissionGate.DispatchingKeeps | src/middleware/classpilotTileAdmission.ts:102-120 | dispatch ends with no permit free beside a waiter, admits in order, changes no verdict |
| AdmissionGate.TimingOutKeeps | src/middleware/classpilotTileAdmission.ts:157-163 | a timeout removes exactly its waiter and keeps the invariant |
| AdmissionGate.AbortingKeeps | src/middleware/classpilotTileAdmission.ts:165-174 | an abort removes exactly its waiter and keeps the invariant |
| AdmissionGate.ReleasingKeeps | src/middleware/classpilotTileAdmission.ts:133-138 | a first release finds a positive count, so the clamp at zero never acts; a repeated one does nothing |
| AdmissionGate.ReleaseAdmitsHead | src/middleware/classpilotTileAdmission.ts:102-120 | a release hands its permit to the oldest waiter |
| AdmissionGate.GateHolds | src/middleware/classpilotTileAdmission.ts:76-198 | every run: exact bounded permits, no idle permit beside a waiter, first come first admitted, every call either waits or has one verdict, and the counters account for all calls across resets |
| AdmissionGate.SettledOnce | src/middleware/classpilotTileAdmission.ts:105-171 | a settled call keeps its verdict in every continuation |
| AdmissionGate.QueueFullOnlyWhenFull | src/middleware/classpilotTileAdmission.ts:141-146 | in every run, a call is turned away as QueueFull only with all permits out and the queue full |
| AdmissionGate.TileGate.DispatchWaiters | src/middleware/classpilotTileAdmission.ts:102-120 | the loop computes the specified dispatch |
| AdmissionGate.TileGate.AcquirePermit | src/middleware/classpilotTileAdmission.ts:122-178 | Aborted exactly when the signal was, Admitted with its permit out exactly when a permit was free, QueueFull exactly when none was and the queue was full, otherwise last in the queue without a verdict |
| AdmissionGate.TileGate.ReleasePermit | src/middleware/classpilotTileAdmission.ts:133-138 | the first run frees the permit or hands it to the head of the queue, any further one does nothing |
| AdmissionGate.TileGate.TimeOut | src/middleware/classpilotTileAdmission.ts:157-163 | a waiting call leaves the queue with TimedOut, any other is left alone |
| AdmissionGate.TileGate.AbortWait | src/middleware/classpilotTileAdmission.ts:165-174 | a waiting call leaves the queue with Aborted, any other is left alone |
| AdmissionGate.TileGate.TakeSnapshot | src/middleware/classpilotTileAdmission.ts:182-196 | reports the counters and resets them on request |
| TileAdmission.EventKeeps | src/middleware/classpilotTileAdmission.ts:226-309 | every event keeps each request's record in step with the gate |
| TileAdmission.PermitReturnedOnce | src/middleware/classpilotTileAdmission.ts:226-309 | in every interleaving the gate's permits are those of admitted unfinished requests; an ended admitted request returned exactly one, any other none |
| TileAdmission.FirstEndReturns | src/middleware/classpilotTileAdmission.ts:286-301 | the first of finish, close and early release returns the permit |
| TileAdmission.LateGrantReturns | src/middleware/classpilotTileAdmission.ts:275-284 | a permit granted to a request that has gone is returned when the middleware continues |
| TileAdmission.ServedIff | src/middleware/classpilotTileAdmission.ts:275-308 | an admitted request is served, its permit kept and its finisher installed, exactly when its controller, request and response are all still intact |
| TileAdmission.ServingUntilFirstEnd | src/middleware/classpilotTileAdmission.ts:286-301 | a request being served stays so, its permit out, over any events but its own finish, close or early release, and is done at the first of those |
| TileAdmission.ThrowingRouteReturns | src/middleware/classpilotTileAdmission.ts:303-308 | a route that throws returns the permit at once |
| TileAdmission.FreePermitServes | src/middleware/classpilotTileAdmission.ts:245-308 | a request that meets a free permit is served, unless its client is already gone |
| TileAdmission.RejectedIsAnswered | src/middleware/classpilotTileAdmission.ts:248-267 | a turned-away request ends without a permit, with a 503 exactly when it was not aborted |
| TileAdmission.TimedOutIsAnswered | src/middleware/classpilotTileAdmission.ts:157-163 | a request whose wait timer fires leaves the queue and is answered with a 503 |
| TileAdmission.LeavingClientAborts | src/middleware/classpilotTileAdmission.ts:240-253 | a client that goes away while waiting, by either sign, leaves the queue as aborted |
| TileAdmission.TileMiddleware.Continue | src/middleware/classpilotTileAdmission.ts:245-308 | the request is being served afterwards exactly when it was admitted, its three flags are clear and `next` did not throw; otherwise it is done and holds no permit |
| TileAdmission.TileMiddleware.FinishRequest | src/middleware/classpilotTileAdmission.ts:287-298 | runs once and releases |
| TileAdmission.TileMiddleware.ResponseClosed | src/middleware/classpilotTileAdmission.ts:241-301 | both close listeners, in order |
| SocketRegistry.AuthenticatingKeeps | src/realtime/ws-broadcast.ts:81-116 | authentication keeps the indexes in agreement exactly unless it moves a client out of the empty school's index |
| SocketRegistry.RemovingKeeps | src/realtime/ws-broadcast.ts:118-125 | removal keeps it exactly unless the client is indexed under the empty school id |
| SocketRegistry.RevokingKeeps | src/realtime/ws-broadcast.ts:332-375 | revocation keeps the agreement |
| SocketRegistry.RevokedAreGone | src/realtime/ws-broadcast.ts:326-375 | after a revocation no open socket of those students in that school is authenticated |
| SocketRegistry.RevocationInFields | src/realtime/ws-broadcast.ts:332-375 | a revocation removes and closes exactly the school's indexed authenticated students whose non-empty id is among the given ones; every other client keeps its state |
| SocketRegistry.ClosingSchoolKeeps | src/realtime/ws-broadcast.ts:313-324 | closing a school keeps the agreement and leaves none of its authenticated clients open |
| SocketRegistry.ClosingSchoolInFields | src/realtime/ws-broadcast.ts:313-324 | closing a school closes none of another school's sockets and unregisters nobody |
| SocketRegistry.SubscriptionChanges | src/realtime/ws-broadcast.ts:127-143 | a subscription comes only by subscribing as authenticated staff and goes only by unsubscribing or with the client's authority |
| SocketRegistry.SubscriptionLasts | src/realtime/ws-broadcast.ts:127-143 | over any run from a subscription to its end, an open client is among those the session's messages reach |
| SocketRegistry.RunAgrees | src/realtime/ws-broadcast.ts:66-125 | after any run each indexed socket is registered there and in that kind, each open authenticated client is in its index, no index is empty |
| SocketRegistry.IndexSelectsAll | src/realtime/ws-broadcast.ts:145-228 | a staff send through the index selects exactly what a scan of the whole registry would |
| SocketRegistry.StudentIndexSelectsAll | src/realtime/ws-broadcast.ts:230-263 | a student broadcast without a message id sends to exactly the clients a scan of the whole registry would select, filter included; with one, to some of them |
| SocketRegistry.DeviceIsReachedIff | src/realtime/ws-broadcast.ts:250-261 | with a message id, a device is sent to at most once, and exactly when it has not seen the id and its first targeted socket passes the filter and is open |
| SocketRegistry.StaleSocketSwallowsMessage | src/realtime/ws-broadcast.ts:250-261 | a run of connects, authentications and a close after which such a broadcast reaches nobody although the device has an open socket |
| SocketRegistry.WsRegistry.BroadcastToStudents | src/realtime/ws-broadcast.ts:230-263 | the loop sends to exactly those sockets and marks exactly the targeted devices as having seen the id |
| SocketRegistry.WsRegistry.AuthenticateWsClient | src/realtime/ws-broadcast.ts:81-116 | re-indexes the client as specified |
| SocketRegistry.WsRegistry.RemoveWsClient | src/realtime/ws-broadcast.ts:118-125 | removes the client as specified |
| SocketRegistry.WsRegistry.SetSessionSubscription | src/realtime/ws-broadcast.ts:127-143 | changes the subscription of authenticated staff only |
| SocketRegistry.WsRegistry.SendToStaff | src/realtime/ws-broadcast.ts:145-228 | the loop sends to exactly the open, authenticated staff clients of the school that match, in whatever order, and counts them |
| SocketRegistry.WsRegistry.CloseSocketsForSchool | src/realtime/ws-broadcast.ts:313-324 | closes and unindexes both kinds |
| SocketRegistry.WsRegistry.RevokeSockets | src/realtime/ws-broadcast.ts:343-372 | the loop removes exactly the revoked sockets from all three places and counts them |
| SocketRegistry.WsRegistry.CloseStudentSockets | src/realtime/ws-broadcast.ts:332-375 | in the clients' own fields: exactly who leaves the registry, that all others stay as they are, and how many left |
| StaffPresence.ReadIsExact | src/realtime/classpilotStaffPresence.ts:25-50 | for any log, with observers' and Redis's clocks in any order: a read finds someone exactly when some unremoved latest touch is younger than 90 s for this and every observer since, and the scope's key never expired since |
| StaffPresence.FreshMeansTouchedRecently | src/realtime/classpilotStaffPresence.ts:73-112 | with observations in order, and Redis's clock gaining less than 90 s on the observers' since each touch: exactly when some connection's latest touch, not removed, is younger than 90 s; neither pruning nor key expiry hides it |
| StaffPresence.FastObserverHides | src/realtime/classpilotStaffPresence.ts:28 | an observer 90 s ahead hides a live connection |
| StaffPresence.PresenceStore.EvalTouch | src/realtime/classpilotStaffPresence.ts:25-32 | the script's steps on the sorted set are the logged touch |
| StaffPresence.PresenceStore.EvalRemove | src/realtime/classpilotStaffPresence.ts:34-41 | the script's steps are the logged removal |
| StaffPresence.PresenceStore.EvalRead | src/realtime/classpilotStaffPresence.ts:43-50 | the script's steps are the logged read, and its result says whether any member is left |
| StaffPresence.PresenceStore.Touch | src/realtime/classpilotStaffPresence.ts:73-87 | refuses incomplete arguments; otherwise touches, and reports whether the store answered |
| StaffPresence.PresenceStore.Remove | src/realtime/classpilotStaffPresence.ts:89-99 | refuses incomplete arguments; otherwise removes, and reports whether the store answered |
| StaffPresence.PresenceStore.IsFresh | src/realtime/classpilotStaffPresence.ts:101-112 | false for incomplete arguments, unknown without an answer, else exactly the meaning of `ReadIsExact`; under the two clock conditions of `FreshMeansTouchedRecently`, whether someone was touched within 90 s |
| PresenceQueue.RunForesees | src/realtime/websocket.ts:616-670 | at every moment, applying the pending mutations leaves the connection in exactly its recorded scope |
| PresenceQueue.ClosedConnectionIsPresent | src/realtime/websocket.ts:658-670 | a drained closed connection is present exactly where something was recorded after the close |
| PresenceQueue.LateRoleCheckLeavesPresence | src/realtime/websocket.ts:918-942 | that can happen: a role check that ends after the close |
| PresenceQueue.DrainedPresenceIsRecorded | src/realtime/websocket.ts:616-670 | a drained connection makes its user look connected only in its recorded scope |
| PresenceQueue.RefreshRenewsPresence | src/realtime/websocket.ts:646-657 | once a refresh has been performed, after what was pending before it, the user reads as present for 90 s from then, until the connection leaves or moves |
| PresenceQueue.PresenceConnection.RecordStaffPresence | src/realtime/websocket.ts:631-645 | records the scope and queues leaving the previous one before joining it |
| PresenceQueue.PresenceConnection.RefreshStaffPresence | src/realtime/websocket.ts:646-657 | queues exactly one more touch, of the recorded scope, and nothing when none is recorded |
| PresenceQueue.PresenceConnection.ClearStaffPresence | src/realtime/websocket.ts:658-670 | forgets the scope and queues leaving it |
| PresenceQueue.PresenceConnection.PerformNext | src/realtime/websocket.ts:619-630 | carries out the oldest command in the shared store |
| RosterImport.FreshPinExists | src/services/classpilotPins.ts:13-24 | drawing a PIN can end while fewer than 10 000 are used |
| RosterImport.AcceptedAddressesAreFree | src/routes/students.ts:599-621 | accepted addresses are pairwise distinct, not of staff, not of an active student |
| RosterImport.AcceptedIff | src/routes/students.ts:582-621 | in the row's own fields, exactly which rows get in: names, PIN, an address if required, its domain, staff, active students, earlier rows |
| RosterImport.FirstReason | src/routes/students.ts:582-621 | each reported reason is true of its row |
| RosterImport.FourDigitsAreNumbers | src/services/classpilotPins.ts:18-22 | the PINs a row may give are exactly those the import may generate |
| RosterImport.RestoredExactlyWhenInactive | src/routes/students.ts:623-661 | an accepted row is restored exactly when its address belongs to an inactive student |
| RosterImport.EveryRowLandsOnce | src/routes/students.ts:574-662 | errors, insertions and restorations together are as many as the rows |
| RosterImport.RejectionsAreTheRejected | src/routes/students.ts:574-621 | the errors name exactly the rejected rows, in order, with their reason |
| RosterImport.JudgedRowsAreThose | src/routes/students.ts:650-661 | the inserted and the restored rows are exactly those so judged, in order, without repeats |
| RosterImport.AddressGetsIn | src/routes/students.ts:599-621 | an address gets in exactly when some row claims it, no active student has it and its first claimant's PIN is acceptable |
| RosterImport.BadPinBlocksLaterCsvRow | src/routes/students.ts:791-823 | in the CSV loop a bad PIN blocks a later good row of the same address, in the bulk loop it does not |
| RosterImport.ListsKeepAddressesUnique | src/routes/students.ts:574-662 | written together, the lists keep every address of the school unique |
| RosterImport.PinForCreate | src/routes/students.ts:327-352 | keeps an explicit PIN, generates an unused one if licensed, and fails exactly when all are used |
| RosterImport.BulkImport | src/routes/students.ts:574-662 | the loop computes the classification, with PINs aligned to insertions, and fails exactly when more than 10 000 PINs are needed |
| RosterImport.ImportCsv | src/routes/students.ts:743-860 | the same for the CSV loop and its own order of checks |
| SessionIdle.LagIsBounded | src/middleware/sessionIdleTimeout.ts:73-77 | the stored activity lags the last counted request by less than a minute |
| SessionIdle.LongGapExpires | src/middleware/sessionIdleTimeout.ts:58-71 | a gap over an hour anywhere in the run ends an elevated session |
| SessionIdle.ShortGapsNeverExpire | src/middleware/sessionIdleTimeout.ts:58-77 | gaps up to 59 minutes and a millisecond never do, and other roles never expire |
| SessionIdle.SafeGapIsLargest | src/middleware/sessionIdleTimeout.ts:58-77 | one millisecond more can |
| SessionIdle.WritesAreApart | src/middleware/sessionIdleTimeout.ts:73-77 | activity writes are at least a minute apart, and the stored time is the last write |
| SessionIdle.ExpiryIsFinal | src/middleware/sessionIdleTimeout.ts:58-71 | over any later requests, a session refused once is refused for good and never written to again, should destroying it fail |
| SessionIdle.BypassedRoutes | src/middleware/sessionIdleTimeout.ts:21-41 | exactly the nine sign-in, sign-out, sign-up and code-exchange routes pass the clock |
| SessionIdle.StaleSessionMaySignInAndOut | src/middleware/sessionIdleTimeout.ts:44-48 | whatever the session, logging in and out passes and leaves it unchanged |
| SessionIdle.SessionRecord.SessionIdleTimeout | src/middleware/sessionIdleTimeout.ts:43-79 | the middleware passes, stores or destroys as specified |

## Left out

- Schema migrations, catalog audits, route rewriting, licensing, roles, CSRF, JWT and OAuth: wide decisions that settle by cases.
- WebRTC negotiation, Socket.IO rooms, ping timers, JSON encoding, metrics and logging.
- Row ids are integers compared as such; the source compares text ids, which only matters for breaking ties.
- The cleanup's `FOR UPDATE` lock and other transactions running beside it: statements see no concurrent writer.
- The ids PostgreSQL generates for new device links are any that are unused (`FreshIds`), and the cleanup starts from tables that satisfy the modelled constraints (`Valid`), which the audits before it check.
- Tables outside the cleanup that reference students: they appear only as the injected `fault` that rolls back.
- A failing ROLLBACK is swallowed by the source and is taken to succeed.
- A revision that is no integer text is refused by the ledger; revisions here are numbers.
- The catch and finally handlers of one publication run in successive microtasks; they are one step here.
- The index-definition pattern is modelled by the column lists it accepts after white space is collapsed and case folded; the text before the column list is not.
- `createAdmissionGate` rejects limits that are not positive; the model starts from positive ones.
- A socket object is registered once, so `RegisterWsClient` is asked for a socket not yet in the registry; a destroyed session is not presented again.
- The wait timer and the abort listener of a waiter are events that may come at any moment; that they are removed is not modelled, a late one has no effect.
- That a device forgets a message id after ten seconds: the devices that have seen it are a parameter of the broadcast.
- A presence command that is lost, or that an injected store delays past its timeout, is outside `RunForesees`; its entry ages out after 90 s by `ReadIsExact`.
- Row normalisation (splitting a full name, column aliases, trimming) and PIN hashing: rows arrive normalised, with lower-case addresses and their domain.
- Generated PINs are drawn at random; the model takes any unused one. Explicit PINs are not kept apart from generated ones, in the source or here.
- Restoring and creating the listed students in the database, after the loops.
- A session store that fails to destroy an expired session: only `ExpiryIsFinal` speaks of it.
- Agreement of a task with the register after the register's 24 h life has ended: the key then starts anew, and a task may be ahead of it.
- The two databases assumed differ. The cleanup runs on tables in which several students of a school may share an address; once students_school_email_unique (src/schema/students.ts:63-66) stands there is nothing to merge, and it is the identity. The roster imports assume that index: one student per address.
