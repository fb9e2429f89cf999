# A Dafny model of the mgl realtime server's core protocols

The project models the parts of the server whose correctness depends on concurrency or on state
kept over time, and the push client's event deduper, and proves what they keep in every run.

| files | what they model |
|---|---|
| `CallModel.dfy`, `CallRuns.dfy`, `CallOutcomes.dfy` | the update closures of the call service as functions on calls, what each means for the call and its participants, and what holds in every run of a call |
| `RedisProtocol.dfy`, `UserIndex.dfy` | the Redis call store under any number of concurrent clients: WATCH, GET and EXEC of optimistic updates, Put, and queries with late index clean-up |
| `CallRecords.dfy`, `MemoryStore.dfy`, `CallService.dfy` | the in-process store: heap records that the closures assign in place, copies handed out, the index by user |
| `StoreSpec.dfy`, `StoreAgreement.dfy` | what a store owes the service, and that both stores give it |
| `HubProtocol.dfy` | the WebSocket hub's subscription setup racing with unregistration |
| `DeliveryQueue.dfy`, `DeliveryFate.dfy` | push workers over the delivery table, backoff, and what the provider's answers make of a delivery |
| `Completion.dfy`, `CompletionRaces.dfy` | message completion, exactly when it is right, and runs in which it is not |
| `Idempotency.dfy` | concurrent sends with an idempotency key |
| `RateLimiter.dfy`, `EventDeduper.dfy`, `DeviceFilter.dfy` | the fixed-window limiter, the client's bounded deduper, the iOS device filter |
| `Wrappers.dfy` | the option type they share |

A protocol is a state machine whose steps are the atomic actions of the code (one Redis command or
EXEC, one critical section, one SQL statement).  A run is any sequence of such steps; a step that is
not enabled changes nothing.  Theorems about runs quantify over all of them.  Clock readings,
generated ids, the outcome of a send and statement failures are part of the steps.  Code that works
by assignment and loops (the in-process store and its records, the limiter, the deduper, the device
filter) is modelled by classes and methods, each proved against a function or predicate about which
the properties are then proved.

Where a natural property does not hold of the code, the project has a lemma with a run that breaks
it and the exact condition under which it holds:

- A live call can lose its last active participant: `UnstaffedRunExists`, `AlwaysStaffedIff`.
- A connection that authenticates as a second user leaks the first one's subscription:
  `ReauthenticationLeaks`, `NothingLeaksIff`.
- A message can be completed too early, because enqueueing is not atomic: `EarlyCompletion`,
  `CompletedOnlyIfDoneIff`.
- A message can be left uncompleted for good, because enqueueing is not atomic, a lookup fails or a
  check is lost: `EnqueueRaceStrands`, `LookupFailureStrands`, `LastOneOutCompletes`.
- The limiter's bound per window is exceeded by readings that take effect late, for every limit but
  one: `LateReadingsExceed`, `WindowBoundAnyOrderIff`, and `WindowBound` without late readings.
- The deduper's event map can exceed its bound after a rejected event: `RejectedEventsOverflow`,
  `EventsBoundedIff`.

`docs/SERVER.md` gives other backoff delays than `mgl-realtime-server/internal/retry/retry.go`; the
model has those of the code.  First-accept-wins is not promised by the code and not stated: Accept is
legal again on an accepted or connecting call and replaces the device.

`dafny verify dfyconfig.toml` checks the project.

## Model

| member | source | states |
|---|---|---|
| `CallRecords.CallRecord.FindParticipant` | mgl-realtime-server/internal/call/types.go:78-85 | finds the first participant of the user, or none exactly when there is none |
| `CallRecords.CallRecord.Clone` | mgl-realtime-server/internal/call/types.go:87-103 | the copy has the same value and is made of new records only |
| `CallRecords.CallRecord.Accept` | mgl-realtime-server/internal/call/service.go:164-192 | assigned in place, the record ends as `ApplyAccept` of its old value; refused calls are untouched |
| `CallRecords.CallRecord.Reject` | mgl-realtime-server/internal/call/service.go:205-224 | the same for Reject: a direct call ends as rejected, a group call goes on |
| `CallRecords.CallRecord.Cancel` | mgl-realtime-server/internal/call/service.go:237-257 | the same for Cancel, which only the caller may do |
| `CallRecords.CallRecord.HangUpPending` | mgl-realtime-server/internal/call/service.go:136-141 | everyone invited or ringing is disconnected and stamped, nobody else changes |
| `CallRecords.CallRecord.HangUpOthers` | mgl-realtime-server/internal/call/service.go:183-189 | as above, but sparing the accepting user and the caller |
| `CallRecords.CallRecord.Join` | mgl-realtime-server/internal/call/service.go:268-292 | the same for Join, which appends a newcomer to a group call and refuses one in a direct call |
| `CallRecords.CallRecord.MarkConnected` | mgl-realtime-server/internal/call/service.go:302-318 | the same for MarkConnected: only the first one starts the call |
| `CallRecords.CallRecord.EndForUser` | mgl-realtime-server/internal/call/service.go:393-426 | the same for Leave and Hangup, with the count of those still active |
| `CallRecords.CallRecord.CountActive` | mgl-realtime-server/internal/call/service.go:413-419 | the count is zero exactly when nobody is accepted, connecting, connected or reconnecting |
| `CallRecords.CallRecord.Fail` | mgl-realtime-server/internal/call/service.go:336-345 | the same for Fail, which succeeds without effect on a finished call |
| `CallRecords.CallRecord.Resume` | mgl-realtime-server/internal/call/service.go:368-377 | the same for the closure of Resume, which has no terminal check |
| `CallRecords.CallRecord.TimeOut` | mgl-realtime-server/internal/call/service.go:128-143 | the same for the ring timer |
| `CallRecords.CallRecord.Do` | mgl-realtime-server/internal/call/service.go:163-436 | whichever closure runs: validates before it mutates, and keeps old participant records in place |
| `CallOutcomes.SucceedsIff` | mgl-realtime-server/internal/call/service.go:163-436 | each operation succeeds exactly when its guard on the call's fields holds (state, listed user, caller, mode), and otherwise fails with the first reason |
| `CallOutcomes.EntriesAfter` | mgl-realtime-server/internal/call/service.go:163-436 | what every operation makes of each participant: the acting user's entry gets the state, device and times the operation stands for, pending ones are hung up where it ends their ringing, all others are untouched, and only Join adds anybody |
| `CallOutcomes.CallAfter` | mgl-realtime-server/internal/call/service.go:163-436 | what every operation makes of the call itself: its state, reason and clock fields, and nothing else changes |
| `CallOutcomes.EndedBySomeStep` | mgl-realtime-server/internal/call/service.go:204-426 | every run: a call that is over was ended by a step that says who and why: cancelled by its caller, rejected by a participant of a direct call, ended by a participant, timed out while ringing, or failed; with that step's reason and clock reading |
| `CallOutcomes.OnlyListedAct` | mgl-realtime-server/internal/call/service.go:163-436 | every run: whoever changes a call is listed by it or joins a group call; only the timer and Fail name no user |
| `CallOutcomes.ResumeMeans` | mgl-realtime-server/internal/call/service.go:354-379 | Resume refuses unknown calls and strangers, returns a finished call untouched, and otherwise updates and returns it |
| `CallOutcomes.CreateRefusesIff` | mgl-realtime-server/internal/call/service.go:41-64 | Create refuses exactly the four kinds of bad input, each with its error |
| `CallOutcomes.CreateFields` | mgl-realtime-server/internal/call/service.go:44-107 | type, mode, transport, app, room, times and the caller's entry of a new call are those requested or their defaults |
| `CallOutcomes.CreateRingsAll` | mgl-realtime-server/internal/call/service.go:84-94 | the other entries are, in order and as often as requested, those of the callees other than the caller, ringing and not joined |
| `CallOutcomes.ListedIffRequested` | mgl-realtime-server/internal/call/service.go:74-94 | a new call lists exactly the caller and the requested callees |
| `CallRuns.ApplyAdvances` | mgl-realtime-server/internal/call/service.go:163-436 | any closure on a call whose StartedAt and EndedAt agree with its state: progress does not go back, a finished outcome is frozen, user and role of the roster only grow at the end, and the agreement is kept |
| `CallRuns.ApplyKeepsRoster` | mgl-realtime-server/internal/call/service.go:163-436 | any closure keeps: at most two participants in a direct call, LeftAt for those gone, nobody ringing after cancel or timeout |
| `CallRuns.ApplyKeepsDistinct` | mgl-realtime-server/internal/call/service.go:272-286 | no closure adds a user that is already listed |
| `CallRuns.RunInvariant` | mgl-realtime-server/internal/call/service.go:74-94 | every run from Create: EndedAt set iff terminal, connected iff StartedAt set and not terminal, and the roster invariant |
| `CallRuns.RunAdvances` | mgl-realtime-server/internal/call/service.go:163-436 | between any two moments of a run: progress, frozen outcome, append-only roster |
| `CallRuns.RunKeepsDistinct` | mgl-realtime-server/internal/call/service.go:84-94 | user ids stay pairwise distinct if the requested callees were |
| `CallRuns.RingingIffUnanswered` | mgl-realtime-server/internal/call/service.go:267-318 | a live call is ringing exactly when no Accept, Join or MarkConnected succeeded |
| `CallRuns.TimerEndsOnlyUnanswered` | mgl-realtime-server/internal/call/service.go:121-143 | the timer ends only calls nobody answered before |
| `CallRuns.AlwaysStaffedIff` | mgl-realtime-server/internal/call/service.go:204-224 | a live call always has an active participant iff no Reject of a group call came from its only active one |
| `CallRuns.StaffedIfOnlyInactiveReject` | mgl-realtime-server/internal/call/service.go:204-224 | in particular when only inactive participants reject |
| `CallRuns.UnstaffedRunExists` | mgl-realtime-server/internal/call/service.go:204-224 | a run that leaves a live call with nobody active |
| `CallRuns.LeaveEndsIffNobodyElse` | mgl-realtime-server/internal/call/service.go:392-426 | a group Leave ends the call iff no other participant is active |
| `CallRuns.PublishesEndedIff` | mgl-realtime-server/internal/call/service.go:204-265 | an operation publishes call.ended exactly when it moved a live call to ended, rejected, cancelled or timeout |
| `CallRuns.EndsAtMostOnce` | mgl-realtime-server/internal/call/service.go:392-436 | no run has two commits that publish call.ended |
| `CallRuns.EndsIff` | mgl-realtime-server/internal/call/service.go:121-155 | a run has such a commit iff its call ended other than by failure |
| `RedisProtocol.StoredCallIsReplay` | mgl-realtime-server/internal/call/store.go:73-137 | every interleaving of any number of clients: the stored call is the fold of exactly the committed closures, in commit order, over what Put stored |
| `RedisProtocol.UpdateCommitsOnce` | mgl-realtime-server/internal/call/store.go:73-137 | a successful Update committed once, after its start, and returns what it committed; any other left no trace |
| `RedisProtocol.DeclinedBySomeValue` | mgl-realtime-server/internal/call/store.go:95-98 | a refused Update was refused by a value the call had during its run |
| `RedisProtocol.RealTimeOrder` | mgl-realtime-server/internal/call/store.go:119-133 | an Update that committed before another began precedes it in commit order |
| `RedisProtocol.StoredCallAdvances` | mgl-realtime-server/internal/call/store.go:73-137 | progress, frozen outcome and roster order hold between any two moments of a concurrent run, a racing Resume included |
| `RedisProtocol.GiveUpMeansProgress` | mgl-realtime-server/internal/call/store.go:77-136 | giving up means at least 20 writes by others during the run, all commits if the call existed at its start |
| `RedisProtocol.TwentyAttempts` | mgl-realtime-server/internal/call/store.go:77-136 | an Update that gave up had lost exactly 20 EXECs; with fewer it can go on at every point of its loop and cannot give up |
| `RedisProtocol.LiveCallsStayIndexed` | mgl-realtime-server/internal/call/store.go:36-53 | whatever SREMs are outstanding, the index holds every live call whose Put has finished under each user it lists, and nothing foreign |
| `RedisProtocol.QueryAnswer` | mgl-realtime-server/internal/call/store.go:140-197 | a query returns only live calls of the user, all that were live and written when it listed the index, and later removes only finished ones |
| `RedisProtocol.CleanForgets` | mgl-realtime-server/internal/call/store.go:186-194 | the late SREM takes exactly the finished calls the query found out of that user's index |
| `RedisProtocol.Sift` | mgl-realtime-server/internal/call/store.go:161-184 | the loop over the fetched values splits the ids into live calls and the rest |
| `RedisProtocol.CallEndedExactlyOnce` | mgl-realtime-server/internal/call/service.go:121-155 | over all interleavings: call.ended at most once per call, never for a live or failed one, and always once the operation that ended the call has returned, whatever else is under way; it carries the stored outcome |
| `RedisProtocol.PublishedCall` | mgl-realtime-server/internal/call/service.go:145-151 | what an operation publishes when it returns: the call it returns, or for the timer the call as stored by then |
| `MemoryStore.MemoryStore.Put` | mgl-realtime-server/internal/call/memory_store.go:29-44 | the record given is stored, other calls are untouched, the index stays complete (and exact for a new id) |
| `MemoryStore.MemoryStore.Get` | mgl-realtime-server/internal/call/memory_store.go:46-57 | a detached copy of the stored call, or not found |
| `MemoryStore.MemoryStore.Update` | mgl-realtime-server/internal/call/memory_store.go:59-81 | stores the specified effect, answers the specified answer with a detached copy, changes no other call, and nothing on an error |
| `MemoryStore.MemoryStore.ActiveCallIDsForUser` | mgl-realtime-server/internal/call/memory_store.go:83-97 | each indexed call that is live, once |
| `MemoryStore.MemoryStore.Index` | mgl-realtime-server/internal/call/memory_store.go:36-42 | the loop adds the call under each participant and removes nothing |
| `MemoryStore.IndexedLive` | mgl-realtime-server/internal/call/memory_store.go:90-95 | with a complete and exact index those are the live calls that list the user |
| `CallService.Service.Invite` | mgl-realtime-server/internal/call/service.go:74-94 | the caller, then the callees in order without the caller |
| `CallService.Service.Create` | mgl-realtime-server/internal/call/service.go:40-119 | refuses as specified or stores the new call and returns a detached copy |
| `CallService.Service.Resume` | mgl-realtime-server/internal/call/service.go:354-379 | read, checks, update with ignored result, second read, as specified |
| `CallService.Serve` | mgl-realtime-server/internal/call/memory_store.go:29-97 | any sequence of requests: the specified calls are stored and, at the end, every reply still says what was specified when it was given |
| `StoreSpec.ReconnectByParts` | mgl-realtime-server/internal/call/service.go:354-379 | Resume as the two reads and the update it consists of |
| `StoreAgreement.UpdateSolo` | mgl-realtime-server/internal/call/store.go:73-137 | an undisturbed WATCH, GET, EXEC has the specified effect and answer |
| `StoreAgreement.PutSolo` | mgl-realtime-server/internal/call/store.go:36-53 | an undisturbed Put stores the call and indexes it for everyone |
| `StoreAgreement.QuerySolo` | mgl-realtime-server/internal/call/store.go:140-197 | an undisturbed query answers exactly the live calls that list the user |
| `StoreAgreement.RedisServes` | mgl-realtime-server/internal/call/store.go:36-197 | any sequence of requests, with clean-ups arriving at any time: the specified calls and answers |
| `StoreAgreement.BothStores` | mgl-realtime-server/internal/call/memory_store.go:29-97 | after the same requests both stores hold the same calls and gave the same answers |
| `StoreAgreement.StoredCallsAreRuns` | mgl-realtime-server/internal/call/service.go:163-436 | every stored call is what a request created under its id and then exactly the successful operations requested on it, in order, so the run invariants hold in either store |
| `HubProtocol.SubscriptionsConserved` | mgl-realtime-server/internal/signaling/websocket/hub.go:154-254 | every interleaving: a subscription ever opened is in exactly one of setup, installed, teardown, closed once |
| `HubProtocol.SlotsFollowBindings` | mgl-realtime-server/internal/signaling/websocket/hub.go:200-254 | with authentication before unregistration on each connection: slots only for bound users, a slot for every bound connection past setup, no rollback, no empty slot taken |
| `HubProtocol.UnusedSlotsIff` | mgl-realtime-server/internal/signaling/websocket/hub.go:154-182 | at every moment: a user without an open connection has a slot iff a closed connection once bound to it left as another user or as none; so if closed connections were bound only to the non-empty user they left as, every slot is in use |
| `HubProtocol.NothingLeaksIff` | mgl-realtime-server/internal/signaling/websocket/hub.go:154-182 | when all connections are gone nothing is left open or bound iff each was bound only to the user it left as, with a non-empty id |
| `HubProtocol.ReauthenticationLeaks` | mgl-realtime-server/internal/signaling/websocket/hub.go:378-380 | a run in which a connection authenticates as two users and leaves a subscription open |
| `DeliveryQueue.OneOwner` | mgl-realtime-server/internal/repository/delivery.go:44-73 | a delivery in sending is held by at most one worker |
| `DeliveryQueue.TerminalIsFinal` | mgl-realtime-server/internal/repository/delivery.go:75-99 | accepted and failed rows never change, although the updates have no status guard |
| `DeliveryQueue.SentAtMostLimit` | mgl-realtime-server/internal/queue/worker.go:113-215 | each delivery is claimed and sent at most max(1, maxAttempt) times |
| `DeliveryQueue.ClaimsBounded` | mgl-realtime-server/internal/queue/worker.go:102-111 | a run of any length claims at most that many times the number of rows |
| `DeliveryQueue.RetriesAreSpaced` | mgl-realtime-server/internal/retry/retry.go:7-24 | attempt n+1 is claimed only 5 s, 30 s, 5 min or 30 min (by n) after attempt n failed, by the readings taken at the two; readings of different workers may take effect out of order |
| `DeliveryQueue.DeferredReadyAt` | mgl-realtime-server/internal/repository/delivery.go:48-55 | and it can be claimed from the end of its backoff on, by any ready worker |
| `DeliveryQueue.PendingIsClaimable` | mgl-realtime-server/internal/repository/delivery.go:48-55 | a new delivery can be claimed at once |
| `DeliveryFate.StatusFollowsProvider` | mgl-realtime-server/internal/queue/worker.go:125-215 | a delivery is attempted again only after a transient failure with attempts left, and its status fits the outcome of its last attempt; so one the provider took is never sent again |
| `DeliveryFate.AcceptedWasTaken` | mgl-realtime-server/internal/queue/worker.go:154-185 | an accepted delivery was taken by the provider on its last attempt |
| `DeliveryFate.SendingIsHeldIff` | mgl-realtime-server/internal/queue/worker.go:113-215 | a delivery in sending is held by exactly one worker iff no crash of its holder and no lost update of its row orphaned it |
| `DeliveryFate.ClaimsCanBeLost` | mgl-realtime-server/internal/queue/worker.go:113-186 | every claim can be orphaned, by a crash at any time or by a lost update |
| `DeliveryFate.OrphanedForGood` | mgl-realtime-server/internal/repository/delivery.go:44-58 | an orphaned delivery stays in sending and is never claimed again |
| `Completion.SoundStep` | mgl-realtime-server/internal/repository/delivery.go:101-118 | one step of the queue keeps "completed only if all deliveries are terminal" iff it neither inserts a row into a completed message nor completes one that has an open row |
| `Completion.OpenRowsAreLate` | mgl-realtime-server/internal/queue/worker.go:217-230 | an open row under a completion that has already counted was inserted after that count |
| `Completion.CompletedOnlyIfDoneIff` | mgl-realtime-server/internal/queue/worker.go:217-230 | every run, with any failures: a message is throughout completed only when all its deliveries are terminal iff no row is inserted into it once completed, and none is inserted between a count and the completion resting on it and still open then |
| `Completion.CompletedOnlyIfDone` | mgl-realtime-server/internal/service/message.go:283-286 | so it holds in every run in which no row is claimed before the queued mark of its message |
| `Completion.AttendStep` | mgl-realtime-server/internal/queue/worker.go:113-230 | one step leaves a message done, uncompleted and unchecked iff it was so before and no row of it is inserted, or this step abandons it |
| `Completion.UnattendedIff` | mgl-realtime-server/internal/queue/worker.go:113-230 | every run, whether or not enqueueing succeeded: a message is left so iff some step abandoned it, by writing the queued mark over a done and unchecked message, failing its last open row without a check, or losing its only check, and no row was inserted since |
| `Completion.LastOneOutCompletes` | mgl-realtime-server/internal/queue/worker.go:217-230 | every run, with any failures: a message whose deliveries are all terminal and that nobody is checking is completed iff no step abandoned it since its last row was inserted |
| `Completion.AbandonedForGood` | mgl-realtime-server/internal/queue/worker.go:217-230 | an abandoned message is not completed as long as no row of it is inserted |
| `Completion.AbandonedOnceQueued` | mgl-realtime-server/internal/service/message.go:283-286 | and never once its queued mark is written |
| `Completion.QueuedFirstCompletes` | mgl-realtime-server/internal/queue/worker.go:217-230 | when no row is claimed before its message is queued and nothing fails, it is completed, whoever finished last |
| `CompletionRaces.EnqueueRaceStrands` | mgl-realtime-server/internal/service/message.go:283-286 | a run without failures in which the late queued mark leaves a done message uncompleted for good |
| `CompletionRaces.EarlyCompletion` | mgl-realtime-server/internal/repository/delivery.go:25-41 | a run without failures that completes a message before its last row is inserted |
| `CompletionRaces.LookupFailureStrands` | mgl-realtime-server/internal/queue/worker.go:114-123 | a failed lookup skips the completion check and leaves the message uncompleted, although it was queued first |
| `Idempotency.OneMessagePerKey` | mgl-realtime-server/internal/repository/message.go:31-84 | every interleaving: one committed message per key, every answer without error names it, at most one isNew, at most one batch enqueued |
| `Idempotency.EverySendIsTold` | mgl-realtime-server/internal/repository/message.go:31-84 | a send is told its message is new iff it is the one that committed and its acknowledgement was not lost; it fails iff that was lost or it was aborted; who is told of a duplicate is not the winner |
| `Idempotency.EveryKeyHasWinner` | mgl-realtime-server/internal/repository/message.go:53-83 | every committed key has its winner, told so unless the acknowledgement was lost |
| `Idempotency.NeverStuck` | mgl-realtime-server/internal/service/message.go:139-179 | a send without an answer can go on, or waits for one that can commit; one that was told so can enqueue |
| `Idempotency.SendSolo` | mgl-realtime-server/internal/repository/message.go:53-83 | an undisturbed send under a new key commits its message and enqueues it |
| `Idempotency.ResendSolo` | mgl-realtime-server/internal/repository/message.go:39-48 | a later send under that key is told of the duplicate |
| `Idempotency.LoserFindsWinner` | mgl-realtime-server/internal/repository/message.go:62-74 | after a unique violation the lookup finds the winner's row |
| `RateLimiter.Limiter.constructor` | mgl-realtime-server/internal/ratelimit/limiter.go:21-33 | the given limit and window, or the defaults, and no bucket |
| `RateLimiter.Limiter.Allow` | mgl-realtime-server/internal/ratelimit/limiter.go:35-49 | answer and new buckets as specified |
| `RateLimiter.Limiter.Cleanup` | mgl-realtime-server/internal/ratelimit/limiter.go:52-61 | the loop drops exactly the expired buckets |
| `RateLimiter.WindowBound` | mgl-realtime-server/internal/ratelimit/limiter.go:35-49 | at most 2 * limit - 1 allowed calls of a key in any closed interval of one window, if the limit is one or no call of the key is counted in a bucket that a later clock reading opened |
| `RateLimiter.WindowBoundInOrder` | mgl-realtime-server/internal/ratelimit/limiter.go:35-49 | in particular if the readings that concern the key take effect in order |
| `RateLimiter.LateReadingsExceed` | mgl-realtime-server/internal/ratelimit/limiter.go:36-37 | for every limit from two, a run with a late reading that exceeds the bound |
| `RateLimiter.WindowBoundAnyOrderIff` | mgl-realtime-server/internal/ratelimit/limiter.go:35-49 | in whatever order readings take effect, the bound holds iff the limit is one |
| `RateLimiter.WindowBoundReached` | mgl-realtime-server/internal/ratelimit/limiter.go:35-49 | that bound is reached by some run in order, for every limit and window |
| `RateLimiter.BucketBound` | mgl-realtime-server/internal/ratelimit/limiter.go:44-47 | no bucket allows more than limit calls, in whatever order the readings of Allow take effect |
| `RateLimiter.DeniedIffFull` | mgl-realtime-server/internal/ratelimit/limiter.go:39-48 | a call is denied exactly if the last bucket of its key is still running and has allowed limit calls |
| `RateLimiter.CleanupIsInvisible` | mgl-realtime-server/internal/ratelimit/limiter.go:52-61 | Cleanup calls inserted anywhere change no decision, if none takes effect before an Allow that read the clock earlier |
| `EventDeduper.Deduper.Accept` | mgl-push-client/lib/src/events/event_deduper.dart:18-47 | answer and both maps as specified; both within the bound after an accepted event |
| `EventDeduper.Deduper.Trim` | mgl-push-client/lib/src/events/event_deduper.dart:55-60 | keeps maxEntries entries and drops none newer than one it keeps |
| `EventDeduper.DuplicateEventRejected` | mgl-push-client/lib/src/events/event_deduper.dart:27-30 | whatever the clock does, an event id recorded with reading t is rejected unless an event since read a time after t + ttl or maxEntries other ids were recorded with readings from t on |
| `EventDeduper.DuplicateRingRejected` | mgl-push-client/lib/src/events/event_deduper.dart:32-42 | the same for the call id of ringing events |
| `EventDeduper.DuplicateEventRejectedInOrder` | mgl-push-client/lib/src/events/event_deduper.dart:24-30 | with a strictly increasing clock: rejected at every time up to t + ttl unless maxEntries other ids were recorded since |
| `EventDeduper.DuplicateRingRejectedInOrder` | mgl-push-client/lib/src/events/event_deduper.dart:32-42 | the same, with a strictly increasing clock, for the call id of ringing events |
| `EventDeduper.RejectedOnlyIfRepeated` | mgl-push-client/lib/src/events/event_deduper.dart:18-47 | whatever the clock does, what is rejected repeats an id recorded at most ttl before |
| `EventDeduper.OtherEventsIgnoreCalls` | mgl-push-client/lib/src/events/event_deduper.dart:32-39 | an event of another kind or action, or without a call id, is rejected exactly if its own event id is known, and records no call |
| `EventDeduper.RingingRejectedIff` | mgl-push-client/lib/src/events/event_deduper.dart:27-42 | an incoming call with no action, an empty one or "ringing" is rejected exactly if its event id or its call id is known, and otherwise records the call |
| `EventDeduper.OneRingPerCall` | mgl-push-client/lib/src/events/event_deduper.dart:38-42 | so every further ringing event about a delivered call is rejected until its record expires or is crowded out |
| `EventDeduper.EventsBoundedIff` | mgl-push-client/lib/src/events/event_deduper.dart:27-46 | every run: the event map stays within maxEntries iff no new event about a call that rings already finds the purged map full |
| `EventDeduper.CallsBounded` | mgl-push-client/lib/src/events/event_deduper.dart:39-45 | the call map is within maxEntries after every event, accepted or not |
| `EventDeduper.BoundedAfterAccept` | mgl-push-client/lib/src/events/event_deduper.dart:44-46 | after an accepted event both maps are within maxEntries, whatever happened before |
| `EventDeduper.RejectedEventsOverflow` | mgl-push-client/lib/src/events/event_deduper.dart:39-41 | for every maxEntries from 1 and every ttl of at least as many clock ticks, a run whose last, rejected event leaves maxEntries + 1 entries |
| `EventDeduper.ZeroNeverOverflows` | mgl-push-client/lib/src/events/event_deduper.dart:44-45 | with maxEntries 0 the event map is always empty |
| `DeviceFilter.FilterDevices` | mgl-realtime-server/internal/service/message.go:291-345 | the loops compute the specified filter |
| `DeviceFilter.EnqueueDeliveries` | mgl-realtime-server/internal/service/message.go:269-282 | one delivery per kept row, with the selected provider |
| `DeviceFilter.FilterIsSubMultiset` | mgl-realtime-server/internal/service/message.go:291-345 | the output is a sub-multiset of the input |
| `DeviceFilter.FilterRows` | mgl-realtime-server/internal/service/message.go:309-343 | what is kept of an installation depends on its own rows only |
| `DeviceFilter.KeptIff` | mgl-realtime-server/internal/service/message.go:309-343 | exactly which rows are kept, each as often as in the input |
| `DeviceFilter.RowsInOrder` | mgl-realtime-server/internal/service/message.go:299-307 | an installation's rows are all of them, in input order |
| `DeviceFilter.FilterInOrder` | mgl-realtime-server/internal/service/message.go:309-310 | installations come in the order they first appear |
| `DeviceFilter.ProviderOfDelivery` | mgl-realtime-server/internal/service/message.go:347-357 | a delivery uses its row's provider, except that an incoming call reaches an iOS row over VoIP or apns only |
| `DeviceFilter.EveryInstallationKept` | mgl-realtime-server/internal/service/message.go:309-343 | every (app, installation) in the input keeps a row |
| `DeviceFilter.OneDeliveryPerInstallation` | mgl-realtime-server/internal/service/message.go:269-357 | an iOS installation with one apns and/or one apns_voip row gets one delivery: VoIP if present for call messages, apns if present otherwise |

## Left out

- HTTP API, authentication and token signing, configuration, Phoenix client, vendor push adapters: plumbing, payloads and network calls; a send may come to any result.
- Redis, PostgreSQL and JSON encoding are atomic steps on maps; lost connections to Redis, the 24 hour expiry of its keys and cancelled contexts are not modelled.
- User and index keys are pairs, so an id that contains the separator of the string key is not covered.
- Presence, channel-full drops, delivery of events to connections, and the fallback when a Redis publish fails.
- Create and the events it publishes: with the in-process store the event payload is the stored record itself, so a subscriber sees later updates; only what is returned to callers is covered.
- The hub without a Redis bus, where no subscription is ever opened.
- Serve: requests come one after the other, which is what the store's lock enforces for each store operation; Resume is handled as one request although it takes the lock three times.
- RedisServes: covers uninterrupted requests; concurrent ones are the subject of the theorems in `RedisProtocol`.
- Sequences of requests have a fresh id for every created call (`FreshIds`), as the id generator promises; Put itself does not require it.
- ClaimsBounded: a batch claim is modelled as single-row claims in a row, so the order by creation time and the batch limit are not captured.
- Delivery statuses delivered and opened, which no modelled code writes.
- OneMessagePerKey: at most one batch is stated, not exactly one, since a crash between commit and enqueue leaves none; sends without a key are not modelled.
- WindowBound: that no reading is late is assumed; one goroutine per connection guarantees it for the message limiter, nothing does for the call limiter, which the connections of a user share.
- CleanupIsInvisible: the order of Cleanup before later Allow calls is assumed, here and in the bounds; no code calls Cleanup.
- RetriesAreSpaced: a worker's own readings, at the end of a send and for the next retry time, do not go back.
- Trim: a negative maxEntries, and which of several equally old entries is trimmed first.
- `resolveDevices` and `ListActiveForUser`, which look rows up and drop repeated or finished ones, and the Orchestrator, which calls external services.
- mgl-call client, Flutter, Android and iOS code.
