# Orion Live: models and proofs

Orion Live is a live-room backend: hosts open sessions, viewers join rooms over WebSocket, Chat messages are admitted,
published, fanned out and persisted. This project models its concurrent core and proves what it keeps.

Every component comes in two layers. Classes have the fields and the methods of the program's objects, and each method is
proved against specification functions. State machines interleave steps, one per critical section, transaction or network
event, in any order, with crashes, timeouts, lost replies and expiries as steps of their own. What a step does to an object is
the specification function of the method it stands for, or is shown to be by a lemma (`OutboxSafety.ClaimStepIsTransaction`,
`OutboxSafety.SettleStepIsProcess`, `PublisherPool.StepsAreMethods`). The main results hold for every run of these machines.

| files | component |
|---|---|
| `WebSocketObjects.dfy`, `HubMachine.dfy`, `HubFrames.dfy`, `HubSafety.dfy`, `HubResults.dfy`, `HubCalls.dfy` | process-local hub, rooms and clients; their interleaving; shutdown |
| `OutboxTable.dfy`, `OutboxRelay.dfy`, `OutboxMachine.dfy`, `OutboxSafety.dfy`, `OutboxLeases.dfy`, `OutboxShortLease.dfy` | transactional Outbox: claims with leases and fencing tokens, relays, retries, timing |
| `ChatStore.dfy`, `ChatConsumer.dfy`, `ChatHistory.dfy` | Chat persistence with an Inbox, its at-least-once consumers, cursor history |
| `TokenBucket.dfy`, `ChatLimiter.dfy`, `ChatService.dfy` | the dual token bucket of Chat admission; the acceptance of a message |
| `PublisherLane.dfy`, `PublisherPool.dfy` | the confirmed RabbitMQ publisher: lanes and their pool |
| `LiveSessions.dfy` | live session transitions and their Outbox row |
| `LoadCollector.dfy`, `LoadRunner.dfy`, `LoadVerdict.dfy` | the load harness and what its verdict proves |
| `Prelude.dfy` | shared vocabulary |

Assumptions that are not proved here, because they are contracts of other systems, appear as guards of steps or as named
predicates: MySQL transactions are atomic and its row locks exclude other claims (`OutboxMachine.MayClaimAll`,
`LiveSessions.Start`, `ChatStore.Transact`); claim tokens are fresh and an event id fixes its event (`ChatStore.Coherent`,
`LiveSessions.StableId`); the broker returns a message at most once and only before it settles it, with an ack or a nack, and
the client library dispatches in order (`LaneMachine.Enabled`); Redis drops a key only after its expiry and its clock does not
run backwards (`TokenBucket.LegalEvictions`, `TokenBucket.ClockFrom`); a publication returns within the publish timeout and a
batch's database work takes one such timeout (`OutboxLeases.Timely`); the persistence queue is bound, so that an accepted message
is routed to it.

Where the documents and the code differ, the code is followed. `attempt_count` is not bounded by `MaxAttempts`
(`OutboxSafety.AttemptsUnbounded`), a dead-lettered Chat event may be stored (`ConsumerMachine.DeadMayBeStored`), the ended
flag belongs to a room and not to a session id, a nack of a returned message leaves its return to be reported for the next
publication (`LaneResults.NackedReturnIsBlamed`), and a load run passes although its collector recorded an error after the delivery
wait (`LoadVerdict.LateErrorsAreIgnored`).

Check the project with `dafny verify dfyconfig.toml`; proofs use `hide` to stay small.

## Model

| member | source | states |
|---|---|---|
| `WsClient.Client.ClaimRoom` | internal/websocket/client.go:30-41 | A client is claimed at most once at a time and never after it was closed; a refusal leaves it as it was. |
| `WsClient.Client.RollbackRoomClaim` | internal/websocket/client.go:43-49 | Takes a claim back unless the client was closed in the meantime. |
| `WsClient.Client.EnqueueOutbound` | internal/websocket/client.go:72-86 | Appends one frame, or refuses without blocking exactly when the client is closed or its queue is full; the queue stays within its capacity. |
| `WsClient.Client.CloseClient` | internal/websocket/client.go:88-97 | However often it is called the done channel is closed once; a closed client is not joined. |
| `WsClient.ClaimThenRollback` | internal/websocket/client.go:30-49 | A claim followed by its rollback leaves the client exactly as it was, so a refused Join leaves no trace on it. |
| `WsRoom.Room.Add` | internal/websocket/room.go:50-64 | Refuses a closed room, an ended room and a closed client, in that order; otherwise the client becomes a member. |
| `WsRoom.Room.Remove` | internal/websocket/room.go:66-75 | Removes and closes a member; says whether it was one and whether the room is now empty. |
| `WsRoom.Room.EnqueueBroadcast` | internal/websocket/room.go:77-92 | Queues a message, or refuses when the room was told to stop or its queue is full. |
| `WsRoom.Room.Deliver` | internal/websocket/room.go:94-106 | Every member is offered the message once: those that could take it stay open with the frame appended to their queue, the others are dropped, closed and not joined, with nothing appended. |
| `WsRoom.Room.CloseAll` | internal/websocket/room.go:138-146 | The room is closed and empty and every former member is closed. |
| `WsRoom.Room.RequestStop` | internal/websocket/room.go:132-136 | However often it is called the stop channel is closed once. |
| `WsHub.Hub.Join` | internal/websocket/hub.go:37-73 | All error outcomes in the order of the code; a refused Join changes neither rooms nor client; an accepted one adds the client to the existing room or to a new one whose goroutine is counted. |
| `WsHub.Hub.Admit` | internal/websocket/hub.go:61-71 | A session without a room gets one that holds the client, whose add cannot fail, and one more goroutine is counted. |
| `WsHub.Hub.Leave` | internal/websocket/hub.go:76-97 | Closes the client if it was a member; a room left empty is detached and then told to stop. |
| `WsHub.Hub.BroadcastIfPresent` | internal/websocket/hub.go:100-115 | Says whether the room is present and queues the message only there; the errors of the hub and of the room. |
| `WsHub.Hub.MarkSessionEnded` | internal/websocket/hub.go:166-176 | The present room of the session is ended, so sending in it is refused; no other room changes. |
| `WsHub.Hub.RemoveIfEmpty` | internal/websocket/hub.go:190-199 | Removes the candidate exactly when it is still the session's room and is empty. |
| `WsHub.Hub.RunTurn` | internal/websocket/room.go:35-48 | One turn of the room goroutine: the head of the queue goes to the members as a delivery says, a member dropped is closed; a delivery that leaves the room empty ends it exactly if it could remove the room; a stop closes every member. |
| `WsHub.Hub.BeginShutdown` | internal/websocket/hub.go:118-132 | The hub is closed and holds no room, and every room it held was told to stop. |
| `HubResults.MembershipIsExact` | internal/websocket/hub.go:37-97 | In every interleaving a joined, open client is a member of exactly one room, and that room is in the hub, being published by its Join, or taken by a Shutdown that has stopped it or still can; a closed client is in none and was closed once. |
| `HubResults.OneLifetime` | internal/websocket/client.go:30-49 | Over any continuation a client keeps its one room, a closed client stays closed and is sent nothing more, and no client joins once the hub is closed. |
| `HubResults.AttachedRoomServes` | internal/websocket/hub.go:81-96 | A room in the hub is never closed, never told to stop, served by its goroutine and empty only between a delivery and the request to remove it; a broadcast to it fails only for a full queue and sending is allowed unless it ended. |
| `HubResults.JoinFailsOnlyForEndedRooms` | internal/websocket/hub.go:50-65 | Once a Join has claimed its client the add fails exactly when the present room has ended; the other two errors of the add never occur there. |
| `HubResults.DetachedForGood` | internal/websocket/hub.go:190-199 | A room out of the hub is never detached again, gains no client and no broadcast, and its goroutine takes at most a number of further steps measured by its queue. |
| `HubResults.StoppedRoomCanMove` | internal/websocket/room.go:35-47 | A room told to stop always has a next step once no Join holds the lock, and a Join that holds the lock always has one that brings it closer to releasing it. |
| `HubResults.BroadcastsAreASegment` | internal/websocket/room.go:77-106 | What a client was ever sent of its room's broadcasts is a gap-free segment of what the room delivered, reaching to the last delivery while it is open; deliveries are a prefix of the accepted messages in order; both queues are bounded and in order. |
| `HubResults.ShutdownIsComplete` | internal/websocket/hub.go:118-144 | When Shutdown returns nil every room goroutine has ended, every room is closed and empty, and every client that ever joined was closed exactly once. |
| `HubResults.NoJoinAfterShutdown` | internal/websocket/hub.go:45-49 | After the hub was closed no continuation makes a room or lets a client join. |
| `HubResults.EndedRoomAdmitsNobody` | internal/websocket/hub.go:166-188 | Once a room was marked ended, in every continuation it stays ended, nobody is added to it and sending in it is refused. |
| `HubResults.OfferedIsOffer` | internal/websocket/room.go:97-104 | What the machine's delivery does to each member is what the object's delivery does to a client: it takes the frame or is closed. |
| `HubCalls.JoinAlone` | internal/websocket/hub.go:37-73 | In every reachable state a Join nothing comes in between ends as the code says: refused without a trace for a client closed or joined and for an ended room; otherwise the client is joined and in the session's room, a new one with its goroutine if there was none. |
| `HubCalls.LeaveAlone` | internal/websocket/hub.go:76-97 | In every reachable state a Leave removes and closes the client if it was a member and nobody else; a room left empty is out of the hub and the call can stop it next. |
| `HubCalls.BroadcastAlone` | internal/websocket/hub.go:100-115 | In every reachable state a broadcast is appended to the queue of the session's room exactly when that has space, and otherwise changes nothing. |
| `OutboxRows.ClaimAllAt` | internal/repository/outbox.go:36-62 | Of one claim transaction each picked row is claimed once, under its own fresh token, with its attempt counted. |
| `OutboxRows.ClaimAllFrame` | internal/repository/outbox.go:36-62 | A claim transaction leaves every other row as it was. |
| `OutboxTable.OutboxTable.ClaimBatch` | internal/repository/outbox.go:25-64 | Claims all candidates or, when a statement fails, none; each record carries the token, the validity and the attempt number, one more than before, of the row the table now holds under its id, and rows not picked are unchanged. |
| `OutboxRows.WhenEligible` | internal/repository/outbox.go:29-32 | When a row may be claimed: a new one at once, a retried one after its delay, a claimed one after its lease, a published or failed one never. |
| `OutboxSafety.JobsAreRecords` | internal/repository/outbox.go:36-62 | The jobs a claim step gives a relay are, in order, the records the table's transaction hands out. |
| `OutboxSafety.PicksAreDistinct` | internal/repository/outbox.go:36-62 | A claim step of the machine picks existing rows, each once, as the transaction demands. |
| `OutboxTable.OutboxTable.MarkPublished` | internal/repository/outbox.go:66-74 | Publishes the row if it is claimed under this token; otherwise changes nothing and reports false. |
| `OutboxTable.OutboxTable.ScheduleRetry` | internal/repository/outbox.go:76-78 | Returns the row to PENDING, available after the delay, if it is claimed under this token. |
| `OutboxTable.OutboxTable.MarkFailed` | internal/repository/outbox.go:80-82 | Fails the row if it is claimed under this token, leaving its availability alone. |
| `OutboxTable.OutboxTable.UpdateFailure` | internal/repository/outbox.go:84-97 | The common update of retry and failure, each as its own specification says. |
| `OutboxRelay.Relay.RetryDelay` | internal/outbox/relay.go:120-129 | The doubling loop with its early exits computes min(RetryMaxDelay, RetryBaseDelay * 2^(attempt-1)). |
| `OutboxConfig.BackoffDoubles` | internal/outbox/relay.go:120-129 | The first attempt waits the base delay and each further one twice the wait before it, up to the maximum. |
| `OutboxConfig.ValidExactly` | internal/config/outbox.go:59-79 | The configurations accepted are those with positive values, base delay at most the maximum and a lease of batch size plus one publish timeouts; what each error means. |
| `OutboxConfig.BackoffMonotone` | internal/outbox/relay.go:120-129 | The delay never shrinks from one attempt to the next and stays between base and maximum. |
| `OutboxRelay.Relay.Process` | internal/outbox/relay.go:78-106 | The row under the record's claim afterwards, field by field: failed when undecodable, published when confirmed, failed at the last attempt, else pending again after the computed delay; untouched when the claim is lost or the update does not arrive. |
| `OutboxRelay.Relay.ProcessBatch` | internal/outbox/relay.go:62-76 | Every picked row ends up settled by its own answer with its attempt counted, or still claimed under its own token when the relay was stopped before it or its update did not arrive; no other row changes. |
| `OutboxRelay.DrainedEach` | internal/outbox/relay.go:62-106 | Working through a batch settles each record's row once and by its own answer, whatever the other records bring. |
| `OutboxSafety.ClaimStepIsTransaction` | internal/repository/outbox.go:36-62 | The machine's claim step leaves exactly the rows of the table's claim transaction. |
| `OutboxSafety.SettleStepIsProcess` | internal/outbox/relay.go:78-106 | The machine's settling step leaves exactly the rows of the relay's record processing. |
| `OutboxSafety.EligibleIsPublished` | internal/outbox/relay.go:62-106 | Nothing is stuck: an idle relay can claim any eligible row, and if the broker confirms, the next steps make that row PUBLISHED and touch no other. |
| `OutboxSafety.FenceIsLatestClaim` | internal/repository/outbox.go:66-96 | In every reachable state an update gets through exactly when the row is claimed and the token is that of its most recent claim. |
| `OutboxSafety.StaleTokenIsPowerless` | internal/repository/outbox.go:66-96 | A token of an overtaken or settled claim changes nothing and reports false, in all three updates. |
| `OutboxSafety.RowChanges` | internal/repository/outbox.go:25-97 | A stored row changes only by being claimed while eligible, or by being settled by the relay that holds its most recent claim. |
| `OutboxSafety.TerminalForever` | internal/repository/outbox.go:29-32 | PUBLISHED and FAILED rows never change again, over any run with any number of relays, crashes and expiries. |
| `OutboxSafety.PublishedMeansConfirmed` | internal/outbox/relay.go:88-94 | A row is PUBLISHED exactly when it was marked, it was marked once, and the broker confirmed a publication made under the very token that marked it. |
| `OutboxSafety.FailedOnlyWhen` | internal/outbox/relay.go:82-99 | A FAILED row with a decodable payload shows attempt_count >= MaxAttempts, and its publication under the token that gave it up was refused. |
| `OutboxSafety.AttemptsCountClaims` | internal/repository/outbox.go:47-47 | attempt_count equals the number of committed claims. |
| `OutboxSafety.RetriesBounded` | internal/outbox/relay.go:95-100 | One event is rescheduled at most MaxAttempts - 1 times in any run. |
| `OutboxSafety.AttemptsUnbounded` | internal/repository/outbox.go:29-32 | attempt_count has no bound: for every n some run of crashing relays reaches it. |
| `OutboxLeases.PublicationsKeepTheirLease` | internal/config/outbox.go:69-77 | With a valid configuration and the timing assumption every publication, ended or under way, keeps within the lease of its claim. |
| `OutboxLeases.NoOverlappingPublications` | internal/config/outbox.go:69-77 | Two publications of one event under different claims never overlap in time, over all timely runs of any number of relays. |
| `OutboxShortLease.ShortLeaseOverlaps` | internal/config/outbox.go:69-77 | Whatever the batch size, the publish timeout and the lease: if only the lease check fails, some timely run has two relays publishing one event at the same time. |
| `OutboxShortLease.LeaseCheckIsExact` | internal/config/outbox.go:59-78 | Of the configurations that pass the other checks, those without overlapping publications in any timely run are exactly those the lease check accepts. |
| `ChatLimiter.Keyspace.Allow` | internal/admission/chat.go:11-44 | The script's reads and writes in their order have exactly the effect and the answer of the specified atomic call. |
| `ChatLimiter.Keyspace.Admit` | internal/admission/chat.go:11-44 | The same for a call that finds some expired keys dropped. |
| `TokenBucket.TokensStayWithinCapacity` | internal/admission/chat.go:15-41 | 0 <= tokens <= capacity in every reachable store, with any clock and any evictions. |
| `TokenBucket.StoreStaysValid` | internal/admission/chat.go:40-43 | With a non-decreasing clock no bucket is from the future and each key lives its computed time. |
| `TokenBucket.LifetimeRefills` | internal/admission/chat.go:42-43 | A key that may expire would have refilled completely. |
| `TokenBucket.LifetimeIsTight` | internal/admission/chat.go:42-43 | A key lives at least a second, and otherwise twice the time of a full refill rounded up to the next millisecond, not longer. |
| `TokenBucket.EmptyBucketsRecover` | internal/admission/chat.go:22-38 | After both buckets were emptied a call is let through if and only if each has gained a token at its configured rate. |
| `TokenBucket.ScriptMeans` | internal/admission/chat.go:15-41 | A missing bucket is full; a call is allowed exactly when both levels reach one token, leaves both levels less what it spent, and touches no other bucket. |
| `TokenBucket.LazyRefillIsInvisible` | internal/admission/chat.go:15-43 | With a non-decreasing clock the script decides every call as buckets that refill continuously and never expire do, whichever expired keys are dropped. |
| `TokenBucket.DeniedCallLeavesNoTrace` | internal/admission/chat.go:32-41 | Deleting a denied call from a history changes no other decision. |
| `TokenBucket.SpendingIsFunded` | internal/admission/chat.go:34-38 | What a bucket let through is covered by what it held and what it gained since. |
| `TokenBucket.WindowBound` | internal/admission/chat.go:15-44 | Sends allowed on one bucket within D ms number at most burst + rate * D / 1000, per user and per room, in any history. |
| `TokenBucket.BackwardClockBreaksTheBound` | internal/admission/chat.go:22-24 | The clock assumption is needed: with a clock that jumps back, for every n more than n sends get through within one second. |
| `ChatStore.ChatRepository.Persist` | internal/repository/chat.go:62-121 | The transaction statement by statement: exactly which failures make it err, the result by what the Inbox and the key held before, the Inbox row and the message stored, and nothing of either left by a conflict or a failed statement. |
| `ChatStore.PersistIsFirstWrite` | internal/repository/chat.go:79-115 | One commit changes the messages as a first-write-wins map does, keeps every Inbox row backed by a stored message, and conflicts exactly when the key is stored with other content. |
| `ChatStore.PersistRefinesFirstWrites` | internal/repository/chat.go:62-121 | For any redeliveries, duplicate event ids, events sharing a business key and rolled-back transactions the stored messages are those of a first-write-wins map over the committed events. |
| `ChatStore.ConflictLeavesNoTrace` | internal/repository/chat.go:109-119 | A conflict leaves no Inbox row, so a redelivery conflicts again. |
| `ChatStore.PersistKeepsIds` | internal/repository/chat.go:86-100 | Stored rows are never changed or removed and keep distinct ids. |
| `ChatStore.ChangedEventIsLost` | internal/repository/chat.go:79-84 | The assumption that an event id fixes its payload is needed: otherwise the Inbox swallows a message. |
| `ChatConsumer.Consumer.HandleDelivery` | internal/persistence/consumer.go:163-210 | A malformed body is dead-lettered without touching the database; a good one is requeued exactly when the transaction erred, dead-lettered exactly when its key holds other content, and otherwise acknowledged with its Inbox row and its message stored. |
| `ConsumerMachine.FinishMoves` | internal/persistence/consumer.go:174-209 | Finishing a job on the live channel that holds its message moves that message to where the verdict sends it: acked, dead-lettered or queued again. |
| `ConsumerMachine.DeliveryStores` | internal/persistence/consumer.go:163-210 | A queued event that does not contradict the store is delivered, persisted and acked by one undisturbed worker, and is stored then. |
| `ConsumerMachine.EveryEventInOnePlace` | internal/persistence/consumer.go:91-210 | In every run each routed event is queued, unacked, dead-lettered or acked, and in exactly one of them. |
| `ConsumerMachine.AckedIsStored` | internal/persistence/consumer.go:174-209 | An acked event is stored under its business key with identical content, now and after any continuation. |
| `ConsumerMachine.DeadForAReason` | internal/persistence/consumer.go:163-210 | A dead-lettered event was malformed, contradicts a stored message, or exceeded the delivery limit. |
| `ConsumerMachine.DeadMayBeStored` | internal/persistence/consumer.go:175-186 | A dead-lettered event may be stored all the same: commits whose replies are lost exhaust the delivery limit. |
| `ChatHistory.ReverseInPlace` | internal/repository/chat.go:40-42 | Swapping from both ends reverses the slice. |
| `ChatHistory.NewestReversed` | internal/repository/chat.go:36-42 | The newest rows of a descending listing, reversed, are the last rows of the ascending listing. |
| `ChatHistory.QueryLatest` | internal/repository/chat.go:33-44 | The latest rows come out in ascending order. |
| `ChatHistory.PageIsContiguous` | internal/service/chat_history.go:62-74 | A page is the visible rows from just above the cursor to its next cursor without gaps; there is more exactly when a visible row lies beyond, and then the page is full and the cursor advances. |
| `ChatHistory.HistoryAnswers` | internal/service/chat_history.go:41-50 | Which limits and sessions are refused, in the order of the code, and that a missing limit means fifty. |
| `ChatHistory.LatestPageIsNewest` | internal/service/chat_history.go:51-60 | Without a cursor the page is the newest rows, ascending and of the asked number; its cursor is the newest row and it promises no more. |
| `ChatHistory.AllHistory` | internal/loadtest/api.go:83-101 | Whatever commits during the scan, every row visible at its start comes out exactly once and in ascending order, the "did not advance" error is unreachable and the loop ends. |
| `ChatHistory.ScanOfFixedTable` | internal/loadtest/api.go:83-101 | On a fixed table the scan is the table in order. |
| `ChatHistory.LatestThenForward` | internal/service/chat_history.go:51-60 | On a fixed table the latest page followed forward is a contiguous suffix of the history of the asked length. |
| `ChatHistory.PersistingGrowsTheView` | internal/repository/chat.go:52-60 | Persisting only adds to what a session's queries see, which is what the scan assumes of the table. |
| `PublisherLane.Lane.EnsureChannel` | internal/rabbitmq/publisher_lane.go:117-139 | Keeps an open channel, else opens a fresh one with its own notifications; fails when closed or when opening fails. |
| `PublisherLane.Lane.Send` | internal/rabbitmq/publisher_lane.go:28-57 | A failed write drops the channel. |
| `PublisherLane.Lane.AwaitPublishResult` | internal/rabbitmq/publisher_lane.go:62-89 | Each ready case of the select leads to the specified outcome and keeps or drops the channel. |
| `PublisherLane.Lane.PendingReturnOrNil` | internal/rabbitmq/publisher_lane.go:91-102 | After an ack a buffered return wins, then a closed channel, else success. |
| `PublisherLane.Lane.Close` | internal/rabbitmq/publisher_lane.go:104-115 | Closes once and gives up an open channel. |
| `LaneResults.OutcomesAreTrue` | internal/rabbitmq/publisher_lane.go:20-102 | Over any sequence of publications success is reported only for a message the broker acked and did not return, a nack is that message's own, and an unroutable error names a returned message, its own unless an earlier publication was reported as nacked in spite of its return. |
| `LaneResults.ReportsAreOwn` | internal/rabbitmq/publisher_lane.go:62-102 | If no message was nacked after its return, every report is its publication's own. |
| `LaneResults.NackLeavesItsReturn` | internal/rabbitmq/publisher_lane.go:79-86 | Whenever the select takes a nack on an open channel, the channel kept holds that message's return if and only if the broker returned it. |
| `LaneResults.AckDecides` | internal/rabbitmq/publisher_lane.go:79-102 | An ack seen on an open channel that carries no left-over return decides the report: success exactly if the broker did not return the message, else its own return; the channel stays in use. |
| `LaneResults.NackedReturnIsBlamed` | internal/rabbitmq/publisher_lane.go:79-86 | After such a nack some continuation reports the left-over return for the next publication. |
| `LaneResults.BlamedIffExposed` | internal/rabbitmq/publisher_lane.go:20-26 | Before any publication on an open channel: it can be blamed for another message's return if and only if the channel holds a return or a message on it is neither returned nor settled. |
| `LaneResults.IdleLaneIsClean` | internal/rabbitmq/publisher_lane.go:117-148 | A lane between publications is exposed only if a message on its channel was reported as nacked in spite of its return. |
| `LaneResults.DispatchBlocksOnlyWhenExposed` | internal/rabbitmq/publisher_lane.go:136-136 | The one-place return buffer is full when a return is dispatched only if a message on the channel was reported as nacked in spite of its return. |
| `LaneResults.NackAfterReturnMisattributes` | internal/rabbitmq/publisher_lane.go:79-86 | A run in which it happens: returned, nacked, and the next publication reported unroutable in its place. |
| `ChatService.Service.Accept` | internal/service/chat.go:52-88 | Accepted exactly when both checks hold, the limiter answered, both refilled levels of the caller reach one token and the publication was confirmed; each other refusal with its exact cause; a message that fails its checks costs no tokens and one whose script ran has paid. |
| `ChatService.AcceptedMeansConfirmed` | internal/service/chat.go:84-87 | A message is accepted exactly when it passes its checks, is admitted and its publication reports success; then, in every run of the lane, the broker acked it and did not return it. |
| `ChatService.AcceptedWithinWindow` | internal/service/chat.go:52-88 | In any history of requests the messages accepted for one user, or for one room, within D ms number at most burst + rate * D / 1000, whatever fails along the way. |
| `ChatService.AcceptedAreAllowed` | internal/service/chat.go:62-75 | Every accepted message is a call the script allowed, and the requests that reach the script are a legal history of it. |
| `PublisherPool.Publisher.Register` | internal/rabbitmq/publisher.go:112-123 | Admits exactly when the context is live and the pool is open, and counts the caller. |
| `PublisherPool.Publisher.Await` | internal/rabbitmq/publisher.go:125-132 | Hands out the lane that came free first, or leaves the wait group because the context is done; when both are ready it may do either. |
| `PublisherPool.Publisher.Release` | internal/rabbitmq/publisher.go:134-137 | Puts the lane back before leaving the wait group. |
| `PublisherPool.Publisher.CloseLanes` | internal/rabbitmq/publisher.go:143-147 | Closes each lane once, in order. |
| `PublisherPool.StepsAreMethods` | internal/rabbitmq/publisher.go:112-150 | Each step of the pool machine does to the pool what a method of the object does. |
| `PublisherPool.ReleaseIsPutThenLeave` | internal/rabbitmq/publisher.go:134-137 | The two steps of a release, in their order, are the release of the object. |
| `PublisherPool.LanesAreConserved` | internal/rabbitmq/publisher.go:72-137 | In every run each lane is free once or held by exactly one caller, and the wait group counts callers inside. |
| `PublisherPool.ReleaseNeverBlocks` | internal/rabbitmq/publisher.go:134-137 | There is always room to give a held lane back. |
| `PublisherPool.LeaveNeverNegative` | internal/rabbitmq/publisher.go:129-137 | The wait group never goes negative. |
| `PublisherPool.ClosedOnceAfterLastUse` | internal/rabbitmq/publisher.go:139-150 | Once lanes are being closed nobody is inside or ever enters; each lane is closed once. |
| `LiveSessions.Repository.StartSession` | internal/repository/live_session.go:39-49 | True and LIVE exactly when the row is the host's and SCHEDULED and no other row of the host is LIVE; a duplicate key exactly when there is one; otherwise false, and then nothing changes. |
| `LiveSessions.Repository.EndSession` | internal/repository/live_session.go:51-91 | True exactly when the row is the host's and LIVE, its event is valid and new and no statement fails; then the row is ENDED and the Outbox holds the event, otherwise neither changes. |
| `SessionMachine.TransitionsHappenOnce` | internal/service/live_session.go:72-121 | With calls interleaved at every database call each session goes LIVE and ENDED at most once and no call makes two transitions. |
| `SessionMachine.SuccessOwnsItsTransition` | internal/service/live_session.go:72-121 | A call that answered success made its own transition; one refused by a check or a lost race made none. |
| `SessionMachine.StartAlone` | internal/service/live_session.go:72-97 | A start nobody interferes with succeeds exactly when the caller hosts the session, it is SCHEDULED and the host has no other LIVE session; every other case with its own refusal. |
| `SessionMachine.EndAlone` | internal/service/live_session.go:99-121 | An end nobody interferes with succeeds exactly when the caller hosts the LIVE session, and leaves it ENDED with its Outbox row; every other case with its own refusal. |
| `SessionMachine.OneLiveSessionPerHost` | migrations/000002_create_live_sessions.up.sql:7-16 | A host has at most one LIVE session. |
| `SessionMachine.EndedIffOutbox` | internal/repository/live_session.go:51-91 | A session is ENDED exactly when the Outbox holds its stable event, which carries the session and its host. |
| `LoadCollector.Collector.RecordSent` | internal/loadtest/collector.go:40-44 | Records the id as sent. |
| `LoadCollector.Collector.RecordAck` | internal/loadtest/collector.go:46-69 | A repeated acknowledgement is counted, an unknown one fails the collector, a first one is accepted, rejected or an error by its status. |
| `LoadCollector.Collector.RecordEvent` | internal/loadtest/collector.go:71-89 | A repeated delivery to a client is counted; an unknown client or message fails the collector. |
| `LoadCollector.Collector.Progress` | internal/loadtest/collector.go:109-126 | Complete exactly when nothing failed, as many messages as the target are acknowledged and every accepted one reached every client. |
| `LoadCollector.Collector.MakeReport` | internal/loadtest/collector.go:148-206 | Every number of the report in terms of the collector's sets: the counting loops compute the sums and the union. |
| `LoadVerdict.Means` | internal/loadtest/collector.go:40-89 | What the collector's sets say about the stream they were built from, for every stream. |
| `LoadVerdict.CompletionIsSeen` | internal/loadtest/collector.go:109-126 | The delivery wait is over exactly when nothing failed, every message sent was acknowledged and each one whose first acknowledgement accepts it has reached every client; rejections do not hold it up. |
| `LoadRunner.Load.SendPhase` | internal/loadtest/runner.go:275-300 | Sends the given number of messages with the drawn ids, round robin and one per tick, and stops early exactly at the attempt that fails; only a failed write leaves its id recorded. |
| `LoadRunner.Load.SendLoad` | internal/loadtest/runner.go:255-273 | Sends exactly TargetMessages in turn through the senders, all connections if none are configured, the burst in the middle of the background and each message at its phase's interval. |
| `LoadRunner.PhaseFits` | internal/loadtest/runner.go:255-277 | The messages of a phase at one per interval fit in its duration, and one more at a nanosecond more per interval would not. |
| `LoadRunner.CheckHistory` | internal/loadtest/runner.go:337-355 | Succeeds exactly when no message is unknown or repeated, and then counts accepted and rejected ones; an error names the first message that is unknown, or known and repeated. |
| `LoadRunner.WaitForHistory` | internal/loadtest/runner.go:330-369 | Ends well with the first history that holds every accepted message, badly with the first unreadable, unknown or repeated one, and otherwise with the deadline or the cancellation. |
| `LoadRunner.FoundSize` | internal/loadtest/runner.go:357-359 | Counting suffices: as many accepted messages found as there are means all were found. |
| `LoadVerdict.AckedExactlyOnce` | internal/loadtest/collector.go:46-58 | Without counted duplicates every message has one acknowledgement in the whole stream, late ones included. |
| `LoadVerdict.DeliveredAsRecorded` | internal/loadtest/collector.go:71-88 | Without counted duplicates the stream delivers a message to a client once or never, as the collector recorded. |
| `LoadVerdict.VerdictIsExact` | internal/loadtest/runner.go:371-392 | When a run reaches its report its ids were distinct and its history holds only what it sent; the report passes if and only if every message was acked once and then, if accepted, delivered once to every client and persisted once, if rejected, seen nowhere, with no more rejections than allowed. |
| `LoadVerdict.LateErrorsAreIgnored` | internal/loadtest/runner.go:113-137 | An error observed after the delivery wait fails the collector and does not change the report, so the run still passes. |

## Left out

- HTTP handlers, routing, middleware, JWT, password hashing, JSON and UUID syntax: library plumbing; marshalling is a round trip that either yields the event or fails.
- MySQL, Redis, RabbitMQ and WebSocket library internals: only the contracts named above are used.
- Metrics, logging, health checks, deployment, configuration loading and the validators other than the Outbox and load ones: no state worth proving.
- Reconnecting, backoff jitter and the opening of consumer sessions (`recoverSession`): a restart is one step of the consumer machine.
- The consumer's worker pool and prefetch bound (`consumeSession`, `consumeDeliveries`): any number of workers may hold any deliveries, which allows more behaviours than the code.
- WebSocket pumps and the admission counters of the handler: first-in first-out and counting facts.
- The realtime Subscriber that feeds broadcasts: a broadcast may come at any moment.
- Floating-point rounding in the Lua script and in `percentile`, 64-bit overflow of durations and counters, and the randomness of tokens and ids: reals, unbounded integers and fresh values stand for them.
- The migration runner: MySQL commits schema changes implicitly, so its transaction has no faithful model here.
- Session titles, cover URLs and `AuthorizeJoin`: single checks on a value that was read.
- Opening the lanes in `NewPublisher`: the pool starts with all lanes or does not exist.
- Client loops of the load harness that create users and connect: the run starts connected; latencies are not recorded.
- OutboxTable.OutboxTable.ClaimBatch: the candidates are a parameter, so the ordering and the limit of the claim query are not modelled; any eligible rows may be picked.
- OutboxTable.OutboxTable.UpdateFailure: takes the recorded cause as given; its truncation to the column width is not modelled.
- ChatStore.ChatRepository.Persist: keys are compared exactly; the collation of the MySQL columns is not modelled.
- ChatHistory.AllHistory: a row is its id, since stored rows never change; a page request may fail but is not cancelled half-way.
- LiveSessions.Repository.EndSession: the database timestamp is a parameter and timestamps of sessions are not kept.
- HubResults.DetachedForGood: bounds the goroutine's own steps; that the scheduler eventually runs it, and that a stop that is owed is eventually requested, are assumptions of fairness.
- LiveSessions.Repository.StartSession: the timestamps of the session are not kept.
- LoadCollector.Collector.RecordSent: the send time is not kept, since no verdict depends on it.
- LoadCollector.Collector.RecordAck: the acknowledgement latency is not kept.
- LoadCollector.Collector.RecordEvent: the broadcast latency is not kept.
- LoadCollector.Collector.MakeReport: latency summaries, rejections by code and the achieved rate are left out of the report; none of them enters the verdict.
- ChatService.Service.Accept: building the event is taken to succeed for a message that passed its checks, and the checks of id and text are given as their results.
- ConsumerMachine.EveryEventInOnePlace: says nothing of the order in which the queue delivers.
- WsHub.Hub.BeginShutdown: ends where the waiting begins; the wait for the goroutines and its cancellation are steps of the hub machine.
- WsRoom.Room.Deliver: is one step of the hub machine. The code takes the clients' own locks one after another while it holds the room's; acknowledgements and writes of one client in between commute with what it does to the others.
- OutboxRelay.Relay.ProcessBatch: the poll loop around it (`run`) is left out; relays of the machine claim at any moment.
- LoadRunner.Load.SendPhase: records which ticker interval each send waited for; ticks that a slow write makes the ticker drop are not modelled.
