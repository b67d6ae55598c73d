# sidecartunnel: verified protocols of a websocket gateway

sidecartunnel accepts browser websockets, asks an application over a signed webhook who a
connection is and which channels it may hold, and fans bus messages out to the connections that
hold a channel. This project models the parts of it that are concurrent state machines or
algorithms with a stated guarantee, and proves those guarantees.

Objects the program changes in place are classes whose fields are the program's fields and whose
methods state the whole new state (`Hub`, `Server`, `Cache`, `Limiter`, `SidecarTunnel`); loops are
methods proved against a recursive or declarative specification. A protocol with several goroutines
is a step relation: one event per critical section, channel operation or atomic access, anything
that may happen in between being another event; theorems are about every run of such events from
the start state. `Enabled` says when a step can happen, `Do` what it does, `Inv` is what every step
keeps. Theorems named `...ByEvents` read the final state off the events of the run alone, without `Do`;
Events.dfy counts them.

| file | part of the program | what it is about |
|---|---|---|
| Glob.dfy | internal/glob | compiling grants and matching them exactly, without backtracking |
| HubSpec.dfy, Hub.dfy | internal/hub | the registry: five maps and the desired set as one fact |
| HubOrder.dfy, HubDelivery.dfy, HubHistory.dfy | internal/hub | the order of pushes and replies in every connection's queue; whom one dispatch reaches |
| ConnCommand.dfy, Authorization.dfy, AuthorizationHistory.dfy | internal/conn, internal/hub | no subscription and no push outside a connection's grants |
| Reconciler.dfy | internal/hub/reconcile.go | convergence on the desired set without lost wakeups |
| Closer.dfy | internal/hub | slow connections handed over and drained at shutdown |
| RedisDiff.dfy, RedisSync.dfy, AckWait.dfy | internal/bus/redis.go | diff and batching; Sync, reader and supervisor over dying connections; the wait for confirmations |
| ConnClose.dfy, ConnHistory.dfy | internal/conn | one winner among concurrent closers; what reaches the wire, the close frame last |
| ServerDrain.dfy, DrainHistory.dfy | internal/server | admission, per-user count, drain, and what a drain that reports the server empty means |
| RateLimit.dfy | internal/server/ratelimit.go | what the fixed windows bound over a whole connection |
| Webhook.dfy, AnswerCache.dfy | internal/webhook | slots, retries and budget; the answer cache |
| Consumer.dfy | internal/consumer | accounting for every bus message |
| JsClient.dfy, JsHistory.dfy | client/js/sidecartunnel.js | the browser client: reconnecting, and which promises are settled over whole runs |

Where the code and its own documentation disagree, the model follows the code, and the difference is a
lemma with the exact condition:

- `HubOrder.RefusedReplyKeepsSubscription` and `HubOrder.PushWithoutAnnouncement`: a subscribe whose reply
  meets a full queue is not undone, so a push can reach that connection unannounced until the closer has it.
- `HubSpec.NoSeparatorNamespace`: a channel without a separator gets the block with the empty name only when
  no block is named like the channel.
- `RedisSync.NilAfterAbandonedChunk`: Sync can answer nil, with nothing to send, on a connection that holds something
  else; nil means applied if and only if no earlier Sync or resync gave up on a chunk that had reached that
  connection's wire (`RedisSync.NilMeansApplied`), which is always so when a command was sent.
- `Closer.OverlappingCloseReturnsEarly`: of two overlapping calls of Close the second can return while the first
  still has a close in hand; with one caller nothing is outstanding.
- `ConnClose.FrameAfterDisconnect`: a Send that saw the connection open may queue behind the disconnect frame. Some
  continuation does that if and only if a Send is past that check and the queue has room, or a writer that can still
  make some (`ConnClose.DisconnectLast`).
- `Webhook.ClampExpiryWraps`: below -9223372036 seconds the product wraps and the answer can leave the range.
- `JsHistory.Resubscribes` and `JsHistory.AnsweredOutOfOrder`: the promise of a subscribe can stay unsettled for ever,
  even past close. It does so if and only if, with its own command unanswered, its channel was subscribed to again over
  an unsubscribe, or an unsubscribe of the channel was answered, and later the connection went with the command still
  unanswered (`JsHistory.UnsettledIffForgotten`).

## Model

| member | source | states |
|---|---|---|
| Glob.CoversIsSegCovers | internal/glob/glob.go:96-105 | a string is the grant with each `*` replaced by some string exactly when it starts with the first segment, ends with the last after it, and has the others in between in order without overlap |
| Glob.DropEmptyFloating | internal/glob/glob.go:100-105 | leaving out empty segments between stars changes nothing about what a grant covers |
| Glob.Compile | internal/glob/glob.go:76-117 | refuses exactly the grants beginning with `_`; any other grant becomes a pattern that denotes, over all strings, exactly what the grant covers |
| Glob.LeftmostIsEnough | internal/glob/glob.go:149-155 | where the floating segments can be placed at all, they can be placed with the first at its leftmost occurrence, so no backtracking is needed |
| Glob.FloatsIsPlaceable | internal/glob/glob.go:162-183 | placing the floating segments in order before the anchored tail is all the declarative meaning asks for |
| Glob.IndexOf | internal/glob/glob.go:176 | the leftmost occurrence, by naive search, in at most one comparison of the segment per skipped byte and one for the hit |
| Glob.MatchSegments | internal/glob/glob.go:162-183 | the greedy matcher is true exactly of what the pattern denotes, in at most length times pattern length byte comparisons |
| Glob.Match | internal/glob/glob.go:129-147 | all kinds of pattern, the refused one included, match exactly what they denote, within the same cost |
| Glob.NewSet | internal/glob/glob.go:210-229 | all grants compiled, or none and the index of the first that begins with `_` |
| Glob.SetMatch | internal/glob/glob.go:235-245 | true exactly when some grant of the list covers the channel |
| HubSpec.KeyRoundTrip | internal/hub/hub.go:376-380 | taking the prefix off a bus key gives back the channel it was made from |
| HubSpec.NamespaceNameMeans | internal/hub/hub.go:391-395 | the name is what stands before the leftmost separator, or the whole channel |
| HubSpec.NoSeparatorNamespace | internal/hub/hub.go:382-403 | when a channel without a separator gets the empty block, against the comment there |
| HubSpec.NamespaceMeans | internal/hub/hub.go:391-403 | the block called like the text before the leftmost separator, or else the one with the empty name, or none |
| HubSpec.AdmitMeans | internal/hub/hub.go:664-676 | refused as reserved exactly when it begins with `_`, as unknown exactly when it does not and no configured block is called like the text before its separator nor by the empty name |
| HubSpec.SubscribeRefusalMeans | internal/hub/hub.go:610-630 | which of the five refusals applies, in the order the source checks |
| HubSpec.ControlStaysWanted | internal/hub/hub.go:257-261 | while the indexes are one view the control key is wanted, though nobody holds it or can, so no drop takes it out of the desired set |
| HubSpec.GrantedSound | internal/hub/hub.go:527-539 | attach takes only requested, admissible channels not held before, none twice, within the cap |
| HubSpec.GrantedMaximal | internal/hub/hub.go:494-500 | and leaves one out only when it is refused, already held, or the cap is used up |
| HubSpec.GrantedExact | internal/hub/hub.go:527-539 | channel by channel in the order asked for: taken exactly when unreserved, resolved, neither held nor taken already, and within the cap |
| HubSpec.InsertKeeps | internal/hub/hub.go:726-751 | an insert keeps all indexes one view of the subscriptions, and a channel is wanted exactly when it has a holder |
| HubSpec.DetachKeeps | internal/hub/hub.go:766-785 | so does a drop; the key leaves the desired set exactly with its last holder |
| HubSpec.Indexed | internal/hub/hub.go:443-452 | a connection is in the client index, the user index and the mirror together or in none, and an unregistered one is in no bucket |
| HubRegistry.IndexUser | internal/hub/hub.go:456-471 | files the connection under one user, out of the bucket it was in, with no empty bucket left |
| HubRegistry.DropFromUser | internal/hub/hub.go:476-483 | takes it out of the bucket it is really filed in |
| HubRegistry.Insert | internal/hub/hub.go:726-751 | which of three refusals, or the subscription added and whether the desired set grew |
| HubRegistry.Detach | internal/hub/hub.go:771-785 | the subscription gone from map and mirror, and whether the desired set shrank |
| HubRegistry.AttachAll | internal/hub/hub.go:527-539 | the loop over the requested channels takes exactly `Granted` |
| HubRegistry.Deregister | internal/hub/hub.go:560-578 | every index without the connection, and whether the desired set shrank |
| HubRegistry.ControlDrop | internal/hub/control.go:228-264 | of one target, exactly the matching subscriptions go; their pushes are queued behind what was there as far as there is room, and the rest refused |
| HubRegistry.Hub.constructor | internal/hub/hub.go:262-322 | only the control key wanted, and the reconciler already marked |
| HubRegistry.Hub.Add | internal/hub/hub.go:410-433 | registers empty, refiles an already registered connection, refuses a second holder of an id |
| HubRegistry.Hub.Attach | internal/hub/hub.go:518-549 | grants exactly `Granted`, leaves a requested channel out only when reserved, unresolved, held or past the cap, queues one reply listing the grants where there is room, and marks dirty exactly when the desired set changed |
| HubRegistry.Hub.Remove | internal/hub/hub.go:560-583 | idempotent; no index mentions the connection afterwards |
| HubRegistry.Hub.Subscribe | internal/hub/hub.go:610-630 | reserved, unknown namespace, not registered, held, over the cap, in this order, with nothing queued; else the key added and the reply queued behind what was there, or the full connection handed over |
| HubRegistry.Hub.Unsubscribe | internal/hub/hub.go:646-662 | the same for a drop |
| HubRegistry.Hub.Deliver | internal/hub/fanout.go:113-131 | an open holder with room has exactly the frame behind what was queued, a closed one is left alone, and exactly the full open ones are handed over |
| HubRegistry.Hub.Dispatch | internal/hub/fanout.go:79-102 | the same with the push for the bare channel name of the key it came on, to exactly the holders but the excluded id |
| HubRegistry.Hub.Targets | internal/hub/control.go:171-187 | the one connection with the client id, or exactly those filed under the user |
| HubRegistry.Hub.CloseSink | internal/hub/fanout.go:201-204 | deregistered, then ended with the code, nothing else touched |
| HubRegistry.Hub.CloseAll | internal/hub/control.go:194-199 | the same for a set of targets in any order |
| HubRegistry.Hub.ControlUnsubscribe | internal/hub/control.go:220-273 | of each target exactly the keys matching the pattern go, each with one unsubscribed push queued behind what was there while there is room, and exactly the open targets without room for all are handed over, once; everyone else keeps subscriptions and queue |
| HubOrder.AnnouncedMeans | internal/hub/hub.go:588-596 | what a queue has told its client: an accepted reply names the channel and nothing after it retracts it |
| HubOrder.Keeps | internal/hub/hub.go:518-549 | every lock, check, offer and unlock step of every goroutine keeps the ordering invariant |
| HubOrder.PushOrder | internal/hub/hub.go:610-662 | in all runs each push lies behind an accepted announcing reply with no retraction between, unless that queue refused or was denied such a reply; what is held has been announced; a refusing connection is handed over |
| HubOrder.RemovalIsFinal | internal/hub/hub.go:443-452 | in every run, from its removal on and until it is added again, a connection is held by no index, no dispatch is about to send to it, and its queue takes no push, whatever attach or subscribe was in flight |
| HubDelivery.DispatchReaches | internal/hub/fanout.go:79-131 | one dispatch with anything in between: when it unlocks, every holder not excluded has the push behind what was queued, or is closed, or refused it; none was offered it twice, and nobody else at all |
| HubHistory.HubByEvents | internal/hub/hub.go:410-662 | in all runs a connection holds what its own sections and control make of each other, its queue is what it was offered while there was room, within its capacity; sections send exactly the frames asked for, each after its own check; only those that refused are handed over, once per section |
| HubOrder.RefusedReplyKeepsSubscription | internal/hub/hub.go:598-600 | the exception exists: a full queue leaves the subscription without its reply |
| HubOrder.PushWithoutAnnouncement | internal/hub/fanout.go:113-131 | and one free place then lets an unannounced push in |
| ConnCommand.IsWellFormed | internal/conn/command.go:373-383 | 1 to the maximum number of bytes, each printable and not a space |
| ConnCommand.CheckChannel | internal/conn/command.go:392-403 | allowed exactly when well-formed, not reserved, and covered by a grant; which refusal otherwise |
| ConnCommand.Bounded | internal/conn/command.go:246-266 | keeps the first accepted names, each once, up to the cap |
| ConnCommand.BoundMeans | internal/conn/command.go:241-266 | an accepted name is left out only when the cap is reached |
| ConnCommand.BoundFull | internal/conn/command.go:257-262 | stopping at the cap loses nothing the full pass would have kept |
| Authorization.Keeps | internal/conn/command.go:121-205 | every step of reader, hub and dispatch keeps what is held and queued inside the grants |
| Authorization.AuthorizedOnly | internal/conn/command.go:385-403 | in all runs each key held and each push queued is for a well-formed, unreserved channel some grant of that connection covers, however it was asked for; each key held is of a channel with a configured block |
| AuthorizationHistory.AuthorizationByEvents | internal/conn/command.go:121-205 | readers and registry together are, for the registry alone, one of its runs; one webhook call per connection, its grants as answered; what was checked is subscribed to, and what the grants left of the connect frame attached, in order, once |
| Authorization.ConnectReplyExact | internal/hub/hub.go:518-541 | the connect reply lists exactly the subscriptions held when the section unlocks |
| Reconciler.Keeps | internal/hub/reconcile.go:17-75 | every step keeps: an unmet intent is in the flag, a producer or the pass under way, and a raised flag is never slept on |
| Reconciler.SleepsOnlyWhenSettled | internal/hub/reconcile.go:51-75 | in all runs, parked with no token and no producer pending means the last successful Sync carried exactly the desired set and the memory bus holds it |
| Reconciler.ReconcilerByEvents | internal/hub/reconcile.go:17-75 | each change stores the flag and offers a token once; wanted is what the last change left, held what the last success carried or the last failure left; each copy of the set meets one outcome, each failure one re-raised flag and one backoff |
| Reconciler.ControlAlwaysWanted | internal/hub/hub.go:257-261 | because every critical section leaves the registry consistent, the control key is always wanted and in every successful Sync |
| Reconciler.Converges | internal/bus/memory.go:56-77 | once changes and failures stop, every schedule ends within a fixed number of steps with the bus holding the desired set |
| Closer.NothingLost | internal/hub/fanout.go:151-192 | in all runs each enqueued close is in exactly one of queue, closer, spawned goroutine, enqueuer, a draining Close, or done |
| Closer.NoAddAfterWait | internal/hub/fanout.go:140-149 | nothing registers on the wait group once a Close waits on it |
| Closer.CloseReturns | internal/hub/hub.go:348-366 | when Close returns every earlier close is done or in the hands of another Close, later ones are with their enqueuer; all are done exactly when no Close holds one |
| Closer.OverlappingCloseReturnsEarly | internal/hub/hub.go:358-365 | that second case happens |
| RedisDiff.LessTotal | internal/bus/redis.go:658-659 | byte order on names is total |
| RedisDiff.SortedIsUnique | internal/bus/redis.go:643-646 | a sorted list is fixed by its elements, so map order cannot show in the commands |
| RedisDiff.Diff | internal/bus/redis.go:647-661 | what is missing and what is too much, each sorted without duplicates |
| RedisDiff.Chunk | internal/bus/redis.go:665-671 | pieces that concatenate to the input, all full but the last, none empty |
| RedisDiff.PieceCount | internal/bus/redis.go:663-671 | there are ceil(n / size) of them |
| RedisDiff.PlanSync | internal/bus/redis.go:545-568 | removals then additions that turn current into desired, nothing held and wanted removed, no name in two commands, no command exactly when the sets agree |
| RedisDiff.EachCommandBites | internal/bus/redis.go:553-568 | every command of a sync changes what the server holds when its turn comes |
| RedisDiff.HalfwayIsHarmless | internal/bus/redis.go:553-568 | after any prefix of the commands the server holds nothing foreign and has lost nothing wanted |
| RedisSync.Keeps | internal/bus/redis.go:371-620 | every step of Sync, resync, reader, supervisor, server and Close keeps the protocol invariant |
| RedisSync.ConfirmedSet | internal/bus/redis.go:578-620 | in all runs confirmations of the chunk in flight are exactly its names; between chunks the live connection holds exactly `current` if and only if no chunk was abandoned on it; one a send or wait failed on is closed or going |
| RedisSync.SyncByEvents | internal/bus/redis.go:371-620 | connections opened are adopted, released and closed in turn; chunks a plan begins with are confirmed or given up with their connection dropped, none missing; each confirmation is read once; nothing else closes a connection |
| RedisSync.NilMeansApplied | internal/bus/redis.go:249-278 | after nil from Sync or resync the connection it speaks of holds exactly the desired set, with nothing outstanding, if and only if no earlier Sync or resync of the run gave up on a chunk that had reached its wire; always after a command |
| RedisSync.NilAfterAbandonedChunk | internal/bus/redis.go:535-551 | that failing case happens, in seven steps |
| AckWait.WaiterGetsThrough | internal/bus/redis.go:604-620 | a waiter is never parked over a full count with no poke under way: every schedule of reader and waiter ends with it through |
| ConnClose.Keeps | internal/conn/conn.go:407-427 | every statement of doClose and of both goroutines keeps the close invariant |
| ConnClose.OneWinner | internal/conn/conn.go:407-427 | the first closer through the once fixes the reason for good |
| ConnClose.ClosesOnce | internal/conn/conn.go:489-664 | deregistered once, socket closed once by the writer, a close frame last and with the winner's code like every disconnect frame, and the reader gone only with `closing` closed |
| ConnHistory.CloseFrameIff | internal/conn/conn.go:595-664 | the close frame with a code is written if and only if the writer drained its queue to the end on a healthy socket and the winner asked for that code |
| ConnHistory.EndsWithCloseFrame | internal/conn/conn.go:595-664 | a finished writer none of whose writes failed leaves the winner's close frame last, behind everything it took from the queue |
| ConnHistory.CallersMove | internal/conn/conn.go:402-427 | nobody waits in Close for ever: a caller can enter, go on, or waits behind an enabled statement of doClose |
| ConnHistory.ConnByEvents | internal/conn/conn.go:402-664 | the once entered and left at most once, each effect by its own statement, frames taken, written, pings and closes as many as their steps, the writer draining after having seen the end |
| ConnClose.DisconnectLast | internal/conn/conn.go:608-622 | once the disconnect frame was offered, some continuation queues another frame if and only if a Send is past its closed check and there is room, or a writer that can still make room |
| ConnClose.FrameAfterDisconnect | internal/conn/conn.go:359-371 | from the start of a connection, any frame can end up behind any disconnect frame |
| ConnClose.WireOrder | internal/conn/conn.go:495-594 | frames reach the wire in queue order, so an ordered queue is an ordered wire |
| ConnClose.WriterIsTold | internal/conn/conn.go:489-493 | after the reader has gone the writer always has a step towards its end |
| ServerDrain.AdmitCounted | internal/server/handler.go:263-272 | the per-user count stays the number of that user's connections and within the cap |
| ServerDrain.UntrackCounted | internal/server/handler.go:244-256 | also when one goes |
| ServerDrain.Server.Reserve | internal/server/handler.go:89-101 | admits exactly when not draining and below the limit |
| ServerDrain.Server.Release | internal/server/handler.go:109-117 | closes the shared channel exactly at zero |
| ServerDrain.Server.Track | internal/server/handler.go:232-237 | recorded, and told whether a drain has begun |
| ServerDrain.Server.Untrack | internal/server/handler.go:244-256 | forgotten, its user's slot returned |
| ServerDrain.Server.AdmitUser | internal/server/handler.go:263-272 | bound to the user, or refused at the cap |
| ServerDrain.Server.Snapshot | internal/server/server.go:438-447 | draining, with exactly the tracked connections |
| ServerDrain.Server.WaitOn | internal/server/server.go:488-501 | nothing to wait for, or the one channel all drains share |
| ServerDrain.Keeps | internal/server/handler.go:103-117 | every step of handshakes and drains keeps counts, books and coverage |
| ServerDrain.DrainCovers | internal/server/server.go:438-471 | in all runs `current` counts the handshakes between reserve and release, within the limit; after a drain began each tracked connection is closed, about to be, or told to close itself; no channel is closed twice |
| DrainHistory.DrainByEvents | internal/server/server.go:438-510 | `current` is admissions less releases; who is in a drain's snapshot, told to close itself or closed, by the events alone; a drain that reports the server empty is right, and nobody comes in again |
| ServerDrain.DrainEnds | internal/server/server.go:481-510 | once draining the count only falls, and at zero no waiter stays parked |
| RateLimit.CurrentWindow | internal/server/ratelimit.go:126-138 | the current window has counted each mark since its start, and the span of one period before it at most one window's worth |
| RateLimit.SlidingBound | internal/server/ratelimit.go:84-146 | any span of one period holds at most two windows' worth |
| RateLimit.Limiter.Allow | internal/server/ratelimit.go:120-146 | allowed and abusive as functions of the history of calls |
| RateLimit.AllowedBound | internal/server/ratelimit.go:120-138 | at most 2 * count events in any period, at most count in one window |
| RateLimit.AbusiveMeans | internal/server/ratelimit.go:140-145 | abusive means at least 10 refusals in the last 60 seconds |
| RateLimit.ToleratedRefusals | internal/server/ratelimit.go:15-22 | a connection never found abusive was refused at most 18 times in any 60 seconds |
| Webhook.TokensReturn | internal/webhook/webhook.go:442-485 | in all runs slots and queue places stay within their caps, are always returnable, and are all back when all calls have ended |
| Webhook.CallsEnd | internal/webhook/webhook.go:442-485 | the channels hold what was taken less what was given back; no call without a slot taken for it; each call ends within six steps of its own and can always take one |
| Webhook.Attempts | internal/webhook/webhook.go:493-526 | every request inside what is left of the budget; an authorization, a denial and a rejected request are final; any other failure is retried while turns, budget and caller last; which result |
| Webhook.ClampExpiryRange | internal/webhook/webhook.go:695-703 | in range exactly from -9223372036 seconds up, or where the wrapped product is; there the application's wish moved into the range |
| Webhook.ClampExpiryWraps | internal/webhook/webhook.go:692-700 | one second below, the maximum is exceeded |
| AnswerCache.LastPutMeans | internal/webhook/cache.go:119-165 | the history specification, by position |
| AnswerCache.Store | internal/webhook/cache.go:147-155 | sweeping forgets only what has expired; nothing kept is older than two ttls |
| AnswerCache.Cache.Get | internal/webhook/cache.go:121-137 | a value exactly when the last put since the last flush is younger than ttl, and never a wrong one even if the clock runs backwards |
| AnswerCache.Cache.Put | internal/webhook/cache.go:140-156 | the history grows by the put; every entry kept was put later than now - 2 * ttl |
| AnswerCache.Cache.Flush | internal/webhook/cache.go:161-165 | nothing put before is answered again |
| Consumer.Keeps | internal/consumer/consumer.go:219-336 | every step of workers and control goroutine keeps the account |
| Consumer.EveryMessageCounted | internal/consumer/consumer.go:219-353 | in all runs no message that came on the control key reaches Dispatch and no other reaches Control; each counter is the number of messages that met its fate; nothing is sent on the closed control queue |
| Consumer.EveryMessageHandled | internal/consumer/consumer.go:188-266 | without a cancelled context each message is in one place for each time it arrived; when Run has returned each was delivered or applied, as often as it came |
| Consumer.RunReturns | internal/consumer/consumer.go:188-210 | after the bus closes every schedule ends, with Run returned |
| JsClient.FailAll | client/js/sidecartunnel.js:250-259 | every command outstanding is rejected once, and every settled one stays as it was |
| JsClient.SendQueue | client/js/sidecartunnel.js:223-225 | the queue is sent in order under fresh consecutive ids |
| JsClient.PassKeeps | client/js/sidecartunnel.js:203-217 | a pass over the registry leaves no unsettled promise without someone to settle it |
| JsClient.PassedMeans | client/js/sidecartunnel.js:203-281 | what the connect reply, a lost connection and the end make of each entry |
| JsClient.ReplaysAll | client/js/sidecartunnel.js:182-194 | the connect frame replays the whole registry |
| JsClient.Connected | client/js/sidecartunnel.js:196-225 | granted entries active and settled, the others dropped and settled, the queue in flight |
| JsClient.SocketLost | client/js/sidecartunnel.js:242-281 | every outstanding command fails with its then-handler to run, the registry is passed over, nothing stays queued or in flight; stopped for good exactly when told, else the timer armed |
| JsClient.Shut | client/js/sidecartunnel.js:474-511 | nothing queued, in flight or registered, no socket, no timer |
| JsClient.RequestedGood | client/js/sidecartunnel.js:385-396 | a new command is queued or in flight under an id unique on the connection |
| JsClient.SubscribedGood | client/js/sidecartunnel.js:400-426 | a new entry whose promise someone will settle |
| JsClient.LeavingGood | client/js/sidecartunnel.js:448-453 | unsubscribing on a connection that is up |
| JsClient.JobRunGood | client/js/sidecartunnel.js:413-424 | then-handlers keep every promise accounted for |
| JsClient.HandlerMeans | client/js/sidecartunnel.js:413-453 | what each then-handler does by outcome: a refused entry is out of the registry and settled, a lost connection changes nothing, an unsubscribe carried out or not needed removes the channel |
| JsClient.CommandsAccounted | client/js/sidecartunnel.js:137-139 | every command promise is in exactly one of queued, in flight under one id, settled; settled on a closed client |
| JsHistory.HistTrace | client/js/sidecartunnel.js:196-472 | in every state of every run, a promise that waits is in the registry, about to be settled by a then-handler, or displaced with its command unanswered or cut off; and one displaced or forgotten never comes back |
| JsHistory.UnsettledIffForgotten | client/js/sidecartunnel.js:484-511 | on a closed client whose then-handlers have run, a subscribe promise is unsettled if and only if it was displaced with its command unanswered and the connection went later with it still unanswered |
| JsHistory.OwedOrForgotten | client/js/sidecartunnel.js:402-424 | in every state of every run, an unsettled promise has a connect reply, its own reply or a then-handler to settle it if and only if it is not forgotten |
| JsHistory.ForgottenForEver | client/js/sidecartunnel.js:415-419 | once forgotten a promise is unsettled in every later state, close included |
| JsHistory.OutcomeIff | client/js/sidecartunnel.js:303-336 | in every run a command is settled with an outcome if and only if some event gave it: its own reply, resolved or with the code it carried, or the loss of connection or client while outstanding |
| JsHistory.Resubscribes | client/js/sidecartunnel.js:402-411 | the client itself, subscribing over an unanswered unsubscribe and then losing the connection, leaves the first promise forgotten |
| JsHistory.AnsweredOutOfOrder | client/js/sidecartunnel.js:448-453 | so does one subscribe, if the reply to its unsubscribe comes before its own |
| JsClient.SidecarTunnel.constructor | client/js/sidecartunnel.js:123-153 | a socket, or a timer if it cannot be made |
| JsClient.SidecarTunnel.TimerFires | client/js/sidecartunnel.js:163-179 | exactly one of socket and timer again |
| JsClient.SidecarTunnel.SocketOpens | client/js/sidecartunnel.js:182-194 | connect is the first frame, under id 1 |
| JsClient.SidecarTunnel.Receive | client/js/sidecartunnel.js:303-336 | a reply settles the command with its id, an error with its code and any other resolved, and no other command |
| JsClient.SidecarTunnel.Revoked | client/js/sidecartunnel.js:357-370 | an unsubscribed push drops and settles the entry |
| JsClient.SidecarTunnel.SocketCloses | client/js/sidecartunnel.js:242-281 | every outstanding command fails; closed exactly as the last disconnect frame or else the code says, and otherwise the timer armed |
| JsClient.SidecarTunnel.Command | client/js/sidecartunnel.js:385-396 | rejected at once when closed, else queued or sent |
| JsClient.SidecarTunnel.Subscribe | client/js/sidecartunnel.js:400-426 | refused when closed or held, else a new entry |
| JsClient.SidecarTunnel.Unsubscribe | client/js/sidecartunnel.js:428-453 | refused, local, or sent |
| JsClient.SidecarTunnel.RunJob | client/js/sidecartunnel.js:413-424 | what one then-handler changes |
| JsClient.SidecarTunnel.Close | client/js/sidecartunnel.js:474-494 | idempotent; outcomes already settled stand |

## Left out

- Closer.CloseReturns: says nothing about how long a close takes, because closing a connection is a call into another component.
- Consumer.EveryMessageCounted: the sum is claimed only without a cancelled context, because cancelling drops messages by design.
- AnswerCache.Cache.Put: the two-ttl bound is claimed only while calls come in clock order, because an earlier time leaves the sweep behind.
- JsClient.SidecarTunnel.Receive: does not model re-entry from application callbacks, because the client itself assumes none.
- JsClient.SidecarTunnel.SocketCloses: assumes, as the host guarantees, that a socket that was closed delivers nothing but its close event.
- JsClient.SidecarTunnel: retry delays, counters, state-change callbacks and push delivery to handlers, because they feed back into nothing.
- JSON encoding and decoding, ParseEnvelope, ParseControl and the texts of replies: frames are datatypes that keep what a client learns about its channels.
- Signatures, nonces, digests and random ids: foreign calls; Verify's answer is part of a control message.
- Sockets, HTTP, TLS, go-redis and gorilla internals, go-redis's own reconnecting inside a PubSub among them: a send on a closed subscriber fails, a connection can die at any step.
- validate and orDefault of control messages, publish and sync commands, the error-code mapping: flat checks.
- backoff, nextBackoff, retryAfter and the order of a Go map walk: delays and orders nothing here depends on.
- MemoryBus.Publish and Close, and Health: only MemoryBus.Sync takes part in the reconciler theorem.
- Configuration loading, logging, readiness, the origin check, command line wiring and the example application.
- Wall-clock liveness and fairness: instead of time, runs are shown to end, and waiting only to happen where someone else can move.
