# Multichannel gateway: a verified model

The gateway carries messages between Chatwoot and the users of several messaging
channels. This project models its delivery machinery in Dafny and proves what that
machinery promises.

* **The durable pipeline.** `MessageQueue` holds the queue and processed-key tables and the
  statements that change them, `Worker` the run loop with its semaphore and tasks,
  `Delivery` the whole system: any number of publishers and worker processes over shared
  tables. A step is the code between two suspension points, so a run is one interleaving.
  Every database statement may raise, before or after taking effect, and a worker may crash
  at any step. `DeliverySafety`, `Deduplication`, `Redelivery` and `RedeliveryExact` prove
  statements about all runs; `Processing` has the publishing and settling code as methods
  and proves each one to be a run of that system. `WorkerRuns` is what whole runs of one
  worker do with what they read, and how they stop; `Wakeup` the LISTEN/NOTIFY protocol.
* **The two request/reply correlators.** `Signal` is client, daemon and the two streams of
  a connection, `SignalLag` what each send is answered with, `SignalInbound` what becomes of
  incoming messages; `Simplex` is the client that matches replies by correlation id, with
  `SimplexEvents` and `SimplexInbound` for what an event becomes.
* **Identity and return addresses.** `IdempotencyKey`, `Registry`, `Routing`, `AliasStore`,
  `IdentityStore`, and `Replies`, which follows a reply through routing and the tables.
* **Reconciliation under retry.** `Chatwoot` interleaves delivery attempts request by request,
  `ChatwootWorker` puts them into the tasks of a worker; `AccountSync`, `SharedAddresses`,
  `DeltaChat`, `ContactMapping`.

Code that changes objects step by step is a class whose methods are proved equal to a step
of the state machine or to a specification function; the properties are lemmas about those.
A coroutine is split at its suspension points, one method for each stretch of code.  The
table below leaves out methods that are one branch of a step, such as the other statements
of `PGMessageQueue` and the other handlers of `BaseWorker`, `Notifications`,
`SignalBridgeConnection`, `SimplexConnection` and `ContactAliasStore`; each is proved equal
to its step all the same.

## What is assumed

* PGMQ: `send` gives a fresh id with read count 0; `read` returns visible rows only, none
  twice, counts the read and hides the row for the visibility timeout; `delete`, `archive`
  and `set_vt` on a missing id do nothing.
* Time is the visibility clock. Random choices, generated ids and the answers of other
  services are parameters, so every statement holds for all of them.
* The Chatwoot search returns the exact contact first if it exists, and the server creates
  contacts and conversations without looking for an existing one.
* Delta Chat transports store the address they are given.
* The key hash is any function to strings of twelve characters.

## What turned out not to hold

Each of these has a lemma with a concrete run or input, and a lemma that says exactly when
the property holds.

* A gateway process uses one event for both of its queues. With two queues on an event a
  wake-up can be lost, and with a failing read too: `Wakeup.NoLostWakeUpIff`. A missed
  message then waits for the timeout of the wait.
* A Signal send that times out shifts the results of later sends on the connection
  (`Signal.TimeoutShiftsResults`); `SignalLag.OwnResultIff` says, at the send, when it gets
  its own result.
* An email publish returns normally when the insert failed: `DeliverySafety.ReturnLeavesACopyIff`.
* Two overlapping publishes of one key enqueue it twice (`Deduplication.OverlapEnqueuesTwice`);
  exactly when a copy can still be added is `Deduplication.AnotherCopyIff`.
* Overlapping calls for one new contact leave an actor id that no longer resolves
  (`IdentityStore.OverlapOrphansAnActor`); an actor id is safe exactly when
  `IdentityStore.ActorStaysIff` says so.
* Overlapping deliveries for one new contact leave two contacts and two conversations
  (`Chatwoot.OverlapDuplicates`), exactly as `Chatwoot.AnotherContactIff` and
  `Chatwoot.AnotherConversationIff` say; one process of limit one never does
  (`ChatwootWorker.OneProcessConverges`).
* With anonymization off, the default, a reply to a user of native Delta Chat never
  reaches the user: `Replies.NativeReplyIff`.
* `set_vt` lets a delay between zero and one second through as zero; the rate-limit path
  never reports such a delay: `MessageQueue.HalfSecondIsNotHidden`,
  `MessageQueue.SetVtHidesIff`, `MessageQueue.RateLimitRetryHides`.
* Connectors that share an address share an account or change accounts at the second boot
  (`SharedAddresses.SharedAddressMoves`): `SharedAddresses.ConvergesIff` and
  `SharedAddresses.AccountsStayIff`.
* A Delta Chat client that is stopped and started again starts no event thread for the
  connectors it had: `DeltaChat.RestartSpawnsIff`.

## Model

| member | source | states |
|---|---|---|
| MessageQueue.ExecConserves | src/multichannel_gateway/infrastructure/pg_message_queue.py:93-257 | no statement loses, renames or revives a sent message: live, archived and deleted stay a partition of the ids sent |
| MessageQueue.SetVtHidesIff | src/multichannel_gateway/infrastructure/pg_message_queue.py:213-219 | a re-timed message is hidden for at least a second exactly when the delay is no positive fraction of a second |
| MessageQueue.RateLimitRetryHides | src/multichannel_gateway/app/workers/from_chatwoot.py:48-54 | whatever retry delay a channel reports, fractional, zero or negative, the retry hides the message for at least one second, and for its whole seconds |
| MessageQueue.HiddenUntil | src/multichannel_gateway/infrastructure/pg_message_queue.py:130-149 | a row that was read or re-timed is invisible for exactly its seconds; a read counts, a retry does not, and other rows stay as they are |
| MessageQueue.RateLimitedIsNotReread | src/multichannel_gateway/app/workers/base.py:288-298 | once the retry of a rate-limited message is scheduled no read takes it, whatever statements and reads come in between, until its timeout, a second at least, has passed |
| MessageQueue.PGMessageQueue.Read | src/multichannel_gateway/infrastructure/pg_message_queue.py:130-149 | returns visible rows only, none twice and no more than asked for, leaves no visible candidate out while there is room, and counts and hides exactly those; a read that raises has done so or has done nothing |
| MessageQueue.PGMessageQueue.SetVt | src/multichannel_gateway/infrastructure/pg_message_queue.py:213-257 | re-times the live row by the truncated, clamped delay; nothing for a missing id |
| Worker.StepInv | src/multichannel_gateway/app/workers/base.py:50-156 | every step of the loop and of every task keeps the permit account, the release count and what a shutdown awaits |
| Worker.Concurrency | src/multichannel_gateway/app/workers/base.py:113-146 | in every state of every run, free permits, registered tasks and a permit handed over add up to `message_limit`; the loop waits for a permit only when none is free; each task releases exactly once |
| Worker.OneAtATime | src/multichannel_gateway/app/workers/to_chatwoot.py:26 | with the default limit of one, two registered tasks are the same task, so deliveries of one process do not overlap |
| Worker.EndedAfterEveryTask | src/multichannel_gateway/app/workers/base.py:148-156 | once `run` has ended, every task it ever spawned has finished, and none is spawned later |
| WorkerRuns.EveryReadBecomesATask | src/multichannel_gateway/app/workers/base.py:127-146 | over every run that is not stopped each message read becomes exactly one task, in the order of the reads, but for those the loop still holds |
| WorkerRuns.StopSpawnsAtMostOne | src/multichannel_gateway/app/workers/base.py:129-133 | after a stop nothing more is spawned, except the one message a loop that was waiting for a permit waited for |
| WorkerRuns.StoppedNeverReads | src/multichannel_gateway/app/workers/base.py:52 | once the loop is at its top after a stop it never reads again and spawns nothing |
| WorkerRuns.FailedWaitLeaves | src/multichannel_gateway/app/workers/base.py:64-71 | a wait that raises ends the loop: nothing is read or spawned any more |
| WorkerRuns.EmptyReadWaits | src/multichannel_gateway/app/workers/base.py:53-56 | after a read that was empty or raised the loop neither reads nor spawns before a wait has come back |
| Worker.BaseWorker.ProcessNext | src/multichannel_gateway/app/workers/base.py:129-139 | one turn of the batch is one step of the loop, the one the `WorkerRuns` statements are about: nothing of it is spawned when stopping, a task is created with a free permit, the loop blocks without |
| Worker.BaseWorker.OnTaskDone | src/multichannel_gateway/app/workers/base.py:113-115 | drops the task, then frees its permit or hands it to the blocked loop |
| DeliverySafety.StepInv | src/multichannel_gateway/app/workers/base.py:262-318 | every step of publishers, workers and clock keeps the partition, the causes of settlement and the publishers' account, and takes no history back |
| DeliverySafety.ConservationAndCause | src/multichannel_gateway/app/workers/base.py:262-318 | in every later state of every interleaving a sent message is in exactly one place under its key, was deleted only after a normal handler return and archived only for a caught exception the policy archives; a settled message never comes back |
| DeliverySafety.ArchiveCauses | src/multichannel_gateway/app/workers/base.py:274-318 | an archived message had a fatal error, a transient one at attempts 10 or more, or another one at attempts above 10, from its handler or from the delete |
| DeliverySafety.SettledAsDue | src/multichannel_gateway/app/workers/base.py:274-318 | settling a live message archives it exactly for a fatal error, a transient one at attempts 10 or more, or another one above 10; it re-times it by the delay for a transient error before that, and leaves it untouched otherwise |
| DeliverySafety.NoAcceptedMessageIsLost | channels/telegram_channel/tg_message_processor.py:66-106 | once a publish returned normally or reported the key as processed, one copy with that key is accounted for in every later state of every interleaving |
| DeliverySafety.AcknowledgedIsMarked | channels/telegram_channel/tg_message_processor.py:101-106 | a publish that has marked, returned normally or reported a duplicate has its key in the processed-key table, then and in every later state, where every check of the key finds it |
| DeliverySafety.ReturnLeavesACopyIff | channels/email_channel/email_message_processor.py:46-63 | every publish of a kind that returned normally has left a copy exactly when the kind is not email |
| DeliverySafety.EmailReturnsWithoutACopy | channels/email_channel/email_message_processor.py:55-63 | the run in which an email publish returns although nothing was enqueued |
| Deduplication.CopiesBoundedByPassed | channels/telegram_channel/tg_message_processor.py:86-106 | a key never has more copies than publishes whose check found it unmarked |
| Deduplication.MarkBoundsCopies | src/multichannel_gateway/infrastructure/pg_message_queue.py:323-359 | a marked key has a copy, and for ever at most as many as publishes whose check preceded the mark |
| Deduplication.LatePublishAddsNone | channels/telegram_channel/tg_message_processor.py:70-75 | a publish whose check follows the mark sends nothing |
| Deduplication.ExactlyOneCopy | channels/telegram_channel/tg_message_processor.py:86-106 | publishes of a key that do not overlap, none failing between send and mark, leave at most one copy, and exactly one once it is marked or acknowledged |
| Deduplication.OverlapEnqueuesTwice | channels/telegram_channel/tg_message_processor.py:86-106 | two publishes that both check before either marks enqueue the message twice with no statement failing |
| Deduplication.AnotherCopyIff | channels/telegram_channel/tg_message_processor.py:86-106 | from any reachable state, some interleaving enqueues one more copy of a key exactly when the key is unmarked or a publish of it stands between its check and its send |
| Redelivery.StepInv | src/multichannel_gateway/app/workers/base.py:127-146 | the invariant behind the bound: copies are distinct and run once, and every copy past the retry allowance of a live message is still held by the loop or a task |
| Redelivery.BoundedRedelivery | src/multichannel_gateway/app/workers/base.py:274-318 | if settlement statements succeed, in one process with limit L a message has at most 11 + L handler runs, twelve for the default, for any visibility timeout, handlers, failing reads and other messages |
| Redelivery.BoundedRedeliveryApart | src/multichannel_gateway/app/workers/base.py:274-318 | at most eleven if the message is never read while a task still holds an earlier copy of it |
| RedeliveryExact.BoundIsReached | src/multichannel_gateway/app/workers/base.py:127-139 | for every limit and timeout some run has exactly 11 + L handler runs: the stale copy that waited on the semaphore runs after the message was archived |
| RedeliveryExact.ApartBoundIsReached | src/multichannel_gateway/app/workers/base.py:309-318 | and some run whose reads stay apart has exactly eleven |
| Processing.MessageProcessor.Publish | channels/telegram_channel/tg_message_processor.py:66-77 | run on its own, it is a run of the publisher in the transition system; an unknown connector fails it before anything is touched; it is a duplicate exactly when the check finds the key, and returns exactly when the calls succeed (for email, also when send or mark raise); it adds one unread row exactly when the send takes effect, and the key to the processed ones exactly when the send succeeded and the mark took effect |
| Processing.MessageProcessor.ProcessQueue | channels/telegram_channel/tg_message_processor.py:101-106 | send then mark, as a run of the publisher, with the rows and the processed keys it leaves; marks only after a successful send |
| Processing.PublishTwice | channels/telegram_channel/tg_message_processor.py:70-75 | over any tables, once a publish of a key has marked it, a second publish whose check succeeds is a duplicate and leaves the tables as they are |
| Processing.Settler.HandleError | src/multichannel_gateway/app/workers/base.py:274-318 | archives, re-times or leaves the message as the error and the attempts demand, and hands on what the statement raises |
| Processing.Settler.HandleWithRetries | src/multichannel_gateway/app/workers/base.py:262-272 | a run of the task in the transition system up to its end; deleted exactly when handler and delete succeed; otherwise archived, re-timed or left as the exception, of the handler or of the delete, and the attempts demand, with the row re-timed by the delay and nothing else touched |
| Wakeup.NoLostWakeUp | src/multichannel_gateway/infrastructure/pg_message_queue.py:259-321 | one queue on the event, reads that succeed: a worker blocked with an open listener and no notification in transit has read everything that was inserted |
| Wakeup.SharedEventLosesWakeUp | src/multichannel_gateway/app/wiring.py:38-43 | any two queues on one event: a run after which one of them blocks over a message |
| Wakeup.FailedReadMissesMessages | src/multichannel_gateway/app/workers/base.py:89-97 | a read that raises is followed by a wait as if the queue were empty: the run that blocks over a message |
| Wakeup.NoLostWakeUpIff | src/multichannel_gateway/infrastructure/pg_message_queue.py:268-313 | no wake-up is ever lost exactly when at most one queue uses the event and reads succeed |
| Wakeup.WaitsEndInReads | src/multichannel_gateway/app/workers/base.py:52-58 | however a wait ends, by a notification or by its timeout, the next thing its worker does is another read |
| Wakeup.CloseWakesAll | src/multichannel_gateway/infrastructure/pg_message_queue.py:361-362 | closing the queue object leaves no worker waiting |
| Wakeup.Notifications.SetEvent | src/multichannel_gateway/infrastructure/pg_message_queue.py:361-362 | raises the flag and resolves every blocked wait, and nothing else |
| Signal.Session | signal-bridge/src/main.rs:250-291 | whatever the receive task writes in between, each valid command line gets one result, in the order of the commands, blank and undecodable lines get none, and every message the receive task wrote is there in order |
| Signal.HandleCommand | signal-bridge/src/main.rs:294-323 | one line gives one result exactly when it decodes |
| Signal.StepInv | channels/signal_channel/sig_bot_manager.py:96-124 | every step of client, daemon and streams keeps: unanswered commands are the latest ones, pending futures some of them in order, no more missing than discarded |
| Signal.BoundedLag | channels/signal_channel/sig_bot_manager.py:193-209 | in every reachable state the pending futures are a subsequence of the unanswered commands, and no future took the result of a later command or of one more positions back than sends were discarded on the connection |
| Signal.ExactLag | channels/signal_channel/sig_bot_manager.py:193-197 | a result handed to a live sender is that of the command exactly as many positions earlier as discarded sends are still unanswered |
| SignalLag.OwnResultIff | channels/signal_channel/sig_bot_manager.py:96-124 | decided at the send: whatever follows, an answer to it is the result of the command as many positions earlier as discarded sends were unanswered then, so it is its own exactly when there were none |
| SignalLag.LagOfConnection | channels/signal_channel/sig_bot_manager.py:205-209 | after a connect, a result belongs to a command at most as many positions earlier as sends have been given up on that connection |
| Signal.NoTimeoutsOwnResults | channels/signal_channel/sig_bot_manager.py:96-124 | in a run without timeouts or failed writes every answered future has its own result, cancelled callers and reconnects included |
| Signal.TimeoutShiftsResults | channels/signal_channel/sig_bot_manager.py:115-124 | the run in which a timeout hands its result to the next sender |
| Signal.NoStrandedSender | channels/signal_channel/sig_bot_manager.py:126-156 | from the end of a teardown to the next connect nothing is pending and the waiting sender's future is done; the teardown completes every future it finds pending |
| SignalInbound.ReceivedIsInbound | channels/signal_channel/sig_bot_manager.py:174-177 | over any run, connects and teardowns included, the inbound queue gains exactly the messages received, in order |
| SignalInbound.PushedArrives | channels/signal_channel/sig_bot_manager.py:158-177 | on one connection what is in the inbound queue and on its way there is what was there before, followed by what the daemon pushed: nothing is lost, doubled or reordered |
| SignalInbound.SendsEnd | channels/signal_channel/sig_bot_manager.py:96-124 | however a send ends it gives the lock back and, unless it was still writing, leaves no open future |
| Signal.SignalBridgeConnection.DiscardPending | channels/signal_channel/sig_bot_manager.py:205-209 | takes the future out of the deque wherever it stands, keeping the order of the others |
| Signal.SignalBridgeConnection.FailPending | channels/signal_channel/sig_bot_manager.py:199-203 | empties the deque and fails exactly the pending futures that are not done |
| Simplex.IdTextInjective | channels/simplex_channel/sx_bot_manager.py:104-106 | different counters have different correlation ids |
| Simplex.StepInv | channels/simplex_channel/sx_bot_manager.py:100-120 | every step keeps: a pending id is that of its own future, a live open future is pending, a reply sits only in the future that bears its id, and done futures stay as they are |
| Simplex.ReplyMatching | channels/simplex_channel/sx_bot_manager.py:100-120 | over whole runs with timeouts, cancellations and reconnects a future completes at most once and only with its own id, and no later command reuses that id |
| Simplex.UnmatchedReply | channels/simplex_channel/sx_bot_manager.py:213-237 | a reply nobody waits for completes no future and changes only the inbound queue, which it enters as received one-to-one texts |
| Simplex.MatchedReply | channels/simplex_channel/sx_bot_manager.py:213-222 | a reply to a pending id goes to the command that sent it, unless its future is done, and to no one else |
| Simplex.GivenUpIsForgotten | channels/simplex_channel/sx_bot_manager.py:109-119 | a command given up after a failed send or a timeout is forgotten: in every later state a reply with its id completes nothing and is taken for an event |
| Simplex.CancelledIsSwallowed | channels/simplex_channel/sx_bot_manager.py:213-220 | the reply to the command of a cancelled caller is swallowed: no future, no event |
| Simplex.NoStrandedSender | channels/simplex_channel/sx_bot_manager.py:161-199 | from the end of a teardown to the next connect nothing is pending and every waiting caller has a completed future; the teardown completes every future it finds pending |
| Simplex.SimplexConnection.HandleEvent | channels/simplex_channel/sx_bot_manager.py:224-237 | appends the messages of the event's entries in order, up to an entry that raises |
| Simplex.SimplexConnection.FailAllPending | channels/simplex_channel/sx_bot_manager.py:268-272 | fails exactly the pending futures that are not done and empties the table |
| SimplexEvents.ForwardsIff | channels/simplex_channel/sx_bot_manager.py:239-266 | an entry is forwarded exactly when it is a received one-to-one text with a contact, visible text and a usable meta field, and then with that contact and the text without the white space around it |
| SimplexEvents.EmittedAreReceivedTexts | channels/simplex_channel/sx_bot_manager.py:224-237 | everything an event adds to the inbound queue is such an entry of the event |
| SimplexInbound.RaisesIff | channels/simplex_channel/sx_bot_manager.py:239-266 | handling an entry raises exactly when one of the objects on the way to a field it asks for is none, or its text no string |
| SimplexInbound.EveryTextArrives | channels/simplex_channel/sx_bot_manager.py:213-237 | a reply that answers no pending command adds to the inbound queue, read off the raw event: of several items exactly the received one-to-one texts, one each, in order, up to the first malformed item; of a single item its text; of any other event nothing |
| IdempotencyKey.ExtraOrderIrrelevant | src/multichannel_gateway/core/interfaces/envelope_factory.py:23-46 | the extra field does not depend on the order of the keyword arguments |
| IdempotencyKey.KeyDecodes | src/multichannel_gateway/core/interfaces/envelope_factory.py:23-46 | equal keys have equal directions, connectors and all three hash fields, even when the connector contains a colon |
| IdempotencyKey.KeysEqualIff | src/multichannel_gateway/core/interfaces/envelope_factory.py:23-46 | two keys with present ids are equal exactly when direction and connector are, and the hashes of the external id, the message id and the arguments sorted by name, twelve zeros where there are none |
| IdempotencyKey.KeyNeedsIds | src/multichannel_gateway/core/interfaces/envelope_factory.py:31-34 | there is no key exactly for an empty external id or an empty message id |
| IdempotencyKey.EmailExtraInjective | channels/email_channel/email_envelope_factory.py:29-37 | the text hashed for an email determines the mailbox, whatever it contains, and both numbers |
| IdempotencyKey.EmailKeysDiffer | channels/email_channel/email_envelope_factory.py:29-37 | emails that differ in mailbox, uid or uidvalidity have different keys if the hash tells their two texts apart |
| Registry.DiscoveryIsExact | src/multichannel_gateway/infrastructure/registry.py:39-57 | the registered names are exactly the entry-point and channel names of the loaded entry points, each once, and each leads to the last loaded one that carries it |
| Registry.DiscoveredByName | src/multichannel_gateway/infrastructure/registry.py:33-57 | a name is registered exactly when an entry point asked for, by either of its names in whatever case, carries it, and leads to the last such |
| Registry.NamesKeepOrder | src/multichannel_gateway/infrastructure/registry.py:54-56 | a name keeps the position at which it was first registered |
| Registry.ChannelRegistry.DiscoverChannels | src/multichannel_gateway/infrastructure/registry.py:21-78 | fills the table so, and reports missing or undiscovered channels as the source does |
| Routing.ReplyAddressIff | src/multichannel_gateway/app/services/handlers.py:98-107 | without anonymization every id of every registered channel gets its reply on that channel with the original id, whatever the webhook URL, exactly when no registered name followed by an underscore is a prefix of another |
| Routing.RoundTrip | src/multichannel_gateway/app/services/channel_to_chatwoot_orchestrator.py:23-34 | prefix, resolve and strip return channel and id when names are prefix-free |
| Routing.AmbiguousAddress | src/multichannel_gateway/app/services/handlers.py:138-152 | the id whose reply goes astray when one name extends another |
| Routing.OwnIdentityVerbatim | src/multichannel_gateway/app/services/handlers.py:74-86 | under anonymization an identifier tagged with a channel's own name goes to that channel untouched |
| Routing.UnprefixedFallsBack | src/multichannel_gateway/app/services/handlers.py:138-152 | an identifier that names no registered channel goes to the webhook's channel as it is |
| Routing.UnknownAliasIsRefused | src/multichannel_gateway/app/services/handlers.py:87-94 | under anonymization such an identifier is refused exactly when the alias table does not know it |
| Routing.ShippedNamesPrefixFree | pyproject.toml:37-45 | any selection of the shipped channels, in any order, registers prefix-free names |
| Replies.AliasReplyIff | src/multichannel_gateway/app/services/handlers.py:87-96 | whatever the alias table went through before and since, the reply to an alias of a channel's user reaches that channel with the real id exactly when it comes in on that channel's webhook |
| Replies.NativeReplyIff | channels/delta_chat_channel/dc_transport.py:65-69 | the reply to a contact that native Delta Chat published finds the contact exactly when users are anonymized; without, routing strips the name off the actor id and no row has the rest |
| Replies.OrchestratedActorReplies | src/multichannel_gateway/app/services/channel_to_chatwoot_orchestrator.py:23-34 | an actor id that went through the orchestrator comes back whole and resolves to its contact |
| AliasStore.AliasForEver | src/multichannel_gateway/infrastructure/contact_alias_store.py:47-104 | under every interleaving an alias handed out stays its contact's alias, belongs to no other, resolves to its real id ever after, and is returned again |
| AliasStore.AliasIsIssuedIff | src/multichannel_gateway/infrastructure/contact_alias_store.py:55-68 | a call whose statement goes through returns an alias, the contact's own or else the generated one, exactly unless the generated one is taken |
| IdentityStore.ActorForEver | src/multichannel_gateway/infrastructure/identity_store.py:29-72 | if the calls for a contact have not overlapped when one returned, its actor id stays the contact's and resolves to its external id and to nothing else, whatever overlaps later |
| IdentityStore.ActorStaysIff | src/multichannel_gateway/infrastructure/identity_store.py:29-56 | the actor id of a contact stays in every later state of every interleaving exactly when no call for the contact stands between its select and its upsert |
| IdentityStore.OverlapOrphansAnActor | src/multichannel_gateway/infrastructure/identity_store.py:29-56 | two overlapping calls both return, and the first one's actor id no longer resolves |
| IdentityStore.ActorStore.GetOrCreateActorId | src/multichannel_gateway/infrastructure/identity_store.py:29-56 | a call on its own is its steps in the transition system, statements that raise before or after their effect included, and returns what the table then holds |
| Chatwoot.AttemptKeeps | src/multichannel_gateway/infrastructure/chatwoot_client/cw_client.py:44-103 | in every interleaving a request leaves at most one object, the contact of its attempt, a conversation of that contact and inbox, or its message there, which ends the attempt; a delivered attempt has its message in such a conversation |
| Chatwoot.FailsAsRaised | src/multichannel_gateway/infrastructure/chatwoot_client/cw_client.py:44-103 | an attempt fails exactly when one of its requests raises, and with that error |
| Chatwoot.RetriesConverge | src/multichannel_gateway/infrastructure/chatwoot_client/cw_client.py:60-101 | over any number of attempts for a contact that do not overlap, failing anywhere, while others go on, the contact and its conversation for each inbox are created at most once, and deliveries for the pair used the same conversation |
| Chatwoot.OverlapDuplicates | src/multichannel_gateway/infrastructure/chatwoot_client/cw_client.py:60-84 | the interleaving of two deliveries that both succeed and leave two contacts and two conversations |
| Chatwoot.AnotherContactIff | src/multichannel_gateway/infrastructure/chatwoot_client/cw_client.py:60-75 | a contact that exists can be created once more exactly when an attempt for it stands between an empty search and its create |
| Chatwoot.AnotherConversationIff | src/multichannel_gateway/infrastructure/chatwoot_client/cw_client.py:71-88 | a conversation of a contact and inbox can be created once more exactly when an attempt for them stands before its create |
| ChatwootWorker.OneProcessConverges | src/multichannel_gateway/app/workers/to_chatwoot.py:26 | the tasks of one process with the default limit, handling whatever messages, never duplicate a contact or a conversation: the one permit keeps their attempts apart |
| Chatwoot.ChatwootClient.Deliver | src/multichannel_gateway/infrastructure/chatwoot_client/cw_client.py:44-103 | run on its own it is a run of one attempt to its end, delivered exactly when none of the requests it makes fails |
| Chatwoot.ChatwootClient.GetConversationId | src/multichannel_gateway/infrastructure/chatwoot_client/cw_client.py:144-164 | the first conversation of the contact in the inbox, none exactly when there is none |
| AccountSync.ByAddressIsLast | channels/delta_chat_channel/dc_client.py:105-109 | the snapshot names the last account with an address, for exactly the addresses that occur |
| AccountSync.ByConnectorIsLast | channels/delta_chat_channel/dc_client.py:110-114 | the same for recorded connectors |
| AccountSync.SyncedInv | channels/delta_chat_channel/dc_client.py:116-180 | after every connector the two indexes are mutual inverses, each synced connector has a configured account of its own, and the other accounts are untouched |
| AccountSync.SecondBootChangesNothing | channels/delta_chat_channel/dc_client.py:100-180 | a second boot over what the first left has the same indexes, changes and adds no account and asks no account URL; the indexes are mutual inverses |
| SharedAddresses.ConvergesIff | channels/delta_chat_channel/dc_client.py:116-180 | over any stored accounts, a second boot changes nothing and the indexes are mutual inverses exactly when no two connectors are configured with one address |
| SharedAddresses.AccountsStayIff | channels/delta_chat_channel/dc_client.py:132-136 | with configured addresses, over any stored accounts, the second boot gives each connector the account the first did exactly when connectors that share an address share one that some account had before |
| SharedAddresses.SharedAddressMoves | channels/delta_chat_channel/dc_client.py:132-136 | the instance of two connectors with one address and no accounts yet |
| SharedAddresses.FirstBootMints | channels/delta_chat_channel/dc_client.py:182-190 | where no stored account is recorded for a connector, a boot asks each dcaccount URL for one address and nobody else for any |
| DeltaChat.SpawnedExactly | channels/delta_chat_channel/dc_client.py:311-322 | a start spawns one thread for each connector not known, and no second one |
| DeltaChat.RestartSpawnsIff | channels/delta_chat_channel/dc_client.py:311-322 | the connectors a start after a stop creates a thread for are exactly those no earlier start knew |
| DeltaChat.Restart | channels/delta_chat_channel/dc_client.py:53-98 | the same of the object: start, stop and start with the same connectors leaves no thread listed |
| DeltaChat.DeltaChatClient.AccountsByAddress | channels/delta_chat_channel/dc_client.py:105-109 | the loop builds the snapshot by address |
| DeltaChat.DeltaChatClient.AccountsByConnector | channels/delta_chat_channel/dc_client.py:110-114 | the loop builds the snapshot by connector |
| DeltaChat.DeltaChatClient.ChooseAccount | channels/delta_chat_channel/dc_client.py:116-136 | reuses, finds or adds the account; fails exactly when an account URL is asked and yields no address |
| DeltaChat.DeltaChatClient.SyncAccounts | channels/delta_chat_channel/dc_client.py:100-180 | leaves accounts, indexes and threads of a boot over the connectors before the first that fails; it stops only at an account URL without an address, and gets past one only where an account is recorded |
| ContactMapping.AddsKeepBijection | deltawoot/src/deltawoot/woot.py:185-199 | over every serial sequence of adds the list stays a partial bijection, keeps its pairs and holds nothing that was not added |
| ContactMapping.AddIsTakenIff | deltawoot/src/deltawoot/woot.py:193-199 | an add is appended exactly when neither side is in a pair yet |
| ContactMapping.EitherSideFindsThePair | deltawoot/src/deltawoot/woot.py:164-199 | a pair that was taken stays the only one with either of its sides |
| ContactMapping.Account.GetContactMapping | deltawoot/src/deltawoot/woot.py:164-182 | the first pair that matches a given side, none exactly when no pair does; an unset list is initialised |
| ContactMapping.Account.AddContactMapping | deltawoot/src/deltawoot/woot.py:185-199 | appends the pair exactly when neither side is known, else leaves the list |

## Left out

- MessageQueue.RateLimitRetryHides: the delay is a real number, so rounding, infinities and NaN of a floating-point delay are not modelled.
- Worker.EndedAfterEveryTask: does not cover a `run` that is itself cancelled, where the wait in the `finally` block is cancelled with it.
- DeliverySafety.NoAcceptedMessageIsLost: for messages sent through `send`; a payload that does not decode raises before the handler and is never settled.
- Redelivery.BoundedRedelivery: one process and settlement statements that succeed; with crashes, failing statements or several processes the safety statements of `DeliverySafety` still hold, the bound does not.
- Processing.Settler.HandleWithRetries: the task outcome strings that are only logged or traced are reduced to the outcome they name.
- Signal.Session: the body of a command and the outcome of its send are not part of this model; a result is identified by the command it answers.
- Simplex.UnmatchedReply: of an inbound message the contact and the text are modelled, its display name and item id are not, except that a meta field that is no object raises; nor is the unwrapping of a matched reply into a result or an error.
- IdempotencyKey.KeyDecodes: SHA-1 is any function of the fixed width; freedom from collisions is not claimed.
- Routing.RoundTrip: for orchestrated channels; native Delta Chat publishes without the orchestrator and its prefix.
- Chatwoot.AttemptKeeps: the uploads of a message's attachments are one request, and the retry delay and status handling of a response are one error.
- ChatwootWorker.OneProcessConverges: a process that stops in the middle of a request, which the server may still carry out after the next process has searched, is not modelled.
- IdentityStore.ActorStaysIff: a token is any string, so that an unused one always exists; the 32 digits of a UUID are not modelled.
- SharedAddresses.ConvergesIff: needs distinct connectors, addresses that are not empty and, where minted, new; a transport that fails to configure, passwords, display names and avatars are not modelled.
- DeltaChat.RestartSpawnsIff: says which threads a start creates; a loop that survived the one-second join of `stop` is not modelled.
- ContactMapping.AddsKeepBijection: for adds one after the other; two processes that write the list at once are not modelled.
- The message processors of the other channels: they share the shape of the Telegram one, or of the email one.
- Parsing of channel and Chatwoot payloads, attachments, MIME, base64 and file names: field copying over library calls.
- HTTP, SMTP, IMAP, WebSocket and RPC clients of other libraries: steps that succeed, fail, or apply and then fail.
- Telemetry, logging, settings, entry-point loading, web endpoints and container files: plumbing.
- Liveness in wall-clock time: the statements are about safety and bounded counts.
