# Verified models of the BaoClaw gateways and IPC layer

BaoClaw connects chat networks to a daemon that runs one turn at a time. These
Dafny modules model the parts where that is hard to get right and prove what they
guarantee in every run.

- `TurnHistory`, `TurnScheduler`, `TurnGuarantees`, `TurnStale`, `TurnEvents`,
  `WhatsAppGateway`: the WhatsApp gateway's turn scheduler. Per-sender queues feed
  one worker each; all workers compete for one slot while stream events arrive at
  every await. A step is the code between two awaits, suspended calls are part of
  the state, and a run is any interleaving. The class `WhatsAppGateway` is the
  code in the source's form, and each of its methods is proved to be a step of the
  state machine. `MessageQueue`, `DedupCache` and `SenderTracker` are the state it
  uses.
- `TelegramScheduler`, `TelegramTurns`, `TelegramStale`, `TelegramEvents`,
  `TelegramGateway`: the scheduler of the Telegram gateway, whose turns save and
  restore the previously active chat, and the resolvers that end them.
- `Framing`, `JsonText`, `JsonParser`, `RequestTable`, `RequestEvents`,
  `IpcClient`: newline-delimited framing over arbitrary chunks, messages written
  and read back, and JSON-RPC request correlation with timers, late responses and
  any number of connections.
- `SessionLifecycle`, `SessionOverlap`, `SessionRetries`, `SessionEvents`,
  `SessionManager`: the WhatsApp session with its two generation counters, retries
  and socket events in any order.
- `PermissionRequests`, `PermissionEvents`, `PermissionManager`: Telegram
  permission prompts, their expiry timers and late replies.
- `RateLimiter`, `LogRotation`, `MessageSplitters`, `ConfigMigration`, `Ansi`,
  `CodeHighlighter`, `TableRenderer`: the window, file, text and configuration
  algorithms. `JsStrings`, `Sequences` and `Wrappers` are shared.

In each state machine the property that matters is stated over the whole history
of observations, not over the fields, and a joint invariant ties the two together.
What a run accepts, streams, answers, settles and reports is in turn read off its
events: the `Events` modules define it by recursion on the events, by rules of
their own, and prove that the states and histories of every run agree.

## Where the code falls short of its promise

Each of these is stated as it is, with the condition under which the code keeps
the promise.

- WhatsApp replies. A turn's reply can miss text: when a submission fails while
  the handler of its result is still sending, that handler later erases the
  accumulator and the flag of the sender's next turn
  (`TurnGuarantees.RepliesCanLoseText`). From a turn that has not ended and lost
  nothing, as when it takes the slot, and without another result, error or failed
  submission, a reply can miss text iff a handler of the same sender is still
  suspended, and the turn can be completed with nothing having ended it iff the
  same holds (`TurnStale.MissesTextIff`, `UnansweredIff`, and over the chunks and
  results that come `TurnEvents.MissesAnswerIff`). Neither happens when every turn
  ends once (`RepliesFaithfulWhenTurnsEndOnce`).
- Telegram turns. In the same way the handler of an earlier turn of a chat can
  resolve the next one before anything of it has arrived
  (`TelegramTurns.TurnsCanCompleteUnanswered`). A turn in flight can be told that
  it is over, and be completed, with nothing having ended it iff a handler of its
  chat is still suspended (`TelegramStale.SignalledIff`, `UnansweredIff`); this
  does not happen when every turn ends once (`TurnsCompleteByTheirOwnEnd`).
- Telegram notices. A busy notice that cannot be sent rejects the queue loop, and
  the handler for unhandled rejections ends the process; no claim is made behind
  that. An empty text would strand the texts behind it
  (`TelegramScheduler.EmptyTextStrandsTheRest`); the message handler never
  enqueues one.
- Framing. A line that is JSON but no object, such as `5`, throws inside
  `handleMessage`, and the exception escapes the data listener of the socket
  (`ts-ipc/client.ts:44`). A process that exits on uncaught exceptions, as the
  Telegram gateway does (`baoclaw-telegram/src/gateway.ts:50-53`), ends there; in
  one that goes on, the lines behind it stay in the buffer until more data
  arrives. Delivery is independent of chunking iff no line throws with a complete
  line behind it (`Framing.ChunkIndependentIff`).
- Connections. What is pending when a connection goes down is rejected iff some
  `connect` has no earlier `disconnect()` or close event behind it
  (`RequestTable.LossRejectsIff`). So a `disconnect()` between `connect` and its
  callback, or the close event of an earlier connection there, uses up the
  disconnect handling: requests made over the new connection then stay open,
  whatever goes down, until a response, their timer or another `connect`
  (`RejectedIff`, `HastyDisconnectStrandsARequest`, `LateCloseStrandsARequest`). A
  connection in use can be taken down by the close event of another one iff some
  other one has not closed yet (`TakenDownIff`); `ts-ipc/cli.ts:1490-1503`
  connects again on the same object when the first `connect` fails, which is safe
  when the close event of the first socket comes before. What a connection leaves
  in the buffer goes before the first line of the next one, whose messages arrive
  as sent iff it was blank (`Framing.ReconnectIff`).
- Session. When `initialize()` starts an attempt while a socket of an earlier one
  is in use, a retry of the earlier attempt can hold the retry timer, so that the
  new attempt's retry is dropped and its promise is never settled; every later
  `initialize()` joins it until `disconnect()`. The old socket can also connect
  the session. Both are possible iff a socket was in use at that moment
  (`SessionOverlap.OverlapIff`). Then, and only then, can the lifecycle arm more
  than five retries, or more than 75 seconds of delay, between two opens
  (`SessionRetries.OverrunIff`); six are never exceeded (`RetriesOfALifecycle`).
- Log rotation. More than two full files are retained while no write fails, at a
  rename or at its append, with part of its rotation done
  (`LogRotation.PackedIff`, `MuchIsRetained`, `FailedAppendsRetainLittle`). A
  rename that fails throws out of `write`.
- Tables. Column widths and padding count the characters of a cell's style
  sequences. All lines have the same visible width iff no shown cell contains one
  (`TableRenderer.TableAlignsIff`); one red letter is enough to break a table
  (`RedCellBreaksTheTable`).
- Highlighting. The tail of a word that begins with a digit is marked when it is a
  keyword, as in `2if`; what is marked is a whole word iff no digit stands before
  it (`CodeHighlighter.KeywordsAreWholeIff`).
- WhatsApp and Feishu splitters make progress iff the limit is positive; with
  limit 0 the loop never ends on a message that does not fit.
- Config migration keeps the fallback list iff no leftover fallback profile name
  is one that the migration defines (`ConfigMigration.MigrationPreserves`). For a
  configuration in the new format, the base URL of the primary profile is not
  among the old fields that are synced (`NewFormatIsSynced`).
- Rate limiter. While the clock does not go back, a message is allowed iff the
  quota was positive (`RateLimiting.QuotaPredicts`). With a clock that goes back
  they can disagree (`ClockGoingBackBreaksTheQuota`); the two ways of counting
  give the same list iff no expired time is behind a live one
  (`PoppedIsActiveIff`). With a window of no length an allowed message does not
  lower the quota.

The source calls the eviction of the duplicate cache "LRU"; it evicts by first
arrival, since a repeated id does not refresh its entry, and the model does so.

## Model

| member | source | states |
|---|---|---|
| TurnGuarantees.SingleSlot | baoclaw-whatsapp/src/gateway.ts:451-503 | In every run the turns exclude each other; every call of `processQueue` with a message in flight belongs to `activeSender`, there is at most one, and a set `activeSender` has one. |
| TurnGuarantees.OnlyTheOwnerReleases | baoclaw-whatsapp/src/gateway.ts:473-502 | The slot of a sender is given back only by a step of that sender's own call, behind its error notice or its result wait; no inbound message, stream event or other sender's call does it. |
| TurnGuarantees.NoLostWakeup | baoclaw-whatsapp/src/gateway.ts:426-455 | At every await point a sender with a non-empty queue has exactly one live call of `processQueue`, and a sender is marked as processing iff it has one. |
| TurnGuarantees.MessagesConserved | baoclaw-whatsapp/src/gateway.ts:454-503 | For every sender, in every run: accepted messages, in arrival order, are what was completed, failed or refused, then the turn in flight, then the queue. Nothing is lost, duplicated or reordered. |
| TurnGuarantees.QuietMeansSettled | baoclaw-whatsapp/src/gateway.ts:451-506 | When no call of `processQueue` is suspended, the slot is free and every accepted message has been settled. |
| TurnEvents.AcceptedAreArrived | baoclaw-whatsapp/src/gateway.ts:426-442 | In every run the messages accepted from a sender are those that arrived while it was registered and its queue was shorter than the limit, in order, read off the events. |
| TurnEvents.ArrivalsConserved | baoclaw-whatsapp/src/gateway.ts:454-503 | So what arrived is what was settled, then the turn in flight, then the queue, in the order of arrival. |
| TurnEvents.SettledByTheirCalls | baoclaw-whatsapp/src/gateway.ts:456-503 | In every run the messages settled, and how, are read off the events: completed when their call is released, failed when their failure is reported, refused when their turn comes while somebody else holds the slot. |
| TurnEvents.HolderByTheRules | baoclaw-whatsapp/src/gateway.ts:473-502 | In every run the turn that holds the slot, and the active sender, are read off the events: the next message of the call that goes on, once the slot is free. |
| TurnEvents.RunFollows | baoclaw-whatsapp/src/gateway.ts:542-546 | In every run the text streamed in the turn in flight is the chunks that came since it took the slot, joined; its accumulator holds those since the last handler of its sender ended; it has ended iff a result, an error or a failed submission of it came; its flag is set iff no handler of its sender has ended since. |
| TurnEvents.RepliesAreAnswers | baoclaw-whatsapp/src/gateway.ts:667-690 | In every run the replies are one for each result that came with an active sender, in order: to that sender, with the chunks of the turn that were not erased. |
| TurnGuarantees.RepliesExactly | baoclaw-whatsapp/src/gateway.ts:667-690 | In every run a reply goes to the sender whose turn holds the slot. Every reply recorded is the whole text recorded for its turn iff no reply was sent after a handler had erased text of the same turn; what is recorded is tied to the chunks and results that come by `TurnEvents.RunFollows` and `TurnEvents.RepliesAreAnswers`. |
| TurnEvents.FaithfulIffWhole | baoclaw-whatsapp/src/gateway.ts:667-690 | The replies are faithful iff each answer carries all of the chunks streamed in its turn, both read off the events. |
| TurnEvents.RepliesAreWholeWhenTurnsEndOnce | baoclaw-whatsapp/src/gateway.ts:542-546 | If every turn ends once, by the events, the replies are one for each result, each with every chunk that came in its turn, in order. |
| TurnEvents.EndsAreRecorded | baoclaw-whatsapp/src/gateway.ts:486-502 | That turns end once, and that none is completed before it has ended, is read off the events. |
| TurnGuarantees.RepliesFaithfulWhenTurnsEndOnce | baoclaw-whatsapp/src/gateway.ts:542-546 | If every turn ends once (one result, one error or one failed submission), every reply is all of the text recorded since its turn took the slot, and no turn is completed before it ended; over the chunks that come, this is `TurnEvents.RepliesAreWholeWhenTurnsEndOnce`. |
| TurnGuarantees.StaleHandlerErases | baoclaw-whatsapp/src/gateway.ts:648-690 | A result handler still suspended from an earlier turn of the active sender erases the text streamed so far: the next reply is empty whatever was streamed. |
| TurnGuarantees.RepliesCanLoseText | baoclaw-whatsapp/src/gateway.ts:486-498 | A run in which a reply is not the text of its turn: a submission fails while the handler of its result is still sending the text it has, and the next turn of the same sender loses its text. |
| TurnStale.MissesTextIff | baoclaw-whatsapp/src/gateway.ts:667-690 | At any moment of any run, for a turn under way that has not ended and lost nothing, as when it takes the slot: some continuation without another result, error or failed submission leads to a result whose reply misses text iff a handler of the same sender is still suspended. |
| TurnEvents.MissesAnswerIff | baoclaw-whatsapp/src/gateway.ts:667-690 | The same over the events: an answer that misses some of the chunks of its turn is possible iff a result or error of the sender of the turn in flight has a handler that has not ended. |
| TurnEvents.HandlersAreSuspended | baoclaw-whatsapp/src/gateway.ts:648-690 | In every run the suspended handlers are read off the events: a result with text left suspends one for the active sender, and so does an error, until it ends. |
| TurnStale.UnansweredIff | baoclaw-whatsapp/src/gateway.ts:512-525 | For such a turn: some such continuation completes a turn that nothing has ended iff a handler of the same sender is still suspended. |
| TurnStale.RunLeavesOpen | baoclaw-whatsapp/src/gateway.ts:542-546 | Without a suspended handler of its sender, the turn stays under way, with all of its text, in every such continuation. |
| TurnEvents.AwaitEndsIff | baoclaw-whatsapp/src/gateway.ts:512-525 | In every run a call passes its await iff a handler of its sender has ended since its turn took the slot. |
| TurnEvents.FailureIsReported | baoclaw-whatsapp/src/gateway.ts:486-493 | A submission that fails ends the turn, and its call reports the failure before anything else. |
| TurnEvents.FlagsAreOwned | baoclaw-whatsapp/src/gateway.ts:473-502 | In every run a processing flag is set only for the sender that holds the slot. |
| TurnEvents.BegunIsSubmittedIff | baoclaw-whatsapp/src/gateway.ts:481-486 | A turn that takes the slot is submitted iff the last connection event said that the daemon is connected; otherwise it waits. |
| TurnEvents.ContactsAreRegistrations | baoclaw-whatsapp/src/gateway.ts:294 | In every run the senders known, their addresses and message counts are those of the registrations that came. |
| TurnHistory.LostAndKept | baoclaw-whatsapp/src/senderTracker.ts:122-149 | The text streamed in a turn is what erasures discarded followed by what the accumulator still holds. |
| TurnHistory.FaithfulIffNothingLost | baoclaw-whatsapp/src/gateway.ts:667-690 | For replies that carry the accumulator: they carry the whole turn iff nothing was erased in it before. |
| TurnScheduler.RunKeepsInv | baoclaw-whatsapp/src/gateway.ts:388-506 | The joint invariant over queues, processing marks, `activeSender`, accumulators, suspended calls and the history of the gateway holds in every run of inbound messages, worker steps, failed submissions and stream events. |
| TurnScheduler.StepKeepsInv | baoclaw-whatsapp/src/gateway.ts:426-503 | Every step between two awaits keeps the joint invariant, from any state that satisfies it. |
| WhatsAppGateways.WhatsAppGateway.constructor | baoclaw-whatsapp/src/gateway.ts:86-105 | A new gateway is in the initial state of the scheduler and satisfies its invariant. |
| WhatsAppGateways.WhatsAppGateway.Handle | baoclaw-whatsapp/src/gateway.ts:388-692 | Every callback, whenever it comes, keeps the joint invariant in the fields of the gateway and is that step of the scheduler. |
| WhatsAppGateways.WhatsAppGateway.RegisterSender | baoclaw-whatsapp/src/gateway.ts:294 | Registering a sender is that step of the scheduler. |
| WhatsAppGateways.WhatsAppGateway.Deliver | baoclaw-whatsapp/src/gateway.ts:426-442 | Enqueue-then-check of the inbound handler, for text and for media messages: the new state of all fields is the scheduler's arrival step, including a full queue. |
| WhatsAppGateways.WhatsAppGateway.ProcessQueue | baoclaw-whatsapp/src/gateway.ts:451-454 | A new call of `processQueue` up to its first await or its end. |
| WhatsAppGateways.WhatsAppGateway.Continue | baoclaw-whatsapp/src/gateway.ts:454-505 | The loop of `processQueue` over fields changed in place, from its test to the next await or to its end, computes the recursive `Drain` of the scheduler. |
| WhatsAppGateways.WhatsAppGateway.TakeSlot | baoclaw-whatsapp/src/gateway.ts:473-484 | Taking the slot erases the accumulator, sets `activeSender` and the flag, and submits iff the daemon is connected. |
| WhatsAppGateways.WhatsAppGateway.OnRefusalSent | baoclaw-whatsapp/src/gateway.ts:461-471 | After the busy notice the call goes on with its queue. |
| WhatsAppGateways.WhatsAppGateway.CheckProcessingFlag | baoclaw-whatsapp/src/gateway.ts:512-525 | The first and every later test of `waitForResult`: the call waits on while the flag of its sender is set. |
| WhatsAppGateways.WhatsAppGateway.OnSubmitFailed | baoclaw-whatsapp/src/gateway.ts:486-493 | A failed submission is reported when the sender has an address, and ends the turn at once otherwise. |
| WhatsAppGateways.WhatsAppGateway.FailTurn | baoclaw-whatsapp/src/gateway.ts:494-498 | The failed turn clears flag and slot, and the call goes on with its queue. |
| WhatsAppGateways.WhatsAppGateway.OnResultAwaited | baoclaw-whatsapp/src/gateway.ts:500-502 | The awaited turn gives the slot back, and the call goes on with its queue. |
| WhatsAppGateways.WhatsAppGateway.OnAssistantChunk | baoclaw-whatsapp/src/gateway.ts:542-546 | A chunk is appended to the accumulator of the active sender; without one it is dropped. That this keeps every chunk of a turn is `TurnEvents.RunFollows`. |
| WhatsAppGateways.WhatsAppGateway.OnResult | baoclaw-whatsapp/src/gateway.ts:667-690 | The text of the reply is the accumulator of the active sender, read before the handler's first await; with no text the handler ends at once. |
| WhatsAppGateways.WhatsAppGateway.EndHandler | baoclaw-whatsapp/src/gateway.ts:687-688 | The end of a handler erases accumulator and flag of its sender and of no other. |
| WhatsAppGateways.WhatsAppGateway.OnError | baoclaw-whatsapp/src/gateway.ts:648-664 | An error event starts a handler for the active sender, which ends at once when there is no address to send to. |
| WhatsAppGateways.WhatsAppGateway.OnHandlerDone | baoclaw-whatsapp/src/gateway.ts:677-690 | The end of a handler erases accumulator and flag of the sender it captured, whoever is active by then. |
| MessageQueues.MessageQueue.IsDuplicate | baoclaw-whatsapp/src/messageQueue.ts:24-36 | The answer is whether the id is cached; the cache afterwards is `Observed`, for every clock, including the eviction loop. |
| MessageQueues.MessageQueue.Enqueue | baoclaw-whatsapp/src/messageQueue.ts:42-56 | The entry goes to the end of its sender's queue iff the queue is not full; other queues are unchanged. |
| MessageQueues.MessageQueue.Dequeue | baoclaw-whatsapp/src/messageQueue.ts:62-66 | The head of the sender's queue, or nothing; other queues are unchanged. |
| MessageQueues.MessageQueue.StartProcessing | baoclaw-whatsapp/src/messageQueue.ts:78-80 | Marks the sender and no other. |
| MessageQueues.MessageQueue.FinishProcessing | baoclaw-whatsapp/src/messageQueue.ts:85-87 | Unmarks the sender and no other. |
| DedupCache.ByAgeSorts | baoclaw-whatsapp/src/messageQueue.ts:29-31 | The sort behind the eviction orders the cached ids by arrival time and keeps every entry. |
| DedupCache.ObservedInOrder | baoclaw-whatsapp/src/messageQueue.ts:24-36 | While the clock does not go back, a fresh id goes to the end and an overfull cache loses exactly its oldest 100 entries. |
| DedupCache.CacheIsSuffix | baoclaw-whatsapp/src/messageQueue.ts:24-36 | In every run with a clock that never goes back the cache is a suffix of the fresh ids, of at most 1000 and at least 901 of them, or all. |
| DedupCache.DuplicateAnswers | baoclaw-whatsapp/src/messageQueue.ts:24-36 | In such a run each of the last 901 fresh ids is reported as a duplicate, and an id never seen is not. |
| DedupCache.CacheHolds | baoclaw-whatsapp/src/messageQueue.ts:24-36 | In such a run the fresh ids are the ids not remembered when they came, and the cache holds a number of them that depends on nothing else: all up to 1000, then 901 and one more with each up to 1000 again. |
| DedupCache.DuplicateIff | baoclaw-whatsapp/src/messageQueue.ts:24-36 | So an id is reported as a duplicate iff it is one of exactly those last fresh ids. |
| SenderTracking.SenderTracker.RegisterSender | baoclaw-whatsapp/src/senderTracker.ts:73-88 | A known sender gets a new address and one more message and keeps its accumulator; a new one starts with an empty accumulator. |
| SenderTracking.SenderTracker.Accumulate | baoclaw-whatsapp/src/senderTracker.ts:122-127 | Appends to the accumulator of a registered sender and of no other. |
| SenderTracking.SenderTracker.ClearAccumulator | baoclaw-whatsapp/src/senderTracker.ts:144-149 | Empties the accumulator of that sender and of no other. |
| TelegramScheduler.SingleSlot | baoclaw-telegram/src/gateway.ts:650-721 | In every run at most one chat has a turn in flight, it is `activeChatId`, and the turns exclude each other. |
| TelegramScheduler.RestoringFreesTheSlot | baoclaw-telegram/src/gateway.ts:664-706 | Whatever a turn saved as the previous chat when it took the slot is null, so restoring it always frees the slot. |
| TelegramScheduler.NoLostWakeup | baoclaw-telegram/src/gateway.ts:890-893 | While the process runs, a chat with a queued text has exactly one live call of `processQueue`. |
| TelegramScheduler.TextsConserved | baoclaw-telegram/src/chatQueue.ts:8-18 | For every chat, in every run: accepted texts, in arrival order, are what was settled, then the turn in flight, then the queue; which texts are accepted is `TelegramEvents.AcceptedAreArrived`. |
| TelegramEvents.AcceptedAreArrived | baoclaw-telegram/src/gateway.ts:890-894 | In every run the texts accepted from a chat are all of its non-empty texts that came while the process ran, in order, read off the events. |
| TelegramEvents.ArrivalsConserved | baoclaw-telegram/src/gateway.ts:710-721 | So every such text is settled, in flight or queued, in the order of arrival. |
| TelegramEvents.SettledByTheirCalls | baoclaw-telegram/src/gateway.ts:650-721 | In every run the texts settled, and how, are read off the events: completed when the result is awaited, failed when the error is reported, refused when their turn comes while another chat holds the slot. |
| TelegramEvents.HolderByTheRules | baoclaw-telegram/src/gateway.ts:664-706 | In every run the turn that holds the slot, and the active chat, are read off the events. |
| TelegramScheduler.EmptyTextStrandsTheRest | baoclaw-telegram/src/gateway.ts:710-721 | The queue loop leaves a chat with queued texts and no live call iff it meets an empty text with others behind it. |
| TelegramScheduler.RunKeepsInv | baoclaw-telegram/src/gateway.ts:650-721 | The joint invariant over queues, processing marks, the active chat, saved previous chats, suspended calls and the history holds in every run, including failed notices and failed submissions. |
| TelegramTurns.TurnsAreResolvable | baoclaw-telegram/src/gateway.ts:670-672 | In every run each turn in flight that is not over has its own resolver registered, no other resolver is registered, and only turns in flight are signalled. |
| TelegramTurns.TurnsCompleteByTheirOwnEnd | baoclaw-telegram/src/gateway.ts:540-612 | If every turn ends once (one result, one error or one failure), each completed turn has ended by an event of its own. |
| TelegramEvents.EndsAreRecorded | baoclaw-telegram/src/gateway.ts:540-612 | That turns end once, and that none is completed before it has ended, is read off the events. |
| TelegramEvents.RunFollows | baoclaw-telegram/src/gateway.ts:540-612 | In every run the turn in flight has ended iff a result, an error or a failure of it came since it took the slot, and its promise is resolved iff a handler of its chat ended since. |
| TelegramEvents.AwaitEndsIff | baoclaw-telegram/src/gateway.ts:670-682 | In every run a turn passes its last await iff a handler of its chat has ended since it took the slot and the process runs. |
| TelegramEvents.AwaitsAreInOrder | baoclaw-telegram/src/gateway.ts:674-698 | While the process runs, the typing notice comes before the submission and that before the result; a failure of either is reported. |
| TelegramEvents.HandlersAreSuspended | baoclaw-telegram/src/gateway.ts:540-612 | In every run the suspended handlers are read off the events: every result or error that comes with an active chat suspends one, until it ends. |
| TelegramEvents.HaltedIff | baoclaw-telegram/src/gateway.ts:50-57 | The process has ended iff the daemon was lost or a busy notice could not be sent. |
| TelegramStale.SignalledIff | baoclaw-telegram/src/gateway.ts:603-612 | At any moment of any run, for a turn in flight that has not failed and has not been told that it is over: some continuation without a result, an error or a failed turn tells it so iff a handler of its chat is still suspended. |
| TelegramStale.UnansweredIff | baoclaw-telegram/src/gateway.ts:540-612 | For such a turn that has not ended, as when it takes the slot: some such continuation completes a turn that nothing has ended iff a handler of its chat is still suspended. |
| TelegramTurns.StaleHandlerResolves | baoclaw-telegram/src/gateway.ts:603-612 | A handler still suspended from an earlier turn of the chat resolves the turn in flight, whatever that turn has received. |
| TelegramTurns.TurnsCanCompleteUnanswered | baoclaw-telegram/src/gateway.ts:683-706 | A run in which a turn completes although nothing of it has arrived: a submission fails while the handler of its error is still sending, and that handler resolves the next turn of the chat. |
| TelegramGateways.TelegramGateway.Handle | baoclaw-telegram/src/gateway.ts:540-721 | Every callback, whenever it comes, keeps the joint invariant and the resolvers of the turns, and is that step of the scheduler. |
| TelegramGateways.TelegramGateway.OnMessage | baoclaw-telegram/src/gateway.ts:890-894 | Enqueue-then-check of the message handler is the arrival step of the scheduler, which accepts every text by `TelegramEvents.AcceptedAreArrived`. |
| TelegramGateways.TelegramGateway.ProcessQueue | baoclaw-telegram/src/gateway.ts:710-712 | A new call of `processQueue` up to its first await or its end. |
| TelegramGateways.TelegramGateway.OnAwaited | baoclaw-telegram/src/gateway.ts:674-682 | The typing notice and the submission are awaited one after the other, then the result. |
| TelegramGateways.TelegramGateway.OnTurnFailed | baoclaw-telegram/src/gateway.ts:683-698 | A failure of either is reported before the turn is cleaned up. |
| TelegramGateways.TelegramGateway.OnDaemonLost | baoclaw-telegram/src/gateway.ts:617-624 | The loss of the daemon ends the process. |
| TelegramGateways.TelegramGateway.Continue | baoclaw-telegram/src/gateway.ts:710-721 | The queue loop with `processMessage` up to its first await computes the scheduler's `Drain`. |
| TelegramGateways.TelegramGateway.BeginMessage | baoclaw-telegram/src/gateway.ts:650-671 | A message is refused while another chat is active; otherwise it takes the slot and saves the previous chat. |
| TelegramGateways.TelegramGateway.OnRefusalSent | baoclaw-telegram/src/gateway.ts:656-663 | After the busy notice the call goes on with its queue. |
| TelegramGateways.TelegramGateway.OnRefusalFailed | baoclaw-telegram/src/gateway.ts:54-57 | A failed busy notice rejects the call, and the unhandled rejection ends the process. |
| TelegramGateways.TelegramGateway.OnErrorReported | baoclaw-telegram/src/gateway.ts:699-706 | The clean-up of a failed turn removes its resolver, restores the previous chat and goes on with the queue. |
| TelegramGateways.TelegramGateway.OnResultAwaited | baoclaw-telegram/src/gateway.ts:682-706 | A resolved turn restores the previous chat and goes on with the queue. |
| TelegramGateways.TelegramGateway.OnTerminalEvent | baoclaw-telegram/src/gateway.ts:540-560 | A result or error event starts a handler for the active chat. |
| TelegramGateways.TelegramGateway.OnHandlerDone | baoclaw-telegram/src/gateway.ts:603-612 | The end of a handler resolves the turn registered for the chat it captured, once. |
| TelegramGateways.ChatQueue.Enqueue | baoclaw-telegram/src/chatQueue.ts:8-12 | The text goes to the end of its chat's queue; other queues are unchanged. |
| TelegramGateways.ChatQueue.Dequeue | baoclaw-telegram/src/chatQueue.ts:14-18 | The head of the chat's queue, or nothing. |
| TelegramGateways.ChatQueue.StartProcessing | baoclaw-telegram/src/chatQueue.ts:29-31 | Marks the chat and no other. |
| TelegramGateways.ChatQueue.FinishProcessing | baoclaw-telegram/src/chatQueue.ts:33-35 | Unmarks the chat and no other. |
| Framing.DrainOfTwo | ts-ipc/client.ts:211-223 | Delivering a text in two parts hands on the same lines and leaves the same buffer as delivering it whole, up to a line that throws. |
| Framing.ChunkIndependentIff | ts-ipc/client.ts:211-223 | For every text: all ways of cutting it into chunks hand on the same lines and leave the same buffer iff no line of the text throws with a complete line behind it. |
| Framing.StopsEarlyIff | ts-ipc/client.ts:211-223 | One whole delivery throws and leaves complete lines in the buffer iff the text has a line that throws, behind complete lines, with a complete line behind it. |
| Framing.RoundTrip | ts-ipc/client.ts:107-108 | Messages written one after another are handed on whole and in order, with nothing left over, for every chunking. |
| Framing.LinesAreHandedOn | ts-ipc/client.ts:211-223 | Of any lines in one delivery, those that are not blank are handed on in order, trimmed, up to the first that throws; if none does, what is behind the last newline is left. |
| Framing.LinesAreHandedOnInChunks | ts-ipc/client.ts:211-223 | So it is for every chunking when no line throws. |
| Framing.ReconnectIff | ts-ipc/client.ts:37-59 | Whatever a connection left in the buffer when it went down, the messages of the next one are handed on as they were sent, for every chunking, iff that was blank. |
| JsonText.StringifyIsOneLine | ts-ipc/client.ts:107 | The text of every JSON value is free of control characters, whatever its strings contain (section 7 of RFC 8259), so it is one line of the framing. |
| JsonText.RequestsArriveInOrder | ts-ipc/client.ts:78-108 | Every sequence of JSON-RPC requests written to the socket arrives line by line in order, for every chunking. |
| JsonText.RequestMembersAre | ts-ipc/client.ts:78-88 | A request has its version, its method, its parameters, if it has any, its id in decimal, and no other member. |
| JsonParser.StringReadsBack | ts-ipc/client.ts:107 | A string is read back from its escaped text as it was, whatever it contains and whatever follows (section 7 of RFC 8259). |
| JsonParser.ReadsBack | ts-ipc/client.ts:107 | Every JSON value is read back from its text, whatever follows it, so that different values have different texts. |
| JsonParser.LinesDiffer | ts-ipc/client.ts:78-107 | Two requests have the same line only if method, parameters and id are the same. |
| JsonParser.RequestsRoundTrip | ts-ipc/client.ts:107-108 | Every sequence of requests written to the socket is read back at the other end as it was, in order, with nothing left over, for every chunking. |
| RequestTable.SettledExactlyOnce | ts-ipc/client.ts:80-109 | In every run of calls, responses, timeouts, and connections that open and close: each request issued is awaited and unsettled, or no longer awaited and settled exactly once, also when it cannot be serialized; no other id is awaited or settled. |
| RequestEvents.SettledByTheRules | ts-ipc/client.ts:80-109 | In every run how a request is settled is read off the events: by the call itself when it cannot be serialized, or by the first of its response, its timer, if it has one, and a loss of connection that is still to be handled; it is open iff it was issued and none of these has come. |
| RequestEvents.OpenRequestsAreAnswered | ts-ipc/client.ts:240-262 | In every run the response to an open request resolves it, or rejects it when it is an error, and its timer times it out; its entry and timer are gone then, and every other entry, timer and settlement is as it was. It has a timer iff it was issued with a positive timeout. |
| RequestEvents.TimedAsIssued | ts-ipc/client.ts:80-109 | In every run requests have the numbers of the calls made over a connection, from 1, and a request in the table has a timer iff its own call has a positive timeout. |
| RequestEvents.ConnectionsByTheRules | ts-ipc/client.ts:37-59 | In every run the connection in use is the one whose callback ran last while it was open, unless a `disconnect` or a close event came behind it. |
| RequestTable.SettlementsMatchTheirCause | ts-ipc/client.ts:230-262 | Each settlement is made by the response, the error response, the timer, the loss of connection or the failing call that names that request, and never taken back. |
| RequestTable.StrayResponseSettlesNothing | ts-ipc/client.ts:239-262 | A late, duplicated or made-up response settles nothing, and changes nothing at all unless a request that could not be serialized has left its entry behind. |
| RequestTable.TimersMatchPending | ts-ipc/client.ts:89-104 | A timer is live iff an entry of the table with a timeout owns it. |
| RequestTable.DownMeansEmpty | ts-ipc/client.ts:282-298 | In a run in which no callback of `connect` runs behind a `disconnect` or close event that came since the last `connect`, nothing is pending and no timer is live while there is no connection. |
| RequestTable.ArmedIff | ts-ipc/client.ts:282-298 | The flag is clear iff some `connect` has no `disconnect` and no close event behind it. |
| RequestTable.LossRejectsIff | ts-ipc/client.ts:282-298 | When the connection goes down with requests pending, by a close event or by `disconnect`, all of them are rejected and their timers cleared iff some `connect` has no earlier `disconnect` or close event behind it; otherwise the table stays as it is. |
| RequestTable.RejectedIff | ts-ipc/client.ts:282-298 | An open request can be rejected without a response, its timer or another `connect` iff some `connect` has no `disconnect` or close event behind it; otherwise it stays open in every such continuation. |
| RequestTable.HastyDisconnectStrandsARequest | ts-ipc/client.ts:192-204 | A `disconnect` between `connect` and its callback: a request made over that connection stays open, whatever goes down, until a response or another `connect`. |
| RequestTable.LateCloseStrandsARequest | ts-ipc/cli.ts:1490-1503 | The same without any `disconnect`: the close event of the first connection between the second `connect` and its callback. |
| RequestTable.TakenDownIff | ts-ipc/client.ts:54-57 | A connection in use, while nobody disconnects or connects and it does not close itself, can be taken out of use iff some other connection has not closed yet. |
| RequestTable.LateCloseTakesDown | ts-ipc/client.ts:54-57 | The close event of another connection rejects what is pending over the one in use, which stays open, and no request can be made over it. |
| IpcClients.IpcClient.constructor | ts-ipc/client.ts:30-32 | A new client has an empty buffer and table and counts as disconnected. |
| IpcClients.IpcClient.Connect | ts-ipc/client.ts:37-59 | `connect`, at any time, arms the disconnect handling before its callback has run, and keeps what is buffered and what is pending. |
| IpcClients.IpcClient.OnConnected | ts-ipc/client.ts:39-42 | The callback of `connect` sets the socket. |
| IpcClients.IpcClient.Request | ts-ipc/client.ts:71-110 | A request without a connection fails and leaves the table alone; otherwise it takes the next id, with a timer iff its timeout is positive, also when it cannot be serialized and its promise is rejected at once. |
| IpcClients.IpcClient.OnTimer | ts-ipc/client.ts:89-99 | An expired timer settles its own request as timed out. |
| IpcClients.IpcClient.NextLine | ts-ipc/client.ts:213-218 | One pass of the line loop: the trimmed first line and a strictly shorter buffer, or no line. |
| IpcClients.IpcClient.HandleData | ts-ipc/client.ts:211-223 | The loop over the buffer hands on exactly the lines of `Drain`, in order, leaves exactly its rest buffered, also when a line throws, and settles what those lines settle. |
| IpcClients.LinesAreResponses | ts-ipc/client.ts:211-277 | What the lines of a delivery do to the table is what their responses do as events of a run. |
| IpcClients.IpcClient.HandleMessage | ts-ipc/client.ts:230-277 | A line settles a request iff it parses to a response whose id is a pending number; it throws iff it is JSON but no object. That a matching response settles its request is `RequestEvents.OpenRequestsAreAnswered`. |
| IpcClients.IpcClient.Disconnect | ts-ipc/client.ts:192-204 | `disconnect` rejects what is pending and drops the socket. |
| IpcClients.IpcClient.OnClose | ts-ipc/client.ts:54-57 | The close event of any connection drops the socket in use and rejects what is pending. |
| IpcClients.IpcClient.HandleDisconnect | ts-ipc/client.ts:282-298 | The loop rejects every pending request, in the order they were issued, clears their timers, and does so once after each `connect`. |
| SessionLifecycle.StaleAttemptsCreateNoSocket | baoclaw-whatsapp/src/session.ts:258-282 | From any point of any run, whatever follows, no socket is created for an attempt of an earlier lifecycle. |
| SessionLifecycle.StepsCreateForTheCurrent | baoclaw-whatsapp/src/session.ts:258-264 | A step creates a socket only for the current lifecycle, and not while stopping; generations never go back, and no socket changes its attempt. |
| SessionOverlap.OverlapIff | baoclaw-whatsapp/src/session.ts:172-184 | When `initialize()` starts an attempt in any run: some continuation leaves the attempt open with no socket and no timer, and some continuation connects the session through a socket of an earlier attempt, iff a socket was in use at that moment. |
| SessionOverlap.OverlapIsReached | baoclaw-whatsapp/src/session.ts:340-391 | Such a moment is reached from the start: the connection closes after its first open, and its retry has opened the next socket. |
| SessionOverlap.StuckForGood | baoclaw-whatsapp/src/session.ts:172-174 | An attempt left open with no socket and no timer stays so until `disconnect()`; every later `initialize()` joins it. |
| SessionOverlap.RetryIsDropped | baoclaw-whatsapp/src/session.ts:284-290 | While the retry timer of an earlier attempt is held, the retry of the new attempt is dropped; when that timer fires, nothing is left to settle the new attempt. |
| SessionLifecycle.DisconnectIsFinal | baoclaw-whatsapp/src/session.ts:418-440 | After `disconnect()` in any run, no callback before the next `initialize()` creates a socket, resolves an outstanding `initialize()`, or makes the session connected. |
| SessionEvents.LogoutEnds | baoclaw-whatsapp/src/session.ts:364-376 | In every run a logout of the current socket, while the session is not stopping, leaves it logged out with an open promise of its attempt rejected, and with timers, counters and tally as they were. |
| SessionEvents.CloseRetries | baoclaw-whatsapp/src/session.ts:377-391 | In every run any other close of the current socket, up to the fifth since an open, leaves the session reconnecting; unless a timer is held, exactly one is armed, for the attempt of that socket, with the delay of that retry. |
| SessionEvents.SixthCloseGivesUp | baoclaw-whatsapp/src/session.ts:377-391 | In every run the sixth close since an open gives up: the session is idle, an open promise is rejected, and no timer is armed. |
| SessionEvents.OpenConnects | baoclaw-whatsapp/src/session.ts:340-356 | In every run the open of the current socket connects the session, resolves an open promise of its attempt, and touches no other promise and no timer. |
| SessionEvents.TimerReconnects | baoclaw-whatsapp/src/session.ts:284-290 | In every run a timer that fires is forgotten, and one socket is opened for its attempt iff that is still the current one. |
| SessionEvents.RetriesAreCloses | baoclaw-whatsapp/src/session.ts:358-391 | In every run the counter of an attempt is the number of its closes, other than by a logout, since one of its sockets last opened. |
| SessionEvents.ThirdAwaitOpens | baoclaw-whatsapp/src/session.ts:200-264 | In every run an attempt opens its first socket when it passes its third await in time; an await that throws, or comes too late, rejects it. |
| SessionEvents.InitializeStartsIff | baoclaw-whatsapp/src/session.ts:172-184 | In every run `initialize` starts an attempt, without a retry timer, iff there is neither a connected socket nor a running attempt, and changes nothing otherwise. |
| SessionEvents.FailureFallsBack | baoclaw-whatsapp/src/session.ts:185-198 | In every run a settled attempt is awaited no longer, and its failure leaves the session idle iff it is the current one, not stopping and not logged out. |
| SessionEvents.DisconnectStops | baoclaw-whatsapp/src/session.ts:418-440 | In every run `disconnect` moves both generations on, forgets socket and timer, and rejects the running attempt iff it is open. |
| SessionEvents.DelaysDouble | baoclaw-whatsapp/src/session.ts:284-290 | The first retry waits 3,000 ms, and each later one twice as long as the one before, up to 30,000. |
| SessionLifecycle.OldSocketsAreIgnored | baoclaw-whatsapp/src/session.ts:281-282 | In every run, open and close events of every socket but the latest change nothing at all. |
| SessionLifecycle.PromisesSettleOnce | baoclaw-whatsapp/src/session.ts:240-257 | In every run the promise of each attempt is settled at most once, and exactly once when it is reported settled. |
| SessionLifecycle.DisconnectRejectsTheRunning | baoclaw-whatsapp/src/session.ts:418-429 | A running attempt whose promise is open is rejected by `disconnect()`, in every run. |
| SessionLifecycle.OneRetryTimer | baoclaw-whatsapp/src/session.ts:284-290 | In every run the only live retry timer is the one held in `retryTimer`. |
| SessionLifecycle.RetriesAreBounded | baoclaw-whatsapp/src/session.ts:358-391 | Between two opens of one attempt at most `MAX_RETRIES` of its retries are scheduled, with at most 75,000 ms of delay in all. |
| SessionRetries.OverrunIff | baoclaw-whatsapp/src/session.ts:172-184 | When `initialize()` starts an attempt in any run: some continuation without another `initialize()` arms more than `MAX_RETRIES` retries, or more than 75,000 ms of delay, in that lifecycle between two opens iff a socket was in use at that moment. |
| SessionRetries.SixRetries | baoclaw-whatsapp/src/session.ts:358-391 | With a socket in use at that moment, a continuation in which six retries are armed: one for the old socket, five for the new attempt. |
| SessionRetries.RetriesOfALifecycle | baoclaw-whatsapp/src/session.ts:284-290 | In every run at most six retries are armed between two opens of one lifecycle, at most one more than the current attempt has, with at most 105,000 ms of delay. |
| SessionLifecycle.RunKeepsInv | baoclaw-whatsapp/src/session.ts:172-440 | The invariant over generations, promises, sockets and timers holds in every run of calls and callbacks. |
| SessionManagers.SessionManager.constructor | baoclaw-whatsapp/src/session.ts:139-155 | A new session manager is idle in the first generation and satisfies the invariant. |
| SessionManagers.SessionManager.Handle | baoclaw-whatsapp/src/session.ts:172-440 | Every call and every callback, whenever it comes, keeps the invariant in the fields of the session manager and is that step of the lifecycle. |
| SessionManagers.SessionManager.Initialize | baoclaw-whatsapp/src/session.ts:172-184 | Starts an attempt in a new lifecycle, or joins the running one, or does nothing when connected. |
| SessionManagers.SessionManager.ClearRetryTimer | baoclaw-whatsapp/src/session.ts:176-179 | The timer held is cleared and forgotten. |
| SessionManagers.SessionManager.OnAwaited | baoclaw-whatsapp/src/session.ts:200-238 | An attempt passes each of its awaits only while its generation is current; behind the last one it opens its socket. |
| SessionManagers.SessionManager.OnInitialized | baoclaw-whatsapp/src/session.ts:185-198 | The end of `initialize` falls back to idle only for the current generation, and forgets only its own promise. |
| SessionManagers.SessionManager.RejectPromise | baoclaw-whatsapp/src/session.ts:245-257 | Rejecting a settled promise changes nothing; rejecting an open one settles it and releases the pending rejection. |
| SessionManagers.SessionManager.ResolvePromise | baoclaw-whatsapp/src/session.ts:351-355 | Resolving settles the promise and releases the pending rejection. |
| SessionManagers.SessionManager.OpenSocket | baoclaw-whatsapp/src/session.ts:258-280 | A stale attempt is rejected and creates no socket; a current one opens the next connection generation. |
| SessionManagers.SessionManager.OnOpen | baoclaw-whatsapp/src/session.ts:340-356 | The open of the current socket resets the retries, makes the session connected and resolves an open promise. |
| SessionManagers.SessionManager.OnClose | baoclaw-whatsapp/src/session.ts:358-392 | The close of the current socket ends, logs out or retries, in this order of tests; what each means over a run is `SessionEvents.LogoutEnds`, `CloseRetries` and `SixthCloseGivesUp`. |
| SessionManagers.SessionManager.Closed | baoclaw-whatsapp/src/session.ts:366-391 | What the close means for the attempt of the socket: stopped, logged out, or one more retry, as `SessionEvents.LogoutEnds`, `CloseRetries` and `SixthCloseGivesUp` require. |
| SessionManagers.SessionManager.Retry | baoclaw-whatsapp/src/session.ts:377-391 | One more close counts a retry and schedules it, or gives up behind the last one. |
| SessionManagers.SessionManager.Schedule | baoclaw-whatsapp/src/session.ts:284-290 | A retry is scheduled unless one is scheduled already or the session is stopping. |
| SessionManagers.SessionManager.OnRetryTimer | baoclaw-whatsapp/src/session.ts:284-290 | The timer forgets itself before it opens the next socket. |
| SessionManagers.SessionManager.Disconnect | baoclaw-whatsapp/src/session.ts:418-440 | Both generations move on, the timer is cleared, a running attempt is rejected, and socket and promise are forgotten. |
| PermissionRequests.LeavesExactlyOnce | baoclaw-telegram/src/permission.ts:114-187 | In every run each request ever registered is pending and has not left, or has left the pending state exactly once: resolved, timed out, superseded or wiped. |
| PermissionEvents.PendingAsRegistered | baoclaw-telegram/src/permission.ts:114-146 | In every run what is pending in a chat is its last registration, unless that has been resolved, timed out or wiped, with the tool id, tool name and message id it was registered with, read off the events. |
| PermissionEvents.EventsReport | baoclaw-telegram/src/permission.ts:114-187 | In every run each event reports exactly this: a registration the pending request of its chat as superseded, a resolution that request as resolved, a timer its own request as timed out if it is still open, a clean-up all open ones; each as it was registered, at the time of the event. |
| PermissionEvents.OpenIsPending | baoclaw-telegram/src/permission.ts:126-145 | In every run a request is pending, and its timer live, iff it is the one the events leave in its chat. |
| PermissionEvents.LateIffLastLeft | baoclaw-telegram/src/permission.ts:173-179 | In every run a reply is late iff the last request of its chat to leave did so less than the grace period ago, read off the events. |
| PermissionRequests.TimerHoldsThePending | baoclaw-telegram/src/permission.ts:126-145 | In every run a chat has a pending request iff it has a live timer, and the timer is the one held for the chat and holds that very request. |
| PermissionRequests.TimerExpiresItsOwn | baoclaw-telegram/src/permission.ts:132-144 | A timer that fires removes exactly the request it was set for and reports that request, although its callback deletes by chat. |
| PermissionRequests.LateReplyIff | baoclaw-telegram/src/permission.ts:173-179 | A reply counts as late iff a request of its chat left the pending state less than the grace period ago, since the last clean-up. |
| PermissionManagers.TelegramPermissionManager.Register | baoclaw-telegram/src/permission.ts:114-146 | A request supersedes the pending one of its chat, whose timer is cleared and whose id is reported, gets its own timer, and keeps the invariant; that it is kept as registered is `PermissionEvents.PendingAsRegistered`. |
| PermissionManagers.TelegramPermissionManager.GiveWay | baoclaw-telegram/src/permission.ts:124-133 | The pending request of the chat gives way: its timer is cleared and its id handed on. |
| PermissionManagers.TelegramPermissionManager.Resolve | baoclaw-telegram/src/permission.ts:154-166 | Takes the pending request and its timer away, once. |
| PermissionManagers.TelegramPermissionManager.OnTimer | baoclaw-telegram/src/permission.ts:132-144 | The timer callback removes by chat and reports the id it captured. |
| PermissionManagers.TelegramPermissionManager.Cleanup | baoclaw-telegram/src/permission.ts:182-187 | Wipes requests, timers and grace times. |
| RateLimiting.WindowsAreBounded | baoclaw-whatsapp/src/rateLimiter.ts:18-34 | With a clock that never goes back, every window of length `windowMs`, wherever it ends, holds at most `maxMessages` accepted messages of a sender. |
| RateLimiting.AllowedIffNotFull | baoclaw-whatsapp/src/rateLimiter.ts:18-34 | In such a run a message is refused iff the window ending at that moment already holds `maxMessages` accepted messages. |
| RateLimiting.QuotaPredicts | baoclaw-whatsapp/src/rateLimiter.ts:39-45 | In such a run a message is allowed iff the remaining quota was positive, and then lowers it by one iff the window has a positive length. |
| RateLimiting.PoppedIsActiveIff | baoclaw-whatsapp/src/rateLimiter.ts:22-44 | For every list of times: popping the expired head gives the same list as filtering iff no expired time is behind a live one. |
| RateLimiting.ClockGoingBackBreaksTheQuota | baoclaw-whatsapp/src/rateLimiter.ts:18-45 | With a clock that goes back the quota can be positive for a message that is refused. |
| RateLimiting.WindowsAreIndependent | baoclaw-whatsapp/src/rateLimiter.ts:18-34 | The window of a sender is determined by its own calls alone. |
| RateLimiting.RateLimiter.TryConsume | baoclaw-whatsapp/src/rateLimiter.ts:18-34 | The loop over the head of the window and the push compute `Consumed`; the windows of other senders are unchanged. |
| RateLimiting.RateLimiter.GetRemainingQuota | baoclaw-whatsapp/src/rateLimiter.ts:39-45 | The quota of a sender with or without a window; nothing is changed. |
| LogRotation.RetainedIsSuffix | ts-ipc/logger.ts:36-66 | In every run, also with failing renames and appends, files .3, .2, .1 and current, concatenated, are a suffix of everything appended. |
| LogRotation.FilesFit | ts-ipc/logger.ts:46-64 | In every run each file is within `MAX_LOG_BYTES` or is a single line. |
| LogRotation.PackedIff | ts-ipc/logger.ts:46-64 | Adjacent files together exceed the limit, with no gap between them, throughout a run iff no write fails, at a rename or at its append, with part of its rotation done. |
| LogRotation.MuchIsRetained | ts-ipc/logger.ts:46-64 | If no write fails with part of its rotation done, then once any line has been dropped more than 2 x `MAX_LOG_BYTES` bytes are still retained. |
| LogRotation.FailedAppendsRetainLittle | ts-ipc/logger.ts:55-64 | With failing appends lines are dropped although three bytes are retained. |
| LogRotation.FailureCanBeMadeUp | ts-ipc/logger.ts:46-64 | A failed rotation is not always followed by the loss of the bound: lines of full size written later make up for it. |
| LogRotation.Logger.Write | ts-ipc/logger.ts:36-66 | The rotation and the append compute `Written`; a rename that fails throws out of `write`; a line below the level, or without a log file, changes no file. |
| LogRotation.Logger.Rotate | ts-ipc/logger.ts:46-54 | The countdown loop renames .2, .1 and the current file, in this order, up to the first rename that fails. |
| MessageSplitters.SplitJoins | baoclaw-whatsapp/src/formatter.ts:203-241 | The chunks of any splitter whose cuts make progress, put together, are the message. |
| MessageSplitters.GatewayChunks | baoclaw-feishu/src/formatter.ts:249-287 | WhatsApp and Feishu messages come out whole, in chunks within the limit, for every text and every positive limit. |
| MessageSplitters.WhatsAppProgressIff | baoclaw-whatsapp/src/formatter.ts:203-241 | The WhatsApp loop makes progress on every message that does not fit iff the limit is positive; with limit 0 a pass changes nothing, so that it never ends. |
| MessageSplitters.FeishuProgressIff | baoclaw-feishu/src/formatter.ts:249-287 | The Feishu loop makes progress on every message that does not fit iff the limit is positive; with limit 0 a pass changes nothing, so that it never ends. |
| MessageSplitters.TelegramChunks | baoclaw-telegram/src/messageSplitter.ts:2-24 | A Telegram message comes out whole; every chunk is within the limit or is one surrogate pair under a limit of one unit; well-formed UTF-16 text gives well-formed chunks. |
| MessageSplitters.TelegramCutKeepsPairs | baoclaw-telegram/src/messageSplitter.ts:9-12 | No cut of well-formed text falls between the halves of a surrogate pair. |
| MessageSplitters.CutsAtLineBoundaries | baoclaw-telegram/src/messageSplitter.ts:13-19 | A chunk ends at a line boundary whenever the region it may take has one behind its first unit; WhatsApp and Feishu keep the newline in the chunk, Telegram leaves it to the next. |
| MessageSplitters.WhatsAppPrefers | baoclaw-whatsapp/src/formatter.ts:203-241 | WhatsApp cuts behind the last paragraph break of the region that is behind its first unit; without one behind the last such line break; without one at the limit. |
| MessageSplitters.FeishuPrefers | baoclaw-feishu/src/formatter.ts:249-287 | Feishu cuts behind the last line of three backticks, and otherwise as WhatsApp does. |
| MessageSplitters.TelegramPrefers | baoclaw-telegram/src/messageSplitter.ts:2-24 | Telegram cuts before the last paragraph break, otherwise before the last line break, each of which may stand right behind the hard end, and otherwise at the hard end, which does not separate a surrogate pair. |
| MessageSplitters.WhatsAppSplit | baoclaw-whatsapp/src/formatter.ts:203-241 | A message that fits stays whole; for every other one, under every positive limit, the loop terminates with the chunks of the cutting rule. |
| MessageSplitters.FeishuSplit | baoclaw-feishu/src/formatter.ts:249-287 | A message that fits stays whole; for every other one, under every positive limit, the loop terminates with the chunks of the cutting rule. |
| MessageSplitters.TelegramSplit | baoclaw-telegram/src/messageSplitter.ts:2-24 | The loop over offsets terminates with the chunks of the cutting rule; it fails iff the limit is below one. |
| MessageSplitters.LastIndexIs | baoclaw-telegram/src/messageSplitter.ts:13-16 | The last position where the pattern occurs, or -1 when it occurs nowhere. |
| ConfigMigration.MigrationPreserves | baoclaw-core/src/config.rs:359-434 | Loading an old-format configuration keeps model, API type, window, ratio and retries, and keeps the ordered fallback list iff no leftover fallback profile name is one that the migration defines. |
| ConfigMigration.LoadingIsIdempotent | baoclaw-core/src/config.rs:359-363 | Normalize-then-sync is idempotent for every configuration in either format. |
| ConfigMigration.MigratedFields | baoclaw-core/src/config.rs:369-404 | A loaded old configuration field by field: the primary profile, and for each fallback model the profile and the name in its place, each with the base URL, window, ratio and retries of the configuration. |
| ConfigMigration.NewFormatIsSynced | baoclaw-core/src/config.rs:409-434 | A configuration in the new format keeps its profiles; each fallback profile that exists gives its model, in order. |
| ConfigMigration.PrimaryIsSynced | baoclaw-core/src/config.rs:415-424 | Model, API type, window, ratio and retries are those of the primary profile if it names one that exists, and as they were otherwise. |
| ConfigMigration.FallbackNamesDiffer | baoclaw-core/src/config.rs:390-402 | The generated profile names are pairwise different and differ from the primary one. |
| ConfigMigration.MigratedLookup | baoclaw-core/src/config.rs:377-403 | A name has a migrated profile iff it is the primary or a generated one, and the profile is that of its model with inherited settings. |
| ConfigMigration.BaoclawConfig.NormalizeProfiles | baoclaw-core/src/config.rs:369-404 | The migration in place computes `Normalized`. |
| ConfigMigration.BaoclawConfig.MigrateFallbacks | baoclaw-core/src/config.rs:390-403 | The loop over the fallback models defines one profile for each and appends its name. |
| ConfigMigration.BaoclawConfig.SyncProfilesToLegacy | baoclaw-core/src/config.rs:409-434 | The synchronization in place computes `Synced`. |
| CodeHighlighter.ErasingGivesTheLine | ts-ipc/markdownRenderer.ts:91-135 | Erasing the SGR sequences (section 8.3.117 of ECMA-48) from a highlighted line without escape characters gives back the line, including unterminated strings and a trailing backslash. |
| CodeHighlighter.TokensAreMarked | ts-ipc/markdownRenderer.ts:91-135 | Words are marked iff they are in the table of keywords, a comment is the last token, and only the last string may be open. |
| CodeHighlighter.TokensAreWhatTheyStartWith | ts-ipc/markdownRenderer.ts:91-135 | The tokens cover the line one behind the other. A token is a string iff it starts with a quote, and a comment iff it starts with the mark of one; a comment takes the rest of the line, and a token that starts with a letter is the longest word there. |
| CodeHighlighter.StringsEndBehindTheirQuote | ts-ipc/markdownRenderer.ts:96-102 | A string ends behind the first quote of its own kind that is not escaped, and is the rest of the line without one. |
| CodeHighlighter.StylesAre | ts-ipc/markdownRenderer.ts:6-20 | Strings are green, comments gray and keywords blue, each followed by the style of the code block; everything else is written as it is. |
| CodeHighlighter.KeywordsAreWholeIff | ts-ipc/markdownRenderer.ts:113-127 | What is marked as a keyword ends where a word of the line ends, and is a whole word of the line iff no digit stands before it. |
| CodeHighlighter.TailOfAWordIsMarked | ts-ipc/markdownRenderer.ts:113-127 | In `2if` the tail `if` is marked. |
| CodeHighlighter.Highlight | ts-ipc/markdownRenderer.ts:91-135 | The loop over the line writes exactly the tokens of the line, each in its style, for every table of keywords. |
| CodeHighlighter.HighlightToken | ts-ipc/markdownRenderer.ts:95-132 | One pass of the loop: what it writes and where it goes on. |
| CodeHighlighter.ScanString | ts-ipc/markdownRenderer.ts:96-102 | The end of a string literal, at its closing quote, at the end of the line, or one behind it after a trailing backslash. |
| CodeHighlighter.ScanWord | ts-ipc/markdownRenderer.ts:115-117 | The end of the longest word. |
| CodeHighlighter.HighlightCodeLine | ts-ipc/markdownRenderer.ts:23-135 | The same with the table of keywords of the source. |
| Ansi.ErasedStyle | ts-ipc/markdownRenderer.ts:6-20 | A style sequence followed by any text shows as that text alone. |
| Ansi.ErasedPlain | ts-ipc/markdownRenderer.ts:91-135 | Text without escape characters is shown as it is, whatever follows. |
| Ansi.ErasedUpTo | ts-ipc/markdownRenderer.ts:177-183 | A style sequence does not reach across a character that cannot be part of one, such as the space behind a cell. |
| Ansi.ErasedWholeIff | ts-ipc/markdownRenderer.ts:159-198 | A text loses nothing when its style sequences are erased iff it has none. |
| TableRenderer.TableAlignsIff | ts-ipc/markdownRenderer.ts:159-198 | All lines of a rendered table have the same visible width, and all hold a border at the same positions, iff no shown cell contains a style sequence of its own. |
| TableRenderer.LinesAreFramed | ts-ipc/markdownRenderer.ts:171-184 | Every line, whatever its cells contain, is as wide as its columns as shown, with a border at each of their edges. |
| TableRenderer.RedCellBreaksTheTable | ts-ipc/markdownRenderer.ts:162-183 | A table of one red letter: its row has visible width 5 between rules of width 10. |
| TableRenderer.RowsAreShown | ts-ipc/markdownRenderer.ts:177-196 | Every cell of a row that is not a separator is shown in full, trimmed and without its style sequences, in its own column. |
| TableRenderer.RowWithTextIsShown | ts-ipc/markdownRenderer.ts:177-196 | When one cell of a row is empty or has a character other than a dash, a colon or white space, every cell of the row is shown. |
| TableRenderer.ContentIff | ts-ipc/markdownRenderer.ts:186-196 | A row is drawn as cells iff it has such a cell, and as the middle rule otherwise. |
| TableRenderer.RulesAreDrawn | ts-ipc/markdownRenderer.ts:171-176 | A rule shows its corners, its crossings at the borders of the columns, and dashes between them. |
| TableRenderer.WidthsAreAttained | ts-ipc/markdownRenderer.ts:162-169 | There are as many columns as the longest row has cells, and each is as wide as its widest cell. |
| TableRenderer.CellsAreShown | ts-ipc/markdownRenderer.ts:177-183 | Between its borders a column shows the trimmed cell without its style sequences, and the padding counted from its full length. |
| TableRenderer.NoWiderThanTheTable | ts-ipc/markdownRenderer.ts:162-169 | No row has more cells than the table has columns, and no trimmed cell is wider than its column. |
| TableRenderer.ColumnWidths | ts-ipc/markdownRenderer.ts:162-169 | The loops over rows and cells compute the number of columns and the width of each. |
| TableRenderer.RenderTable | ts-ipc/markdownRenderer.ts:159-198 | One line for each row in order, between two rules, separator rows as rules; nothing for an empty table. |

## Left out

- Liveness: that a turn ends, that a daemon answers, that a timer fires.
- The assumption of one end per turn is a premise of `RepliesFaithfulWhenTurnsEndOnce` only; everything else about the slot, the queues and conservation holds without it.
- TelegramGateways.TelegramGateway.OnMessage: requires a non-empty text and a running process, because the message handler has returned before for messages without text.
- MessageSplitters.WhatsAppSplit: requires a positive limit for a message that does not fit, because with limit 0 the loop never ends on it (`WhatsAppProgressIff`).
- MessageSplitters.FeishuSplit: requires a positive limit for a message that does not fit, because with limit 0 the loop never ends on it (`FeishuProgressIff`).
- LogRotation.MuchIsRetained: one direction, because after a failed rotation large lines can still bring the retained bytes above the bound (`FailureCanBeMadeUp`); the exact condition for the packing of adjacent files, from which the bound follows, is `PackedIff`.
- RequestTable.DownMeansEmpty: one direction, because requests left pending may still be settled one by one; the exact conditions are `LossRejectsIff` for the moment at which the connection goes down and `RejectedIff` for one request.
- WhatsApp: duplicate check, allowlist, commands, permission replies, rate limit and media download before a message is enqueued; the text of notices; the display of tools and permission prompts.
- Telegram: the text accumulators, thinking text, attachments and the content of replies, so that a handler may or may not be suspended whatever the turn streamed; the `/quit` command.
- Sender state is a value in a map; the alias that `getState` hands out, and pending permissions kept there, are not part of this model.
- `JSON.parse` is a parameter of the IPC client, giving what routing looks at; `JsonParser` reads text without white space, keeps number literals as text and reads only the four-digit escapes that `JSON.stringify` writes; whether a request can be serialized is a parameter; notification handlers and disconnect handlers have no effect on the table; `nextId` is unbounded.
- `data.toString` on chunks that cut a character; characters are Unicode scalar values outside the splitters, which work on UTF-16 units.
- The socket factory of the session throwing, the sockets that `disconnect()` ends, pairing codes, credentials, and the content of the authentication directory.
- `onExpire` of the permission manager calling back into the manager; prompt texts and keyboards.
- Log level formats, redaction, console output, and appends that write part of a line.
- Configuration fields that neither pass touches, and reading or writing the file.
- Joining the lines of a table with newlines, code block frames, inline markup, and visible widths of characters that are not one column wide.
- `BasePermissionManager` and the managers built on it, the Rust engine, the terminal and web interfaces, the regular-expression formatters, `reconnectDaemon` and shutdown.
- Clocks are parameters; the file system is a map from index to records; sockets and timers of the event loop are rows of maps.
