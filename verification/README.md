# Verification of the messaging relay

A Go server relays messages between agent sessions; each session runs a TypeScript client over one WebSocket. This
project models the parts whose correctness is hard to see from any one function, and proves what they promise over
every input, every interleaving and every run.

## What is modelled

- **Dedupe ledger.** `LedgerSpec` is the ledger as a value; `DedupeLedgers.DedupeLedger` is the class with the four
  indexes of the source, each of whose methods is proved to do to the value what the specification does. `LedgerIdeal`
  is a ledger that never forgets; `LedgerHistory` speaks of whole runs. `DecimalNumber`, `DecimalEquality`,
  `Fingerprint` and `FingerprintCanonical` are the number normaliser and the fingerprint stream.
- **Delivery and registry.** `Registry` holds the session registry (value and class). `Delivery` is the server as a
  machine whose steps are lock sections and ready `select` arms of any goroutine; `DeliverySafety` proves what every
  interleaving keeps and `DeliveryOffers` what becomes of offers; `DeliveryDispatchers.DeliveryDispatcher` is the class.
  `OfferFrames` is the size of an offer.
- **Response sequencer.** `Sequencer` is one authenticated connection: tokens, slots, queue, gates, writer, terminal
  transition. `SequencerSafety`, `SequencerOrder` and `SequencerLiveness` prove its accounting, order and progress;
  `SequencerLedger` runs it together with the ledger that all sessions share.
- **Client.** `ClientMachine` and `RosterClients.RosterClient` are the single-flight owner with its one retry, whose
  timer is armed with the send, cancelled with it, and fires at most once; `Reconnect` and
  `ConnectionOwners.ConnectionOwner` are session starts and the retry loop.
- **End to end.** `EndToEnd` puts client, reader, ledger, workers and the two channels together for one session while
  other sessions act on the ledger at will; what it takes from deliveries is proved in `DeliveryOffers`. `EndToEndPairs`
  says when the two results of a send differ.
- **Rosters.** `Base64`, `RosterText`, `RosterPage` and `RosterWalk`: cursors, frame sizes, pages and walks.
- **Bodies.** `Utf16`, `JSONTree`, `JSONTreeLaws`, `BoundedEncoders`, `CanonicalText`, `Recogniser`, `JSONCursors`,
  `JSONInspection` and `SendFrames`: the bounded canonical encoder and the two recognisers that read its output.

Identities that the source draws at random (request, message and delivery IDs, record pointers) are distinct tokens.
Clocks, timers and the network are free choices of the environment.

## Claims that are false of the code

- After `forgetSender` the ledger can hold a record of that sender again, because `begin` does not look at the registry.
  `LedgerHistory.ForgottenUntilBegun` says exactly which next event does it.
- A client operation need not be settled: a receipt that cannot be written ends the client without a reason to reject
  its pending operation with. `ClientSafety.NeverSettled` gives the run, `ClientSafety.LeftOpenByReceipt` says that no
  other event does this; settlement is at most once (`ClientSafety.SettlesOnce`).
- A body within 256 KiB need not make an offer within 512 KiB. `OfferFrames.BracketsOutgrowTheFrame` gives the body,
  `OfferFrames.OfferFits` the exact condition; an oversized offer is dropped without a response.
- Slots are not all returned when the writer exits. `SequencerLiveness.SlotStranded` gives the run. Every slot comes
  back exactly when, at the exit, no holder of the admission lock has responses still to push:
  `SequencerLiveness.SlotsStayTaken` counts them.
- Paired results of one send need not agree once shutdown has cleared the ledger, while the connection is still up: a
  retry read then is admitted anew, installs nothing, and is answered "offline" when its recipient has gone.
  `EndToEndPairs.ResultsDifferExactly` says when: two received results differ exactly when different dispatches gave them
  and one of those had installed a delivery. `EndToEndCleared.ClearedPairConflicts` gives the run, for every result an
  offered delivery can have; the client then ends (`EndToEndPairs.ConflictEndsClient`).
- "At most one attempt" fails for a timer that fires inside a failing construction:
  `ReconnectSafety.UnpunctualBreaksSingleAttempt` gives the run. The claim holds throughout a run exactly when no step
  fires one there: `ReconnectSafety.AttemptsExactly`.
- "No deadline beside a retained connection" fails for two overlapping session starts:
  `ReconnectSafety.OverlappingStartsArmBesideConnection` gives the run. The claim holds throughout a run exactly when no
  launch that waited opens while a retry is armed, and no retry is armed while another attempt is connecting:
  `ReconnectSafety.DeadlinesExactly`. Where attempts are single only the first can happen
  (`ReconnectSafety.CalmDeadlines`): the check after the wait does not look at the deadline.

## Model

| member | source | states |
|---|---|---|
| LedgerInvariant.RunValid | cmd/pi-messaging-relay-server/dedupe.go:77-340 | after any sequence of ledger operations: at most one current send per sender, windows hold exactly the settled owned records, distinct and at most 1024, every record is pending, current or owned, and an attached retry sits only on a pending record whose repeat is used |
| LedgerIdeal.Refines | cmd/pi-messaging-relay-server/dedupe.go:77-203 | after any run, a frame is answered "new" or exactly as a ledger that never forgets answers it |
| LedgerIdeal.Remembers | cmd/pi-messaging-relay-server/dedupe.go:77-203 | what is pending, current, or among its present recipient's latest 1024 is never answered "new" |
| LedgerHistory.RecordFollows | cmd/pi-messaging-relay-server/dedupe.go:150-221 | between any two points of a run one record keeps its fingerprint and its settled response, and lost ownership never returns |
| LedgerHistory.StaleCompletion | cmd/pi-messaging-relay-server/dedupe.go:162-175 | completing with the handle of an earlier generation, or a second time, changes nothing and hands back no retry |
| LedgerHistory.WindowsOrdered | cmd/pi-messaging-relay-server/dedupe.go:181-203 | over every run each recipient's window is in settlement order |
| LedgerHistory.EvictsOldest | cmd/pi-messaging-relay-server/dedupe.go:181-203 | a full window loses exactly its oldest entry, whose record goes unless it is its sender's current one; other windows are untouched |
| LedgerHistory.MemoryBound | cmd/pi-messaging-relay-server/dedupe.go:60-66 | over every run the record count is at most pending + current + 1024 per recipient with a window |
| LedgerHistory.ForgottenUntilBegun | cmd/pi-messaging-relay-server/dedupe.go:127-148 | a forgotten sender has nothing in the ledger, and after one more event has nothing exactly when that event does not begin one of its sends |
| LedgerHistory.StaysForgotten | cmd/pi-messaging-relay-server/dedupe.go:232-241 | after any later run without a new begin of that sender the ledger still holds nothing of it |
| DedupeLedgers.DedupeLedger.constructor | cmd/pi-messaging-relay-server/dedupe.go:68-75 | a new ledger is empty |
| DedupeLedgers.DedupeLedger.Observe | cmd/pi-messaging-relay-server/dedupe.go:77-125 | new, attached, overflow, replay or conflict as the specification answers; the indexes follow; a body that does not parse leaves the ledger alone |
| DedupeLedgers.DedupeLedger.Begin | cmd/pi-messaging-relay-server/dedupe.go:127-148 | a fresh current record replaces the sender's previous current one; a record already under the key is an error that changes nothing |
| DedupeLedgers.DedupeLedger.BindRecipient | cmd/pi-messaging-relay-server/dedupe.go:150-160 | only a live, pending, unbound record gets its recipient |
| DedupeLedgers.DedupeLedger.Complete | cmd/pi-messaging-relay-server/dedupe.go:162-205 | settles or drops a live pending record once, moves the window, evicts at most the oldest, and hands back the attached retry |
| DedupeLedgers.DedupeLedger.ReleaseCurrent | cmd/pi-messaging-relay-server/dedupe.go:207-221 | gives up the sender's claim only if this very record is still current |
| DedupeLedgers.DedupeLedger.AdvanceSender | cmd/pi-messaging-relay-server/dedupe.go:223-230 | the previous send stays only if pending or owned |
| DedupeLedgers.DedupeLedger.ForgetSender | cmd/pi-messaging-relay-server/dedupe.go:232-241 | every record of the sender leaves every index |
| DedupeLedgers.DedupeLedger.ForgetRecipient | cmd/pi-messaging-relay-server/dedupe.go:243-261 | its records lose their owner for good; settled ones nobody else needs go |
| DedupeLedgers.DedupeLedger.Shutdown | cmd/pi-messaging-relay-server/dedupe.go:263-270 | the ledger is empty |
| DedupeLedgers.DedupeLedger.RemoveRecord | cmd/pi-messaging-relay-server/dedupe.go:324-340 | one record leaves `records`, its sender's set, the current index and its recipient |
| DedupeLedgers.DedupeLedger.DetachRecipient | cmd/pi-messaging-relay-server/dedupe.go:306-322 | one record leaves its recipient's records and settled list, and nothing else changes |
| DecimalNumber.NormalizeJSONNumber | cmd/pi-messaging-relay-server/dedupe.go:447-479 | the in-place rewriting computes the canonical spelling, or reports an exponent that is no integer |
| DecimalEquality.DenotesAndIsIdempotent | cmd/pi-messaging-relay-server/dedupe.go:447-479 | for every literal of section 6 of RFC 8259 the output is a literal for the same number, and normalising it again changes nothing |
| DecimalEquality.DecidesEquality | cmd/pi-messaging-relay-server/dedupe.go:447-479 | two literals normalise to one text exactly when they denote one rational, exponents unbounded and -0 equal to 0 |
| Fingerprint.Writer.WriteCanonicalJSONValue | cmd/pi-messaging-relay-server/dedupe.go:403-445 | appends the canonical stream of the value, or fails exactly when a number inside does not normalise |
| Fingerprint.SendFingerprint | cmd/pi-messaging-relay-server/dedupe.go:363-401 | the stream of `to`, presence and value of `re`, and body |
| FingerprintCanonical.PayloadsCanonical | cmd/pi-messaging-relay-server/dedupe.go:363-445 | with parts below 2^56 bytes, two sends have one stream exactly when they are equal up to member order and number spelling, `re` present or absent included |
| FingerprintCanonical.FingerprintsDecide | cmd/pi-messaging-relay-server/dedupe.go:363-445 | such sends always have a fingerprint, and it decides whether a repeat conflicts |
| Registry.SessionConnectionRegistry.ReserveEntry | cmd/pi-messaging-relay-server/session_auth.go:125-134 | an entry is given exactly while open and below the limit |
| Registry.SessionConnectionRegistry.AttachConnection | cmd/pi-messaging-relay-server/session_auth.go:136-147 | stores the connection, and says whether the entry is tracked and the registry open |
| Registry.SessionConnectionRegistry.ReserveSession | cmd/pi-messaging-relay-server/session_auth.go:149-172 | a session enters exactly when no other entry holds its route or its address; uniqueness is kept |
| Registry.SessionConnectionRegistry.PublishSession | cmd/pi-messaging-relay-server/session_auth.go:174-188 | only the entry that still holds this very session becomes visible |
| Registry.SessionConnectionRegistry.HideSession | cmd/pi-messaging-relay-server/session_auth.go:190-200 | the entry stops being visible, and its session is named for the sweep |
| Registry.SessionConnectionRegistry.FenceSession | cmd/pi-messaging-relay-server/session_auth.go:202-210 | under the write lock the entry gives up exactly that session |
| Registry.SessionConnectionRegistry.RemoveEntry | cmd/pi-messaging-relay-server/session_auth.go:214-228 | the entry leaves the registry |
| Registry.SessionConnectionRegistry.PublishedSession | cmd/pi-messaging-relay-server/session_auth.go:291-300 | finds the one published session with the address, if there is one |
| Registry.SessionConnectionRegistry.IsPublishedSession | cmd/pi-messaging-relay-server/session_auth.go:302-314 | true exactly for a published session |
| Registry.SessionConnectionRegistry.AddressSnapshot | cmd/pi-messaging-relay-server/roster.go:23-35 | every published address but the caller's, none twice |
| DeliverySafety.RunSafe | cmd/pi-messaging-relay-server/delivery.go:89-254 | the invariant of registry, dispatcher and wire holds after every interleaving |
| DeliverySafety.SingleOwner | cmd/pi-messaging-relay-server/delivery.go:131-254 | a delivery is installed exactly while unclaimed, at most one channel is ever closed, and whoever finishes reports the claimer's outcome |
| DeliverySafety.ClaimedNeverBlocks | cmd/pi-messaging-relay-server/delivery.go:159-179 | after a failed `remove()` exactly one channel is closed, and taking its arm yields the claimer's outcome |
| DeliverySafety.ClaimsAreFinal | cmd/pi-messaging-relay-server/delivery.go:171-179 | a delivery leaves `pending` exactly when claimed, once, and never returns |
| DeliverySafety.NothingLeftPending | cmd/pi-messaging-relay-server/delivery.go:131-333 | no entry survives `send`'s return, its sender's sweep or the shutdown |
| DeliverySafety.LossIsFinal | cmd/pi-messaging-relay-server/delivery.go:303-333 | a swept session and a stopped dispatcher stay so |
| DeliverySafety.ErrorFrameIsLast | cmd/pi-messaging-relay-server/session_auth.go:190-212 | after a session's sweep only an error frame reaches it, and after that nothing: the write fence precedes the hand-off |
| DeliverySafety.AddressesUnique | cmd/pi-messaging-relay-server/session_auth.go:149-188 | a route or an address names at most one published session, and that one is not swept |
| DeliveryOffers.OfferedAtMostOnce | cmd/pi-messaging-relay-server/delivery.go:181-216 | over every interleaving no delivery is offered twice on the wire |
| DeliveryOffers.UnansweredOffer | cmd/pi-messaging-relay-server/delivery.go:153-254 | a delivery whose offer was written ends without an answer only when its sender was swept, the dispatcher was stopped, or its own context ended |
| DeliveryOffers.InstalledAnswers | cmd/pi-messaging-relay-server/delivery.go:153-254 | an installed delivery is answered "received", "recipient disconnected" or, after its offer, "acknowledgement timeout", under its own message and addresses; never "offline" |
| DeliveryDispatchers.DeliveryDispatcher.Admit | cmd/pi-messaging-relay-server/delivery.go:131-151 | installs a delivery only for a published sender before shutdown |
| DeliveryDispatchers.DeliveryDispatcher.BeginSend | cmd/pi-messaging-relay-server/delivery.go:109-151 | without a delivery the only answer is "offline", exactly when nobody published has the address; otherwise a delivery is installed for a published sender before shutdown, or there is no answer |
| DeliveryDispatchers.DeliveryDispatcher.TakeOwn | cmd/pi-messaging-relay-server/delivery.go:171-179 | true exactly for the first taker, and only for its own entry |
| DeliveryDispatchers.DeliveryDispatcher.ReceiveAck | cmd/pi-messaging-relay-server/delivery.go:288-301 | closes the delivery's channel only for its own recipient and message |
| DeliveryDispatchers.DeliveryDispatcher.HandleSessionUnavailable | cmd/pi-messaging-relay-server/delivery.go:303-322 | closes exactly the deliveries the lost session is a party to, as sender if both, and none twice |
| DeliveryDispatchers.DeliveryDispatcher.ShutdownDispatcher | cmd/pi-messaging-relay-server/delivery.go:324-333 | closes every delivery, once, and admits no more |
| DeliveryDispatchers.RunSound | cmd/pi-messaging-relay-server/delivery.go:288-333 | on every reachable state each pending delivery has all channels open, so no step closes one twice |
| OfferFrames.OfferFits | cmd/pi-messaging-relay-server/delivery.go:184-206 | the offer is within the frame limit exactly when overhead, body, five bytes a mark and three a separator, less the spaces, are |
| OfferFrames.OrdinaryBodyFits | cmd/pi-messaging-relay-server/delivery.go:184-206 | between legal addresses a body within 256 KiB fits unless its marks and separators add over 208 000 bytes |
| OfferFrames.BracketsOutgrowTheFrame | cmd/pi-messaging-relay-server/delivery.go:202-206 | a string of `<` at the body limit never fits |
| SequencerSafety.RunAccounts | cmd/pi-messaging-relay-server/protocol.go:201-267 | in every reachable state occupied slots are held ones plus the queue plus the writer's item and at most 256, tokens at most 128, and no channel operation without a fallback blocks |
| SequencerOrder.PairsAdjacent | cmd/pi-messaging-relay-server/protocol.go:425-463 | in the queue a send's own response is followed at once by its attached retry's, with the same result and its own request ID |
| SequencerOrder.TerminalPreempts | cmd/pi-messaging-relay-server/protocol.go:279-366 | once the terminal transition has begun nothing enters the queue, and the wire gets at most the response then being written and then one error frame, after the session is unpublished |
| SequencerOrder.CapacityGuarantee | cmd/pi-messaging-relay-server/protocol.go:400-476 | while fewer than 128 admitted sends are unanswered the next one is admitted |
| SequencerOrder.DispatchesHoldTokens | cmd/pi-messaging-relay-server/protocol.go:400-476 | each dispatch still running holds a token, so at most 128 do |
| SequencerLedger.PendingBounded | cmd/pi-messaging-relay-server/protocol.go:399-594 | over every run of one session with the shared ledger, whatever other sessions do to it, its pending records are no more than the tokens in use, and never more than 128 |
| SequencerLedger.AdmissionNeverCollides | cmd/pi-messaging-relay-server/protocol.go:575-593 | no record appears under a send's key between its observation and its admission, so that fatal error is unreachable |
| SequencerLedger.RunIsSequencers | cmd/pi-messaging-relay-server/protocol.go:399-594 | beside the ledger the sequencer does only what it does alone, so every result about it carries over |
| SequencerLiveness.FullSlotsMove | cmd/pi-messaging-relay-server/protocol.go:206-246 | with all 256 slots taken a publication, gate, release or writer step that makes progress is enabled |
| SequencerLiveness.DeadlockFree | cmd/pi-messaging-relay-server/protocol.go:137-476 | in every reachable state a step of the server's own, the deferred `terminate()` included, brings the end nearer, or all workers have finished or still dispatch and the writer has exited or waits beside a reader that still reads |
| SequencerLiveness.Drains | cmd/pi-messaging-relay-server/protocol.go:279-476 | with admissions stopped every effective step lowers one measure, so any schedule comes to an end |
| SequencerLiveness.SlotsAtTheEnd | cmd/pi-messaging-relay-server/protocol.go:225-267 | when all is settled the slots left are exactly the responses still queued: none while the writer lives, at most two after its exit |
| SequencerLiveness.SlotsStayTaken | cmd/pi-messaging-relay-server/protocol.go:225-267 | the slots left at the end are as many as the admission lock's holder had responses to push at the writer's exit; so none is left exactly when it had none |
| SequencerLiveness.SlotStranded | cmd/pi-messaging-relay-server/protocol.go:225-246 | a run in which a response is queued after the writer exited and keeps its slot |
| EndToEndSafety.OfferedAtMostOnce | cmd/pi-messaging-relay-server/protocol.go:551-594 | for every run of client, server and other sessions each logical send is offered at most once; of a single delivery it takes only what the two `DeliveryOffers` results say |
| EndToEndSafety.PairedResultsAgree | extension/internal/roster-client.ts:268-330 | until the ledger is cleared all results of one operation are equal, so "conflicting paired send result" is unreachable |
| EndToEndPairs.ResultsDifferExactly | cmd/pi-messaging-relay-server/delivery.go:109-135 | over every run two results received for one operation differ if and only if different dispatches gave them, one of which had installed a delivery; then the ledger was cleared and the retry's result is "offline" |
| EndToEndPairs.ConflictEndsClient | extension/internal/roster-client.ts:268-276 | a client that has received two differing results of one operation has ended; one that ended for a conflict has received such a pair, with an "offline" retry |
| EndToEndCleared.ClearedPairConflicts | cmd/pi-messaging-relay-server/delivery.go:324-333 | a run in which the ledger is cleared between an offered send and its retry, and the client meets the delivery's result and "offline" |
| EndToEndSafety.OrderlyClient | cmd/pi-messaging-relay-server/protocol.go:551-594 | this client never meets a capacity denial, a conflict or an overflow, and never has more than three unfinished workers |
| ClientSafety.SingleFlight | extension/internal/roster-client.ts:169-246 | over every order of events at most one operation is unsettled |
| ClientSafety.SettlesOnce | extension/internal/roster-client.ts:268-310 | a settled promise is never settled again |
| ClientSafety.ResolvedByOwnID | extension/internal/roster-client.ts:268-310 | a response resolves only the operation that issued its request ID, and a send only with its message ID |
| ClientSafety.AtMostTwoFrames | extension/internal/roster-client.ts:222-233 | since its retry timer fires at most once, a send writes at most two frames with one payload, and a list one |
| ClientSafety.TerminalAbsorbs | extension/internal/roster-client.ts:379-419 | after the end nothing is pending, nothing is accepted and nothing is written |
| ClientSafety.LeftOpenByReceipt | extension/internal/roster-client.ts:324-348 | whatever happens next, the pending operation is still pending or settled once the socket has settled, except exactly when the event is a receipt that cannot be written: then it is left open |
| ClientSafety.EndedForever | extension/internal/roster-client.ts:409-419 | after the end and the settling of the socket no later event changes any promise |
| ClientSafety.NeverSettled | extension/internal/roster-client.ts:324-348 | a run after which a send stays open whatever follows |
| RosterClients.RosterClient.BeginOperation | extension/internal/roster-client.ts:169-246 | refuses when ended, busy or aborted, and otherwise installs the one pending operation with its timers, or fails |
| RosterClients.RosterClient.FireRetryTimer | extension/internal/roster-client.ts:222-233 | the one firing of the timer that is still armed |
| RosterClients.RosterClient.RetrySend | extension/internal/roster-client.ts:312-322 | one more frame with the same payload and a new request ID, only for the send still pending whose first write completed |
| RosterClients.RosterClient.OnFrame | extension/internal/roster-client.ts:248-310 | a frame is a delivery, a drained late result, the pending operation's answer, or the end; it settles at most the pending operation, as its own response, and writes nothing by itself |
| RosterClients.RosterClient.WriteNext | extension/internal/roster-client.ts:350-364 | only the front of the chain goes out, only on an open socket and before the end |
| RosterClients.RosterClient.WriteDone | extension/internal/roster-client.ts:350-370 | a finished write makes way for the next; a failed one ends the client and drops the rest |
| RosterClients.RosterClient.AcceptResponse | extension/internal/roster-client.ts:279-310 | only the pending operation is settled, and resolved only under a request ID of its own; nothing is pending afterwards, and a response that settles nothing ends the client |
| RosterClients.RosterClient.OnSettled | extension/internal/roster-client.ts:409-419 | the operation pending at the end is rejected with the end's reason, if there is one; nothing else changes |
| RosterClients.RosterClient.OnSocketClose | extension/internal/roster-client.ts:379-387 | ends the client and rejects the pending operation, and only that one |
| Reconnect.DelaysBoundedAndMonotone | extension/internal/reconnect.ts:53-69 | every delay lies in [375, 30000] ms and grows with the retry index and with the sample |
| ReconnectSafety.SingleAttempt | extension/index.ts:316-460 | in every run in which no callback fires inside a failing construction at most one attempt is unresolved, the tracked one |
| ReconnectSafety.AttemptsExactly | extension/index.ts:316-528 | attempts stay single throughout a run if and only if no step of it fires a callback inside a failing construction of the current generation |
| ReconnectSafety.NoDeadlineWhileConnected | extension/index.ts:462-528 | if session starts do not overlap either, no deadline is armed beside a retained connection or a current attempt |
| ReconnectSafety.DeadlinesExactly | extension/index.ts:322-528 | for every run: no deadline is ever armed beside a connection or a current attempt if and only if no launch that waited opens while a retry is armed and no retry is armed while another current attempt is connecting |
| ReconnectSafety.CalmDeadlines | extension/index.ts:322-326 | where no callback fires inside a failing construction, if and only if no launch that waited opens while a retry is armed |
| ReconnectSafety.RetriesAndInstalls | extension/index.ts:316-528 | in every run at most ten retries are scheduled between resets, only the current generation installs a connection, and only a success or a stop resets |
| ReconnectSafety.UnpunctualBreaksSingleAttempt | extension/index.ts:494-528 | a run with a callback inside a failing construction that ends with two unresolved attempts |
| ReconnectSafety.OverlappingStartsArmBesideConnection | extension/index.ts:530-590 | a run of two overlapping starts that ends with a deadline armed beside a connection |
| ConnectionOwners.ConnectionOwner.ScheduleRetry | extension/index.ts:462-528 | arms one deadline at most, at most ten times, for the current generation without a connection |
| ConnectionOwners.ConnectionOwner.LaunchConnection | extension/index.ts:316-460 | nothing changes for a stale generation, beside a connection or without a route ID; beside a tracked task the launch waits and no attempt is added; otherwise a new attempt is tracked |
| ConnectionOwners.ConnectionOwner.Resume | extension/index.ts:322-326 | a launch that waited checks again everything it had checked, and adds an attempt only then |
| ConnectionOwners.ConnectionOwner.Retain | extension/index.ts:396-430 | only the current generation keeps a connection that is still open, and the retry count starts over |
| ConnectionOwners.ConnectionOwner.StartSession | extension/index.ts:624-658 | the session runs, nothing of attempts or deadline changes, and a start-up may begin |
| ConnectionOwners.ConnectionOwner.ConnectOnce | extension/index.ts:530-537 | a start-up begins only without a connection and before one was attempted |
| ConnectionOwners.ConnectionOwner.ConnectAfterTask | extension/index.ts:534-537 | after the awaited task the start-up goes on exactly if the session runs without a connection |
| ConnectionOwners.ConnectionOwner.ConnectConfigured | extension/index.ts:539-590 | unconfigured, or of an earlier generation, it launches nothing and leaves the deadline; otherwise the armed retry is cancelled and a launch made |
| ConnectionOwners.ConnectionOwner.Fire | extension/index.ts:494-509 | only an armed deadline fires; it launches nothing of a stopped session, beside a connection or beside a tracked task |
| ConnectionOwners.ConnectionOwner.Reject | extension/index.ts:426-450 | the attempt ends; a stale one, or one beside a connection, schedules nothing |
| ConnectionOwners.ConnectionOwner.OnDisconnected | extension/index.ts:372-383 | the connection is gone; only a current one schedules a retry, and no attempt is added beside a tracked one |
| ConnectionOwners.ConnectionOwner.StopSession | extension/index.ts:592-601 | a new generation and no deadline; nothing of an earlier generation is current any more |
| ConnectionOwners.ConnectionOwner.DropConnection | extension/index.ts:603-604 | the connection is given up, and nothing else |
| ConnectionOwners.ConnectionOwner.EndStop | extension/index.ts:606-607 | the retry count and its exhaustion start over |
| Base64.RoundTrip | cmd/pi-messaging-relay-server/roster.go:67-122 | decoding what was encoded (section 5 of RFC 4648, unpadded) gives the same bytes |
| Base64.EncodeLength | cmd/pi-messaging-relay-server/protocol.go:754-777 | the exact length of an encoding |
| RosterPage.CursorsExact | cmd/pi-messaging-relay-server/protocol.go:754-777 | the server accepts exactly the cursors it emits for legal addresses and reads the address back |
| RosterPage.CursorBound | cmd/pi-messaging-relay-server/protocol.go:754-777 | the cursor of a legal address is within 5856 bytes and is printed without escapes |
| RosterPage.SomethingFits | cmd/pi-messaging-relay-server/roster.go:97-117 | with legal addresses a page always makes progress, so "no address fits" is unreachable |
| RosterPage.MeasurePeers | cmd/pi-messaging-relay-server/roster.go:68-80 | the printed size of every address, or a refusal exactly when one is not legal |
| RosterPage.TotalSize | cmd/pi-messaging-relay-server/roster.go:86-92 | the running sum is the length of the printed peers |
| RosterPage.LongestPrefix | cmd/pi-messaging-relay-server/roster.go:97-113 | the size arithmetic finds the longest proper prefix whose frame, with its own cursor, fits |
| RosterPage.BuildRosterPage | cmd/pi-messaging-relay-server/roster.go:67-122 | the page is everything if that frame fits, and otherwise the longest fitting prefix with its cursor |
| RosterPage.RosterFrameSizeParts | cmd/pi-messaging-relay-server/roster.go:124-131 | prefix, peers and suffix add up to the length of the frame |
| RosterWalk.SearchStrings | cmd/pi-messaging-relay-server/roster.go:50-51 | binary search for the first address not below the cursor's |
| RosterWalk.ServePage | cmd/pi-messaging-relay-server/roster.go:37-65 | the page of exactly the addresses after the cursor's, in byte order, not empty when there are any |
| RosterWalk.CollectRosterAddresses | extension/internal/peer-roster-view.ts:62-84 | over arbitrary churn the walk's addresses strictly increase, were online when served, and include everybody online throughout unless truncated, and then up to the last one listed |
| RosterWalk.WalkOverRegistry | cmd/pi-messaging-relay-server/roster.go:23-65 | over any registry states between pages: what a walk with the client's guarantees means for callers and peers |
| RosterWalk.CollectPeers | extension/internal/peer-roster-view.ts:62-84 | the walk over a registry that changes between pages: the caller is never listed, everybody listed was a published peer, and every peer published throughout is listed exactly once as far as the walk went |
| JSONTreeLaws.SizeIsLength | extension/internal/message-renderer.ts:214-310 | what the two passes add up is the UTF-8 length of the printed tree |
| JSONTreeLaws.SortKeeps | extension/internal/message-renderer.ts:180-195 | sorting members keeps size, depth and sendability, and no object gains a repeated name |
| BoundedEncoders.MeasureJSONStringBytes | extension/internal/message-renderer.ts:317-344 | the exact printed length of a string; exits early only when it is no text or cannot fit |
| BoundedEncoders.RequireValidText | extension/internal/message-renderer.ts:346-360 | true exactly when every surrogate is paired |
| BoundedEncoders.ValidateSafeJSON | extension/internal/message-renderer.ts:214-244 | passes exactly for a sendable value that fits, and spends its size in the object's own key order |
| BoundedEncoders.ValidateSafeArray | extension/internal/message-renderer.ts:268-287 | the length test up front never refuses an array that fits |
| BoundedEncoders.ValidateSafeObject | extension/internal/message-renderer.ts:289-310 | names and values in own order cost what the sorted object costs |
| BoundedEncoders.BoundedEncoder.Encode | extension/internal/message-renderer.ts:120-145 | appends the canonical text exactly when the value may be sent and fits |
| BoundedEncoders.BoundedEncoder.EncodeArray | extension/internal/message-renderer.ts:166-178 | the items in order between brackets |
| BoundedEncoders.BoundedEncoder.EncodeObject | extension/internal/message-renderer.ts:180-195 | the members in name order between braces |
| BoundedEncoders.CanonicalCompactJSON | extension/internal/message-renderer.ts:33-45 | the sorted compact text exactly when the body may be sent, nests at most 62 deep and its UTF-8 length is within the limit; a sendable body is refused as too large exactly when it is |
| CanonicalText.CanonicalDecides | extension/internal/message-renderer.ts:180-195 | two bodies have one canonical text exactly when they are the same value up to member order |
| CanonicalText.PrintInjective | extension/internal/message-renderer.ts:120-212 | printed text is read back as one tree only, whatever may follow it |
| Recogniser.PrintedAccepted | extension/internal/roster-client.ts:582-657 | a printed tree is accepted exactly when no object names a member twice and it nests at most 64 deep |
| JSONCursors.AssertUnambiguousJSON | extension/internal/roster-client.ts:582-657 | the cursor passes exactly the texts the recursive reading accepts |
| JSONCursors.JSONCursor.Value | extension/internal/roster-client.ts:604-651 | the cursor ends where the value ends, or the text is refused |
| JSONCursors.JSONCursor.String | extension/internal/roster-client.ts:587-603 | the cursor ends behind the closing quote, with the decoded content |
| JSONInspection.InspectJSON | cmd/pi-messaging-relay-server/protocol.go:877-897 | refuses exactly trailing tokens and nesting beyond 64, and otherwise says whether any object repeats a name and whether the frame repeats `request_id` |
| JSONInspection.InspectJSONToken | cmd/pi-messaging-relay-server/protocol.go:899-963 | the same for the rest of one value, leaving the decoder behind it |
| JSONInspection.RepeatsNameIs | cmd/pi-messaging-relay-server/protocol.go:914-935 | the running test finds a repeated name exactly when two members have it |
| SendFrames.PrepareSend | extension/internal/roster-client.ts:130-166 | a frame is made exactly when address, body, `re` and sizes are in order, and it is the envelope around the canonical body; with generated identifiers only the arguments and the size of the body decide |
| SendFrames.FrameAlwaysFits | extension/internal/roster-client.ts:163-165 | once the body is within its limit the frame is within its own, so that refusal is unreachable |
| SendFrames.FramePasses | extension/internal/roster-client.ts:154-162 | the frame is one printed tree with a sorted body, and both recognisers accept it exactly when the body nests at most 62 deep |

## Left out

- DedupeLedgers.DedupeLedger.Observe: records are values looked up by identity in one map, so aliasing of a record through two pointers is not modelled; the trailing-JSON error of a fingerprint is merged with its other parse errors.
- EndToEndSafety.PairedResultsAgree: says nothing after shutdown has cleared the ledger, because it is false then.
- Sequencer: a machine of steps rather than a class, because its state is spread over goroutines; each step is one lock section or channel operation of the source.
- EndToEnd: one delivery is reduced to its installation, its write and its outcome, and the sequencer to its queue order and gates; request IDs are the frames that carry them.
- Reconnect: a synchronous timer callback is modelled one level deep.
- BoundedEncoders: bodies are finite trees, so cycles, proxies, getters, prototypes, sparse arrays and the structured clone are not modelled; a finite number is the text it prints as.
- JSONInspection: starts from the decoder's tokens of a well-formed text; a syntax error inside the Go decoder is not modelled.
- SHA-256: the model stops at the stream that is hashed, so "equal fingerprint" means equal stream.
- WebSocket, HTTP, TLS, upgrade authorisation and heartbeats: channels that deliver in order and may fail at any step.
- A write that fails after delivering part of a frame.
- Parsing of roster pages, addresses and hello frames, and the UUIDs inside received frames; audit text, event log, state directory, secrets, process lifecycle and every user interface.
