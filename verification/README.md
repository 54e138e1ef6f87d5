# Ferredge protocol drivers: a verified model

Ferredge routes protocol-neutral commands (read, write, invoke, publish, subscribe) to device
drivers and routes what the devices say back. This project models the drivers' hard parts and
proves what they promise, on every input, run and interleaving:

* **MQTT recovery** (`MqttRecovery.dfy`, `MqttIntents.dfy`): the tracked subscriptions, the bounded
  drop-oldest queue and the replay of both on a new session, as a mutable driver against a history of
  what became of every request. Conservation over every run; convergence of the broker's filters,
  exactly; what a replay loses and what a reported success means, exactly.
* **MQTT listener** (`MqttListener.dfy`, `Sinks.dfy`): the nested loops that serve commands, poll,
  reconnect with backoff and exit, proved to run a state machine whose every run is paced by the
  policy and accounts for every event it reads, the lost ones included.
* **MQTT sessions** (`MqttSessions.dfy`): the connect handshake over a shared CONNACK record, and
  the session slot that concurrent callers and the listener share, over every interleaving of their
  lock regions.
* **MQTT correlation and keepalive** (`MqttInbound.dfy`, `MqttKeepalive.dfy`): the packet-id and
  reply-route tables as functions of a history, request and reply end to end and across reconnects,
  and the ping flag and activity clock against a log of traffic.
* **Two routes to one request** (`Commands.dfy`, `MqttPackets.dfy`, `MqttPlanners.dfy`,
  `MqttRequests.dfy`, `HttpRequests.dfy`): the native path and the path through the bridge
  representation build the same packet or request, with the exact exception among the errors, and what
  they build is read off the command and its capture.
* **The capture** (`TransportMeta.dfy`, `MqttMeta.dfy`, `HttpMeta.dfy`): an ordered key/value list
  that may hold duplicates, and the typed views that decode from and encode to it.
* **HTTP messages** (`HttpRequests.dfy`, `HttpResponses.dfy`): the in-place header merge as a
  case-insensitive override, and the response parser as the inverse of the message format.
* **Modbus** (`ModbusStream.dfy`, `ModbusSession.dfy`, `ModbusValues.dfy`): stream reassembly under
  any chunking, ownership of sockets and ports across retries, and value and word conversions.
* **Backoff and writing** (`Backoff.dfy`, `Net.dfy`): the saturating retry delays in closed form,
  and writing a whole buffer through short writes. `Wrappers.dfy` holds shared datatypes and widths.

I/O outcomes are parameters: a method takes a script of what reads, writes, connects, the clock and
the running flag will say, and every result holds for every script. The packet library, UTF-8 and
JSON encoders are function parameters.

## What is not as one would expect

The code is modelled as it is. Where an obvious promise fails, the exact condition is proved:

* A queue bound of 0 still keeps one request (`RunConserves`).
* A replay drops a queued request exactly when the desired requests went through and then an exchange
  before that of the last queued request fails, or that one's send does (`ReplayDropsExactly`);
  `FailedReplayLosesQueue` is a run in which two reported successes are never sent.
* A replay converges exactly when the queue's last word on each filter agrees with the desired set
  (`ReplayConvergesIff`); `StaleQueueResurrects` is a run in which it does not.
* With queueing off, a call reports success though its request was neither sent nor queued exactly
  when its send fails and a listener started meanwhile (`SilentLoss`); with queueing on it never does
  (`SuccessAccounted`). Many more successes are unacknowledged, because a timed-out read is no failure
  (`UnacknowledgedSuccess`, `SuccessBlindToArrival`), and a request can be queued although it was sent
  (`QueuedThoughSent`).
* Unsubscribing from a channel forgets a subscription to it exactly when that named no shared group
  (`UnsubscribeForgetsExactly`).
* The listener loses every event read while it connects, for a publish or an unsubscribe, for a
  command or a poll that then fails, and for a subscribe whose caller gave up waiting
  (`EventsLostExactly`). The events of a replay reach the sink exactly when a failed command began the
  outage and every exchange of the replay succeeds (`ReplayedEventsFate`): after a read error they are
  dropped, and so are those of a replay that breaks off (`FailedReplayLosesEvent`). Calls made without
  a listener lose events likewise (`DirectReadsFate`).
* A reconnect budget of `u32::MAX` never runs out (`SaturatedBudgetNeverEnds`).
* The CONNACK record is shared and never cleared, so a handshake waits for its own broker exactly when
  the record is empty at its start and no other caller writes to it meanwhile (`HonestExactly`,
  `RecordStays`).
* Two callers can have two sessions alive and drop each other's, and so can the listener alone have
  two while it reconnects, because the broken one stays open until it resumes or gives up
  (`UniqueExactly`, `ListenerTwoExactly`, `CollateralExactly`).
* A reply that arrives after a reconnect is an event, not a result, unless its key was recorded again
  in the new session (`RepliesLostExactly`).
* An MQTT 3.1.1 acknowledgement is reported completed even when its return code refuses the
  subscription (`AcknowledgementEnds`). A rejected PUBREC keeps its table entry
  (`RejectedPubrecKeepsEntry`). The broker's PUBREL for its own publish is reported under an own command
  whose record is open under the same id, and only then (`PubrelAttribution`,
  `ForeignPubrelMisattributed`).
* The native and bridge MQTT routes name different errors exactly when channel kind and capture are
  both bad (`MqttPlanners.RoutesAgree`).
* MQTT 5.0 accepts a durable subscription name and drops it, where MQTT 3.1.1 refuses it
  (`V3SubscribeExactly`); an MQTT 3.1.1 unsubscribe loses its command id (`V3UnsubscribeExactly`).
* The documentation calls `max_delay` the cap of Modbus retry delays. Every delay respects it exactly
  when the initial delay does, since the first is not capped, and the backoff is fixed or the cap is at
  least the 1 ms that exponential backoff raises it to (`ModbusCapRespectedExactly`).
* A Modbus peer that closes in mid-frame gives a success with a partial frame, and so does an RTU
  length guess below the shortest frame (`PartialFrameAccepted`).
* A failed datagram receive is never retried (`RetryableByOperation`). A TCP socket or serial port goes
  out of scope without a close call exactly after a success on an endpoint that is not persistent or
  when a connected socket's timeouts cannot be set (`DroppedExactly`).
* The signed 16-bit codec reads negative values but refuses to write them (`SignedWriteBack`).

## Model

| member | source | states |
|---|---|---|
| MqttRecovery.MqttDriver.TrackSubscriptionIntent | crates/ferredge-proto-mqtt/src/lib.rs:393-412 | the desired map gains a subscribe under its first filter, loses an unsubscribed filter, and ignores requests without filters |
| MqttRecovery.MqttDriver.EnqueueRecoveryRequest | crates/ferredge-proto-mqtt/src/lib.rs:414-430 | refused exactly when queueing is off; else appended, the oldest request evicted at the bound |
| MqttRecovery.MqttDriver.Submit | crates/ferredge-proto-mqtt/src/lib.rs:863-911 | when a call ends by queueing its request, and what it answers: the events read, nothing, or its first failure, with sending and reading told apart |
| MqttRecovery.MqttDriver.Publish | crates/ferredge-proto-mqtt/src/lib.rs:862-911 | a publish call's whole effect on the recovery state; it never touches the desired set |
| MqttRecovery.MqttDriver.Subscribe | crates/ferredge-proto-mqtt/src/lib.rs:913-988 | the intent is tracked before anything can fail, then as a publish; the events read go to the sink until it refuses one, which fails the call |
| MqttRecovery.MqttDriver.Unsubscribe | crates/ferredge-proto-mqtt/src/lib.rs:990-1046 | the intent is tracked before anything can fail, then as a publish |
| MqttRecovery.ClientSession.HandAll | crates/ferredge-proto-mqtt/src/lib.rs:448-492 | requests are handed over in order up to the first failure, and the events read are collected in order |
| MqttRecovery.PumpAll | crates/ferredge-proto-mqtt/src/lib.rs:477-492 | when every exchange succeeds every request is sent, and the events are those read, in order |
| MqttRecovery.PumpStops | crates/ferredge-proto-mqtt/src/lib.rs:477-492 | otherwise exactly the requests before the first failing exchange are sent, and its own if only its read failed, and its error is the answer |
| MqttRecovery.MqttDriver.DrainQueue | crates/ferredge-proto-mqtt/src/lib.rs:469-492 | the queue is emptied first; a prefix is handed over in FIFO order and the rest is dropped |
| MqttRecovery.MqttDriver.ReplayRecoveryState | crates/ferredge-proto-mqtt/src/lib.rs:432-498 | one replay in some order of the desired map: what is sent, the result, and the state it leaves |
| MqttRecovery.RunConserves | crates/ferredge-proto-mqtt/src/lib.rs:414-498 | over every run each queued request is exactly one of evicted, handed over, dropped by a failed replay or still queued, and the queue is the last min(n, max(1, bound)) of the n since the last drain |
| MqttRecovery.ReplayHandsInOrder | crates/ferredge-proto-mqtt/src/lib.rs:436-493 | desired set first, then the queue in FIFO order; a failure in the first part keeps the queue, and success sends everything |
| MqttRecovery.ReplayDropsExactly | crates/ferredge-proto-mqtt/src/lib.rs:469-492 | a replay drops a queued request if and only if the desired requests went through and then an exchange before that of the last queued request failed, or that one's send did |
| MqttRecovery.ReplayAnswers | crates/ferredge-proto-mqtt/src/lib.rs:432-498 | a replay answers with all the events its exchanges read if and only if every one of them succeeds; what was read up to the first failing one is otherwise in no answer |
| MqttRecovery.FailedReplayLosesQueue | crates/ferredge-proto-mqtt/src/lib.rs:469-492 | a run in which two publishes reported as successes are dropped by a broken replay and never sent |
| MqttRecovery.ReplayConvergesIff | crates/ferredge-proto-mqtt/src/lib.rs:432-498 | a successful replay leaves exactly the desired filters if and only if the queue's last words agree with them and no desired request names another filter |
| MqttRecovery.RunTracksCalls | crates/ferredge-proto-mqtt/src/lib.rs:393-412 | over every run the desired set is what the calls said last, filter by filter |
| MqttRecovery.FiltersNamed | crates/ferredge-proto-mqtt/src/lib.rs:371-391 | a packet names the filters of all its entries, and a publish none |
| MqttRecovery.DesiredIsLatest | crates/ferredge-proto-mqtt/src/lib.rs:393-412 | over every run, from the calls alone: under each filter the desired map holds the request of the last tracked call that names it first, or nothing if that unsubscribed or there is none |
| MqttRecovery.ReplaySendsLatest | crates/ferredge-proto-mqtt/src/lib.rs:436-493 | a successful replay sends exactly those latest requests, one for each filter, and then the queue |
| MqttRecovery.ReplayOffSendsQueue | crates/ferredge-proto-mqtt/src/lib.rs:436-493 | without replay of subscriptions it sends the queue and nothing else |
| MqttRecovery.RecoveryConverges | crates/ferredge-proto-mqtt/src/lib.rs:393-498 | if every subscribe and unsubscribe since the oldest one still queued was queued, replay leaves the broker with exactly the desired filters, whatever was evicted and in whatever map order |
| MqttRecovery.StaleQueueResurrects | crates/ferredge-proto-mqtt/src/lib.rs:920-1046 | without that condition, on a run of calls that queueing permits, a replay brings back a subscription nobody wants |
| MqttRecovery.SilentLoss | crates/ferredge-proto-mqtt/src/lib.rs:900-909 | when exactly a call reports success though its request was neither sent nor queued |
| MqttRecovery.CallEndsExactly | crates/ferredge-proto-mqtt/src/lib.rs:862-1046 | which failures of a call queue its request, which are its answer and which are swallowed, from its first failure and whether a listener runs |
| MqttRecovery.UnacknowledgedSuccess | crates/ferredge-proto-mqtt/src/runtime.rs:575-578 | when exactly a call that did not queue reports success without a result for its request: overtaken, or its one read timed out or brought no result for it |
| MqttRecovery.SuccessBlindToArrival | crates/ferredge-proto-mqtt/src/runtime.rs:575-578 | whatever arrives in place of a timeout, a call that got as far as reading ends the same way, as a success |
| MqttRecovery.QueuedThoughSent | crates/ferredge-proto-mqtt/src/lib.rs:650-672 | when exactly a request is queued although it was sent |
| MqttRecovery.DirectReadsFate | crates/ferredge-proto-mqtt/src/lib.rs:862-1046 | what a call without a listener makes of the events it reads: those read while connecting are lost, and the others are offered exactly when its exchange went through, to the sink of a subscribe |
| MqttRecovery.SuccessAccounted | crates/ferredge-proto-mqtt/src/lib.rs:414-498 | with queueing on, over every run, each reported success was sent by its call or its request is queued, evicted, handed over or dropped by a failed replay |
| MqttIntents.PlannedRequests | crates/ferredge-proto-mqtt/src/convert.rs:407-496 | every request built from a command names one filter if it subscribes or unsubscribes, and is of the command's kind |
| MqttIntents.CommandsConverge | crates/ferredge-proto-mqtt/src/lib.rs:393-498 | recovery converges for every run of calls with requests built from commands |
| MqttIntents.UnsubscribeForgetsExactly | crates/ferredge-proto-mqtt/src/convert.rs:594-600 | unsubscribing from a channel forgets its subscription exactly when that named no shared group |
| MqttListener.MqttListener.Listen | crates/ferredge-proto-mqtt/src/lib.rs:1088-1378 | the nested loops run the state machine to its end, then clear the command sender and the running flag and report the status |
| MqttListener.MqttListener.ServeSession | crates/ferredge-proto-mqtt/src/lib.rs:1123-1276 | pending commands are served until none is left or one fails, only a subscribe's caller getting the events read for it, then the session is polled once |
| MqttListener.MqttListener.Reconnect | crates/ferredge-proto-mqtt/src/lib.rs:1140-1235 | the reconnect loop of both failure paths, with what each connect and each replay reads, up to resumption, stop or exhaustion |
| Sinks.ForwardAll | crates/ferredge-proto-mqtt/src/lib.rs:1193-1212 | events reach the sink in order until it refuses one |
| Sinks.ForwardPrefix | crates/ferredge-proto-mqtt/src/lib.rs:1258-1276 | the sink gets a prefix of the events, and all of them exactly when it refuses none |
| MqttListener.RunSound | crates/ferredge-proto-mqtt/src/lib.rs:1093-1363 | over every run the attempt counter is 0 at every loop head, an outage begins with a failed command or a failed poll and is flagged as that, its n-th round sleeps the policy's n-th delay, connects follow their sleep, and sink and waiting callers have got what is bound for them |
| MqttListener.EventsLostExactly | crates/ferredge-proto-mqtt/src/lib.rs:1174-1339 | over every run, which reads lose their events: failed polls, connects, commands other than a subscribe that is served while its caller waits, and replays, unless they go through in an outage that began with the read of a failed command |
| MqttListener.EventsDelivered | crates/ferredge-proto-mqtt/src/lib.rs:1193-1277 | over every run the sink has the events bound for it, in order, up to the one whose refusal ended the run, and subscribe callers have all that was bound for them |
| MqttListener.EventsAccounted | crates/ferredge-proto-mqtt/src/lib.rs:1088-1378 | over every run each event read by a poll, a command, a connect or a replay, failed ones included, is delivered, refused by the sink, returned to a caller or lost, exactly once |
| MqttListener.ReplayedEventsFate | crates/ferredge-proto-mqtt/src/lib.rs:1174-1339 | the events that a replay of any recovery state over any exchanges reads are bound for the sink if and only if a failed command began the outage and every exchange succeeds, and all lost otherwise |
| MqttListener.FailedReplayLosesEvent | crates/ferredge-proto-mqtt/src/lib.rs:473-493 | in an outage that a failed command began, a replay whose second send fails loses the event its first exchange read |
| MqttListener.StatusByCause | crates/ferredge-proto-mqtt/src/lib.rs:1364-1377 | the final status is failed exactly when a sink rejection, exhausted attempts or a lock failure ended the listener |
| MqttListener.LatestFailure | crates/ferredge-proto-mqtt/src/lib.rs:1140-1235 | a reconnecting listener remembers the failure of its latest command, poll, connect or replay |
| MqttListener.ErrorLeftBehind | crates/ferredge-proto-mqtt/src/lib.rs:1093-1363 | the error each way of ending leaves behind |
| MqttListener.PoisonedKeepsError | crates/ferredge-proto-mqtt/src/lib.rs:1093-1363 | once the error mutex is poisoned the recorded error changes no more |
| MqttListener.StopHonoured | crates/ferredge-proto-mqtt/src/lib.rs:1140-1155 | a stop is honoured at the next loop head, and while reconnecting before the next round and after its sleep, with nothing read or delivered any more |
| MqttListener.HeadTakesSession | crates/ferredge-proto-mqtt/src/lib.rs:1093-1121 | a loop head serves a session it could take, looks again without one, and ends when it cannot look |
| MqttListener.CommandsBeforePolls | crates/ferredge-proto-mqtt/src/lib.rs:1123-1300 | commands are served while there are any and only then the session is polled; a failure of either makes the listener reconnect |
| MqttListener.ResumesExactly | crates/ferredge-proto-mqtt/src/lib.rs:1157-1235 | a round that may connect resumes exactly when connect and replay both succeed |
| MqttListener.OutageBudget | crates/ferredge-proto-mqtt/src/lib.rs:1140-1144 | an outage connects at most `max_attempts` times, and exactly that often before giving up |
| MqttListener.UnlimitedNeverExhausts | crates/ferredge-core/src/device.rs:83-89 | an enabled policy without a budget never gives up |
| MqttListener.DisabledNeverConnects | crates/ferredge-core/src/device.rs:83-89 | a disabled policy never sleeps or connects |
| MqttListener.SaturatedBudgetNeverEnds | crates/ferredge-proto-mqtt/src/lib.rs:1141-1144 | at `u32::MAX` attempts the counter saturates and the listener retries without bound |
| MqttSessions.Handshake.AwaitConnack | crates/ferredge-proto-mqtt/src/lib.rs:307-336 | the read loop ends with the first read that fails or leaves a CONNACK on record, and judges that record |
| MqttSessions.FirstConnackDecides | crates/ferredge-proto-mqtt/src/lib.rs:307-336 | an undisturbed handshake answers the first failed read's error or the verdict of the first CONNACK, with the text of its rejection |
| MqttSessions.LastWriterWins | crates/ferredge-proto-mqtt/src/runtime.rs:878-900 | the last writer of the shared record wins |
| MqttSessions.HonestExactly | crates/ferredge-proto-mqtt/src/lib.rs:307-336 | a handshake never concludes without its own broker's CONNACK, whatever it reads, if and only if nothing is on record at its start and no other caller records one meanwhile |
| MqttSessions.RecordStays | crates/ferredge-proto-mqtt/src/runtime.rs:878-900 | a CONNACK on record stays on record, and a handshake that starts with one concludes on its first read |
| MqttSessions.RunOwned | crates/ferredge-proto-mqtt/src/lib.rs:250-347 | over every interleaving of any number of callers and the listener each session opened is in exactly one place: the slot, one caller's hands, the listener's scope as its broken session, or dropped |
| MqttSessions.OnlySettledAreUsed | crates/ferredge-proto-mqtt/src/lib.rs:307-346 | over every interleaving no session is stored, exchanged over or kept broken before its own handshake succeeded |
| MqttSessions.OpeningsJustified | crates/ferredge-proto-mqtt/src/lib.rs:675-715 | with one caller, every session opened after the first replaces one that failed or was taken away by stopping the driver, so a success leaves its session for the next call |
| MqttSessions.FailedIsDropped | crates/ferredge-proto-mqtt/src/lib.rs:697-715 | a session whose handshake or exchange fails is dropped, or kept by the listener as broken until it lets it go |
| MqttSessions.ResumeReleases | crates/ferredge-proto-mqtt/src/lib.rs:1189-1225 | a listener whose replay succeeded gives the new session back and lets the broken one go before it serves again |
| MqttSessions.DroppedForever | crates/ferredge-proto-mqtt/src/lib.rs:697-715 | a dropped session is never used again |
| MqttSessions.StopDropsSlot | crates/ferredge-proto-mqtt/src/lib.rs:839-851 | stopping the driver drops what the slot holds and nothing else |
| MqttSessions.CallGoesOn | crates/ferredge-proto-mqtt/src/lib.rs:250-347 | what a direct call does next, from where it is and what it meets: look, connect, await its handshake, store or lose, take, wait only while the listener runs, give back or clear |
| MqttSessions.SerialLive | crates/ferredge-proto-mqtt/src/lib.rs:675-715 | with one caller the live sessions are exactly the one it works with and, if it is the listener, its broken one |
| MqttSessions.SerialUnique | crates/ferredge-proto-mqtt/src/lib.rs:675-715 | one caller of the driver's operations, call after call, never has two sessions alive |
| MqttSessions.ListenerTwoExactly | crates/ferredge-proto-mqtt/src/lib.rs:1094-1335 | the listener alone never has more than two sessions alive, and two exactly while it holds a broken one and has opened or stored another |
| MqttSessions.UniqueExactly | crates/ferredge-proto-mqtt/src/lib.rs:250-347 | a set of callers can never have two sessions alive if and only if it has at most one caller and that is not the listener |
| MqttSessions.DropsAnotherExactly | crates/ferredge-proto-mqtt/src/lib.rs:697-715 | a caller's step drops a session that is not its own exactly when it ends an exchange, well or not, while the slot holds one |
| MqttSessions.CollateralExactly | crates/ferredge-proto-mqtt/src/lib.rs:697-715 | no interleaving of these callers ever makes one of them drop a session that is not its own if and only if there is at most one of them |
| MqttSessions.SessionSlot.IsConnected | crates/ferredge-proto-mqtt/src/lib.rs:250-260 | the check region is its caller's step of the machine that `RunOwned` and `UniqueExactly` speak about |
| MqttSessions.SessionSlot.StoreIfEmpty | crates/ferredge-proto-mqtt/src/lib.rs:338-346 | the store region is its caller's step of that machine |
| MqttSessions.SessionSlot.TakeSession | crates/ferredge-proto-mqtt/src/lib.rs:675-695 | one turn of the wait for a session is its caller's step of that machine |
| MqttSessions.SessionSlot.EndExchange | crates/ferredge-proto-mqtt/src/lib.rs:697-715 | restoring and clearing are the two ends of an exchange in that machine |
| MqttSessions.SessionSlot.ClearForReconnect | crates/ferredge-proto-mqtt/src/lib.rs:1136-1138 | the listener's failure clears the slot and keeps the broken session, a step of that machine |
| MqttSessions.SessionSlot.Close | crates/ferredge-proto-mqtt/src/lib.rs:841-851 | stopping the driver is a step of that machine |
| MqttInbound.MqttInboundDecoder.RecordOutboundRequest | crates/ferredge-proto-mqtt/src/runtime.rs:72-88 | both tables keep saying exactly what the history says after a record |
| MqttInbound.MqttInboundDecoder.Decode | crates/ferredge-proto-mqtt/src/runtime.rs:90-194 | every packet decodes to its meaning under the history, and both tables follow |
| MqttInbound.MqttInboundDecoder.PendingReplyRoute | crates/ferredge-proto-mqtt/src/runtime.rs:1127-1158 | the last correlation data and response topic of a v5 publish become its route |
| MqttInbound.MqttInboundDecoder.DecodePublish | crates/ferredge-proto-mqtt/src/runtime.rs:1251-1292 | a publish is a reply exactly when its first correlation data names an open route, which it uses up |
| MqttInbound.OpenIndexIsLatest | crates/ferredge-proto-mqtt/src/runtime.rs:1649-1680 | the table entry of an id is its latest record with no terminal acknowledgement since |
| MqttInbound.EachRecordEndsOnce | crates/ferredge-proto-mqtt/src/runtime.rs:1649-1680 | no two terminal acknowledgements of a run resolve the same record |
| MqttInbound.AcknowledgementEnds | crates/ferredge-proto-mqtt/src/runtime.rs:1344-1544 | PUBACK, PUBCOMP, SUBACK and UNSUBACK report the command recorded under their id completed, or rejected if an MQTT 5.0 reason is a failure; the id is then forgotten, and a repeated one is reported under the printed id |
| MqttInbound.AcknowledgementCarries | crates/ferredge-proto-mqtt/src/runtime.rs:1617-1680 | an MQTT 5.0 acknowledgement's result carries its id, reasons, reason string and failing reasons, an MQTT 3.1.1 one nothing |
| MqttInbound.FailuresJoined | crates/ferredge-proto-mqtt/src/runtime.rs:1472-1544 | failing reasons are joined by commas, in order |
| MqttInbound.DisconnectReported | crates/ferredge-proto-mqtt/src/runtime.rs:1546-1580 | a DISCONNECT is a completed result unless it names another reason than a normal one |
| MqttInbound.AuthReported | crates/ferredge-proto-mqtt/src/runtime.rs:1582-1615 | an AUTH is an accepted result unless its reason is a failure |
| MqttInbound.PicksOwnKind | crates/ferredge-proto-mqtt/src/runtime.rs:1164-1205 | each property scan looks for its own kind and takes what that carries |
| MqttInbound.AllPropsInOrder | crates/ferredge-proto-mqtt/src/runtime.rs:1164-1205 | repeated properties keep their order |
| MqttInbound.EventCarries | crates/ferredge-proto-mqtt/src/runtime.rs:1164-1317 | decoding an event's capture gives the fields and last properties of its publish back; payload and correlation are its own |
| MqttInbound.ReplyCarries | crates/ferredge-proto-mqtt/src/runtime.rs:1251-1342 | so does the result of a reply, whose payload goes by the first format indicator |
| MqttInbound.QosTwoExchange | crates/ferredge-proto-mqtt/src/runtime.rs:1376-1471 | PUBREC reports the command dispatched or refused, PUBCOMP reports it completed, and its id is then forgotten, whatever comes between and however often PUBREC does (section 4.3.3 of MQTT 5.0) |
| MqttInbound.RejectedPubrecKeepsEntry | crates/ferredge-proto-mqtt/src/runtime.rs:1376-1407 | a refusing PUBREC reports rejection and leaves the entry in place |
| MqttInbound.PubrelAttribution | crates/ferredge-proto-mqtt/src/runtime.rs:1408-1439 | an inbound PUBREL is reported under an own command exactly when that command's record is open under its id, and it changes no entry |
| MqttInbound.ForeignPubrelMisattributed | crates/ferredge-proto-mqtt/src/runtime.rs:1408-1439 | the broker's handshake for its own publish is reported under an own publish that shares its packet id |
| MqttInbound.PublishPropsCarry | crates/ferredge-proto-mqtt/src/convert.rs:498-563 | the built properties carry the correlation data and response topic that the view's fields ask for, and no others |
| MqttInbound.BuiltPublishRoutes | crates/ferredge-proto-mqtt/src/convert.rs:522-554 | a built v5 publish registers its command and reply address under the correlation data its view asks for, whatever packet id it gets, and nothing when it asks for none |
| MqttInbound.ReplyReachesCommand | crates/ferredge-proto-mqtt/src/runtime.rs:1251-1292 | request and reply end to end: the first inbound publish under the same bytes is a result for the original command and reply address, the next one an event (section 4.10 of MQTT 5.0) |
| MqttInbound.RepliesLostExactly | crates/ferredge-proto-mqtt/src/lib.rs:286-296 | over any run of any number of sessions a publish is a command's result if and only if the last word on its key is a record made in the current session; after a reconnect it is an event |
| MqttKeepalive.ClientSession.ReadFromSession | crates/ferredge-proto-mqtt/src/runtime.rs:544-581 | what bytes, a timeout or a lost stream do to the clock, the ping flag and the log |
| MqttKeepalive.ClientSession.HandleConnectionEvents | crates/ferredge-proto-mqtt/src/runtime.rs:583-633 | packets are written in order up to the first failure and each write moves the clock |
| MqttKeepalive.ClientSession.SendKeepalivePingIfDue | crates/ferredge-proto-mqtt/src/runtime.rs:840-876 | when a ping is due, when it is sent and when the session fails |
| MqttKeepalive.AtMostOnePing | crates/ferredge-proto-mqtt/src/runtime.rs:544-581 | over every run at most one PINGREQ is outstanding, and flag and clock say what the log says |
| MqttKeepalive.LogIsTraffic | crates/ferredge-proto-mqtt/src/runtime.rs:544-633 | over every run the log holds, in order, every arrival and every packet write of its steps, and pings besides |
| MqttKeepalive.PingExactly | crates/ferredge-proto-mqtt/src/runtime.rs:840-876 | a timed-out read tries to write a PINGREQ if and only if keepalive is on, the interval has passed since the last traffic and none is unanswered |
| MqttKeepalive.HandlingFailsExactly | crates/ferredge-proto-mqtt/src/runtime.rs:583-633 | handling stops with the first write that fails or the first protocol error |
| MqttKeepalive.LostFails | crates/ferredge-proto-mqtt/src/runtime.rs:556-581 | a closed or failed stream fails the session |
| MqttKeepalive.KeepaliveErrorExactly | crates/ferredge-proto-mqtt/src/runtime.rs:852-857 | a timed-out read raises the keepalive error if and only if keepalive is on, a PINGREQ is unanswered and the interval has passed since the last traffic |
| MqttKeepalive.KeepaliveErrorJustified | crates/ferredge-proto-mqtt/src/runtime.rs:852-857 | when it is raised no byte arrived since some PINGREQ and the interval has passed since that was written (section 3.1.2.10 of MQTT 5.0) |
| MqttKeepalive.OnlyIdleTimesOut | crates/ferredge-proto-mqtt/src/runtime.rs:583-633 | handling packets never raises the keepalive error |
| MqttPackets.BuildV5PublishProps | crates/ferredge-proto-mqtt/src/convert.rs:498-563 | the properties pushed, in order, or the fault of the first one the library rejects |
| MqttPackets.BuildV5SubscribeProps | crates/ferredge-proto-mqtt/src/convert.rs:565-582 | the same for a subscription's identifier and user properties |
| MqttPackets.AcceptExactly | crates/ferredge-proto-mqtt/src/convert.rs:498-592 | properties are accepted exactly when the library rejects none, and otherwise the first rejected one is named |
| MqttPackets.PublishCarries | crates/ferredge-proto-mqtt/src/convert.rs:498-563 | a property is built exactly when a field of the view asks for it: explicit correlation data before the correlation id before the command id, the response topic before the reply channel |
| MqttPackets.PublishOrdered | crates/ferredge-proto-mqtt/src/convert.rs:498-563 | properties come in a fixed order of kinds, each once but for user properties, which keep their order |
| MqttRequests.SendPacket | crates/ferredge-proto-mqtt/src/lib.rs:1449-1491 | the packet of a send command from the command and its capture: version, topic, quality of service, retain flag, payload and exactly the properties asked for |
| MqttRequests.SendRefused | crates/ferredge-proto-mqtt/src/lib.rs:1449-1491 | why a send command is refused, exactly: its capture, else its channel kind, else its payload, else a property MQTT 3.1.1 does not have |
| MqttRequests.SubscribePacketOf | crates/ferredge-proto-mqtt/src/convert.rs:407-448 | the packet of a subscribe command: its filter under its shared group and the options of its capture |
| MqttRequests.SubscribeProperties | crates/ferredge-proto-mqtt/src/convert.rs:565-582 | its properties: the first subscription identifier and the headers of its capture |
| MqttRequests.UnsubscribePacketOf | crates/ferredge-proto-mqtt/src/convert.rs:450-483 | the packet of an unsubscribe command |
| MqttRequests.CommandAnswered | crates/ferredge-proto-mqtt/src/runtime.rs:1251-1292 | request and reply from the command: under the correlation bytes of its capture, else its correlation id, else its own id, the first inbound publish is its result under its reply address, the next an event |
| MqttRequests.CommandAcknowledged | crates/ferredge-proto-mqtt/src/runtime.rs:428-456 | sent under the id the session assigns, a command is ended by the acknowledgement of its kind under that id |
| MqttPlanners.RoutesAgree | crates/ferredge-proto-mqtt/src/lib.rs:1404-1532 | for every command, device version and library the two routes accept the same commands and build the same packet, and their errors differ exactly when channel kind and capture are both bad |
| MqttPlanners.CaptureViewWithoutHeaders | crates/ferredge-bridge/src/planner.rs:370-392 | moving the headers out of a capture changes nothing else its typed view reads, errors included |
| MqttPlanners.PublishViewsAgree | crates/ferredge-proto-mqtt/src/convert.rs:125-240 | the publish view lowered from the bridge message is the one built from the native plan |
| MqttPlanners.SubscriptionViewsAgree | crates/ferredge-proto-mqtt/src/convert.rs:169-324 | the same for subscriptions and unsubscriptions |
| MqttPlanners.V3PublishExactly | crates/ferredge-proto-mqtt/src/convert.rs:612-628 | MQTT 3.1.1 refuses a publish view exactly when its MQTT 5.0 packet would carry a property, and otherwise builds that packet in the other version |
| MqttPlanners.V3SubscribeExactly | crates/ferredge-proto-mqtt/src/convert.rs:630-645 | likewise for subscriptions that ask for more than topic and quality of service; MQTT 5.0 drops a durable name |
| MqttPlanners.V3UnsubscribeExactly | crates/ferredge-proto-mqtt/src/convert.rs:450-483 | likewise for unsubscriptions, whose MQTT 3.1.1 form loses the command id |
| HttpRequests.MergeHeader | crates/ferredge-proto-http/src/lib.rs:570-580 | the in-place merge replaces the first header of the name, ignoring case, or appends |
| HttpRequests.Encode | crates/ferredge-proto-http/src/lib.rs:342-388 | the request a plan encodes to, or its error |
| HttpRequests.LookupMerged | crates/ferredge-proto-http/src/lib.rs:570-580 | one merge overrides one case-insensitive name and no other lookup |
| HttpRequests.SameNameExactly | crates/ferredge-proto-http/src/lib.rs:570-580 | names are the same exactly when their letters are, ignoring ASCII case and nothing else |
| HttpRequests.MergeKeepsPlaces | crates/ferredge-proto-http/src/lib.rs:570-580 | a merge writes the first header of the name in place, spelling included, or appends it; every other header keeps its place |
| HttpRequests.EncodedHeadersOverride | crates/ferredge-proto-http/src/lib.rs:362-380 | a name reads as the declared content type, else the last planned value, else the first static one; static positions stay and new names follow in first-seen order |
| HttpRequests.PlansAgree | crates/ferredge-proto-http/src/lib.rs:243-315 | planning natively and lowering the bridge message give the same plan or error |
| HttpRequests.RoutesAgree | crates/ferredge-proto-http/src/lib.rs:209-240 | `native_request` and `bridge_request` are the same function on every device, errors included, exactly for request/response intents |
| HttpRequests.CommandRequest | crates/ferredge-proto-http/src/lib.rs:243-388 | the request of a command from the command, its capture and its resource: verb, path, body and every header |
| HttpRequests.CommandRefused | crates/ferredge-proto-http/src/lib.rs:243-388 | why a command is refused, exactly: its capture, else an unknown resource, else its payload |
| HttpResponses.TerminatorFound | crates/ferredge-proto-http/src/handler.rs:155-160 | the header section of a printed message ends where the format ends it, even when the body holds a blank line |
| HttpResponses.HeadersOfPrinted | crates/ferredge-proto-http/src/handler.rs:171-176 | printed headers are read back in order |
| HttpResponses.ParsePrinted | crates/ferredge-proto-http/src/handler.rs:154-197 | parsing inverts the message format of RFC 9112 (sections 2.1, 4 and 5) for every body, and fails exactly when the body is shorter than the first parseable Content-Length |
| HttpResponses.ParseFailsExactly | crates/ferredge-proto-http/src/handler.rs:154-197 | why any response is refused, exactly, and what it is parsed to otherwise |
| HttpResponses.DeclaredLengthFirst | crates/ferredge-proto-http/src/handler.rs:178-191 | the declared length is the value of the first Content-Length header, in any case, that is a number |
| HttpResponses.HeaderOfPadded | crates/ferredge-proto-http/src/handler.rs:171-176 | spaces and tabs around name and value do not matter, and the first colon separates them |
| HttpResponses.HeaderLinesReadOneByOne | crates/ferredge-proto-http/src/handler.rs:171-176 | a line without a colon is skipped |
| HttpResponses.StatusLineCode | crates/ferredge-proto-http/src/handler.rs:166-170 | a standard status line carries its code whatever its reason phrase |
| TransportMetas.TransportMeta.Set | crates/ferredge-core/src/meta.rs:146-155 | the first entry of the key is replaced in place, or one is appended |
| TransportMetas.TransportMeta.Take | crates/ferredge-core/src/meta.rs:159-168 | the first value is returned and every entry of the key removed, duplicates included |
| TransportMetas.SetKeepsPlaces | crates/ferredge-core/src/meta.rs:146-155 | set writes the first entry of its key in place or appends one, and every other entry keeps its place |
| TransportMetas.GetAfterSet | crates/ferredge-core/src/meta.rs:138-155 | set overrides one lookup and leaves every other alone, whatever duplicates the list holds |
| TransportMetas.GetAfterTake | crates/ferredge-core/src/meta.rs:159-168 | after take the key is absent and every other lookup unchanged |
| TransportMetas.TakeUndoesSet | crates/ferredge-core/src/meta.rs:146-168 | take gives back what set stored and leaves what take would have left before it, which is the capture itself if it lacked the key |
| TransportMetas.DecodeEntries | crates/ferredge-proto-mqtt/src/meta.rs:271-362 | the decode loop that skips keys already seen is a fold over the first occurrences |
| TransportMetas.FirstOccurrencesGet | crates/ferredge-core/src/meta.rs:138-143 | deduplication changes no lookup and leaves each key once |
| MqttMetas.TryFromTransportMeta | crates/ferredge-proto-mqtt/src/meta.rs:271-362 | the decoder's loop computes the decoded view or the first error |
| MqttMetas.IntoTransportMeta | crates/ferredge-proto-mqtt/src/meta.rs:440-518 | the encoder's chain of `set` calls computes the encoded capture |
| MqttMetas.KeyOfName | crates/ferredge-proto-mqtt/src/meta.rs:12-49 | no two capture keys share a name |
| MqttMetas.DecodeIsLookup | crates/ferredge-proto-mqtt/src/meta.rs:271-362 | a capture decodes exactly when each known key that `get` finds is well formed, and the fields are what `get` returns |
| MqttMetas.DecodeReads | crates/ferredge-proto-mqtt/src/meta.rs:271-362 | each field of a decoded view is what `get` returns under its documented name and type |
| MqttMetas.DecodeFailsFirst | crates/ferredge-proto-mqtt/src/meta.rs:271-362 | a capture that does not decode is foreign, or the error is about its first malformed entry that is not shadowed |
| MqttMetas.DecodeIgnoresShadowed | crates/ferredge-proto-mqtt/src/meta.rs:271-362 | decoding a capture is decoding its first occurrences, errors included |
| MqttMetas.DecodeSeesOnlyLookups | crates/ferredge-proto-mqtt/src/meta.rs:271-362 | captures that answer every `get` alike decode to the same view whatever their order |
| MqttMetas.DecodeEncode | crates/ferredge-proto-mqtt/src/meta.rs:440-518 | decoding an encoded view gives the view back, and the capture holds exactly its fields |
| MqttMetas.EncodeDecode | crates/ferredge-proto-mqtt/src/meta.rs:440-518 | re-encoding a decoded capture answers each known key as the capture did, up to spelled-out defaults |
| HttpMetas.TryFromTransportMeta | crates/ferredge-proto-http/src/meta.rs:38-73 | the decoder's loop computes the decoded view or the first error |
| HttpMetas.IntoTransportMeta | crates/ferredge-proto-http/src/meta.rs:97-113 | the encoder's `set` calls compute the encoded capture |
| HttpMetas.DecodeIsLookup | crates/ferredge-proto-http/src/meta.rs:38-73 | an HTTP capture decodes exactly when its known keys are well formed, to what `get` reads |
| HttpMetas.DecodeReads | crates/ferredge-proto-http/src/meta.rs:38-73 | each field of a decoded view is what `get` returns under its documented name and type |
| HttpMetas.DecodeFailsFirst | crates/ferredge-proto-http/src/meta.rs:38-73 | a capture that does not decode is foreign, or the error is about its first malformed entry that is not shadowed |
| HttpMetas.DecodeIgnoresShadowed | crates/ferredge-proto-http/src/meta.rs:38-73 | decoding a capture is decoding its first occurrences, errors included |
| HttpMetas.DecodeEncode | crates/ferredge-proto-http/src/meta.rs:97-113 | decoding an encoded view gives the view back |
| ModbusStream.Stream.ReadStreamResponse | crates/ferredge-proto-modbus/src/transport.rs:468-500 | which reads a call makes and what it answers; each read takes room, so it ends |
| ModbusStream.EndsOnce | crates/ferredge-proto-modbus/src/transport.rs:476-499 | the answer and the number of reads follow from what the reads report |
| ModbusStream.FailsExactly | crates/ferredge-proto-modbus/src/transport.rs:476-492 | a call fails with a read error exactly when its last read failed, with a closed peer at a close or an empty read before any byte, and with a refusal for bytes past 260, 256 or 515 |
| ModbusStream.SucceedsExactly | crates/ferredge-proto-modbus/src/transport.rs:476-499 | a call succeeds exactly when its last read completes the frame within the limit or is a close or an empty read after at least one byte |
| ModbusStream.AsciiFrameEnd | crates/ferredge-proto-modbus/src/transport.rs:625-630 | the end of the first CRLF, and none exactly when there is no CRLF |
| ModbusStream.AnswerWithinLimit | crates/ferredge-proto-modbus/src/transport.rs:488-492 | no answer is longer than its protocol's frame limit |
| ModbusStream.Reassembled | crates/ferredge-proto-modbus/src/transport.rs:468-534 | however a stream framed by its MBAP length, its first CRLF or a settled length guess is cut into reads, the answer is exactly the first frame when the completing read stays within the limit, and a refusal otherwise |
| ModbusStream.ChunkingIrrelevant | crates/ferredge-proto-modbus/src/transport.rs:561-623 | two ways of cutting one framed stream give the same answer |
| ModbusStream.PartialFrameAccepted | crates/ferredge-proto-modbus/src/transport.rs:479-486 | a successful answer is a complete frame exactly when the last read brought bytes and, for RTU with a guess that settles, the guess is no shorter than the shortest frame |
| ModbusStream.ForeignStreamNeverCompletes | crates/ferredge-proto-modbus/src/transport.rs:606-623 | a stream with another protocol id, or without the colon, succeeds only when the peer closes |
| ModbusSession.ModbusDriver.LeanExecute | crates/ferredge-proto-modbus/src/transport.rs:89-140 | a lean transport takes the session it is given, uses or replaces it, and leaves the one to keep |
| ModbusSession.ModbusDriver.Execute | crates/ferredge-proto-modbus/src/transport.rs:320-355 | one call of the full-stack transport: slot, handles and answer |
| ModbusSession.ModbusDriver.Stop | crates/ferredge-proto-modbus/src/transport.rs:428-438 | stop closes what the slot holds |
| ModbusSession.ModbusDriver.ExecuteOnEndpoint | crates/ferredge-proto-modbus/src/transport.rs:389-426 | all attempts but the last failed in a retryable way, and the last succeeded, failed for good or used up the budget |
| ModbusSession.RunOwned | crates/ferredge-proto-modbus/src/transport.rs:89-438 | over every run of calls, waits and stops on any endpoints the open handles are exactly the slot's, handles are used and released only while open, and none is opened while another is |
| ModbusSession.HandlesConserved | crates/ferredge-proto-modbus/src/transport.rs:89-438 | every handle ever opened was released once, except the one in the slot |
| ModbusSession.StopReleasesEverything | crates/ferredge-proto-modbus/src/transport.rs:372-374 | after stop nothing is open, whatever happened before |
| ModbusSession.SlotAfterExecute | crates/ferredge-proto-modbus/src/transport.rs:128-139 | after a TCP or serial call the slot is full exactly when it succeeded on a persistent endpoint; a UDP call leaves it alone |
| ModbusSession.AnswersFirstFailure | crates/ferredge-proto-modbus/src/transport.rs:40-335 | a call answers its first failure in the order of its operations, with its text, else the frame it read |
| ModbusSession.HandlesTouched | crates/ferredge-proto-modbus/src/transport.rs:89-140 | everything a TCP or serial call does to handles: what it closes first, opens, exchanges over, keeps, drops or closes |
| ModbusSession.DatagramTouchesNothing | crates/ferredge-proto-modbus/src/transport.rs:160-190 | a datagram call touches neither slot nor kept handle |
| ModbusSession.DroppedExactly | crates/ferredge-proto-modbus/src/transport.rs:65-139 | a handle is released without a close call exactly when a TCP or serial call succeeds on an endpoint that is not persistent or cannot set the timeouts of a socket it connected |
| ModbusSession.RetryableByOperation | crates/ferredge-proto-modbus/src/transport.rs:632-640 | the prefix test on messages retries every failed operation but setting a timeout, receiving a datagram and decoding ASCII |
| ModbusSession.RetryableByPrefix | crates/ferredge-proto-modbus/src/transport.rs:632-640 | the seven message beginnings that are retried |
| ModbusSession.BudgetMatchesPolicy | crates/ferredge-proto-modbus/src/transport.rs:642-648 | the budget grants exactly the retries the policy allows, writes only where permitted, unless it saturates |
| ModbusSession.RequestIsRun | crates/ferredge-proto-modbus/src/transport.rs:405-423 | a request with its retries and waits is a run, so what holds over every run holds of it |
| ModbusSession.RequestSleeps | crates/ferredge-proto-modbus/src/transport.rs:405-423 | a request sleeps before each retry, the policy's delay for that retry, and no other time |
| ModbusSession.RetriesReconnect | crates/ferredge-proto-modbus/src/transport.rs:405-423 | a retry never meets the socket or port of the failed attempt, and its answer depends on its own I/O alone |
| ModbusValues.PayloadRoundTrip | crates/ferredge-proto-modbus/src/codec.rs:144-192 | a value comes back from its payload form exactly when it is of the codec's kind, for lists of any length |
| ModbusValues.PayloadSurvives | crates/ferredge-proto-modbus/src/convert.rs:363-388 | a payload that decodes comes back from the value exactly when it is in the form values are given |
| ModbusValues.OnlyAckIsNull | crates/ferredge-proto-modbus/src/codec.rs:144-192 | an acknowledgement, and nothing else, is given as null |
| ModbusValues.NumericAccepted | crates/ferredge-proto-modbus/src/convert.rs:683-708 | a numeric payload decodes exactly when it is one number in range or a list of them |
| ModbusValues.NumericDecoded | crates/ferredge-proto-modbus/src/convert.rs:683-708 | what it decodes to is those numbers, in order, in the codec's kind |
| ModbusValues.PlainAccepted | crates/ferredge-proto-modbus/src/convert.rs:363-388 | the payloads the other codecs decode |
| ModbusValues.PackedWords | crates/ferredge-proto-modbus/src/convert.rs:439-527 | n values give 2n words, big-endian pairs recompose the bit pattern, and little-endian words are those words byte-swapped |
| ModbusValues.WordsExactly | crates/ferredge-proto-modbus/src/convert.rs:422-527 | a 32-bit codec writes values of its own kind and no others, each number as the two words of its two's complement pattern |
| ModbusValues.WordsLossless | crates/ferredge-proto-modbus/src/convert.rs:422-527 | no two values of a 32-bit codec are written as the same words |
| ModbusValues.SingleRegisterExactly | crates/ferredge-proto-modbus/src/convert.rs:408-420 | a 16-bit write is accepted exactly for one number from 0 up to the codec's greatest |
| ModbusValues.SignedWriteBack | crates/ferredge-proto-modbus/src/convert.rs:408-420 | a signed register value that was read can be written back exactly when it is not negative |
| Backoff.BrokerReconnectConfig.DelayMsForAttempt | crates/ferredge-core/src/device.rs:91-110 | the saturating loop computes min(max, max(initial, 1) * max(multiplier, 1)^(attempt - 1)) of unbounded integers |
| Backoff.BrokerDelayCappedAndMonotone | crates/ferredge-core/src/device.rs:91-110 | broker delays never exceed the cap and never shrink |
| Backoff.BrokerDelayGrows | crates/ferredge-core/src/device.rs:91-110 | which delay the first attempts wait and how each later one follows from the one before |
| Backoff.ModbusReconnectConfig.DelayForAttempt | crates/ferredge-proto-modbus/src/endpoint.rs:57-84 | the same closed form with the cap raised to 1 ms and the result clamped to 64 bits |
| Backoff.ModbusDelayCappedAndMonotone | crates/ferredge-proto-modbus/src/endpoint.rs:57-84 | from attempt 2 on the Modbus delay is capped and never shrinks |
| Backoff.ModbusDelayGrows | crates/ferredge-proto-modbus/src/endpoint.rs:57-84 | the same for Modbus delays, in whole milliseconds |
| Backoff.ModbusCapRespectedExactly | crates/ferredge-proto-modbus/src/endpoint.rs:57-84 | every attempt respects the cap exactly when the initial delay does and the backoff is fixed or the cap is at least 1 ms |
| Net.Writer.WriteAll | crates/ferredge-core/src/net.rs:110-123 | success means every byte was sent once and in order; a failure means a proper prefix was, and names the write without progress |

## Left out

- MqttRecovery.MqttDriver.Submit: publish, subscribe and unsubscribe share this method for what they do alike; a send counts as done when the session reports no failure of it.
- MqttRecovery: calls and replays are whole steps there; interleaving a call with a replay is not modelled. Failures to lock the driver's mutexes are modelled only where the listener and the session slot meet them.
- MqttRecovery.ClientSession.Send: an outcome of sending only; the packet id a request is given and its entries in the correlation tables are `MqttInbound.AssignPacketId` and `MqttInbound.MqttInboundDecoder.RecordOutboundRequest`.
- MqttSessions: a poisoned session mutex is not modelled; the connect that starting the listener makes counts as the listener's own.
- MqttListener.MqttListener.Listen: a finite script of outcomes, after which the listener is told to stop; what a command, a poll, a connect and a replay read are parts of those outcomes, and `ReplayedEventsFate` ties a replay's to the recovery state. The status broadcasts to subscribers are left out, and the two copies of the reconnect loop are told apart only by what began the outage.
- MqttInbound: packet ids are handed out by the packet library, which is not part of this model; the texts of reason codes are parameters.
- MqttKeepalive: instants are milliseconds; a session whose read or send failed is discarded by every caller, so a run ends at its first failure.
- MqttPlanners: the packet library's own checks, UTF-8 and JSON are function parameters; `MqttMessageOptions` and `MqttSubscriptionOptions` are builders over the same capture.
- MqttMetas.IntoTransportMeta: the chain of nineteen conditional `set` calls is written as a loop over the keys in the encoder's order.
- Enhanced authentication, CONNECT and CONNACK property copying, wills and TLS: field plumbing.
- HttpResponses: lossy UTF-8 decoding is any function that is the identity on ASCII; `send_request`, endpoint parsing and chunked transfer coding (which the parser does not implement) are left out.
- Bridge register access and the result-to-bridge conversions: one-branch mappings.
- ModbusStream: the RTU length guess is a parameter and reassembly of RTU frames is stated for guesses that no longer change from the fifth byte on; CRC, LRC and the ASCII hex form belong to the rmodbus library, which is not part of this model. The socket and the serial reader are one method; they differ in the text of their errors.
- ModbusStream.Stream.ReadStreamResponse: reads of any size, where the program's buffer holds 64 bytes.
- ModbusSession: the TCP and the serial transport are one method over a family. A datagram socket is bound for one call and goes out of scope with it, so its handle is not in the history. The session mutex is assumed to lock.
- ModbusValues: floating-point codecs, coil bit packing and the decoders of wire frames.
- Zenoh, the executors, sockets and serial ports themselves, serde, the owned/borrowed conversions and the plain `Headers` list operations.
