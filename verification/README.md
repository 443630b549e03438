# Fleet Telemetry, verified

A Dafny model of the Fleet Telemetry server: vehicles hold a websocket connection, send
records, and get an acknowledgement once a record has been taken care of. For most record
types the acknowledgement is immediate. For the types listed under `reliable_ack_sources`
it waits until one designated producer has stored the record: that producer pushes the
record on a channel shared by all producers, one server goroutine takes it off, looks the
socket up by its id and enqueues the ack on that socket's write channel.

The project proves what this machinery guarantees over every interleaving of its
goroutines, and what the code around it has to establish first: the configuration, the
MQTT publish budget, the record pipeline and the message encoding.

| Files | Contents |
|---|---|
| `Telemetry.dfy`, `Registry.dfy`, `Wrappers.dfy` | shared vocabulary, and the registry as a value |
| `Connections.dfy`, `Protocol.dfy` | the protocol as a transition system |
| `ConnectionInvariants.dfy`, `ProtocolInvariants.dfy`, `ProtocolAccounting.dfy` | what every step keeps |
| `ProtocolTheorems.dfy`, `ProtocolRouting.dfy`, `ProtocolLifecycle.dfy`, `ProtocolOrder.dfy` | what holds in every run |
| `ProtocolRuns.dfy`, `ProtocolTightness.dfy`, `ProtocolDrain.dfy` | runs that show where the guarantees end, that bounds are met and what a drain leaves behind, with the exact conditions |
| `Config.dfy` | validation and wiring of producers |
| `Sockets.dfy`, `Producers.dfy`, `Shutdown.dfy` | the objects and loops of one goroutine each, in place |
| `MqttAlerts.dfy`, `MqttBudget.dfy` | alert grouping, and the time budget of one publish |
| `Flatbuffers.dfy`, `StreamMessage.dfy` | the envelope codec and the message with its cached form |
| `Records.dfy`, `Payload.dfy` | from bytes to a record, and the in-place payload passes |
| `Identity.dfy` | certificates, sender ids and NATS subjects |

`Run(w, steps)` in `Protocol.dfy` is the state a sequence of steps leads to. A step is one
atomic move of one goroutine: a reader, a writer, the Kafka delivery loop, the ack loop, a
new connection, or the shutdown sequence. Whatever the network, a broker, the rate limiter
or the clock decides is a parameter of the step, so a statement about every run holds for
all their behaviours. The read loop does not spell out what a message leads to: it takes
`Telemetry.Program`, the same function the method `SocketManager.ParseAndProcessRecord` is
proved against, and its wiring is what
`Config.ConfigureProducers` is proved to build (`Configuration.WiredIsWiring`).

Where the code differs from what one would expect, the model follows the code:

- A message of unknown type is acked and then processed all the same. Unless the empty record
  type waits for a producer it is acked exactly twice (`ProtocolTheorems.ResponseAccounting`);
  and in every wired server, some run acks such a message at least twice
  (`ProtocolTightness.UnknownTypeIsAckedAgain`).
- Rate-limited messages get no response, although the repository's README.md promises one.
- An ack goes to whoever holds the socket id when the ack loop looks it up. A client that
  reconnects under its old id is answered for its previous connection, so "the hit is the
  originating socket" holds exactly while that socket is live
  (`ProtocolRouting.HitIsOriginIffLive`, `ProtocolRuns.ReconnectGetsTheAck`).
- Socket ids come from a client header. When two live connections share one, the first to
  leave takes the other's registry entry along; the counter stays right
  (`Registries.AddRemove`, `ProtocolRuns.CollisionHidesLiveSocket`). The map has been exactly
  the live set throughout a run if and only if live ids have been distinct throughout
  (`ProtocolRouting.ExactIffDistinct`).
- A clean drain says that every registered socket has left the registry, no more, and the
  producers are closed right after it. A connection that has just left may still announce
  DISCONNECTED, and one that was upgraded before the shutdown may still register, read and
  dispatch (`ProtocolDrain.DrainMayPrecedeDisconnected`, `ProtocolDrain.DrainMayPrecedeServing`).
  No producer is called after the drain, however the run goes on, if and only if when it ends
  no connection is in either position, an upgraded one mattering only if some record type has
  a producer (`ProtocolDrain.FinalIffSettled`). In terms of the configuration: every drain that
  finds no connection waiting to register is final if and only if connectivity has no producer
  (`ProtocolDrain.DrainsAreFinalIff`), and every drain at all if and only if no record type has
  one (`ProtocolDrain.EveryDrainIsFinalIff`).
- A rule list that names the designated producer twice makes it ack twice
  (`ProtocolTightness.DuplicateAcksTwice`). The response bound counts its occurrences and is
  met for every wiring (`ProtocolTightness.BoundIsMet`); a reliable type gets at most one
  response in every run if and only if it is named at most once
  (`ProtocolTightness.AtMostOneIff`), and under the same condition a producer failure means
  that the record is never answered (`ProtocolTightness.FailureIsFinalIff`).
- A record type with a dispatch rule skips the sender check (`BinarySerializer.Accepts`).
- `UnauthorizedSenderIDError` has a branch in the read loop that `NewRecord` never takes;
  the model keeps the branch. A foreign sender is an ordinary error.
- `convertTimestamp` is idempotent only below a thousand times its threshold
  (`Records.ConvertTwice`).

## Model

Rows marked (helper) at the end are single steps; the rows above rest on them.

| member | source | states |
|---|---|---|
| ProtocolTheorems.RunKeepsInv | server/streaming/socket.go:273-458 | every reachable state of every interleaving satisfies the joint invariant: record identities, per-connection order, write channels, ack pipeline, registry, response books |
| ProtocolTheorems.AckImpliesStored | server/streaming/server.go:89-101 | whatever step enqueues a response to a parsed record of a reliable type, it is an ack and that type's designated producer had reported success for that same record |
| ProtocolTheorems.ConfiguredAckImpliesStored | config/config.go:454-484 | the same for any server started on sources that validation accepts, with the producer read off the configured sources |
| ProtocolTheorems.FailureNeverAcks | datastore/kafka/kafka.go:113-135 | once the one designated producer has failed for a record, the record is never answered and no ack for it is on its way |
| ProtocolTheorems.ResponseAccounting | server/streaming/socket.go:361-402 | a record never gets more responses than its type allows; when the read loop is done with it, what is missing is travelling, failed or missed; exactly one (two for unknown type, none if rate-limited) when nothing waits for a producer |
| ProtocolTheorems.RejectedOnlyErrors | server/streaming/socket.go:365-388 | too big and malformed messages are answered by errors only, on their own socket, and no producer is ever called for them |
| ProtocolOrder.AckAfterCalls | server/streaming/socket.go:392-400 | in every run, when a reader enqueues its ack of a parsed record, its calls so far end with one call per producer of the record's rule, in order, and the type does not wait for a producer |
| ProtocolOrder.AckWasReported | server/streaming/server.go:89-101 | every response to a reliably parsed record is an ack, and some earlier step of the run is that producer's report of success for that record |
| ProtocolOrder.StoredWasReported | datastore/kafka/kafka.go:113-135 | what counts as stored was reported in an earlier step, by that producer and for that record |
| Telemetry.ProgramIs | server/streaming/socket.go:361-402 | the effects of every outcome, spelled out: all calls of the rule before the ack, the extra ack of an unknown type before them, one reply and no call for anything rejected |
| ConnectionInvariants.DesignatedOnce | config/config.go:425-432 | a rule list without duplicates names its designated producer once, so the response bound is one |
| ProtocolTightness.BoundIsMet | server/streaming/socket.go:361-402 | for every wiring, outcome of parsing and record type some run gives the record as many responses as ResponseAccounting allows at all |
| ProtocolTightness.AtMostOneIff | config/config.go:425-432 | a parsed record of a reliable type gets at most one response in every run if and only if its rule names the designated producer once |
| ProtocolTightness.DuplicateAcksTwice | config/config.go:425-432 | a run in which a rule naming its acking producer twice, synchronous or Kafka, gives one record two acks |
| ProtocolTightness.UnknownTypeIsAckedTwice | server/streaming/socket.go:380-402 | a run in which a message of unknown type is acked, handled on and acked again |
| ProtocolTightness.UnknownTypeIsAckedAgain | server/streaming/socket.go:380-402 | in every wired server some run answers a message of unknown type at least twice, and exactly as often as is allowed |
| ProtocolTightness.FailedAndAcked | datastore/kafka/kafka.go:113-135 | for every rule naming the designated producer more than once, a run in which one of its calls fails and the record is acked all the same |
| ProtocolTightness.FailureIsFinalIff | datastore/kafka/kafka.go:113-135 | a record whose designated producer has failed is never answered in any run, if and only if the rule names that producer once |
| ConnectionInvariants.BudgetIs | server/streaming/socket.go:361-407 | the responses a record can lead to, counted along its program, in terms of type and origin |
| ConnectionInvariants.ProgramCallsWanted | telemetry/serializer.go:92-96 | for every outcome of parsing, the program of a record calls exactly the producers its rule names, in order, or none |
| ProtocolRouting.PipelineConservation | server/streaming/server.go:89-101 | records taken from the ack channel equal hits plus misses plus the one still looked up; all are of a reliable type, none is a connectivity record |
| ProtocolRouting.ResponsesAreRouted | server/streaming/server.go:92-94 | every response ever enqueued sits on a socket carrying the record's socket id |
| ProtocolRouting.HitIsOriginIffLive | server/streaming/socket_registry.go:40-45 | a hit is a live socket under the record's id; with distinct live ids it is the originating one if and only if that one is still live |
| ProtocolRouting.MissIffNobody | server/streaming/server.go:92-98 | with live ids always distinct, a lookup is a miss if and only if no live connection carries the record's socket id, and otherwise a hit |
| ProtocolRouting.RegistryTellsLive | server/streaming/socket_registry.go:20-53 | even with colliding ids the counter is the number of live sockets, the guard of the decrement never fails, every entry is live and under its own id, and the map is at most as large as the counter, with equality exactly if it holds all live sockets |
| ProtocolRouting.CloseAllReachesAll | server/streaming/socket_registry.go:60-71 | while live ids have been distinct throughout, the map is exactly the live set |
| ProtocolRouting.ExactIffDistinct | server/streaming/socket_registry.go:20-37 | the map has been exactly the live set in every state of a run if and only if live ids have been distinct in every state of it |
| ProtocolLifecycle.EveryLiveIsAsked | server/streaming/socket_registry.go:60-71 | with live ids distinct until the drain begins, every connection live at that moment has a close reason when polling starts, whatever happens in between |
| ProtocolRouting.DrainIsSound | cmd/main.go:169-184 | the drain wait ends before its deadline if and only if no live socket is left, and otherwise exactly at the deadline; without live sockets every connection is unregistered or has returned from ProcessTelemetry with its stop channel closed once |
| ProtocolLifecycle.DrainAsksEverySocket | server/streaming/socket_registry.go:60-71 | when polling starts, every socket of the shutdown snapshot has a close reason |
| ProtocolLifecycle.DispatchesWhatRulesSay | telemetry/serializer.go:92-96 | between records a connection has called exactly the producers of its rules for its dispatched records in order of creation; within a record, a prefix of that |
| ProtocolLifecycle.ConnectionTrace | server/streaming/server.go:203-218 | calls for CONNECTED come first, then those for records in order, then those for DISCONNECTED, each event at most once |
| ProtocolLifecycle.StopClosedOnce | server/streaming/socket.go:273-277 | the stop channel is closed at most once, and exactly once if and only if ProcessTelemetry has returned |
| ProtocolLifecycle.WriterFifo | server/streaming/socket.go:415-458 | responses taken by the writer followed by those still buffered are the responses enqueued on that socket in order; at most 1000 are buffered |
| ProtocolLifecycle.WriterEnds | server/streaming/socket.go:441-456 | after a failed write, or on the closed stop channel, the writer is gone in every continuation and takes nothing more |
| ProtocolLifecycle.WriterGoesOn | server/streaming/socket.go:440-447 | after a successful write the writer takes the next buffered response |
| ProtocolLifecycle.WriterEndsOnlySo | server/streaming/socket.go:434-458 | a writer ends in no other way, and by the stop channel only once the read loop is over |
| ProtocolLifecycle.FirstReasonStays | server/streaming/socket.go:219-238 | the first non-empty text of a read, write or close error, or of a shutdown request, is the close reason in every continuation |
| ProtocolLifecycle.ReasonOnlySo | server/streaming/socket.go:219-228 | the close reason is set once, by such a move and to its text |
| ProtocolOrder.StagesInOrder | server/streaming/server.go:125-131 | every handler goes through registering, serving, closing, stopping and deregistering one by one and skips none; it reads only while serving, with its writer running from the start |
| ProtocolOrder.RecordsAre | server/streaming/server.go:137-179 | which record a step creates: connection, socket id, type and origin, the connectivity events included |
| ProtocolLifecycle.NeverUndone | server/streaming/socket.go:219-228 | later in any run a non-empty close reason is unchanged, an exited writer has taken nothing more, and the connection's history has only grown |
| ProtocolDrain.FinalIffSettled | cmd/main.go:131-184 | a run that drains cleanly calls no producer in any continuation if and only if, when the drain ends, no connection has left the registry with calls to make, and none is upgraded but unregistered unless every rule is empty |
| ProtocolDrain.DrainsAreFinalIff | server/streaming/server.go:203-218 | every drain that ends with no upgraded but unregistered connection calls no producer afterwards, in any continuation, if and only if the connectivity rule names no producer |
| ProtocolDrain.EveryDrainIsFinalIff | server/streaming/server.go:111-135 | every drain whatsoever calls no producer afterwards, in any continuation, if and only if no record type has a producer |
| ProtocolDrain.DrainMayPrecedeDisconnected | server/streaming/server.go:212-218 | with a connectivity rule, a run that drains cleanly and whose next step creates the DISCONNECTED record and sets out to call its producers |
| ProtocolDrain.DrainMayPrecedeServing | server/streaming/server.go:111-131 | for every type with a producer, a run that drains cleanly and in which a connection upgraded before then registers, reads and calls that producer |
| ProtocolRuns.CollisionHidesLiveSocket | server/streaming/socket_registry.go:29-37 | a run in which a live socket is counted but cannot be found, two connections having used one id |
| ProtocolRuns.ReconnectGetsTheAck | server/streaming/server.go:92-94 | a run with distinct live ids in which the ack for a stored record is enqueued on the reconnected socket |
| Registries.AddRemove | server/streaming/socket_registry.go:20-37 | registering and deregistering restores the registry if and only if nobody was registered under the id; otherwise that entry is lost |
| Configuration.Config.ParseValidDispatchers | config/config.go:487-495 | keeps the dispatchers other than the logger, in order |
| Configuration.WithoutLoggerIs | config/config.go:487-495 | filtering keeps every dispatcher but the logger, in its place |
| Configuration.Config.ConfigureReliableAckSources | config/config.go:454-484 | accepts if and only if every source is neither connectivity nor the logger and stands in its record's list; the result is exactly the inverse map, in whatever order the map is visited; a rejection names a source and the first test it fails |
| Configuration.Config.RequiredDispatchers | config/config.go:345-350 | each required dispatcher with exactly the records that name it |
| Configuration.Config.Establish | config/config.go:352-422 | succeeds if and only if every required broker is configured and reachable; then there is one producer per required known dispatcher, built with that dispatcher's ack types |
| Configuration.Config.WireRules | config/config.go:424-437 | each record's producers match its dispatcher names in order; it fails if and only if some record names none |
| Configuration.Config.ConfigureProducers | config/config.go:335-452 | succeeds if and only if sources are valid, brokers ready, every record has a rule, topics can be provisioned and MQTT connects; the producers and rules it then returns |
| Configuration.Config.StartableMeans | config/config.go:335-484 | the condition of a successful start, spelled out on records, sources and brokers |
| Configuration.WiredListIs | config/config.go:424-437 | place by place a rule name stands for a producer of its kind with exactly its types to ack, or for nil if unknown |
| Configuration.InverseIsPartition | config/config.go:454-484 | the ack types of different dispatchers are disjoint and cover exactly the configured sources |
| Configuration.ValidatedWiring | config/config.go:454-484 | validated sources give a wiring in which a producer acks a type if and only if it is designated for it, connectivity never waits, and each designated producer stands in the rule |
| Configuration.WiredIsWiring | config/config.go:424-437 | the producer wired at a place of a rule is the one the protocol calls there, and acks exactly the types the protocol lets it ack |
| Configuration.NilEntries | config/config.go:428-432 | a wired list has a nil entry if and only if a name in it is not a known dispatcher |
| Configuration.OneAckingProducer | config/config.go:424-437 | exactly one distinct producer in a reliable type's list acks that type: the designated one, or none if its name is not a known dispatcher |
| Sockets.SocketManager.ParseAndProcessRecord | server/streaming/socket.go:361-402 | for every outcome of parsing: all calls of the rule in order and then, if the type waits for no producer, the ack; an unknown type is acked before as well, anything rejected gets its one reply; bytes and cost are booked for dispatched messages only |
| Sockets.SocketManager.RecordsStatsToLogInfo | server/streaming/socket.go:261-270 | every type with its bytes, and `total` their sum even if a type is itself called total |
| Sockets.SocketManager.ReadLoop | server/streaming/socket.go:296-328 | stops at the first read that is no binary message, having handled every message before it that was not rate-limited |
| Sockets.SocketManager.ProcessTelemetry | server/streaming/socket.go:273-329 | the books of the served messages, the first close reason among read loop and close, and one close of the stop channel |
| Sockets.EndErrorIs | server/streaming/socket.go:298-304 | a script ends with the error of its first read that is no binary message, if that was an error |
| Sockets.ServedIs | server/streaming/socket.go:306-327 | a rate-limited message leaves no trace in what is served, any other is served in its turn, and nothing after the end is |
| Sockets.ConversedIsBooked | server/streaming/socket.go:296-328 | reading a script books exactly its messages that are not rate-limited, in order |
| Sockets.EffectsArePrograms | server/streaming/socket.go:361-402 | over any message sequence the outside sees one program after the other |
| Sockets.TotalIsDispatchedBytes | server/streaming/socket.go:261-270 | over any message sequence `total` is the payload bytes of the records that reached dispatch, none rate-limited or rejected |
| Sockets.BytesPerType | server/streaming/socket.go:466-471 | over any message sequence each record type is booked with the bytes of its own dispatched records |
| Sockets.SumIsTotal | server/streaming/socket.go:261-270 | the total of a table is the sum of its entries |
| Sockets.CostIsBilledSignals | server/streaming/socket.go:349-358 | over any message sequence 150000 times the accumulated cost is the number of billed signals, per cost type and VIN |
| Sockets.DollarsPerVehicle | server/streaming/socket.go:40-50 | 150000 times the cost under each of the three cost types is the number of signals of that vehicle's dispatched records of the one type billed under it |
| Sockets.SocketRegistry.CloseAllSockets | server/streaming/socket_registry.go:60-71 | every registered socket is closed and has a close reason, an earlier one being kept; nothing else changes |
| Sockets.Server.HandleAcks | server/streaming/server.go:89-101 | each socket gets one ack per record that carries its id, in order, and hits and misses count the others |
| Sockets.AcksAreRecords | server/streaming/server.go:89-101 | a socket registered under one id gets exactly as many acks as the batch holds records with that id and a serializer |
| Sockets.FoundOrMissed | server/streaming/server.go:89-101 | every record with a serializer is a hit or a miss |
| Sockets.Server.ServeBinaryWs | server/streaming/server.go:111-135 | the whole life of one connection: CONNECTED calls, the programs of its messages, DISCONNECTED calls, byte total, close reason, and the registry as left by joining and leaving; nothing if it is not admitted |
| Sockets.LifeIs | server/streaming/server.go:127-132 | CONNECTED calls come first and DISCONNECTED calls last, each for every producer of the connectivity rule in order, if the event could be built |
| Producers.KafkaProducer.HandleProducerEvents | datastore/kafka/kafka.go:113-135 | over any delivery events, the records pushed in order and the number of errors |
| Producers.AckedPerSuccess | datastore/kafka/kafka.go:113-150 | a record is pushed once per delivery report without error that carries it, if this producer acks its type, and otherwise never |
| Producers.EventsInOrder | datastore/kafka/kafka.go:113-135 | delivery events are handled in the order they come; every one but a success or an ignored one is an error |
| Producers.DeliveryIsTheLoop | datastore/kafka/kafka.go:113-135 | the protocol's delivery step pushes exactly what the event loop pushes |
| Producers.PublishIsProduce | datastore/nats/nats.go:186-212 | after the protocol's call of a synchronous producer the reader is about to push exactly the records NatsProducer.Produce pushes, and its next step pushes that record and goes on with the rest |
| GracefulShutdown.WaitForSocketsDrain | cmd/main.go:169-184 | the wait ends at the first poll that counts no socket or meets the deadline, and is drained if and only if that poll counted none |
| MqttAlerts.Gather | datastore/mqtt/mqtt_payload.go:35-49 | `current` has exactly the names with a started alert, each with the first of its latest ones; `history` has each name's alerts in input order |
| MqttAlerts.CurrentIsFirstLatest | datastore/mqtt/mqtt_payload.go:39-46 | a name has a current state exactly if a started alert carries it, and then it is the earliest of those that started last |
| MqttAlerts.HistoryHolds | datastore/mqtt/mqtt_payload.go:36-38 | a name has a history exactly if an alert carries it, with each of that name's alerts as often as it came |
| MqttAlerts.HistoryFollowsInput | datastore/mqtt/mqtt_payload.go:36-38 | what is appended to the input is appended to the history of its name and of no other |
| MqttAlerts.ProcessVehicleAlerts | datastore/mqtt/mqtt_payload.go:30-81 | exactly one publication per entry of the two maps, on the topics the repository documents, at most twice as many as alerts |
| MqttAlerts.HistoriesPartition | datastore/mqtt/mqtt_payload.go:36-38 | every alert is in the history of its name as often as it came, and in no other |
| MqttAlerts.TopicsDiffer | datastore/mqtt/mqtt_payload.go:52-65 | no two publications of one record share a topic |
| MqttBudget.WaitTokenTimeout | datastore/mqtt/mqtt.go:192-205 | succeeds only for a token that completed without error before the timer fired, and for every one that did strictly within the wait; ends at the completion or with the timer; a zero wait only polls |
| MqttBudget.AwaitAll | datastore/mqtt/mqtt.go:168-187 | waits take at most max(0, timeout) together, or exceed the timeout by the lateness of one timer; acked only if every token completed without error, always if all did strictly before the deadline, and without delays and late timers never if one did after it |
| MqttBudget.AckedMeans | datastore/mqtt/mqtt.go:168-187 | the decision per token and budget, in terms of when each token completes and whether it failed |
| MqttBudget.Produce | datastore/mqtt/mqtt.go:139-188 | a record is pushed only if its type is acked, its payload was published and every token completed without error, and always if they did strictly before the configured deadline, 2500 ms by default |
| MqttBudget.OneDeadline | datastore/mqtt/mqtt.go:168-176 | without delays and late timers the per-token budgets are one deadline for all tokens |
| MqttBudget.EarlyTokensCount | datastore/mqtt/mqtt.go:192-200 | a token that was done before the loop counts even when the budget is spent or negative |
| Flatbuffers.FlatbuffersEnvelopeToBytes | messages/tesla/flatbuffers_extension.go:12-31 | the objects and the root that the envelope writer appends, a zero message type or message being elided |
| Flatbuffers.FlatbuffersStreamToBytes | messages/tesla/flatbuffers_extension.go:60-81 | decoding what it wrote returns every stream and envelope field, zero scalars and empty strings included; the objects on the wire, slot by slot |
| Flatbuffers.OthersAreRefused | messages/tesla/flatbuffers_extension.go:34-47 | an empty message, an envelope without union and one of another type are refused, the last with its type |
| Flatbuffers.LayoutDecodes | messages/tesla/FlatbuffersStream.go:29-232 | the slots the Add functions fill are the slots the accessors read at their vtable offsets |
| Flatbuffers.TrimmedReadsTheSame | messages/tesla/FlatbuffersEnvelope.go:47-145 | slot i is read at vtable offset 4 + 2i, whether or not trailing absent slots were dropped |
| StreamMessages.StreamMessage.ToBytes | messages/stream_message.go:55-62 | by either branch the bytes decode to the current fields |
| StreamMessages.StreamMessageFromBytes | messages/stream_message.go:26-52 | succeeds if and only if the bytes decode; the cached tables agree with every field |
| StreamMessages.TablesToBytes | messages/tesla/flatbuffers_extension.go:84-87 | encoding from cached tables decodes to what the tables say |
| StreamMessages.SetAll | messages/stream_message.go:89-121 | any sequence of setters keeps the cache coherent and has the effect of its operations on the fields |
| StreamMessages.Rewrite | messages/stream_message.go:26-62 | decode, any sequence of setters, encode: the result decodes to the updated fields |
| StreamMessages.EpochMsIs | messages/stream_message.go:118-121 | full milliseconds since the epoch, wrapped around for instants before it |
| Records.BinarySerializer.Deserialize | telemetry/serializer.go:39-75 | accepts if and only if the message decodes and has a rule or a matching sender, and tells a foreign sender, an unknown type (with its guessed number) and a garbled buffer apart; the rewritten raw bytes decode to the message with only the delivery time changed |
| Records.BinarySerializer.LogVinMismatch | telemetry/record.go:212-226 | over any number of calls at most one warning, on the first foreign claim |
| Records.BinarySerializer.ApplyRecordTransforms | telemetry/record.go:154-238 | succeeds if and only if the payload decodes and what it becomes encodes; then the payload encodes exactly the transformed message, as JSON or protobuf by flag; warns of a foreign VIN at most once |
| Records.BinarySerializer.NewRecord | telemetry/record.go:55-67 | too big if and only if over 1000000 bytes; which outcome the read loop sees for every input; succeeds if and only if the message is small enough, decodes, has a rule or a matching sender and can be encoded; then the VIN of record and message is the connection's, and the payload encodes exactly the transformed message |
| Records.ConvertTwice | telemetry/record.go:334-342 | converting a timestamp twice equals converting it once if and only if it is below a thousand times the threshold |
| Records.ConversionKeepsInstant | telemetry/record.go:334-342 | a conversion keeps the instant to the millisecond, and times below the threshold as they are |
| Records.TransformsKeepSignals | telemetry/record.go:141-152 | the signal count of a transformed message is the number of data, alerts or errors the vehicle sent |
| Records.MessageBecomes | telemetry/record.go:154-204 | every transformed message part by part: the connection's VIN, errors and connection id kept, alerts converted, each datum in its place under its key and changed by one pass at most |
| Payloads.TransformLocation | telemetry/record.go:253-265 | in place, the first location datum becomes coordinates if it opens a parenthesis and scans, north and east positive, south and west negative; everything else is unchanged |
| Payloads.TransformScientificNotation | telemetry/record.go:292-302 | in place, every scientific string that parses is rewritten with five decimals |
| Payloads.TransformLegacyAutomaticEmergencyBraking | telemetry/record.go:270-288 | in place, braking values 0 to 4 of client 1.3.0 are shifted by one, cyclically |
| Payloads.PassesTouchOnlyTheirTargets | telemetry/record.go:253-302 | every pass keeps number, order and keys of the data and changes only its targets |
| Payloads.PassesTogether | telemetry/record.go:186-188 | what the three passes make of each single datum: coordinates, a rendered number, a shifted braking value, or itself |
| Payloads.ScientificIsNotation | telemetry/record.go:30 | the test accepts exactly a sign, digits around a point with at least one digit, a mark, a sign and digits |
| Payloads.LocationAndScientificCommute | telemetry/record.go:253-302 | the two string passes commute on every payload |
| Payloads.LocationAndAebCommute | telemetry/record.go:253-288 | the location and braking passes commute on every payload |
| Payloads.ScientificAndAebCommute | telemetry/record.go:270-302 | the scientific and braking passes commute on every payload |
| Payloads.LocationIdempotent | telemetry/record.go:253-265 | running the location pass twice equals running it once |
| Payloads.ScientificIdempotent | telemetry/record.go:292-302 | running the scientific pass twice equals running it once |
| Payloads.RenderedIsNotScientific | telemetry/record.go:30 | no rendering with five decimals matches the expression that asks for an exponent |
| Payloads.RenderedIsClose | telemetry/record.go:292-302 | a rewritten number has five decimals and reads back as the magnitude of the parsed one to within half a unit of the last decimal |
| Payloads.FiveShiftsAreIdentity | telemetry/record.go:270-288 | five braking passes restore every payload |
| Identity.FirstRecognisedDecides | messages/identity.go:98-125 | the first extended key usage either table knows decides: excluded, or accepted with the organizational unit's type before the usage's own |
| Identity.IdentityHasNoDot | messages/identity.go:78-96 | neither half of an identity contains a dot, for every certificate and every table entry |
| Identity.DeviceIdIsCommonName | messages/identity.go:78-96 | the device id is the common name character by character with a dash for every dot, and without dots the common name itself |
| Identity.DeviceIdsAreDistinct | messages/identity.go:78-96 | vehicles whose common names have no dot share a device id only if they share the common name |
| Identity.IssuerDecides | messages/identity.go:78-96 | which client type an issuer that does not go by usages names, and that any other issuer is refused |
| Identity.FirstKnownUnitDecides | messages/identity.go:117-125 | the first organizational unit the table knows names the client type |
| Identity.ParseBuilt | messages/identity.go:128-140 | splitting undoes building if and only if the client type has no dot |
| Identity.BuildParsed | messages/identity.go:128-140 | building undoes splitting if and only if there is a dot to split at |
| Identity.SenderIdRoundTrip | server/streaming/server.go:243-247 | the sender id of a connection splits into exactly the identity it was built from |
| Identity.SubjectsAreDistinct | datastore/nats/nats.go:143-153 | in one namespace two subjects are equal if and only if vehicle and topic are, "V" and "data" being one topic |
| Identity.SubjectNamesAll | datastore/nats/nats.go:143-153 | a subject starts with the namespace, and the rest splits into the vehicle and the topic |
| Identity.DottedVinsCollide | datastore/nats/nats.go:151-153 | with dots in vehicle ids, different vehicles could share a subject |
| Sockets.SocketManager.RecordCloseReason | server/streaming/socket.go:219-228 | (helper) the first non-empty reason wins |
| Sockets.SocketManager.RequestClose | server/streaming/socket.go:235-238 | (helper) records the shutdown reason if none is set and closes the websocket |
| Sockets.SocketManager.ProcessRecord | server/streaming/socket.go:409-412 | (helper) appends one producer call per rule entry, in order |
| Sockets.SocketManager.TrackSignalCost | server/streaming/socket.go:349-358 | (helper) books signals over 150000 under the cost type and VIN of a billable record, and nothing otherwise |
| Sockets.SocketRegistry.RegisterSocket | server/streaming/socket_registry.go:20-26 | (helper) the object's map and counter after registering |
| Sockets.SocketRegistry.DeregisterSocket | server/streaming/socket_registry.go:29-37 | (helper) the object's map and counter after deregistering |
| Sockets.SocketRegistry.GetSocket | server/streaming/socket_registry.go:40-45 | (helper) the socket registered under an id, if any |
| Sockets.Server.DispatchConnectivityEvent | server/streaming/server.go:137-179 | (helper) calls the connectivity rule's producers if there is a rule and the record could be built |
| Producers.KafkaProducer.Produce | datastore/kafka/kafka.go:74-95 | (helper) a record the client takes is queued and not acked; one it refuses is an error |
| Producers.NatsProducer.Produce | datastore/nats/nats.go:162-195 | (helper) a published record goes out under its subject and is pushed if its type is acked; a failed one leaves nothing behind |
| Producers.NatsProducer.Close | datastore/nats/nats.go:199-203 | (helper) closing on purpose is never taken for a fatal loss |
| MqttBudget.AwaitOne | datastore/mqtt/mqtt.go:172-177 | (helper) one wait within what is left of the budget, which is never negative |
| StreamMessages.StreamMessage.SetSenderID | messages/stream_message.go:89-96 | (helper) sets the id and both halves of it, and leaves no stale cache |
| StreamMessages.StreamMessage.SetIdentity | messages/stream_message.go:99-104 | (helper) sets type, id and sender id together, and leaves no stale cache |
| StreamMessages.StreamMessage.SetMessageID | messages/stream_message.go:112-115 | (helper) sets the message id only, and leaves no stale cache |
| StreamMessages.StreamMessage.SetDeliveredAt | messages/stream_message.go:118-121 | (helper) sets the delivery time in milliseconds, and leaves no stale cache |
| Records.BinarySerializer.ShouldLogVinMismatch | telemetry/serializer.go:106-108 | (helper) true on the first call only |

## Left out

- Liveness: nothing guards a full write channel or a blocked ack channel, so progress does not hold in general; only safety is claimed.
- Network, TLS, the websocket library and the broker clients: each operation is a step or a parameter that succeeds or fails freely.
- The rate limiter go-rate, which is not part of this model: its decision on each message is arbitrary. The log line after a limited stretch is left out.
- Pub/Sub, Kinesis and ZMQ acknowledge synchronously in the shape of NATS; in the protocol they are synchronous producers.
- Kafka delivery reports: each produced message is reported at most once, as the client library promises; the protocol has no report for a record that was not produced.
- Dispatcher names: the protocol assumes names from the table in telemetry/producer.go. Configuration.NilEntries says when a wired list would hold a nil producer, on which the first record would panic.
- HTTP upgrades that end after the shutdown snapshot, because the listener gave up waiting for them: in the model every upgrade comes before it, while registering may come at any later time.
- The socket id of a too big record, which the code leaves empty: it never reaches a producer, and the protocol gives it its connection's.
- The byte layout inside the FlatBuffers library: a buffer is its vectors and tables, a table its vtable slots. A read out of bounds is a decode error, standing for the panic that Deserialize recovers from.
- Protobuf and JSON marshalling: abstract partial encodings of messages.
- How Sscanf and ParseFloat read numbers: abstract functions. Only finite floats are rendered.
- Exact float arithmetic of the cost metric: costs are real numbers.
- Sockets.Server.HandleAcks: for a batch of records during which no socket comes or goes; the interleaved case is ProtocolRouting.PipelineConservation.
- Sockets.Server.ServeBinaryWs: one connection at a time; interleavings are the business of the protocol modules.
- MqttBudget.AwaitAll: time is what each token's `delay` and `late` say it is; a completion at the very instant a wait ends may go either way, as Go picks among ready channels.
- MqttAlerts.ProcessVehicleAlerts: JSON encoding of an alert does not fail, its map holding strings, times and string lists only.
- Metrics, logging, tracing and airbrake, among them the per-VIN signal gauge and the choice between error and info logs for expected disconnects.
- Value-to-map transformers of datastore/simple and datastore/mqtt field values: one-branch switches.
- Connectors (file allowlist, NATS vin_allowed): their verdict is the parameter `admitted`.
- Kafka configuration conversion, Kinesis stream mapping, TLS configuration and certificate tooling.
- Generated protobuf code: data declarations only.
