# opa-pdp control plane in Dafny

policy-opa-pdp is a Policy Decision Point for the ONAP policy framework.
It wraps Open Policy Agent. It answers decision requests at
`/policy/pdpx/v1/decision`, and it takes part in the PDP↔PAP protocol
over Kafka:

- it registers with the Policy Administration Point (PAP) as PASSIVE;
- it accepts PDP_UPDATE and PDP_STATE_CHANGE messages addressed to it;
- it answers each one with a PDP_STATUS;
- it sends periodic heartbeats at the interval the last PDP_UPDATE gave.

This project models that control plane and proves properties of the model.

The model follows the Go packages one module per file, with two helper
modules:

- `Wrappers`: Option, Outcome, Result and the error kinds.
- `GoStd`: `int64` and its wrap-around, `strconv.Itoa`/`Atoi`,
  `strings.Contains`, ASCII lower-casing, and JSON quoting of plain text.

Package-level variables that the Go code updates in place became classes
whose methods change those fields:

- the PDP attributes;
- the lifecycle-state cell;
- the heartbeat ticker globals;
- the shutdown flag;
- the metrics counters;
- the producer singleton;
- the HTTP route table.

Pure code became functions. Loops became methods with invariants:
`PdpMessageHandler` is proved against a fold (`Run`) of the single-turn
function `Step`.

The external world enters through parameters:

- A status sender, `StatusSender`, records every status it is given and
  answers with a fixed reply; it stands for the `PdpStatusSender`
  interface.
- A received Kafka message is given as the three results of
  `json.Unmarshal` on its bytes (`WireFormat.Payload`).
- The request id and clock reading are given as a `Stamp`, because each
  send draws a fresh UUID and the current time.
- The Kafka library's replies (create, subscribe, read, unsubscribe,
  close, produce) are given as `ConsumerBehaviour`, `produceReply` and
  `create`.
- The outcomes of main's unmodelled steps (bundle build, OPA start) are
  given as `OpaPdp.Startup`.
- main's steps that have effects outside the model are recorded in an
  event `Journal`, so their order is part of the proved state.

## Model

| member | source | states |
|---|---|---|
| PdpStates.MarshalJSON | pkg/model/pdpstate.go:59-61 | the JSON text is the state's name in quotes |
| PdpStates.ConvertStringToEnumState | pkg/model/pdpstate.go:63-78 | succeeds exactly for the five state names and returns the state with that name; any other text gives -1 and an unknown-state error naming the text |
| PdpStates.ConvertOfString | pkg/model/pdpstate.go:42-78 | rendering a known state and converting back gives the state and no error (round trip) |
| PdpStates.StringInjective | pkg/model/pdpstate.go:42-57 | distinct state values, known or not, render to distinct texts |
| PdpStates.UnknownStateRendering | pkg/model/pdpstate.go:54-56 | an out-of-range value renders as the unknown prefix followed by its decimal number, and that text does not convert back |
| EnumText.RenderInjective | pkg/model/pdpstate.go:42-57 | the shared enum renderer is injective whenever the names are distinct and none starts with the unknown prefix |
| EnumText.RenderIsJsonPlain | pkg/model/mesages.go:61-63 | a rendered enum needs no JSON escaping, so json.Marshal of it is the text in quotes |
| PdpHealth.MarshalJSON | pkg/model/pdphealthstatus.go:56-58 | the JSON text is the health name in quotes |
| PdpHealth.StringInjective | pkg/model/pdphealthstatus.go:41-54 | distinct health values render to distinct texts |
| PdpHealth.MarshalJSONInjective | pkg/model/pdphealthstatus.go:41-58 | distinct health values marshal to distinct JSON |
| Messages.MessageTypeMarshalJSON | pkg/model/mesages.go:61-63 | the JSON text is the message-type name in quotes |
| Messages.MessageTypeStringInjective | pkg/model/mesages.go:44-59 | distinct message types render to distinct names |
| Messages.FailingFields | pkg/model/mesages.go:87-98 | lists exactly the required PdpUpdate fields holding their zero value, and is empty exactly when all are present |
| Messages.FailingFieldsFrom | pkg/model/mesages.go:87-98 | the failing required fields from a starting position on |
| Messages.NoFailingFieldIffPresent | pkg/model/mesages.go:87-98 | no required field at its zero value if and only if the update is complete |
| Messages.ValidatePdpUpdate | pkg/kafkacomm/handler/pdp_update_message_handler.go:41-48 | validation passes exactly when every required field is set; otherwise a validation error lists the failing fields |
| Messages.AnonymousUpdateIsRejected | pkg/model/mesages.go:93 | an update with an empty name fails validation, naming the Name field |
| Tosca.NewToscaConceptIdentifier | pkg/model/toscaconceptidentifier.go:33-38 | the identifier carries the given name and version |
| Tosca.NewToscaConceptIdentifierFromKey | pkg/model/toscaconceptidentifier.go:40-45 | the identifier carries the key's name and version |
| Tosca.ValidatePapRest | pkg/model/toscaconceptidentifier.go:47-52 | fails exactly when the name or the version is empty |
| Tosca.ConstructedIdentifiersValidate | pkg/model/toscaconceptidentifier.go:33-52 | identifiers built from non-empty parts validate; one built from a key validates exactly when the key's parts are non-empty |
| Config.GetEnv | cfg/config.go:74-80 | the variable's value when it is set, else the default |
| Config.GetEnvAsInt | cfg/config.go:83-92 | the parsed value when the variable is set and parses, else the default |
| Config.GetEnvAsIntOfDecimal | cfg/config.go:83-92 | a variable holding the decimal text of a number yields that number |
| Config.ParseLevel | cfg/config.go:95-103 | Ok exactly when the ASCII-lower-cased text is one of the eight level names (warning included), with that name's level; otherwise an error naming the text |
| Config.ParseLevelIgnoresAsciiCase | cfg/config.go:95-103 | a text and its lower-cased form parse to the same level, and fail alike |
| Config.GetLogLevel | cfg/config.go:95-103 | the parsed level, or Debug when the text is not a level |
| Config.InitDefaults | cfg/config.go:52-71 | each setting takes its documented default when its variable is unset and the variable's value when set |
| KafkaConfig.SaslKeys | pkg/kafkacomm/pdp_topic_consumer.go:71-77 | the four SASL keys with SCRAM-SHA-512, SASL_PLAINTEXT and the Kafka credentials |
| KafkaConfig.WithSasl | pkg/kafkacomm/pdp_topic_consumer.go:71-77 | the SASL keys are added exactly when UseSASLForKAFKA is "true" |
| KafkaConfig.SaslKeysIffSwitch | pkg/kafkacomm/pdp_topic_producer.go:64-69 | the SASL mechanism and protocol are present if and only if the switch is "true"; other keys are kept |
| TopicConsumer.ConsumerConfig | pkg/kafkacomm/pdp_topic_consumer.go:66-77 | broker, group and earliest offset always; the SASL keys exactly under the switch |
| TopicConsumer.NewKafkaConsumer | pkg/kafkacomm/pdp_topic_consumer.go:57-93 | a creation or subscription error gives nil and that error; otherwise a fresh consumer subscribed to exactly the configured topic |
| TopicConsumer.ReadOutcome | pkg/kafkacomm/pdp_topic_consumer.go:96-103 | a read error gives no value and the error; a read gives its value and no error |
| TopicConsumer.ReadKafkaMessages | pkg/kafkacomm/pdp_topic_consumer.go:96-103 | takes the first pending delivery and returns its outcome |
| TopicConsumer.KafkaConsumer.Close | pkg/kafkacomm/pdp_topic_consumer.go:42-44 | closes the library consumer once, its error dropped |
| TopicConsumer.KafkaConsumer.Unsubscribe | pkg/kafkacomm/pdp_topic_consumer.go:47-54 | unsubscribes once and returns the library's error |
| TopicProducer.ProducerConfig | pkg/kafkacomm/pdp_topic_producer.go:60-69 | the broker always; the SASL keys exactly under the switch |
| TopicProducer.ProducerSingleton.GetKafkaProducer | pkg/kafkacomm/pdp_topic_producer.go:52-83 | never returns an error; the first call fixes the instance, nil when creation failed, and every later call returns the same one |
| TopicProducer.KafkaProducer.Produce | pkg/kafkacomm/pdp_topic_producer.go:87-100 | a message without a topic is sent on the producer's topic with PartitionAny, the event channel is always dropped, and the library's error is returned |
| TopicProducer.Close | pkg/kafkacomm/pdp_topic_producer.go:103-111 | closes the library producer once, leaving what it produced as it was, or does nothing when either pointer is nil |
| PdpAttributes.GenerateUniquePdpName | pkg/pdpattributes/pdpattributes.go:41-43 | "opa-" followed by the canonical UUID, 40 characters |
| PdpAttributes.GeneratedNamesDistinct | pkg/pdpattributes/pdpattributes.go:41-43 | distinct UUIDs give distinct PDP names |
| PdpAttributes.Attributes.SetPdpSubgroup | pkg/pdpattributes/pdpattributes.go:46-48 | the stored subgroup is the given one, nothing else changes |
| PdpAttributes.Attributes.SetPdpHeartbeatInterval | pkg/pdpattributes/pdpattributes.go:56-58 | the stored interval is the given one, nothing else changes |
| PdpStateCell.StateCell.SetState | pkg/pdpstate/pdpstate_test.go:28-43 | a state name is stored and reads back as that name; any other text returns the conversion error and leaves the state as it was |
| PapRegistration.TimestampText | pkg/kafkacomm/publisher/pdp-pap-registration.go:47 | the decimal timestamp parses back to the clock reading |
| PapRegistration.Stamped | pkg/kafkacomm/publisher/pdp-pap-registration.go:46-47 | only the request id and timestamp change, to the stamp's |
| PapRegistration.StatusSender.SendPdpStatus | pkg/kafkacomm/publisher/pdp-pap-registration.go:34-36 | the status is appended to what was sent and the sender's reply returned |
| PapRegistration.RealSendPdpStatus | pkg/kafkacomm/publisher/pdp-pap-registration.go:41-69 | a marshalling error is returned and nothing produced; with no producer instance the Produce call panics on nil; otherwise the stamped status is produced and nil returned, a produce error not reported |
| PapRegistration.ProducedStatusIsStamped | pkg/kafkacomm/publisher/pdp-pap-registration.go:46-61 | what reaches Produce is the given status with this send's request id and a timestamp that parses back to the clock reading |
| PapRegistration.RegistrationStatus | pkg/kafkacomm/publisher/pdp-pap-registration.go:74-84 | a PASSIVE, healthy PDP_STATUS of this PDP in the default group with no response, no subgroup and the registration description |
| PapRegistration.SendPdpPapRegistration | pkg/kafkacomm/publisher/pdp-pap-registration.go:72-95 | sends exactly the registration status and returns the sender's error |
| StatusPublisher.UpdateResponse | pkg/kafkacomm/publisher/pdp-status-publisher.go:39-74 | a current status of this PDP with a SUCCESS response to the update's request id |
| StatusPublisher.StateChangeResponse | pkg/kafkacomm/publisher/pdp-status-publisher.go:77-110 | a current status with a SUCCESS response to the state change's request id, the same text whatever the state |
| StatusPublisher.ResponsesDifferByStamp | pkg/kafkacomm/publisher/pdp-status-publisher.go:60-61 | two answers built with different stamps are different messages |
| StatusPublisher.SendPdpUpdateResponse | pkg/kafkacomm/publisher/pdp-status-publisher.go:39-74 | sends one update response built from the current state and attributes; returns the sender's error |
| StatusPublisher.SendStateChangeResponse | pkg/kafkacomm/publisher/pdp-status-publisher.go:77-110 | sends one state-change response built from the current state and attributes; returns the sender's error |
| Heartbeat.Started | pkg/kafkacomm/publisher/pdp-heartbeat.go:45-79 | a non-positive interval drops the handle without stopping it; an unchanged interval with a running ticker changes nothing; otherwise the old ticker is stopped and a new one runs at the interval |
| Heartbeat.Stopped | pkg/kafkacomm/publisher/pdp-heartbeat.go:107-118 | with a ticker and a stop channel, both are cleared and the ticker stops; otherwise nothing changes |
| Heartbeat.StartedKeepsTidy | pkg/kafkacomm/publisher/pdp-heartbeat.go:45-79 | starting keeps the handle among the running tickers and the ids fresh; a new ticker was not running before |
| Heartbeat.StoppedKeepsTidy | pkg/kafkacomm/publisher/pdp-heartbeat.go:107-118 | stopping keeps the ticker bookkeeping tidy |
| Heartbeat.PositiveStartLeavesOneTicker | pkg/kafkacomm/publisher/pdp-heartbeat.go:54-67 | from one running ticker, a positive interval leaves exactly one ticker running, at that interval |
| Heartbeat.NonPositiveStartOrphansTicker | pkg/kafkacomm/publisher/pdp-heartbeat.go:46-50 | a non-positive interval leaves the old ticker running with no handle, and StopTicker can no longer stop it |
| Heartbeat.HeartbeatStatus | pkg/kafkacomm/publisher/pdp-heartbeat.go:83-94 | a status of this PDP with the current state and subgroup, no response and the heartbeat description, stamped |
| Heartbeat.SendPdpHeartBeat | pkg/kafkacomm/publisher/pdp-heartbeat.go:82-104 | sends one heartbeat status and returns the sender's error |
| Heartbeat.Scheduler.StartHeartbeatIntervalTimer | pkg/kafkacomm/publisher/pdp-heartbeat.go:45-79 | the timer globals become Started of their old value |
| Heartbeat.Scheduler.StopTicker | pkg/kafkacomm/publisher/pdp-heartbeat.go:107-118 | the timer globals become Stopped of their old value |
| UpdateHandler.HandleUpdate | pkg/kafkacomm/handler/pdp_update_message_handler.go:32-64 | an undecodable or invalid update changes nothing and returns the error; a valid one stores subgroup and interval and sends one answer; the heartbeat restarts only when that send succeeds |
| UpdateHandler.PdpUpdateMessageHandler | pkg/kafkacomm/handler/pdp_update_message_handler.go:32-64 | attributes, sent statuses, heartbeat and error are those HandleUpdate gives |
| UpdateHandler.HandleUpdateKeepsSound | pkg/kafkacomm/handler/pdp_update_message_handler.go:53-62 | after an update the state is still one of the five and the heartbeat bookkeeping stays tidy |
| UpdateHandler.UnnamedUpdateNeverApplied | pkg/kafkacomm/handler/pdp_update_message_handler.go:41-48 | an update without a PDP name is rejected and changes nothing |
| StateChangeHandler.HandleStateChange | pkg/kafkacomm/handler/pdp_state_change_handler_test.go:47-115 | an undecodable message or unknown state name changes nothing; a state name is stored and one answer reporting it is sent |
| StateChangeHandler.PdpStateChangeMessageHandler | pkg/kafkacomm/handler/pdp_state_change_handler_test.go:47-115 | cell, sent statuses and error are those HandleStateChange gives |
| StateChangeHandler.HandleStateChangeKeepsSound | pkg/kafkacomm/handler/pdp_state_change_handler_test.go:47-115 | after a state change the state is still one of the five |
| MessageHandler.ShutdownState.SetShutdownFlag | pkg/kafkacomm/handler/pdp_message_handler.go:42-46 | the flag becomes set |
| MessageHandler.CheckIfMessageIsForOpaPdp | pkg/kafkacomm/handler/pdp_message_handler.go:63-95 | a named message is for this PDP exactly when the name is its own; a broadcast exactly when it has a group, this PDP has a subgroup, the group is the configured one, and its subgroup is empty or this PDP's |
| MessageHandler.BroadcastUpdateNeverApplied | pkg/kafkacomm/handler/pdp_message_handler.go:118-138 | a PDP_UPDATE whose envelope has an empty name, decoded coherently, leaves the agent unchanged even when the router accepts it as a broadcast, because its update fails validation |
| MessageHandler.Step | pkg/kafkacomm/handler/pdp_message_handler.go:111-158 | a targeted PDP_UPDATE or PDP_STATE_CHANGE reaches its handler, and only such a message does; a targeted PDP_STATUS, and only it, is discarded; a message not for this PDP goes no further; read errors, nil values and undecodable envelopes, and only they, end the turn as such; every turn but a handled one changes nothing |
| MessageHandler.StepKeepsSound | pkg/kafkacomm/handler/pdp_message_handler.go:111-158 | one turn keeps the state known and the heartbeat tidy |
| MessageHandler.RunKeepsSound | pkg/kafkacomm/handler/pdp_message_handler.go:99-161 | any sequence of turns keeps the state known and the heartbeat tidy |
| MessageHandler.StepOutbox | pkg/kafkacomm/handler/pdp_message_handler.go:111-158 | one turn sends at most one status, a SUCCESS answer of this PDP with the turn's request id |
| MessageHandler.RunOnlyAnswers | pkg/kafkacomm/handler/pdp_message_handler.go:99-161 | the loop only appends to what was sent, at most one status per delivery, and each is a SUCCESS answer stamped by the run |
| MessageHandler.PdpMessageHandler | pkg/kafkacomm/handler/pdp_message_handler.go:99-161 | takes every delivery, and the attributes, state, heartbeat and sent statuses are Run of the old ones; returns nil |
| Metrics.Bumped | pkg/metrics/counters.go:34-38 | the chosen counter increments with int64 wrap-around; the others are unchanged |
| Metrics.BumpedAllCounts | pkg/metrics/counters.go:25-117 | below the int64 limit a counter ends at its start plus the number of its events |
| Metrics.Occurrences | pkg/metrics/counters.go:25-117 | a counting helper of Metrics.BumpedAllCounts, which holds the proof: the number of events naming one counter, at most the number of events |
| Metrics.Counters.IncrementIndeterminantDecisionsCount | pkg/metrics/counters.go:34-38 | that counter is bumped, the others stay |
| Metrics.Counters.IncrementPermitDecisionsCount | pkg/metrics/counters.go:48-52 | that counter is bumped, the others stay |
| Metrics.Counters.IncrementDenyDecisionsCount | pkg/metrics/counters.go:62-66 | that counter is bumped, the others stay |
| Metrics.Counters.IncrementTotalErrorCount | pkg/metrics/counters.go:76-80 | that counter is bumped, the others stay |
| Metrics.Counters.IncrementQuerySuccessCount | pkg/metrics/counters.go:90-94 | that counter is bumped, the others stay |
| Metrics.Counters.IncrementQueryFailureCount | pkg/metrics/counters.go:105-109 | that counter is bumped, the others stay |
| Metrics.Counters.IndeterminantDecisionsCountRef | pkg/metrics/counters.go:41-45 | the current indeterminate count |
| Metrics.Counters.PermitDecisionsCountRef | pkg/metrics/counters.go:55-59 | the current permit count |
| Metrics.Counters.DenyDecisionsCountRef | pkg/metrics/counters.go:69-73 | the current deny count |
| Metrics.Counters.TotalErrorCountRef | pkg/metrics/counters.go:83-87 | the current error count |
| Metrics.Counters.TotalQuerySuccessCountRef | pkg/metrics/counters.go:97-102 | the current query-success count |
| Metrics.Counters.TotalQueryFailureCountRef | pkg/metrics/counters.go:112-117 | the current query-failure count |
| Decision.GetErrorResponseResponseCode | pkg/decision/decision-provider.go:43-55 | 400, 401 and 500 map to their codes and every other status to INTERNALSERVERERROR |
| Decision.CreateSuccessDecisionResponse | pkg/decision/decision-provider.go:76-82 | carries the given message, decision and policy name |
| Decision.CreateDecisionExceptionResponse | pkg/decision/decision-provider.go:85-93 | carries the code for the status, the message, the details and the policy name |
| Decision.Decide | pkg/decision/decision-provider.go:128-212 | the checks in order (state, method, body, policy, OPA instance, OPA error, result) with their statuses and counters; error bodies exactly for the error counter, with the status's code; 200 exactly for decisions |
| Decision.MethodNotAllowedCode | pkg/decision/decision-provider.go:140-146 | a 405 reply carries INTERNALSERVERERROR |
| Decision.RequestIdHeader | pkg/decision/decision-provider.go:104-118 | the canonical UUID for a valid id that parses, no header for one that does not, "Unknown" otherwise |
| Decision.ResponseHeaders | pkg/decision/decision-provider.go:99-122 | the request-id header as above and the three version headers |
| Decision.OpaDecision | pkg/decision/decision-provider.go:96-213 | the headers, Decide's status and body, and exactly Decide's counter bumped |
| Decision.DecisionsLeaveQueryCounters | pkg/decision/decision-provider.go:128-212 | a decision never bumps a query counter |
| Api.ValidateCredentials | api/register-handlers.go:71-75 | true exactly for the configured user and password |
| Api.BasicAuth | api/register-handlers.go:58-68 | passes on exactly when credentials are present and valid; otherwise a 401 with the Basic realm challenge |
| Api.ReadinessProbe | api/register-handlers.go:78-81 | 200 with body "Ready" |
| Api.Serve | api/register-handlers.go:33-68 | an open route always reaches its handler; a guarded one exactly when basic auth passes; a rejection is a 401 |
| Api.Mux.RegisterHandlers | api/register-handlers.go:33-55 | registers exactly the five patterns, decision, health check and statistics behind basic auth, bundles and readiness open |
| Api.GuardedEndpoints | api/register-handlers.go:33-55 | through the registered routes, the guarded endpoints need valid credentials and the open ones never do |
| OpaPdp.RegisterPdp | cmd/opa-pdp/opa-pdp.go:125-132 | true exactly when the registration send succeeds; the registration status is sent once |
| OpaPdp.StartKafkaConsAndProd | cmd/opa-pdp/opa-pdp.go:178-190 | a consumer error gives nil, nil and that error with the producer untouched; otherwise the consumer, the producer singleton and no error; a singleton already initialised keeps its instance |
| OpaPdp.ShutdownTrace | cmd/opa-pdp/opa-pdp.go:192-226 | the wait for a signal, the cancel and the signal stop always come first |
| OpaPdp.ShutdownOrder | cmd/opa-pdp/opa-pdp.go:206-224 | without a consumer nothing is torn down; with one, unsubscribe, close, flag and ticker stop follow in that order |
| OpaPdp.HandleShutdown | cmd/opa-pdp/opa-pdp.go:192-226 | cancels, records the shutdown steps, and with a consumer unsubscribes and closes it once, sets the flag and stops the ticker, leaving its pending deliveries and subscriptions as they were; without one leaves flag and ticker as they were |
| OpaPdp.OpaFailureEndsEarly | cmd/opa-pdp/opa-pdp.go:85-88 | a failed OPA start ends main before Kafka, registration and message handling, with only server shutdown and cancel after it |
| OpaPdp.KafkaFailureStillRegisters | cmd/opa-pdp/opa-pdp.go:91-99 | a Kafka failure does not stop main: registration follows it |
| OpaPdp.RegistrationFailureEndsMain | cmd/opa-pdp/opa-pdp.go:95-111 | a failed registration ends main before message handling; every run past the OPA start ends with producer close, server shutdown and cancel |
| OpaPdp.Open | cmd/opa-pdp/opa-pdp.go:66-88 | handlers registered, then bundle, server start, the wait and the OPA start recorded in order |
| OpaPdp.Start | cmd/opa-pdp/opa-pdp.go:91-99 | the Kafka start and the registration, in order, with their results |
| OpaPdp.Serve | cmd/opa-pdp/opa-pdp.go:91-111 | the Kafka start, registration, message handling and shutdown, then the producer close, as MainTrace orders them |
| OpaPdp.RunMain | cmd/opa-pdp/opa-pdp.go:63-111 | the recorded events of main are exactly MainTrace of the step outcomes and the registration reply |

## Left out

- Goroutines, `sync.Mutex`, `sync.Once` locking and the races between the message loop, the heartbeat goroutine and the HTTP handlers are not modelled. Each operation is one atomic step. `go publisher.StartHeartbeatIntervalTimer` and `handleMessages` run synchronously or are only recorded.
- The heartbeat goroutine's loop (a tick sends a heartbeat, a stop-channel value stops the ticker) is modelled as the set of running tickers. `SendPdpHeartBeat` is the body of one tick. The goroutine re-reads the global ticker, so a tick after a non-positive interval would dereference nil; that race is not modelled. The goroutine left blocked when the interval changes is not modelled beyond its ticker.
- Heartbeat.Scheduler.StartHeartbeatIntervalTimer: the sender parameter is left out, because it is used only by the goroutine.
- MessageHandler.PdpMessageHandler: the topic parameter is left out, because it is used only for logging. The loop requires a non-nil consumer and one stamp per delivery. Its end stands for the context being cancelled once the delivered messages are taken. A blocking `ReadMessage(-1)` with nothing to deliver is not modelled. main can pass a nil consumer to the loop, where `ReadKafkaMessages` would panic; that path is not modelled.
- TopicConsumer.Consumer.ReadMessage: requires a pending delivery, because the library call blocks otherwise.
- JSON encoding and decoding are abstracted. A received message is the three unmarshal results. json.Marshal of a status is an Outcome parameter of `PapRegistration.RealSendPdpStatus`, and whether the producer singleton holds an instance a bool parameter. The encoded HTTP bodies are the response values.
- PapRegistration.RealSendPdpStatus: its call `producer.Produce(jsonMessage)` passes one argument to the two-parameter `KafkaProducer.Produce`. The model takes the produce result as a parameter and, as the code does, does not report it. The nil-instance panic is a result value (`NilProducerPanic`), not a crash of the process; the error branch after GetKafkaProducer is not modelled, because that call never returns an error.
- Config.ParseLevel: lower-cases ASCII letters only, where logrus uses the Unicode-aware `strings.ToLower`; a level name written with non-ASCII letters that fold to ASCII ("İNFO" with U+0130) parses in Go but is rejected here, so Config.GetLogLevel gives DebugLevel for it.
- The lifecycle-state package (`pkg/pdpstate/pdpstate.go`) and the state-change handler (`pdp_state_change_handler.go`) are not part of this model's source files. `PdpStateCell` and `StateChangeHandler` are reconstructed from their tests: an invalid state name returns the cell's conversion error before anything is sent.
- The producer-error branch of `startKafkaConsAndProd` is not written, because `GetKafkaProducer` never returns an error: the closure's `err` shadows the returned one.
- The OPA SDK (`opasdk`), the bundle server, the health-check and statistics handlers, the logging package and `utils.IsValidUUID` are not part of this model. Their results enter as parameters: `DecisionCall.isValidUuid`, `parsedUuid`, `opaInstance`, `answer` and `OpaPdp.Startup`.
- UUID generation and clocks are parameters (`Stamp`, the UUID given to `Attributes`).
- `http.Error` in basic auth also sets Content-Type, nosniff and a trailing newline. The model keeps only the status, the challenge header and the body "Unauthorized".
- OS signals are one event, `AwaitSignal`. The `time.Sleep` calls are events carrying their length in seconds. The HTTP server runs outside the model; its start and shutdown are events.
- `initializeOPA` stopping the OPA instance it created is not modelled.
- OpaPdp.RunMain: when the consumer fails and registration succeeds, MainTrace ends the run with an orderly shutdown; the source's message-loop goroutine instead calls `ReadKafkaMessages` on the nil consumer and the process crashes. That crash is not modelled.
