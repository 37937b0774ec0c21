# URIL in Dafny

URIL is an asynchronous request/response system: a client library with a fixed table of pending
operations, a service that remembers which connection sent which request id, and a modem adapter that
turns each request into one vendor RIL call, or a chain of three, and emits one response. This project
models the client library, the message tracker, the dispatch to processors and the Android RIL adapter
with its parsers, composes them into one machine of small steps, and proves what holds over every run.

Each component that updates fields in place is a class whose methods are proved equal to functions on
values; the composed machine and its theorems use the same functions.

| file | content |
|---|---|
| `Basics.dfy` | fixed-width arithmetic, first index, counting of ids |
| `Protocol.dfy` | messages and payload records |
| `PendingOps.dfy` | the client library: `UrilClient` and its specification |
| `Tracker.dfy` | the message tracker as a replay of its event history: `MessageTracker` |
| `Composite.dfy` | first-match dispatch: `CompositeRequestProcessor` |
| `Decimal.dfy`, `Addresses.dfy`, `DataCall.dfy`, `Scan.dfy`, `CallList.dfy`, `CallConversion.dfy`, `Signal.dfy`, `Registration.dfy`, `RegistrationReadings.dfy`, `DataCallReadings.dfy` | the adapter's parsers and conversions |
| `Adapter.dfy`, `AdapterReplies.dfy` | requests, completions, tokens: `RilRequestContext`, `AndroidRilAdapter` |
| `RegistrationChain.dfy` | the voice, data and operator chain |
| `RequestStarts.dfy` | what each request starts, and the registration query from dispatch to answer |
| `UrilSystem.dfy` | client threads, channels, tracker and adapter as one step machine |
| `SystemInvariant.dfy`, `SystemCarried.dfy`, `SystemSafety.dfy` | what every step keeps |
| `SystemGuarantees.dfy`, `SystemAnswers.dfy`, `SystemIndications.dfy`, `SystemCalls.dfy` | the theorems over reachable states and runs |
| `SystemLifecycle.dfy` | what init and release mean for everything after them |
| `SystemRaces.dfy`, `SystemReinit.dfy` | an init while calls are under way |
| `SyncCall.dfy` | the two-thread condition-variable protocol of the synchronous call |
| `SyncSystem.dfy` | the machine together with any number of synchronous calls |

## Reading the machine

The machine has one client process with any number of threads. The parts of a call are separate steps:
the checks and the new id, the acquisition of a slot (under the command mutex), three unprotected writes
to the slot, and the send. Sending, tracking, dispatching, completing, receiving, indicating, initialising
and releasing are steps too, and messages may overtake each other. A label holds what the outside decides:
send results, vendor results, connection results. A `Stray` step is a response nobody called for (a
repeated completion, or another client's), an `Intrude` step another client's request, which may take over an
entry on its id or stop the service; theorems that need the absence of both say `NoStray`.

The invariant counts, for each id, where it occurs. Every issued id is in exactly one place, and a slot
belongs to a request on its way exactly when the request of the slot's id is on its way.

Assumptions of the theorems: fewer than 2^32 ids (and handles) have been issued; a vendor completion is
handled as one step; `uril_client_init` happens while no call is under way, except in `SystemRaces` and
`SystemReinit`. A failed assertion stops the service for good: the build does not define `NDEBUG`. The adapter
enters the machine as a function `vendor`; `Serving(vendor)` is all that the theorems ask of it, and
`AdapterServes` proves it of the adapter on every platform.

## What the proofs found

- The lookup of a response ignores `busy`: alone, the table fires a callback again for a repeated
  response (`RepeatedResponseFiresAgain`). At-most-once comes from fresh ids and the tracker's erase.
- Not every request is answered: it can be exactly if it has the fate `Starts` (`AnsweredIffAnswerable`). Ids
  outside thirteen, 0x0507 and 0x0600 among those outside, and unlisted kinds of network selection are refused:
  such a request stays in the tracker's map, and its slot busy until the next init (`RejectedIsStuck`).
- Any client can stop the service for all: with a radio mode other than offline and online, unavailable
  included, or an unlisted network preference, bearer, authentication or PDP type (`DispatchSplits`,
  `FatesAreMet`). Nothing in flight is answered then (`StoppedAnswersNoMore`).
- `uril_client_release` does not compare its handle argument with the current handle.
- An init while calls are under way: two threads can come to share a slot exactly if some thread holds one
  then (`SharingIff`). A request from before can be called back after it exactly if some thread is filling a
  slot, or has only its id and a callback comes from its call or from the init (`ReinitSafetyIff`). The machine
  itself initialises only between calls, which is enough for both.
- Two clients with the same id: the later sender gets the first response, and the second response is
  lost (`SharedIdMisroutes`).
- A complete answer is not enough for a synchronous call to return 0: the time limit can strike with the
  whole response in the buffer (`TimeoutCanHideTheResponse`). Exactly when it returns 0 is
  `ReturnsZeroExactlyWhen`. On a timeout it leaves with its mutex locked. A callback that has not got it by then
  never finishes (`FinishesAfterTimeoutIff`), and the client receives nothing more on that connection
  (`LateCallbackStopsReceiving`).
- The address loop parses one address beyond its bound. That address becomes the gateway exactly when
  the gateway text is given but holds no address (`GatewayTextDecides`).
- A list of k call records of version 9 is read as k+1 records of version 6 (`LongListIsMisread`); the
  lengths that are read right are exactly those of `VersionIsRecognised`.
- `rilStrToInt` reads an accepted numeral as its value exactly if that is a 32-bit int (`ReadsTrulyIffInt32`).
  Others are accepted and changed, 2147483648 into -2147483648 on every platform (`WideNumeralIsTruncated`).
- An operator number of more than six characters does not select the scanned network again
  (`ScannedNumberSelects`).

## Model

| member | source | states |
|---|---|---|
| SystemGuarantees.AtMostOnce | client/src/uril_client.c:97-157 | in every interleaving, with stray and repeated responses, a request's callback fires at most once, with its own client data and its own callback or the default one |
| SystemGuarantees.CallbacksAnswerTheirRequest | client/src/uril_client.c:120-157 | without strays a fired callback is told the SIM and message id of the request whose client data it gets |
| SystemGuarantees.ResponsesUseTheirConnection | service/src/MessageTracker.cpp:92-107 | every response is in the channel of the connection its request was sent on |
| SystemGuarantees.Conservation | client/src/uril_client.c:242-303 | each busy slot with a set id belongs to a request in exactly one of nine places, each request in a place has exactly one busy slot, and no id is in two places |
| SystemGuarantees.SlotOwnership | client/src/uril_client.c:84-107 | no slot has two threads, no set id two slots, and the lookup of a request on its way finds its own slot |
| SystemGuarantees.Capacity | client/src/uril_client.c:282-290 | an accepted call is refused exactly when 16 slots acquired since the last init are unanswered |
| SystemGuarantees.ResponseFreesItsSlot | client/src/uril_client.c:134-156 | a response to a request made since the last init frees exactly one busy slot and calls back exactly if that slot has a callback, which is told the current handle and the response's own ids and payload; any other response changes nothing |
| SystemGuarantees.RejectedIsStuck | service/src/MessageTracker.cpp:70-81 | a refused request is not answerable; it stays tracked, unanswered and in possession of its slot |
| SystemAnswers.AnsweredIffAnswerable | service/src/processor/CompositeRequestProcessor.cpp:50-64 | a request before dispatch can get an answer exactly if its message id is one of thirteen, a network selection is automatic or manual, and every enumeration value that the operation translates is one it lists |
| SystemAnswers.DispatchSplits | service/src/processor/CompositeRequestProcessor.cpp:50-64 | in every reachable state dispatch refuses, stops the service or starts to serve, each exactly for the requests of that fate |
| SystemAnswers.UnanswerableIsNeverAnswered | service/src/modem_adapters/ril/AndroidRilAdapter.cpp:1484-1509 | over whole runs a request of another fate is never started, responded to or called back |
| SystemAnswers.FatesAreMet | service/src/modem_adapters/ril/AndroidRilAdapter.cpp:1577-1595 | from the start, nine steps bring any such request to where it is refused and stuck, or has stopped the service |
| SystemAnswers.StoppedAnswersNoMore | service/src/modem_adapters/ril/AndroidRilAdapter.cpp:1583-1590 | a stopped service answers no request any more, whatever was in flight |
| SystemAnswers.StartedIsLive | service/src/processor/CompositeRequestProcessor.cpp:53-59 | what dispatch starts is exactly what the adapter then works on |
| SystemAnswers.CompletionTakesEffect | service/src/modem_adapters/ril/AndroidRilAdapter.cpp:1310-1319 | a completion stops the service, moves its context on, or brings its response to the tracked connection |
| SystemAnswers.RadioAnswerSays | service/src/modem_adapters/ril/AndroidRilAdapter.cpp:1536-1571 | the radio mode answered for each listed radio state; any other stops the service |
| SystemAnswers.IndicationIsBroadcast | service/src/MessageTracker.cpp:87-91 | an indication goes to every connection, once for each time it is in the list |
| SystemAnswers.IntruderDivertsResponse | service/src/MessageTracker.cpp:75 | another client's request on the same id diverts the response |
| SystemCarried.DispatchFate | service/src/processor/v1/NetworkMessageProcessor.cpp:67-111 | a message is refused, fails an assertion or starts, exactly by its message id and the values in it |
| SystemGuarantees.StaleHandleIsRefused | client/src/uril_client.c:221-268 | handles strictly increase, a call with any other than the last one changes nothing, and one with the last one is taken up while the context is initialized |
| SystemLifecycle.ReleaseShuts | client/src/uril_client.c:380-392 | after a release and any steps but an init, every call of every thread is refused, a further release does nothing, and no indication is called back if there was a context to release |
| SystemLifecycle.ReleaseLeavesTable | client/src/uril_client.c:383-387 | the release itself leaves the table, the counters and everything on its way alone |
| SystemLifecycle.InitOpens | client/src/uril_client.c:204-231 | a successful init gives an empty table, the given callbacks and the next handle, with which a call is taken up; the id counter goes on |
| SystemLifecycle.FailedInitShuts | client/src/uril_client.c:204-223 | after a failed init every call is refused until the next one |
| SystemLifecycle.OpenContextServes | client/src/uril_client.c:109-118 | until the next init or release every indication received calls the init's callback, and calls with the init's handle are taken up |
| SystemGuarantees.LateResponsesNeverFire | client/src/uril_client.c:204-231 | after an init, no continuation fires a callback for an id issued before it |
| SystemGuarantees.ReinitSafety | client/src/uril_client.c:204-231 | over whole runs: every request issued before an init has by then fired as often as it ever will |
| SystemRaces.SharingIff | client/src/uril_client.c:204-205 | for an init at any time, in every reachable state: two threads can come to share a slot afterwards exactly if some thread holds one |
| SystemRaces.RacingKeeps | client/src/uril_client.c:204-231 | an init while no thread is filling a slot keeps the whole invariant |
| SystemRaces.RacingStateIsReached | client/src/uril_client.c:278-290 | three steps from the start reach a state with a thread that holds a slot |
| SystemRaces.IdStateIsReached | client/src/uril_client.c:267-276 | two steps reach one with a thread that has only its id |
| SystemReinit.ReinitSafetyIff | client/src/uril_client.c:204-231 | for an init at any time, in every reachable state: no continuation fires a callback for a request from before it, exactly if each thread is outside a call, or has only to send, or has only an id with no callback to come |
| SystemReinit.HarmlessIsSafe | client/src/uril_client.c:204-231 | the one half, for every continuation |
| SystemReinit.HarmfulFires | client/src/uril_client.c:278-298 | the other half, by a continuation in which the old request is sent, answered and called back |
| SystemGuarantees.OneOrNowhere | client/src/uril_client.c:242-303 | one occurrence in all means exactly one place, none means nowhere |
| SystemSafety.StepKeeps | client/src/uril_client.c:242-303 | every step of client, tracker or adapter keeps the whole invariant |
| SystemSafety.ReachedKeeps | client/src/uril_client.c:84-157 | every reachable state has the invariant |
| SystemInvariant.LookupFindsOwner | client/src/uril_client.c:97-107 | a response in the channel finds a slot exactly when its request was made since the last init, and then the busy slot of that request, held by no thread |
| SystemInvariant.FillerIsAlone | client/src/uril_client.c:278-298 | while a thread writes its slot no other thread has that slot, and no request on its way owns it |
| SystemInvariant.EnteredIsNew | client/src/uril_client.c:267-298 | the id written last into a slot is in no other slot and nowhere on its way |
| SystemInvariant.ReceiveFrees | client/src/uril_client.c:134-143 | a response lowers the number of busy slots by one, or by none if its request is older than the last init |
| SystemCarried.StartedForServes | service/src/processor/CompositeRequestProcessor.cpp:50-64 | dispatch runs at most one operation, and what it starts serves the request's own id, SIM and message id |
| SystemCarried.TrackPipes | service/src/MessageTracker.cpp:70-81 | tracking precedes dispatch: a tracked id is in exactly one of dispatch, refusal, token and radio query |
| SystemCarried.VendorDoneCarries | service/src/modem_adapters/ril/AndroidRilAdapter.cpp:1223-1321 | a completion keeps tokens, tracker and channel in agreement with what the client asked |
| SystemIndications.IndicationsDoNotInterfere | service/src/MessageTracker.cpp:87-91 | a run and the same run without its indications end with the same client, tracker, adapter and fired callbacks |
| SystemIndications.ErasedRunHasNoIndications | client/src/uril_client.c:109-118 | the run without indications has none |
| SystemCalls.UninterruptedCall | client/src/uril_client.c:242-303 | the steps of a call with nothing in between do and send what the whole call is specified to |
| SyncCall.NoLostWakeUp | client/src/uril_client.c:305-322 | the waiter never sleeps with the condition set and the signal sent |
| SyncCall.SuccessHasTheResponse | client/src/uril_client.c:345-372 | a return of 0 means the callback was called and the buffer holds its payload as far as both reach, with nothing else changed |
| SyncCall.ReturnsZeroExactlyWhen | client/src/uril_client.c:345-372 | the call returns 0 exactly when the request was sent, the lock taken, the limit did not strike while it slept, and after a spurious wake-up it found the condition set |
| SyncCall.OutcomeByReason | client/src/uril_client.c:354-370 | what each reason for the end of the waiting gives |
| SyncCall.AnsweredCallReturns | client/src/uril_client.c:345-372 | once the callback has finished, three steps of its own take the waiter out |
| SyncCall.TimeoutCanHideTheResponse | client/src/uril_client.c:357-363 | for every buffer and payload a run exists that times out with the whole response in the buffer |
| SyncCall.FinishesAfterTimeoutIff | client/src/uril_client.c:357-363 | after a timeout, which keeps the mutex, the callback can finish exactly if it was past the mutex |
| SyncSystem.LateResponseIsStuck | client/src/uril_client.c:305-318 | a response that arrives after its call timed out gets its receiving thread stuck |
| SyncSystem.LateCallbackStopsReceiving | client/src/service_connector/unix_socket_service_connector.c:56-101 | from then on nothing that comes on that connection is received, in any continuation |
| SyncSystem.SyncSuccessIsOwnResponse | client/src/uril_client.c:305-372 | in every reachable state of the machine with any number of synchronous calls: a call that returned 0 had exactly one callback, for its own request, and holds the bytes of that response |
| SyncSystem.JointStepKeeps | client/src/uril_client.c:305-322 | every step of machine, waiter or callback keeps: a call's callback was called exactly if it fired, with the bytes of that response |
| SyncSystem.AsyncPartReturns | client/src/uril_client.c:345-353 | the waiter goes on to its lock exactly when the request was sent |
| SyncSystem.FireStartsCallback | client/src/uril_client.c:305-314 | the response to its request starts the callback, with the bytes of that response |
| PendingOps.FullTable | client/src/uril_client.c:84-95 | no free slot exactly when all count as busy |
| PendingOps.LookupFindsSlot | client/src/uril_client.c:97-107 | lookup returns a slot exactly when no earlier one has its id |
| PendingOps.RepeatedResponseFiresAgain | client/src/uril_client.c:97-107 | the table alone fires again for a repeated response |
| PendingOps.UrilClient.AcquireFreeOpSlot | client/src/uril_client.c:84-95 | the first free slot, which becomes busy and nothing else changes |
| PendingOps.UrilClient.LookupPendingOp | client/src/uril_client.c:97-107 | the first slot with the id, busy or not |
| PendingOps.UrilClient.HandleReceiveRsp | client/src/uril_client.c:120-157 | the matched slot is freed, its callback called, 0 exactly if one was called; a failed lock changes nothing, a failed unlock loses the callback |
| PendingOps.UrilClient.HandleReceiveInd | client/src/uril_client.c:109-118 | the table is untouched, the result always -1 |
| PendingOps.UrilClient.Init | client/src/uril_client.c:185-240 | at most 20 attempts; success iff one connects and the mutex locks; the context is reset, the id counter is not, and only success makes a handle |
| PendingOps.UrilClient.ExecuteCommandAsync | client/src/uril_client.c:242-303 | a whole call, with each mutex failure, against its specification |
| PendingOps.FailuresLeave | client/src/uril_client.c:250-303 | what each failure of a call leaves: nothing, a burnt id, or a slot that is busy for good; a request is sent only when everything succeeds |
| PendingOps.UrilClient.Release | client/src/uril_client.c:380-392 | the context is closed and its callbacks go; table, counters and handle stay; a second release fails; the handle argument plays no part |
| Tracker.PendingIsLastEvent | service/src/MessageTracker.cpp:70-113 | an entry names a connection exactly when the last event on the id is a request from it |
| Tracker.RequestsAreAccountedFor | service/src/MessageTracker.cpp:70-113 | requests = deliveries + overwritten entries + one if still pending, with any connections and colliding ids |
| Tracker.ResponsesReachTheirSender | service/src/MessageTracker.cpp:94-104 | where no two requests in flight share an id, each response reaches the connection of the request it answers |
| Tracker.SharedIdMisroutes | service/src/MessageTracker.cpp:75 | with a shared id the later sender gets the first response and the second is lost |
| Tracker.MessageTracker.ProcessResponse | service/src/MessageTracker.cpp:83-114 | one copy of an indication for each connection and the conjunction of the results; a response goes to the tracked connection and its entry is erased |
| Tracker.EachGetsOneCopy | service/src/MessageTracker.cpp:88-90 | every connection gets exactly one copy |
| Tracker.FirstResponseIsHandedOver | service/src/MessageTracker.cpp:92-107 | of responses handed in while an id is tracked its connection gets the first one on the id, and nobody gets another |
| Tracker.MessageTracker.TrackAndDispatchRequest | service/src/MessageTracker.cpp:70-81 | the whole wire after responses that arrive before dispatch returns; the first one on the request's id reaches the sender |
| Composite.DispatchIsOrderIndependent | service/src/processor/CompositeRequestProcessor.cpp:50-64 | for children with disjoint ids, result and effect are the same in every order |
| Composite.OneOperationIffDisjoint | service/src/processor/CompositeRequestProcessor.cpp:50-64 | at most one operation per request, whatever it returns, exactly for disjoint children |
| Composite.V1ProcessorsAreDisjoint | service/src/UrilConfigBasedFactory.cpp:87-95 | the three version 1 processors are disjoint |
| Composite.SoleClaimDecides | service/src/processor/CompositeRequestProcessor.cpp:53-59 | the only child that claims a message decides the result, even when it returns false |
| Composite.UnclaimedHasNoEffect | service/src/processor/CompositeRequestProcessor.cpp:60-63 | a message that nobody claims is refused without effect |
| Composite.CompositeRequestProcessor.AddChildRequestProcessor | service/src/processor/CompositeRequestProcessor.cpp:66-69 | the child is added at the end |
| Composite.CompositeRequestProcessor.ProcessRequest | service/src/processor/CompositeRequestProcessor.cpp:50-64 | the loop with its break is the first-match dispatch, result and effects |
| Adapter.RoutesByRequestId | service/src/processor/v1/NetworkMessageProcessor.cpp:67-111 | each processor calls the operation of the message id |
| Adapter.StartedServes | service/src/modem_adapters/ril/AndroidRilAdapter.cpp:1419-1507 | whatever an operation starts is known to the completion switch and answers under the request's ids |
| RequestStarts.NetworkRequestStarts | service/src/modem_adapters/ril/AndroidRilAdapter.cpp:1439-1517 | which vendor request each network message id starts; manual selection sends country and network code joined |
| RequestStarts.OtherRequestStarts | service/src/modem_adapters/ril/AndroidRilAdapter.cpp:1528-1683 | which vendor request each radio and data message id starts |
| Adapter.HandledIsFinishOrChain | service/src/modem_adapters/ril/AndroidRilAdapter.cpp:1244-1309 | the default branch of the switch is unreachable for served requests |
| Adapter.CompletionServes | service/src/modem_adapters/ril/AndroidRilAdapter.cpp:1223-1321 | a completion answers a served request under its own ids, or strictly lowers its rank |
| Adapter.AdapterServes | service/src/modem_adapters/ril/AndroidRilAdapter.cpp:1223-1321 | the adapter meets, on every platform, what the composed machine asks of it |
| Adapter.RilRequestContext.HandleCompletion | service/src/modem_adapters/ril/AndroidRilAdapter.cpp:1244-1309 | the switch does to the context what the specification says, payloads and failed assertions included, and leaves an unknown request alone |
| Adapter.RilRequestContext.HandleSetupDataCall | service/src/modem_adapters/ril/AndroidRilAdapter.cpp:1105-1133 | a record of any version is converted; its size and its values are asserted |
| Adapter.RilRequestContext.HandleGetSignalStrength | service/src/modem_adapters/ril/AndroidRilAdapter.cpp:1030-1083 | the first block that the vendor reports, after the assertion on the size |
| Adapter.RilRequestContext.HandleGetNetworkPref | service/src/modem_adapters/ril/AndroidRilAdapter.cpp:785-804 | the preference, or a failed assertion |
| AdapterReplies.SingleReply | service/src/modem_adapters/ril/AndroidRilAdapter.cpp:1236-1319 | a failure is answered with its error and no payload, a success with the payload of the request |
| AdapterReplies.SignalReply | service/src/modem_adapters/ril/AndroidRilAdapter.cpp:1041-1083 | aborts exactly if the record is shorter than version 5; else the first block reported, in the order GSM, LTE, TD-SCDMA, with the vendor's own values |
| AdapterReplies.ScanReply | service/src/modem_adapters/ril/AndroidRilAdapter.cpp:942-994 | a scan is answered with its listed networks |
| AdapterReplies.CallListReply | service/src/modem_adapters/ril/AndroidRilAdapter.cpp:1150-1203 | a call list is answered with its converted records, or aborts |
| AdapterReplies.SetUpIs | service/src/modem_adapters/ril/AndroidRilAdapter.cpp:1119-1128 | a record from version 6 to version 11, over zeros; any other size fails an assertion |
| AdapterReplies.SetUpReply | service/src/modem_adapters/ril/AndroidRilAdapter.cpp:1105-1133 | a data call that was set up is answered with its record |
| AdapterReplies.PreferenceReply | service/src/modem_adapters/ril/AndroidRilAdapter.cpp:784-804 | a preference is answered as the table has it, or aborts |
| AdapterReplies.ErrorRoundTrip | service/src/modem_adapters/ril/AndroidRilAdapter.cpp:648-765 | every listed error can be told from its report, all others are a generic failure |
| Adapter.RilRequestContext.HandleVoiceRegState | service/src/modem_adapters/ril/AndroidRilAdapter.cpp:806-850 | the voice stage, in place |
| Adapter.RilRequestContext.HandleDataRegState | service/src/modem_adapters/ril/AndroidRilAdapter.cpp:852-899 | the data stage, in place |
| Adapter.RilRequestContext.HandleOperator | service/src/modem_adapters/ril/AndroidRilAdapter.cpp:901-940 | the operator stage, in place |
| Adapter.RilRequestContext.HandleAvailableNetworks | service/src/modem_adapters/ril/AndroidRilAdapter.cpp:942-994 | the scan handler stores the first 32 usable entries |
| Adapter.RilRequestContext.HandleDataCallList | service/src/modem_adapters/ril/AndroidRilAdapter.cpp:1150-1203 | the call list handler, with its assertions |
| Adapter.AndroidRilAdapter.MakeTokenForMessage | service/src/modem_adapters/ril/AndroidRilAdapter.cpp:1419-1430 | a fresh context that joins the live ones |
| Adapter.AndroidRilAdapter.StartOperation | service/src/modem_adapters/ril/AndroidRilAdapter.cpp:1439-1683 | an operation makes one token, or none when it refuses, fails an assertion, or asks for the radio state |
| Adapter.AndroidRilAdapter.HandleRilResponse | service/src/modem_adapters/ril/AndroidRilAdapter.cpp:1223-1321 | keeps: tokens made = live contexts + responses, every live context is served, every response carries its own request's ids |
| RegistrationChain.AnswerComes | service/src/modem_adapters/ril/AndroidRilAdapter.cpp:1310-1319 | any served request is answered once within as many completions as its rank, or an assertion fails |
| RegistrationChain.ChainRuns | service/src/modem_adapters/ril/AndroidRilAdapter.cpp:806-940 | the run of the chain is what the deciding stage gives |
| RegistrationChain.ChainResult | service/src/modem_adapters/ril/AndroidRilAdapter.cpp:806-940 | one to three completions and one answer: success iff all three stages succeeded, else the error of the first that failed; no answer iff an assertion fails on one of the first two answers |
| RegistrationChain.ChainKeepsData | service/src/modem_adapters/ril/AndroidRilAdapter.cpp:806-940 | what earlier stages wrote survives, up to the operator number of one cell; voice and data blocks have what their own stages reported |
| RequestStarts.RegistrationQueryAnswers | service/src/modem_adapters/ril/AndroidRilAdapter.cpp:1458-1466 | from dispatch on: a registration query asks for voice, data and operator in this order; all three are asked exactly if the first two can be read; the answer is made of theirs |
| Registration.OperatorWritesOnePlmn | service/src/modem_adapters/ril/AndroidRilAdapter.cpp:915-936 | the operator stage changes the numbers of at most one cell and nothing else |
| Registration.OperatorNumberIsKept | service/src/modem_adapters/ril/AndroidRilAdapter.cpp:915-936 | the first cell that follows gets country and network code that join to the number; the others stay |
| Registration.TechRoundTrip | service/src/modem_adapters/ril/AndroidRilAdapter.cpp:138-182 | the technology can be told from its reported number; the others fail the assertion |
| RegistrationReadings.PrintedStateIsUnderstood | service/src/modem_adapters/ril/AndroidRilAdapter.cpp:477-555 | a printed state is accepted iff it and the technology are listed, and what it then means |
| RegistrationReadings.PrintedVoiceCell | service/src/modem_adapters/ril/AndroidRilAdapter.cpp:557-603 | printed cell numbers come out of the block of their technology; no other block changes |
| RegistrationReadings.PrintedDataCell | service/src/modem_adapters/ril/AndroidRilAdapter.cpp:605-628 | the same for the LTE block of a data answer |
| RegistrationReadings.UnreadableIsAllOnes | service/src/modem_adapters/ril/AndroidRilAdapter.cpp:564-569 | a number that cannot be read is reported as all ones |
| Decimal.DecimalRoundTrip | service/src/modem_adapters/ril/AndroidRilAdapter.cpp:54-66 | every 32-bit integer printed with %d is read back, negatives through modular negation |
| Decimal.AcceptsExactlyNumerals | service/src/modem_adapters/ril/AndroidRilAdapter.cpp:54-66 | accepted iff optional white space, optional sign, digits in range, end |
| Decimal.NumeralIsAccepted | service/src/modem_adapters/ril/AndroidRilAdapter.cpp:54-66 | the value of an accepted numeral, truncated to int |
| Decimal.ReadsTrulyIffInt32 | service/src/modem_adapters/ril/AndroidRilAdapter.cpp:54-66 | an accepted numeral is read as its value iff that value is a 32-bit int |
| Decimal.WideNumeralIsTruncated | service/src/modem_adapters/ril/AndroidRilAdapter.cpp:60-64 | printed numbers from 2147483648 up to the limit of unsigned long are accepted and changed, on every platform |
| Addresses.ParseAddr | service/src/modem_adapters/ril/AndroidRilAdapter.cpp:301-335 | what is parsed is consumed, so the loop ends on every string; a parsed address is not empty |
| Addresses.ParsesPrintedList | service/src/modem_adapters/ril/AndroidRilAdapter.cpp:414-429 | the loop's reading of a printed list is the list, with prefix 128 for an address with a colon and else 32 |
| DataCall.PrintedListIsStored | service/src/modem_adapters/ril/AndroidRilAdapter.cpp:414-422 | of a printed list of any length the first four entries are stored |
| DataCall.PdpAddrsAreStored | service/src/modem_adapters/ril/AndroidRilAdapter.cpp:414-429 | the steps after the loop leave the stored addresses alone |
| DataCall.GatewayIsStored | service/src/modem_adapters/ril/AndroidRilAdapter.cpp:417-424 | the gateway is the parsed gateway, except exactly when the look-ahead address stays in its place |
| DataCall.GatewayTextDecides | service/src/modem_adapters/ril/AndroidRilAdapter.cpp:417-424 | that is: more than four addresses, and a gateway text of nothing but spaces, or with a slash behind them |
| DataCall.DataCallInfo.RilIpAddrToUrilDataAddr | service/src/modem_adapters/ril/AndroidRilAdapter.cpp:301-335 | the parser that moves along the text writes one address, or none, and returns the rest |
| DataCall.DataCallInfo.StorePdpAddrs | service/src/modem_adapters/ril/AndroidRilAdapter.cpp:416-422 | the loop with its look-ahead slot |
| DataCall.DataCallInfo.FromRil | service/src/modem_adapters/ril/AndroidRilAdapter.cpp:372-434 | the whole record, into zeroed memory, or a failed assertion |
| DataCallReadings.NameServersAreStored | service/src/modem_adapters/ril/AndroidRilAdapter.cpp:427-429 | of printed name servers the first two are stored, each in its own field; missing ones are cleared |
| DataCallReadings.PcscfIsStored | service/src/modem_adapters/ril/AndroidRilAdapter.cpp:431 | the first printed P-CSCF address is stored, or the field is clear |
| DataCallReadings.PrintedGatewayIsStored | service/src/modem_adapters/ril/AndroidRilAdapter.cpp:424-425 | a printed gateway is stored whatever the list before it was |
| DataCallReadings.PrintedPdpAddrsAreStored | service/src/modem_adapters/ril/AndroidRilAdapter.cpp:414-422 | the first four of a printed list, and how many count |
| DataCallReadings.ScalarsAreKept | service/src/modem_adapters/ril/AndroidRilAdapter.cpp:375-433 | each number is kept as far as its field reaches; the type of each word; the name up to 12 characters |
| DataCallReadings.ConvertedIff | service/src/modem_adapters/ril/AndroidRilAdapter.cpp:372-434 | a record is converted exactly if its link state is listed and none of its addresses is too long |
| Scan.ScannedNumberSelects | service/src/modem_adapters/ril/AndroidRilAdapter.cpp:1497-1501 | the mcc and mnc split of a scanned number joins to it again, for manual selection, iff it has at most six characters |
| Scan.UsableKeepsOrder | service/src/modem_adapters/ril/AndroidRilAdapter.cpp:948-991 | every usable quadruple is listed in order |
| Scan.UsableComesFrom | service/src/modem_adapters/ril/AndroidRilAdapter.cpp:948-991 | nothing else is listed |
| Scan.ListedNetworkSays | service/src/modem_adapters/ril/AndroidRilAdapter.cpp:960-991 | each listed network is a quadruple of four strings with a known word, and has its names, its country and network code and its status |
| Scan.ReadableNetworksAreListed | service/src/modem_adapters/ril/AndroidRilAdapter.cpp:960-991 | every such quadruple is listed behind those before it, up to 32 |
| Scan.FillEntries | service/src/modem_adapters/ril/AndroidRilAdapter.cpp:960-991 | the in-place loop stores exactly the first 32 usable quadruples |
| Scan.RilOperatorNameToUrilOperatorName | service/src/modem_adapters/ril/AndroidRilAdapter.cpp:630-646 | succeeds iff all three strings are there, and writes only then |
| CallList.VersionIsRecognised | service/src/modem_adapters/ril/AndroidRilAdapter.cpp:1163-1175 | the version is recognised iff no smaller record size divides the length |
| CallList.ShortListsAreRecognised | service/src/modem_adapters/ril/AndroidRilAdapter.cpp:1163-1175 | version and count are right for every list of fewer than k records |
| CallList.LongListIsMisread | service/src/modem_adapters/ril/AndroidRilAdapter.cpp:1163-1175 | k records of version 9 are read as k+1 records of version 6 |
| CallList.RecognisedListIsDecoded | service/src/modem_adapters/ril/AndroidRilAdapter.cpp:1177-1199 | a recognised list is decoded to its first six records, in order, padded with zeros |
| CallList.InferVersion | service/src/modem_adapters/ril/AndroidRilAdapter.cpp:1163-1175 | the smallest record size that divides the length, none iff no size does; for n records of a version it is that version iff n is telling |
| CallList.HeldListsAreDecoded | inc/uril_data_v01.h:49 | on both platforms no list that a response can hold is misread |
| CallConversion.HeldListsAreConverted | service/src/modem_adapters/ril/AndroidRilAdapter.cpp:1150-1203 | such a list is converted record by record, in order; the handler's assertions fail exactly if they fail on one of its records |
| CallConversion.ConvertRecords | service/src/modem_adapters/ril/AndroidRilAdapter.cpp:1177-1199 | the loop over copies of records, and its stop at the first failed assertion |
| CallConversion.GetDataCallList | service/src/modem_adapters/ril/AndroidRilAdapter.cpp:1150-1203 | the handler from the bytes of the list to call infos |

## Left out

- Sockets, receive and send loops, thread creation, dynamic loading, logging, configuration: channels are sequences, threads are interleaved steps.
- Failures of mutex operations inside the machine (the class of the client and the synchronous call have theirs), and the timeout arithmetic: a timeout is a step that may happen whenever the waiter sleeps.
- Object lifetimes: parameters on a stack that is gone after a timeout and whose address the next call reuses, the destruction of a locked mutex, connections deleted while an entry names them, the references captured for the radio mode query. Records never die here, and no two synchronous calls have the same address.
- The copy of a slot's callback and the start of its call: one step, since the call uses copies made under the mutex.
- The service's work on other clients' requests, beyond what one of them does to the entry on its id, and the responses it leads to.
- Wrap-around of the id counter in the whole machine; the class wraps its counters as the code does.
- Byte layout of the payloads, several of which are larger than the 1024 bytes: payloads are typed records, and what the bytes of a vendor's record say is a function of the platform.
- `StubAdapter`, the tests, and headers without service code.
- Adapter.AndroidRilAdapter.StartOperation: does not model the data sent along with a vendor request, except the text of a manual selection.
- SyncCall.FinishesAfterTimeoutIff: does not model that the locked mutex is destroyed afterwards, since records never die.
- PendingOps.UrilClient.ExecuteCommandAsync: does not model the length of the request copy; requests are typed records, as if of at most 1024 bytes.
- Registration.RilNwRegToUrilNwReg: without `deny_reason`, which the code overwrites on success of its parse and leaves unset on failure, and without `tech_domain`, which is always none.
- Adapter.RilRequestContext.HandleVoiceRegState: without `deny_reason` and `tech_domain`, as above.
- Adapter.RilRequestContext.HandleDataRegState: without `deny_reason` and `tech_domain`, as above.
- Scan.RilOperatorNameToUrilOperatorName: for a numeric of fewer than three characters the code reads past its end; here the network part is then empty.
- Scan.ScannedNumberSelects: for numbers of at least three characters; the code copies shorter ones past their end.
- SystemGuarantees.RejectedIsStuck: says nothing of a tracked id after the service has restarted, which the machine does not model.
