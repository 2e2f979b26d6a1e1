# A verified model of the Codex app-server SDK and its command-line clients

This project models, in Dafny, the stateful parts of the Rust workspace and proves what they promise:

- **the JSON-RPC client engine**: any number of callers sharing an id counter, a map of pending requests, a
  handshake byte, a FIFO outbound queue and one inbound loop, as a transition system with one step per await point or
  atomic access (`Rpc`, `Inner`, `Engine`, `Correlation`, `Requests`, `WireOrder`, `Readiness`, `Attempts`, `Effects`,
  `Failure`), what its public operations come to as runs (`Operations`), with the transport's reader and writer
  (`Transport`, `InboundPath`), and the same operations as methods of an object (`ClientObject`), tied to the
  transition system by lemmas;
- **the turn event pipeline**: the pump that filters one turn out of the shared broadcast stream (`Threads`,
  `TurnPump`, `TurnRun`), the stateful renderer (`Render`), and its two sinks, the chat transcript (`Transcript`,
  `PromptRun`) and the plain text output (`HumanOutput`);
- **the chat's line editor and keys**: bytes and a byte cursor against a zipper of characters, suggestions and history
  (`Utf8`, `InputLine`, `Keyboard`), and **the startup lock** of the websocket server as a state machine (`Targets`,
  `Startup`);
- **data transformations**: the two text croppers (`Words`, `Clipping`), config flattening (`Dotted`, `Flatten`,
  `KeyOrder`), the choice of the latest thread (`LatestThread`) and schema closing (`Schema`).

Each module has the file of its name. Without a Rust counterpart are `Options`, `Sequences` and the JSON tree of
`Json`.

Messages follow sections 4 and 5 of the JSON-RPC 2.0 Specification without the `jsonrpc` member, as the source sends
and reads them; UTF-8 follows section 3 of RFC 3629.

What the model assumes of its surroundings: atomics are sequentially consistent, the mpsc queues are FIFO, a oneshot
channel delivers at most once, callers are not cancelled inside a request, and the broadcast receiver does not lag.
A websocket server that has become ready stays reachable, and a probe that begins then reaches it; the connect URLs of
one listen target reach one server. Probes, clocks, child exits, server replies, parameter decoding and handler
results are arbitrary inputs.

Where the code and its documentation differ, the model follows the code:

- The client's comments call the handshake state monotonic. The stores in `ensure_ready_with`
  (crates/sdk/src/client/mod.rs:410-425) are unconditional, so a run that mixes `ensure_ready` with an explicit
  `initialize` and `initialized` can lose READY: `Readiness.MixedHandshakeLosesReady` gives such a run and
  `Readiness.ReadyStaysIff` says exactly when a ready connection stays ready.
- A completed turn is matched by the turn's own id and extra members; ids beside the turn object are not looked at:
  `TurnPump.UnlabelledTurnEndsEveryThread`, `TurnPump.TurnDoneIgnoredIff`.

Config keys that contain dots can collide (`Flatten.DotsCanCollide`). The maps of the source iterate in key order, so
the program always gives one result: `KeyOrder.LastInKeyOrderWins` says which, and `Flatten.AllOrdersAgreeIff` when it
does not hang on the order.

The source has one `ChatApp`; its transcript fields are `Transcript.ChatApp` and its editing fields
`Keyboard.ChatEditor`. Methods that split part of a function off (`ClientObject.ClientInner.Break`,
`ClientObject.ClientInner.ProcessNext`, `ClientObject.Ask`, `ClientObject.AwaitAnswer`, `PromptRun.Loop`,
`PromptRun.Meet`, `PromptRun.Close`, `PromptRun.CloseOn`, `Clipping.ClippedWords`, `HumanOutput.PrintEvent`,
`HumanOutput.Prefixed`, `HumanOutput.Output.Put`, `Keyboard.ChatEditor.Submitted`, `Keyboard.HandleEvent`) only do so
to keep each proof small.

## Model

| member | source | states |
|---|---|---|
| Rpc.FramesRoundTrip | crates/sdk/src/error.rs:91-147 | Every frame the client sends is classified back as what was meant, with its id and payload |
| Rpc.EncodeInjective | crates/sdk/src/client/mod.rs:482-592 | Frames with the same JSON text are the same frame |
| Rpc.ClassifyIff | crates/sdk/src/error.rs:91-147 | Exactly which JSON a request, a notification, a result and an error are read from, in terms of the members they have, missing parameters being null |
| Correlation.StepKeepsGood | crates/sdk/src/client/mod.rs:535-661 | Every step of any caller, the loop or the transport keeps the ledger of ids, channels and pending entries |
| Correlation.ReachableGood | crates/sdk/src/client/mod.rs:535-661 | The ledger holds in every reachable state |
| Requests.ValueComesFromFirstResponse | crates/sdk/src/client/mod.rs:572-574 | A value given to the caller holding id i is the payload of the first response with id Integer(i) after its registration |
| Requests.ErrorComesFromFirstResponseOrFailure | crates/sdk/src/client/mod.rs:572-575 | An RPC error is that first response, or the -32098 failure injected when the loop failed and no response had come |
| Requests.FirstResponseIsDelivered | crates/sdk/src/client/mod.rs:617-623 | Once its first response is processed, a listening caller finds exactly it on its channel |
| Requests.OneOutcomePerRequest | crates/sdk/src/client/mod.rs:555-584 | Every id ever allocated has one outcome or one holder, never both, and ids are never reused |
| Requests.StepKeepsOutcomes | crates/sdk/src/client/mod.rs:572-584 | No step changes an outcome already given |
| Requests.OutcomesAreFinal | crates/sdk/src/client/mod.rs:572-584 | Outcomes are final over every run |
| Requests.PendingOnlyWhileInside | crates/sdk/src/client/mod.rs:564-583 | An id is pending only while its own caller is inside the request, with that caller's channel |
| Requests.NoLeak | crates/sdk/src/client/mod.rs:564-583 | With no caller inside a request the pending map is empty |
| Requests.DroppedSenderUnreachable | crates/sdk/src/client/mod.rs:575-576 | No sender is dropped unsent while its caller waits; the `Ok(Err(_))` arm is never taken |
| Requests.FailureAnswersEverythingPending | crates/sdk/src/client/mod.rs:649-661 | When the loop stopped on an error, whoever is still unanswered registered later; others got -32098 unless answered before |
| Requests.StoppedLoopAnswersNothing | crates/sdk/src/client/mod.rs:594-615 | After the loop has stopped a request without an answer can only time out or fail to be sent |
| Failure.ReasonReachesThePending | crates/sdk/src/client/mod.rs:594-661 | Whoever is pending when the loop takes a bad item gets error -32098 with the reason, whatever callers and loop do until the loop has stopped |
| WireOrder.HandshakeComesFirst | crates/sdk/src/client/mod.rs:355-437 | Every gated frame in every run, mixed or not, comes after an `initialized` frame, itself after the accepted first response to an `initialize` request sent before |
| WireOrder.QueueStartsWithHandshake | crates/sdk/src/client/mod.rs:482-592 | The same order on the outbound queue that the writer empties |
| WireOrder.StepKeepsWire | crates/sdk/src/client/mod.rs:355-592 | Each step keeps the order of the wire |
| Readiness.HandshakeHappensOnce | crates/sdk/src/client/mod.rs:396-437 | With only `ensure_ready` doing the handshake: one success, `initialize` frames at most one plus failures, one `initialized`, every Ok return at READY; who fails and who succeeds is in the four rows that follow |
| Attempts.FailuresAreAttempts | crates/sdk/src/client/mod.rs:410-437 | In such runs each failure of `ensure_ready` ends an `initialize` attempt of its own, registered last before it and made before any success; each success ends the attempt with its id |
| Attempts.NoFailureAfterReady | crates/sdk/src/client/mod.rs:396-407 | Once such a run is ready no call of `ensure_ready` fails any more, whatever callers do |
| Attempts.WaitersLeaveWithOk | crates/sdk/src/client/mod.rs:386-407 | In every continuation of a calm ready state a caller that has entered or waited for the lock leaves only with `Ok` as what its step writes down |
| Attempts.WaiterCanLeave | crates/sdk/src/client/mod.rs:386-407 | After such a run it can leave, within three steps of itself and the holder of the lock |
| Operations.EnsurePerformsHandshake | crates/sdk/src/client/mod.rs:396-437 | `ensure_ready` on a new connection with an answer that decodes: `initialize` and `initialized` have gone out in order, the connection is ready and the call succeeds |
| Operations.EnsureFailsHandshake | crates/sdk/src/client/mod.rs:413-427 | With an error, or a result that does not decode, it fails and the connection is new |
| Operations.EnsureFinishesHandshake | crates/sdk/src/client/mod.rs:429-437 | On an initialized connection it sends only the notification, and succeeds |
| Operations.InitializeIsAnswered | crates/sdk/src/client/mod.rs:355-367 | `initialize` goes out with its parameters; the connection is initialized exactly if the answer is a result that decodes |
| Operations.InitializedGoesOut | crates/sdk/src/client/mod.rs:372-384 | `initialized` on an initialized connection sends its notification and makes it ready |
| Operations.InitializedIsRefused | crates/sdk/src/client/mod.rs:372-377 | `initialized` before initialization is refused with nothing changed |
| Operations.RequestIsAnswered | crates/sdk/src/client/mod.rs:555-575 | A request goes out with its own name, parameters and next id, and its caller gets exactly the response to that id |
| Operations.RequestIsRefused | crates/sdk/src/client/mod.rs:542-553 | A request other than `initialize` before READY, and `initialize` once initialized, are refused with nothing changed |
| Operations.InitializeIsRefused | crates/sdk/src/client/mod.rs:549-553 | So is an `initialize` once initialized |
| Operations.UnsendableRequestFails | crates/sdk/src/client/mod.rs:564-570 | With the queue closed a request fails at once, leaves no entry and sends nothing |
| Operations.NotificationGoesOut | crates/sdk/src/client/mod.rs:482-499 | A notification of a ready client, or `initialized`, goes out with its own name and parameters |
| Operations.NotificationIsRefused | crates/sdk/src/client/mod.rs:488-492 | Any other notification before READY is refused with nothing changed |
| Operations.ReplyGoesOut | crates/sdk/src/client/mod.rs:462-479 | A reply to a server request goes out as it is |
| Operations.HandlersAreSet | crates/sdk/src/client/server_requests.rs:46-59 | Setting or clearing a handler is about its own method alone |
| Operations.WriterTakesNext | crates/sdk/src/transport/mod.rs:37-57 | The writer takes the next frame exactly when the queue is open and has one |
| Operations.QuietEnds | crates/sdk/src/client/mod.rs:594-615 | At the end of the inbound stream the loop stops and nobody is told anything |
| Operations.QueueIsBounded | crates/sdk/src/transport/mod.rs:10-28 | In every run the outbound queue holds at most 256 frames and the writer is never ahead of it |
| Readiness.StepKeepsOnce | crates/sdk/src/client/mod.rs:396-437 | Every step keeps the handshake phase and its counts in agreement |
| Readiness.ReadyStaysIff | crates/sdk/src/client/mod.rs:410-425 | READY stays in every continuation if and only if no caller stands between its last look and the unconditional stores |
| Readiness.ReadyIsFinalAfterEnsureOnly | crates/sdk/src/client/mod.rs:396-437 | READY is absorbing after runs where only `ensure_ready` did the handshake |
| Readiness.DangerTakesReadyAway | crates/sdk/src/client/mod.rs:410-425 | From such a point some run takes READY away |
| Readiness.MixedHandshakeLosesReady | crates/sdk/src/client/mod.rs:355-425 | A reachable ready connection and a run that makes it unready |
| Effects.ProcessedIsGoodPrefix | crates/sdk/src/client/mod.rs:594-615 | In every reachable state the frames processed are exactly the items before the first bad one, and nothing is taken after it |
| Effects.OneEffectPerFrame | crates/sdk/src/client/mod.rs:617-647 | Over every run each processed frame has exactly one effect of the kind its message calls for; the frames the loop put on the outbound queue are the replies among them, what it took out of the pending map and delivered are the resolved responses, and the broadcast is what they publish and one TransportClosed if the loop broke, each in order |
| Effects.StepKeepsEffects | crates/sdk/src/client/server_requests.rs:73-123 | Every step keeps frames, effects and broadcast in agreement, also while a handler runs; a step with an effect changes the shared state by exactly that effect, and a step of the loop without one by nothing unless the loop is failing |
| Transport.ReadJsonFrames | crates/sdk/src/transport/mod.rs:75-100 | The reader forwards parsed payloads and parse errors in order, skips frames without payload, forwards a closing error and stops; with room, exactly one item for each payload before the first closing frame, in order, then the closing error if the transport is gone and nothing if the stream ends |
| Transport.WriteJsonFrames | crates/sdk/src/transport/mod.rs:37-57 | The writer sends queued values in order up to the first failure, which it reports once |
| InboundPath.ForwardedGoodPrefix | crates/sdk/src/transport/mod.rs:75-100 | What the reader forwards before its first bad item are the parsed payloads before the first bad frame |
| InboundPath.ProcessedArePayloads | crates/sdk/src/client/mod.rs:594-647 | Reader and loop together: the values processed are a prefix of those payloads while the loop runs, and exactly all of them once it has broken, whatever frames come behind the bad one, or has received everything |
| InboundPath.LoopBreaksIff | crates/sdk/src/transport/mod.rs:75-100 | Once the loop has received everything the reader sent, or broken: it has broken exactly if, before any end of the stream, a payload did not parse or was no message, or the transport was gone |
| InboundPath.WriterErrorCutsShort | crates/sdk/src/transport/mod.rs:37-57 | A writer error arriving at any point only cuts that prefix short: once the loop has broken, exactly the payloads up to that point or to the first bad frame were processed |
| ClientObject.ClientInner.constructor | crates/sdk/src/client/mod.rs:311-327 | A new client is in the initial shared state |
| ClientObject.ClientInner.SendMessage | crates/sdk/src/client/mod.rs:587-592 | Waits for room, appends the frame, and fails exactly when the receiver is gone |
| ClientObject.ClientInner.FailAllPending | crates/sdk/src/client/mod.rs:649-661 | Every pending sender gets the transport failure and the map is emptied, in whatever order it is walked |
| ClientObject.ClientInner.ServeRequest | crates/sdk/src/client/server_requests.rs:73-123 | Answers a decodable request that has a handler with one frame, read back as the handler's result or as error -32001 with its message; publishes any other; announces closure when the queue is closed |
| ClientObject.RequestIsServed | crates/sdk/src/client/server_requests.rs:73-123 | The same of the whole shared state, with the seven methods of the table spelled out |
| ClientObject.ClientInner.ProcessIncomingValue | crates/sdk/src/client/mod.rs:617-647 | One frame's whole effect on the shared state, and an error exactly for an unclassifiable one |
| ClientObject.ClientInner.RunInboundLoop | crates/sdk/src/client/mod.rs:594-615 | The loop by itself, with handlers as functions and no caller in between: the readable prefix is processed; a bad item fails everything pending and broadcasts once, the end of the stream does neither |
| ClientObject.RequestValueInternal | crates/sdk/src/client/mod.rs:535-585 | Refused exactly by the gate, with nothing changed; otherwise the outcome is a send failure on a closed queue, else the first response to its own id before the loop breaks, else the failure the loop broke with, else the timeout; its frame is sent and no entry of its own stays pending |
| ClientObject.Ask | crates/sdk/src/client/mod.rs:555-570 | The request is registered under a new id with its own channel and goes out, or leaves no entry |
| ClientObject.AwaitAnswer | crates/sdk/src/client/mod.rs:571-584 | The wait ends with the answer determined by what was delivered, and the entry is gone |
| ClientObject.AnswerIs | crates/sdk/src/client/mod.rs:571-584 | The answer, item by item: the first response before the first unusable item, else error -32098 with its reason, else the timeout |
| ClientObject.WhileWaiting | crates/sdk/src/client/mod.rs:617-623 | Whatever is processed, a waiting request's channel holds exactly the first response to its id, and until there is one its entry stays |
| ClientObject.Initialize | crates/sdk/src/client/mod.rs:355-367 | Succeeds exactly on an uninitialized open connection whose answer decodes, and only then the connection is initialized |
| ClientObject.SucceedsIff | crates/sdk/src/client/mod.rs:518-533 | A typed request succeeds exactly with a result that decodes |
| ClientObject.Initialized | crates/sdk/src/client/mod.rs:372-384 | Succeeds exactly on an initialized open connection, sends one notification and makes it ready |
| ClientObject.EnsureReadyWith | crates/sdk/src/client/mod.rs:396-437 | For a caller alone: exactly when it succeeds, the state it leaves in every case, nothing at all when ready, and the notification last, after the `initialize` request if one was needed |
| ClientObject.AskingIsSteps | crates/sdk/src/client/mod.rs:535-570 | A caller's four steps up to the wait lead the transition system to the state of the object's operations |
| ClientObject.WaitingIsSteps | crates/sdk/src/client/mod.rs:571-584 | So do its steps out of the wait, by an answer or by the timer |
| ClientObject.FailOneThenRest | crates/sdk/src/client/mod.rs:649-661 | Failing one entry first does not change what failing all gives |
| ClientObject.ReceiveIsProcess | crates/sdk/src/client/mod.rs:617-647 | The loop's step on a response or notification is the object's method |
| ClientObject.ServingIsProcess | crates/sdk/src/client/server_requests.rs:73-123 | The loop's steps from a server request to its effect add up to the object's method |
| ClientObject.FailingIsFailAll | crates/sdk/src/client/mod.rs:649-661 | Failing entry by entry in any order ends where the object's method does |
| ClientObject.BreakingIsSteps | crates/sdk/src/client/mod.rs:594-661 | The loop's steps from a bad item, through the entries in any order, to its stop add up to the end of the object's loop, with the same reason |
| TurnPump.PumpTurnEvents | crates/sdk/src/api.rs:1291-1435 | The loop's output is the batch filter-map up to and including the first terminal signal, cut short only by a departing consumer |
| TurnPump.OutputAppend | crates/sdk/src/api.rs:1309-1433 | How one more signal changes a turn's output, and that nothing is added after a terminal one |
| TurnPump.TerminalIsLastAndOnce | crates/sdk/src/api.rs:1370-1433 | A terminal delivery occurs at most once and last, exactly when the stream has a terminal signal |
| TurnPump.NoticeIsSeen | crates/sdk/src/api.rs:1309-1425 | What a notification that does not end the turn adds to the output, kind by kind: its event with the parsed item or the delta's id and text, nothing for one that names another thread or turn or brings no text |
| TurnPump.SignalAdds | crates/sdk/src/api.rs:1291-1307 | What the other signals add, and exactly which signals end the stream |
| TurnPump.TurnFailsIff | crates/sdk/src/api.rs:1381-1400 | The last delivery says that the turn failed exactly if its status spells "failed" in letters of either case, with its error message or a fixed one; otherwise that it is complete |
| TurnPump.ClosedIsReported | crates/sdk/src/api.rs:1291-1300 | A stream that ends without a completed turn ends with the report that the transport is closed |
| TurnPump.CompletionUsage | crates/sdk/src/api.rs:1384-1412 | Completion usage is the turn's own, else the parse of the last matching report, even when that is None, else none |
| TurnPump.UsageIsRead | crates/sdk/src/api.rs:1845-1866 | Usage is read from a value exactly if the innermost value under `last` has 64-bit input and output counts under their names; the cached count may be missing |
| TurnPump.UsageMembers | crates/sdk/src/api.rs:1838-1843 | A turn's usage comes from `usage`, else `tokenUsage`; a report's from its usage member, else `tokenUsage` |
| TurnPump.ForeignIsUnheeded | crates/sdk/src/api.rs:1815-1836 | A notification carrying one id that tells its turn from the target's is not acted on; a completed turn's own id is enough |
| TurnPump.HeedsIff | crates/sdk/src/api.rs:1309-1425 | The guards of the pump let a notification through exactly when it ends the turn, sends something on or sets the usage |
| TurnPump.IsolatedIff | crates/sdk/src/api.rs:1291-1435 | Foreign notifications leave the output alone, for every own stream and every merge, exactly if the pump heeds none of them |
| TurnPump.TurnsAreIsolated | crates/sdk/src/api.rs:1291-1435 | For any interleaving of turns whose notifications carry telling ids, and of signals that belong to no turn, the pump gives on the merged stream what it gives on its own substream |
| TurnPump.TurnDoneIgnoredIff | crates/sdk/src/api.rs:1370-1400 | A completed turn leaves the output alone, for every own stream and merge, exactly if its id, or a thread or turn id among its extra members, names another |
| TurnPump.NoticeIgnoredIff | crates/sdk/src/api.rs:1309-1425 | The same for every kind of notification: left alone exactly if its members name another thread or turn, it is a delta without text, or of a kind not looked at |
| TurnPump.UnlabelledTurnEndsEveryThread | crates/sdk/src/api.rs:1370-1400 | Merged before any open own stream, a completed turn with the target's turn id and no ids in its turn object changes the output |
| TurnRun.UpdateFinalResponseCandidates | crates/sdk/src/api.rs:1437-1451 | The two candidates are the last final answer and the last other agent message of the items so far |
| TurnRun.Run | crates/sdk/src/api.rs:1211-1265 | Collects completed items up to the stop; the final response is a final answer if there is one, else the fallback, else empty |
| TurnRun.RunFinishesIff | crates/sdk/src/api.rs:1211-1265 | Over the pump, a run finishes exactly when the first terminal signal is a completed turn whose status does not spell "failed" in either case, and no error about it came before |
| TurnRun.RunEndsWith | crates/sdk/src/api.rs:1211-1265 | A run ends with the first completion, failure, error or closing: with items, final response and usage, with the message, or because the transport is gone |
| TurnRun.FinalResponseIs | crates/sdk/src/api.rs:1437-1451 | The final response is the last final answer, without one the last agent message, without any empty |
| Render.ThreadEventRenderer.constructor | crates/sdk/src/events/render.rs:274-276 | Nothing is streamed yet |
| Render.ThreadEventRenderer.Render | crates/sdk/src/events/render.rs:278-326 | The fragment shown and the keys streamed after any event |
| Render.FragmentsAreNonEmpty | crates/sdk/src/events/render.rs:297-312 | Over any stream no fragment shown is empty |
| Render.DeltasAreShown | crates/sdk/src/events/render.rs:280-304 | While a message is only streamed, what is shown is its deltas, and its key is set exactly if there was text |
| Render.StreamingIsTransparent | crates/sdk/src/events/render.rs:278-312 | A message whose deltas, if any, add up to its completed text is shown with exactly that text, among any other events |
| Render.CompletionShownIff | crates/sdk/src/events/render.rs:306-312 | For every kind of item, anywhere in a stream: its completion shows nothing if a delta with text for it came since its last completion, or it has no text; otherwise exactly its text as a fragment of its own |
| Render.DeltaIsShown | crates/sdk/src/events/render.rs:280-326 | Every delta with text is shown as it comes; errors are reported; other events show nothing |
| Transcript.ChatApp.constructor | crates/luna/src/commands/chat.rs:473-505 | The transcript starts empty |
| Transcript.ChatApp.SubmitUserMessage | crates/luna/src/commands/chat.rs:809-822 | Appends the prompt and starts the renderer and the final-response state afresh |
| Transcript.ChatApp.PushFragment | crates/luna/src/commands/chat.rs:866-882 | A continuation extends the last block under its key, anything else becomes a block |
| Transcript.ChatApp.PushFinalResponse | crates/luna/src/commands/chat.rs:884-891 | Appends the response and remembers it |
| Transcript.ChatApp.ConsumeThreadEvent | crates/luna/src/commands/chat.rs:824-864 | One event's effect in each of the three modes: streaming, final responses only, and JSON |
| Transcript.ChatApp.Append | crates/luna/src/commands/chat.rs:906-922 | Appends a message block |
| Transcript.ChatApp.ClearTranscript | crates/luna/src/commands/chat.rs:924-929 | Empties the transcript and leaves the renderer alone |
| Transcript.PushPerKey | crates/luna/src/commands/chat.rs:866-882 | What a fragment does to the texts of every (kind, id) key: extends the last, adds one, or nothing |
| Transcript.PushExtends | crates/luna/src/commands/chat.rs:866-876 | A continuation is added to the last block of its kind and id, all else unchanged |
| Transcript.PushAppends | crates/luna/src/commands/chat.rs:877-882 | Any other fragment, and one without id, becomes the last block |
| Transcript.BlockKinds | crates/luna/src/commands/chat.rs:1021-1036 | Which fragments become which kind of block |
| Transcript.PromptsAreNotEchoed | crates/luna/src/commands/chat.rs:858-864 | The user's own items change no block |
| Transcript.JsonShowsEveryEvent | crates/luna/src/commands/chat.rs:825-836 | In JSON mode every event becomes one block with its text, in order |
| Transcript.Perform | crates/luna/src/commands/chat.rs:809-929 | A chat performs its operations one after the other |
| Transcript.TextGrows | crates/luna/src/commands/chat.rs:809-929 | What each operation adds to the text under every (kind, id) key |
| Transcript.NothingIsLost | crates/luna/src/commands/chat.rs:809-929 | Among any prompts, events, messages and clears: for every key, its blocks in order read the same as the fragments pushed under it since the last clear |
| Transcript.AgentStep | crates/luna/src/commands/chat.rs:809-929 | What each chat operation does to the blocks and the streamed key of an agent message |
| Transcript.ShownExactlyOnce | crates/luna/src/commands/chat.rs:858-882 | With unique ids, an agent message ends up in exactly one block holding its completed text, streamed or not |
| PromptRun.RunPrompt | crates/luna/src/commands/chat.rs:185-257 | One prompt: the error of a turn that cannot start, or every event up to the stop and every failed interrupt in between, then the error message the loop ends with; the call fails exactly when the stream does |
| PromptRun.PromptLeaves | crates/luna/src/commands/chat.rs:208-257 | What a prompt leaves: the happenings one by one, then the error of a failed or broken-off turn, and none for a complete one or a failed stream |
| PromptRun.UnstartedPromptLeaves | crates/luna/src/commands/chat.rs:197-204 | A turn that cannot start leaves the prompt and the reason |
| PromptRun.MessageReachesTheScreen | crates/luna/src/commands/chat.rs:185-257 | Pump, renderer and transcript together: however several turns' signals, and those of no turn, are merged, and whatever interrupts fail meanwhile, the turn's own message is on screen exactly once |
| PromptRun.FinalResponsesShown | crates/luna/src/commands/chat.rs:839-856 | With final responses only, a finished turn leaves its final answers or else the fallback, besides errors of failed interrupts, the last being what `run` returns |
| HumanOutput.Output.constructor | crates/luna/src/output/mod.rs:116-124 | Nothing is written |
| HumanOutput.Output.SeparateBlocks | crates/luna/src/output/mod.rs:163-173 | Adds exactly the newlines that leave an empty line, and none at the start |
| HumanOutput.Output.WriteFragment | crates/luna/src/output/mod.rs:126-161 | Keeps the output equal to the batch layout of the fragments so far, whether the fragment has text or not |
| HumanOutput.Output.Finish | crates/luna/src/output/mod.rs:175-182 | Completes the layout; the output is then empty or ends in a newline |
| HumanOutput.RunsAreTheFragments | crates/luna/src/output/mod.rs:131-141 | The runs the layout is made of, put together, are the fragments |
| HumanOutput.RunsAreMaximal | crates/luna/src/output/mod.rs:131-141 | Each run continues one identity and cannot be longer |
| HumanOutput.MaximalRunsAreUnique | crates/luna/src/output/mod.rs:131-141 | There is only one such cut into runs |
| HumanOutput.PageJoins | crates/luna/src/output/mod.rs:139-157 | A fragment that continues the last run adds its text to the page and nothing else: no gap, no second prefix |
| HumanOutput.PageStarts | crates/luna/src/output/mod.rs:139-157 | Any other fragment adds a gap, its prefix and its text |
| HumanOutput.FragmentAdds | crates/luna/src/output/mod.rs:126-173 | What one more fragment adds, from what is on the page: its text if it continues the last; else one newline or two, just enough for an empty line, its label if streamed, and its text |
| HumanOutput.EndedPageIs | crates/luna/src/output/mod.rs:175-182 | The end adds a newline only where one is missing |
| HumanOutput.EventAdds | crates/luna/src/output/mod.rs:126-130 | The user's own items add nothing; every other event what the renderer shows |
| HumanOutput.BlocksAreSeparated | crates/luna/src/output/mod.rs:163-173 | Every block but the first stands whole right after an empty line, also where text itself ended a line |
| HumanOutput.TurnBlocksAreSeparated | crates/luna/src/output/mod.rs:18-59 | The same for whatever a turn delivers, and no block is empty, since the renderer never shows empty text |
| HumanOutput.StreamHumanEvents | crates/luna/src/output/mod.rs:18-59 | The whole output and result of a turn: the layout of its fragments, ended with a newline unless the stream broke off |
| Utf8.DecodeIff | crates/luna/src/commands/chat.rs:1043-1048 | Bytes decode to a text exactly if they are its encoding |
| Utf8.EncodeIs | crates/luna/src/commands/chat.rs:1043-1048 | The bytes of a character are those of the table of RFC 3629 |
| Utf8.BoundaryIff | crates/luna/src/commands/chat.rs:1064-1072 | A position passes the boundary test exactly when it lies between two characters |
| InputLine.InputBuffer.constructor | crates/luna/src/commands/chat.rs:1043-1048 | Starts empty |
| InputLine.InputBuffer.Text | crates/luna/src/commands/chat.rs:964-966 | Gives the zipper's text |
| InputLine.InputBuffer.Set | crates/luna/src/commands/chat.rs:1049-1052 | Text replaced, cursor at its end |
| InputLine.InputBuffer.Clear | crates/luna/src/commands/chat.rs:1054-1057 | Text emptied |
| InputLine.InputBuffer.Take | crates/luna/src/commands/chat.rs:1059-1062 | Text returned, buffer emptied |
| InputLine.InputBuffer.Insert | crates/luna/src/commands/chat.rs:1064-1067 | The byte splice equals the zipper's insertion |
| InputLine.InputBuffer.InsertStr | crates/luna/src/commands/chat.rs:1069-1072 | The same for a string |
| InputLine.InputBuffer.PreviousBoundary | crates/luna/src/commands/chat.rs:1078-1081 | Scanning back finds the start of the character before the cursor |
| InputLine.InputBuffer.NextBoundary | crates/luna/src/commands/chat.rs:1090-1093 | The lead byte gives the end of the character after the cursor |
| InputLine.InputBuffer.Backspace | crates/luna/src/commands/chat.rs:1074-1084 | Removes exactly the character before the cursor |
| InputLine.InputBuffer.Delete | crates/luna/src/commands/chat.rs:1086-1095 | Removes exactly the character after the cursor |
| InputLine.InputBuffer.MoveLeft | crates/luna/src/commands/chat.rs:1097-1104 | Moves over one character, bytes unchanged |
| InputLine.InputBuffer.MoveRight | crates/luna/src/commands/chat.rs:1106-1113 | Moves over one character, bytes unchanged |
| InputLine.InputBuffer.Home | crates/luna/src/commands/chat.rs:741-744 | Cursor before the whole text |
| InputLine.InputBuffer.End | crates/luna/src/commands/chat.rs:745-748 | Cursor after the whole text |
| InputLine.CursorIsBoundary | crates/luna/src/commands/chat.rs:1048-1113 | The cursor is always a boundary of well-formed text |
| InputLine.ZipperIsDetermined | crates/luna/src/commands/chat.rs:1043-1048 | Bytes and cursor determine the zipper |
| InputLine.InsertThenBackspace | crates/luna/src/commands/chat.rs:1064-1084 | Inserting a character and deleting it backwards gives the same bytes and cursor |
| InputLine.EditsUndo | crates/luna/src/commands/chat.rs:1064-1113 | Which edits and moves undo each other |
| Keyboard.ChatEditor.CurrentSuggestions | crates/luna/src/commands/chat.rs:678-683 | None when dismissed, else those for the text |
| Keyboard.ChatEditor.AfterInputEdit | crates/luna/src/commands/chat.rs:931-935 | Suggestions back, selection and history cursor reset |
| Keyboard.ChatEditor.AcceptSuggestion | crates/luna/src/commands/chat.rs:937-943 | The selected suggestion, if it exists, replaces the input |
| Keyboard.ChatEditor.SelectPreviousSuggestion | crates/luna/src/commands/chat.rs:945-950 | One up, wrapping |
| Keyboard.ChatEditor.SelectNextSuggestion | crates/luna/src/commands/chat.rs:952-957 | One down, wrapping |
| Keyboard.ChatEditor.NavigateHistoryUp | crates/luna/src/commands/chat.rs:959-973 | The previous entry, the unsent text put aside first |
| Keyboard.ChatEditor.NavigateHistoryDown | crates/luna/src/commands/chat.rs:975-988 | The next entry, or the unsent text back |
| Keyboard.ChatEditor.HandleKey | crates/luna/src/commands/chat.rs:685-788 | Every key's action and whole new state |
| Keyboard.KeysEdit | crates/luna/src/commands/chat.rs:685-788 | The characters before and after the cursor once a key is hit, key by key |
| Keyboard.KeysSet | crates/luna/src/commands/chat.rs:685-788 | What each key does to suggestions and history, and which keys change nothing else |
| Keyboard.KeysAct | crates/luna/src/commands/chat.rs:685-720 | Enter submits the whole line; Ctrl-C and Ctrl-D quit exactly on an empty one |
| Keyboard.SubmissionIs | crates/luna/src/commands/chat.rs:128-183 | What becomes of a submitted text: an inserted skill, leaving, or nothing |
| Keyboard.ArrowsSelect | crates/luna/src/commands/chat.rs:945-957 | With suggestions on display the arrows go round them |
| Keyboard.KeepsCursorValid | crates/luna/src/commands/chat.rs:685-788 | No key lets the history cursor leave the history |
| Keyboard.ChatEditor.Redraw | crates/luna/src/commands/chat.rs:507-511 | Drawing sends a selection beyond the suggestions back to the first |
| Keyboard.RunChatLoop | crates/luna/src/commands/chat.rs:128-183 | Over every sequence of keys and pastes, drawn before each, the state is that of the zipper model and the byte cursor a boundary of well-formed text |
| Keyboard.DrawingMattersIff | crates/luna/src/commands/chat.rs:507-511 | Only a paste leaves a selection that drawing has to put right, exactly when it no longer fits |
| Keyboard.TabTakesTheSelected | crates/luna/src/commands/chat.rs:937-957 | At every event, pastes and inserted skills included, one of the suggestions on display is selected and Tab takes exactly that one |
| Keyboard.UpShowsHistory | crates/luna/src/commands/chat.rs:959-973 | n times up shows the n-th last entry, or the first |
| Keyboard.Downs | crates/luna/src/commands/chat.rs:975-988 | n times down from an entry shows the n-th next one, or the unsent text |
| Keyboard.HistoryRoundTrip | crates/luna/src/commands/chat.rs:959-988 | Any number of ups followed by as many downs, or by as many as there are entries, restores the unsent text and clears the cursor |
| Targets.LockKeyIff | crates/sdk/src/transport/ws_daemon.rs:101-132 | Lock keys are equal exactly when targets name the same host, however written, and the same port |
| Targets.CaseIsIgnored | crates/sdk/src/transport/ws_daemon.rs:101-132 | Texts agree in lower case exactly if they differ at most in the case of ASCII letters |
| Startup.StepKeepsInv | crates/sdk/src/transport/ws_daemon.rs:391-429 | Every step of any caller or server keeps locks, counts and what probes saw in agreement |
| Startup.SpawnerIsAlone | crates/sdk/src/transport/ws_daemon.rs:402-412 | A caller on its way to spawn holds the lock and its server has not been reported |
| Startup.AtMostOneServer | crates/sdk/src/transport/ws_daemon.rs:391-429 | Spawns number at most one plus failed starts, and at most one caller reports a new server |
| Startup.LaterStartsReuse | crates/sdk/src/transport/ws_daemon.rs:431-465 | After a reported start nothing is spawned, no start fails and none is reported again |
| Startup.AtMostOneSuccessWithoutReuse | crates/sdk/src/transport/ws_daemon.rs:431-465 | With reuse disabled at most one call succeeds |
| Startup.LatecomersFindTheServer | crates/sdk/src/transport/ws_daemon.rs:431-465 | A call begun once the server is up ends with reuse, or is refused if it does not allow it |
| Startup.StartCanSucceed | crates/sdk/src/transport/ws_daemon.rs:391-429 | Where no server is up and nobody is starting one, a call can spawn one process, report the start and free the lock |
| Startup.EveryCallCanEnd | crates/sdk/src/transport/ws_daemon.rs:391-429 | From every state of every run every call can still end |
| Startup.ProbeDecides | crates/sdk/src/transport/ws_daemon.rs:431-465 | What each answer of each probe leads to |
| Startup.StepDecides | crates/sdk/src/transport/ws_daemon.rs:391-429 | What taking the lock, spawning, a child that exits and a deadline that passes lead to |
| Words.SplitGivesWords | crates/luna/src/session.rs:256-257 | Words are non-empty and free of white space; there are none exactly for blank text |
| Words.SplitOfJoin | crates/luna/src/commands/chat.rs:1267-1269 | Splitting undoes joining with single spaces |
| Words.SplitAtSpace | crates/luna/src/session.rs:256-257 | Around a white-space character a text is split apart |
| Words.SplitOneWord | crates/luna/src/session.rs:256-257 | A word is split into itself |
| Words.AsciiSpaces | crates/luna/src/session.rs:256-257 | Which ASCII characters separate words |
| Words.SingleLineTwice | crates/luna/src/commands/chat.rs:1267-1269 | Bringing a text onto one line is idempotent |
| Clipping.CropPreviewText | crates/luna/src/session.rs:256-278 | The single-spaced text, or its first characters and three dots |
| Clipping.ClippedText | crates/agx/src/main.rs:446-482 | One pass gives the same, less a space right before the dots |
| Clipping.ClipIsCropIff | crates/agx/src/main.rs:446-482 | The two agree exactly on non-blank texts not cut right after a space, and how they differ there |
| Clipping.CropsOfWords | crates/luna/src/session.rs:256-278 | Joined words that fit are left as they are; longer ones are cut to what fits and three dots |
| Clipping.CropsOfText | crates/agx/src/main.rs:446-482 | Any text is cropped as its words are, and blank text has a fixed form in each cropper |
| Clipping.ClipsFit | crates/agx/src/main.rs:446-482 | Neither is longer than asked for plus the dots |
| Flatten.InsertConfigValue | crates/agx/src/main.rs:295-306 | Stores every leaf below the key under its dotted name, one after the other in the order the tables are visited, and leaves other keys alone |
| Flatten.ConfigMap | crates/agx/src/main.rs:269-293 | The same for the whole config over the named settings |
| Flatten.VisitsAreLeaves | crates/agx/src/main.rs:295-306 | In whatever order, exactly the leaves are stored |
| Flatten.LeavesAreNamed | crates/agx/src/main.rs:295-300 | A leaf's key is its path joined with dots |
| Flatten.AllOrdersAgreeIff | crates/agx/src/main.rs:288-306 | All orders of visiting the tables give the same map exactly if no two different values of the config share a name |
| Flatten.OrdersEndingIn | crates/agx/src/main.rs:288-306 | Any given leaf is visited last by some order |
| Flatten.DotsCanCollide | crates/agx/src/main.rs:295-306 | A config with a dotted key and two orders that store different values for it |
| Flatten.DotFreeIsFunctional | crates/agx/src/main.rs:295-306 | Without dots in keys no two leaves collide |
| Flatten.TidyTreeIsUnique | crates/agx/src/main.rs:295-306 | Paths and values determine a tree without empty tables |
| Flatten.FlattenRoundTrip | crates/agx/src/main.rs:288-306 | Over any named settings: flattened dot-free keys, split at the dots, are the paths of exactly one tree, the config with empty tables pruned; other settings stay as they were |
| KeyOrder.SortedOrder | crates/agx/src/main.rs:288-306 | Every config has an order in which all tables are visited by their keys |
| KeyOrder.LastInKeyOrderWins | crates/agx/src/main.rs:288-306 | In that order, of the leaves that share a dotted name the one whose path is last in key order has its value stored |
| LatestThread.SelectLatestThreadId | crates/sdk/src/api.rs:1453-1494 | The first match if it has no timestamp, else the earliest-listed match with the greatest one; none only without a match |
| LatestThread.LatestIsUnique | crates/sdk/src/api.rs:1453-1494 | That thread is unique |
| LatestThread.ScoreIs | crates/sdk/src/api.rs:1491-1494 | The score is the timestamp in `updatedAt`, or only if that cannot be read the one in `createdAt` |
| LatestThread.TimestampIsRead | crates/sdk/src/api.rs:1496-1508 | A timestamp is read from a 64-bit integer and from any decimal text that spells one |
| LatestThread.NoTimestamp | crates/sdk/src/api.rs:1496-1508 | Texts with other characters, and other values, are no timestamps |
| LatestThread.MatchesIff | crates/sdk/src/api.rs:1480-1489 | A thread matches a directory exactly if that is the text in its `cwd` |
| LatestThread.PagesFollow | crates/sdk/src/api.rs:995-1034 | Each request carries the cursor of the page before; the threads are those of all pages in order |
| LatestThread.ResolveLatestThreadId | crates/sdk/src/api.rs:995-1034 | Ends within 100 requests whatever the server does; on success the choice is over all pages together |
| Schema.EnforceObjectConstraints | crates/sdk/src/schema.rs:39-58 | The loops rewrite the value to its closed form |
| Schema.CloseCloses | crates/sdk/src/schema.rs:39-58 | Afterwards every object schema at any depth has `additionalProperties` |
| Schema.CloseOnlyCloses | crates/sdk/src/schema.rs:46-49 | The only change anywhere is that key with value false where it was missing |
| Schema.CloseAdds | crates/sdk/src/schema.rs:46-49 | `additionalProperties` is set to false exactly where the type is `object` and it is missing |
| Schema.CloseIsIdentityIff | crates/sdk/src/schema.rs:39-58 | A tree is unchanged exactly if all its object schemas were closed |
| Schema.CloseTwice | crates/sdk/src/schema.rs:39-58 | The rewrite is idempotent |
| Schema.CloseIsTheOnlyOne | crates/sdk/src/schema.rs:39-58 | The closed tree is the only one that makes just these changes |

## Left out

- ClientObject.RequestValueInternal: the id counter is an unbounded integer, without the wrap-around of the 64-bit counter; the object's callers run alone, and interleavings are the transition system's.
- ClientObject.ClientInner.RunInboundLoop: the object's loop runs without callers in between and with handlers as pure functions; interleaved callers and handlers that answer arbitrarily are the transition system's.
- ClientObject.EnsureReadyWith: the caller is alone; waiting for the handshake lock, and other callers in between, are the transition system's (`Readiness`).
- TurnPump.PumpTurnEvents: a lagging broadcast receiver skips signals without notice; what was lost is not among the model's signals.
- Dropping a caller's future in the middle of a request: the code gives no guarantee there, and the pending entry stays until the loop fails.
- Fairness of the asynchronous mutexes, and any claim that a caller is eventually served.
- The parameters `ensure_ready` sends with `initialize` and the typed decoding of results: a decoding failure is an arbitrary choice.
- Reading an error object given as an array, which the derived decoder would accept.
- Sockets, TLS, pipes, child processes, signals, files, environment variables and terminal drawing, colour and scrolling.
- Serializing a value to JSON text and parsing it: frames are JSON trees, and a payload either parses or not.
- Field extraction of thread items, and the markdown of items other than agent messages and deltas, which is an arbitrary text.
- The text of JSON output, which is an arbitrary function of the event, and the coloured form of the plain output.
- Which suggestions an input gets: suggestions are an arbitrary function of the input.
- Parsing of chat commands, except that a known skill name replaces the input.
- In-place sharing of the JSON tree in schema closing and of the map in config flattening: methods return the new value.
- Shutdown and dropping of a server handle, log files, and the URL parser (hosts come already classified).
- Conversion of TOML values, and which named settings precede the flattened table: they are an arbitrary map.
- The last-message extraction of sessions, resolved turn options, request builders, notification and method tables, authentication, profiles, doctor reports and argument parsing: one-branch reads or plumbing.
