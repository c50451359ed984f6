# Token-Bay verification

A Dafny model of the stateful core of the Token-Bay plugin, and of the tracker's day-bucket
ring, with proofs of the properties the code relies on. `dafny verify dfyconfig.toml` checks
the whole project.

| file | what it models |
|---|---|
| Bytes.dfy | bytes, newline-terminated lines, byte-wise order |
| Numbers.dfy | residues and counting, shared by several modules |
| StreamJson.dfy | what a decoded stream-json line is to each of its two readers |
| SseTranslate.dfy | the translator's state machine: one line in, events out |
| SseClient.dfy | an event-stream client, and the proof that it rebuilds the turn's content |
| SseWriter.dfy | the incremental writer over a sink that may fail, and chunk invariance |
| SseLines.dfy | what one more line does to the client, by the kind and fields of its document |
| SseOutput.dfy | whole runs: output bytes, faults, grammar, and a server-sent-events parser (section 9.2 of the WHATWG HTML Living Standard) |
| CcBridge.dfy | the bridge's line reader feeding the writer; exactly when the two readers agree on usage |
| UsageAssertion.dfy | the usage-assertion encoder and the consumer's parser |
| ConsumerFlow.dfy | sessions, routes and pending settlements under interleaved hooks, reaps and settlement handlers |
| SettingsJson.dfy | the settings.json redirect with its rollback journal, under crashes and failed writes |
| NetworkMode.dfy | the coordinator's calls coupled to the settings file they redirect and restore |
| TrackerConn.dfy | the connection holder under concurrency, and the supervisor that feeds it |
| Backoff.dfy | the reconnect delay with a wrapping 64-bit shift |
| Supervisor.dfy | the dial loop: endpoint turns and attempt numbers |
| PeerCandidates.dfy | candidate ranking, merging and endpoint rotation |
| SeederFlow.dfy | reservations, serving goroutines and active-client counts |
| RebindingAcceptor.dfy | the listener swapped under a lock |
| DayBuckets.dfy | the rolling ring of day buckets against the full event log |
| KnownPeers.dfy | last-write-wins merge, staleness and the 256-row cap |

What the outside world decides is a parameter: the JSON decoder, the event marshaller, the sink's
fault plan, SHA-256 and signature outcomes, the clock, the random draw, and the outcome of every
disk write. Objects the source updates in place are classes whose methods are proved against
value-level functions; the theorems are about those functions. Concurrent protocols are step
relations whose steps are the source's critical sections and channel operations, and the theorems
range over every sequence of enabled steps. The classes of these protocols carry ghost fields for the
calls in flight; their View is a state of the step relation, and each method is proved to take it
through the steps of one uninterrupted call, or of one critical section, from wherever the calls in
flight have left it.

## Results that differ from what one might expect

- The bridge keeps the last result's usage; the translator ends the message at the first result after
  the first assistant line. `CcBridge.UsageAgreesExactly` says for every stream when they name the
  same usage. They part when a later result carries another usage (`CcBridge.LaterResult`,
  `CcBridge.TwoResultsDisagree`); when the one result carries none, the bridge then reports zero and
  the translator what the assistant lines last carried, unless that is zero too
  (`CcBridge.LastResultEndsTurn`); and when only
  the bridge takes the line for a result, because its `is_error` or `subtype` has the wrong JSON type
  or it has no newline (`CcBridge.ProbedButDropped`, `CcBridge.OnlyTheBridgeSees`). A result before
  every assistant line is dropped by the translator.
- Parsing an encoded assertion gives it back exactly when the model has no NUL byte
  (`UsageAssertion.ParseInvertsEncode`).
- A settlement handler looks its reservation up, settles with the tracker and deletes the reservation
  in three separate steps, and pushes are dispatched on their own goroutines
  (plugin/internal/trackerclient/push_settlements.go:25-32). A settlement rests on an open registration
  if and only if the one found was not settled before and nothing between look and settlement ended it
  (`ConsumerFlow.SettlementSafety`); that is, if and only if its key is still pending, was not
  registered anew since the look and is not settled already (`ConsumerFlow.JustifiedExactlyWhen`). A
  second handler of the same request (`ConsumerFlow.OverlappingHandlersSettleTwice`) or the end of the
  session (`ConsumerFlow.ExitDisturbsSettlement`) in between leaves a settlement without one; calls
  that run one at a time never do (`ConsumerFlow.OneAtATime`).
- A reap collects the lapsed sessions and exits them one by one. A session it comes to exit is live again
  if and only if it was renewed since the collection and not dropped after that, and is ended all the
  same (`ConsumerFlow.ReapEndsLiveExactly`, `ConsumerFlow.ReapEndsReentry`).
- A fallback is entered once for every rate limit and left once for every session, and the journal has
  room for one prior value. Even with calls one at a time on a working disk the redirect outlives the
  last session exactly when one exit followed an entry that found it live, and a session is left without
  it exactly when two exits followed the last entry, or one that found none (`NetworkMode.RedirectExactly`,
  `NetworkMode.TwoLimitsStrandRedirect`, `NetworkMode.ThirdSessionLosesRedirect`). With one session at a
  time, entered once, redirect and session go together (`NetworkMode.OneSessionPairs`).
- Leaving network mode clears the session store and the coordinator's maps in two critical sections.
  Every routed session is active or being entered if and only if no exit clears a session that was
  routed again after the exit unrouted it (`ConsumerFlow.RoutesLeadExactly`); such an exit strands the
  route (`ConsumerFlow.ReentryDuringExitStrandsRoute`).
- Leaving network mode restores the raw `ANTHROPIC_BASE_URL` lookup exactly when the key was absent
  or already the redirect; a present null or empty string is dropped. Entering while the redirect is
  already live journals the redirect as the prior value, so it survives the exit
  (`SettingsJson.RoundTripExact`); a second exit removes it, from every disk state any calls can leave
  (`SettingsJson.CrashRecovery`). The comment on entering says that network mode implies a journal; that
  holds throughout a sequence of calls if and only if none is a live re-entry whose settings write fails
  and whose cleanup succeeds, or an exit that restores the redirect from such an entry's journal and
  deletes it (`SettingsJson.CoveredExactly`). A settings file holding `null` is accepted by enter, but
  after a crash between the two writes the exit assigns into a nil map; it is the only accepted file
  with that fate (`SettingsJson.OnlyNullCannotBeRestored`, `SettingsJson.NullRootCannotBeRestored`).
- The comment on the provider switches calls the off words case-insensitive; the code knows three
  spellings of each (`SettingsJson.OffWordsExactly`), and any other leaves the provider on
  (`SettingsJson.MixedCaseIsOn`).
- The clamp after the backoff shift misses a wrap to a positive value below the cap
  (`Backoff.MissedWrap`); `Backoff.WrapExact` says exactly when. The comment on the delay names the
  base as lower bound; the code's lower bound is half the base (`Backoff.DelayBounds`). No draw falls
  below the base if and only if the delay before jitter is at least twice it
  (`Backoff.BaseBoundExactly`), so not before the second attempt (`Backoff.BaseBoundFromSecondAttempt`);
  the first delay is always below it (`Backoff.FirstDelayBelowBase`).
- The comment on the acceptor says the previous listener is closed before the new one is installed;
  the code installs first, so both are open for a while (`RebindingAcceptor.InstalledBeforeClosed`): in
  runs without a stale install a second listener is open exactly while some call is about to close one
  (`RebindingAcceptor.SecondOpenListener`). When the calls are done, every listener but the current one has been
  closed exactly once if and only if every install found the listener its Bind had looked at still
  current (`RebindingAcceptor.ListenersClosedOnce`). Two Binds that both look before either installs
  leave a listener that is never closed (`RebindingAcceptor.OverlappingBindsLeak`); Binds that overlap
  otherwise may leak nothing.
- A ring of day cells stays exact throughout a log if and only if no event comes after a newer one of
  its residue class (`DayBuckets.RingExactIff`). The score adds the window's events and, on top, the
  cells whose day has left the window, so it is the window's exactly when those add up to nothing
  (`DayBuckets.ScoreIsWindowAndStale`, `DayBuckets.ScoreIsWindow`); a single settlement is scored for
  ever (`DayBuckets.StaleDaysStillCount`).

## Model

| member | source | states |
|---|---|---|
| Bytes.LinesPartition | plugin/internal/ssetranslate/translate.go:67-76 | cutting the buffered bytes at newlines loses nothing: complete lines plus an unterminated rest |
| Bytes.LinesUnique | plugin/internal/ssetranslate/translate.go:67-76 | that cut is the only one into newline-terminated lines and a newline-free rest |
| Bytes.LexExactly | plugin/internal/bootstrap/known_peers.go:180-193 | byte order: at the first difference the smaller byte comes first, and a proper prefix before what it begins |
| SseTranslate.OnLinesAppend | plugin/internal/ssetranslate/translate.go:68-81 | translating two batches of lines one after the other is translating them together: same events, same state |
| SseWriter.Writer.Write | plugin/internal/ssetranslate/translate.go:59-83 | a chunk is buffered and its complete lines handled until the sink fails; a latched error or a closed writer refuses and reports 0 bytes |
| SseWriter.WireNames | plugin/internal/ssetranslate/translate.go:315-370 | each kind of event has its own name on the wire |
| SseWriter.Writer.Close | plugin/internal/ssetranslate/translate.go:86-101 | idempotent; finishes an open message once with end_turn, no stop sequence and the last usage, unless an error is latched |
| SseWriter.Writer.HandleLine | plugin/internal/ssetranslate/translate.go:106-127 | dispatches a line to assistant, result or nothing, emitting exactly the events of that line up to a sink fault |
| SseWriter.Writer.HandleAssistant | plugin/internal/ssetranslate/translate.go:150-178 | starts the message on the first cycle only, caches the rolling fields, then emits the blocks; silent after message_stop |
| SseWriter.Writer.HandleBlocks | plugin/internal/ssetranslate/translate.go:172-176 | handles the content blocks in order, stopping at the first sink fault |
| SseWriter.Writer.HandleTextBlock | plugin/internal/ssetranslate/translate.go:203-226 | opens a text block only when none is open and sends a delta only for non-empty text |
| SseWriter.Writer.ShipWhole | plugin/internal/ssetranslate/translate.go:228-262 | closes the open block, then ships the block whole as start and stop under the next index |
| SseWriter.Writer.HandleResult | plugin/internal/ssetranslate/translate.go:272-295 | a result outside a message is dropped; inside it supplies default stop reason and usage and ends the message |
| SseWriter.Writer.FinishMessage | plugin/internal/ssetranslate/translate.go:298-313 | closes the open block, then message_delta, then message_stop, then the done state |
| SseWriter.WriteIsFold | plugin/internal/ssetranslate/translate.go:59-83 | a Write delivers the events of a plain fold over the complete lines of buffer plus chunk, and keeps the unterminated rest |
| SseWriter.TwoWrites | plugin/internal/ssetranslate/translate.go:59-83 | writing p then q cannot be told from writing p + q |
| SseWriter.ChunkInvariance | plugin/internal/ssetranslate/translate.go:16-18 | for every split into Write calls, output, failure and final state equal those of one Write of the whole |
| SseClient.MeaningPreserved | plugin/internal/ssetranslate/translate.go:150-313 | for all lines the events are legal to a client and rebuild exactly the turn's header, its content with adjacent text merged, and its end |
| SseClient.RestRebuilds | plugin/internal/ssetranslate/translate.go:166-176 | from inside a message, however many further cycles come, the client's blocks grow by exactly their content and the rolling fields are the latest |
| SseClient.PushAllMerges | plugin/internal/ssetranslate/translate.go:203-226 | merging text block by block as they arrive equals merging the whole content at once |
| SseClient.RollAllIsLast | plugin/internal/ssetranslate/translate.go:166-171 | stop reason and sequence come from the last cycle, usage from the last cycle that carried one |
| SseClient.DoneIsSilent | plugin/internal/ssetranslate/translate.go:155-158 | nothing is emitted after message_stop |
| SseClient.ClosedIsComplete | plugin/internal/ssetranslate/translate.go:86-101 | after Close the events are none or one complete message with the turn's content |
| SseOutput.RunIsOneDelivery | plugin/internal/ssetranslate/translate.go:59-101 | any sequence of Write and Close calls acts on the sink like one delivery of the events of its whole input |
| SseOutput.OutputOfRun | plugin/internal/ssetranslate/translate.go:59-101 | whatever the sink does, its bytes are a prefix of the faultless frames, and all of them unless a call failed |
| SseOutput.OutputCutExactly | plugin/internal/ssetranslate/translate.go:372-381 | a run fails if and only if one of the sink calls for its frames does, and then the output is the frames before the first such call in full, the bytes that call kept, and nothing more |
| SseWriter.CallsCounted | plugin/internal/ssetranslate/translate.go:372-381 | the sink is called once for each frame, up to and including the first that fails |
| SseOutput.FaultyIsPrefixOfFaultless | plugin/internal/ssetranslate/translate.go:23-26 | the output under any fault plan is a prefix of the fault-free output of the same calls |
| SseOutput.GrammarOfRun | plugin/internal/ssetranslate/translate.go:203-313 | every run's events follow the message grammar; after Close they are none or one complete message with the turn's content |
| SseLines.AssistantLine | plugin/internal/ssetranslate/translate.go:128-178 | after any complete lines, a well-typed assistant document starts the message with its own header, adds its own content to a begun one, and is ignored after the end |
| SseLines.EmptyAssistantLine | plugin/internal/ssetranslate/translate.go:150-178 | an assistant document without a message is one with an empty message |
| SseLines.ResultLine | plugin/internal/ssetranslate/translate.go:272-313 | a well-typed result document ends a begun message with its own usage or else the last carried, and failing a stop reason with "error" exactly when is_error is set and "end_turn" otherwise; outside a message it changes nothing |
| SseLines.OtherLine | plugin/internal/ssetranslate/translate.go:106-127 | a line of any other kind, not JSON, mistyped or not beginning with a brace emits nothing |
| SseOutput.FramesParse | plugin/internal/ssetranslate/translate.go:372-381 | parsing the emitted frames as server-sent events gives back every event name and payload, in order |
| SseOutput.ClientSeesPrefix | plugin/internal/ssetranslate/translate.go:372-381 | a client parsing the sink's bytes sees a prefix of the run's events, whole events only, even if a fault cut a frame |
| SseOutput.FaultyIsLegal | plugin/internal/ssetranslate/translate.go:372-381 | what a parser recovers from the sink's bytes under any faults is some first events of the run, and they are legal to a client |
| CcBridge.ParseStreamJSON | plugin/internal/ccbridge/stream.go:36-83 | every byte is forwarded until a write fails; the usage is the last result's; write error, read error and missing result in that order |
| CcBridge.PiecesPartition | plugin/internal/ccbridge/stream.go:43-49 | the pieces read and forwarded concatenate to the whole input |
| SseLines.BridgeReads | plugin/internal/ccbridge/stream.go:50-65 | the bridge takes a well-typed result document's own usage, zero when it has none, and nothing from any other line |
| CcBridge.ResultIsProbed | plugin/internal/ccbridge/stream.go:50-65 | what the translator takes for a result the bridge takes for the same result, carriage returns aside |
| CcBridge.PiecesAreLines | plugin/internal/ccbridge/stream.go:43-49 | the bridge reads the translator's lines and then the unterminated rest, if any |
| CcBridge.ClientEnding | plugin/internal/ssetranslate/translate.go:272-313 | for every stream the client has been told an end exactly when a result follows an assistant line, with that result's usage or else the last an assistant line carried |
| CcBridge.UsageAgreesExactly | plugin/internal/ccbridge/stream.go:36-83 | for every stream on which the bridge reports a result, client and bridge name the same usage if and only if the turn was ended and its usage is that of the last line probed as a result |
| CcBridge.NoResultNoEnding | plugin/internal/ccbridge/stream.go:78-81 | when the bridge reports no result the client has been told no end |
| CcBridge.LastResultEndsTurn | plugin/internal/ccbridge/stream.go:57-62 | when the last result ends the turn they agree if and only if it carries usage or the assistant lines last carried zero |
| CcBridge.LaterResult | plugin/internal/ccbridge/stream.go:57-62 | when a later result follows the one that ended the turn, the client keeps the first usage, the bridge reports the last, and they agree only if these are equal |
| CcBridge.ProbedButDropped | plugin/internal/ccbridge/stream.go:54-59 | a line the bridge takes for a result is none to the translator exactly when its subtype or is_error has the wrong type |
| CcBridge.OnlyTheBridgeSees | plugin/internal/ccbridge/stream.go:54-63 | when the translator sees no result, the bridge still reports the last line it probed while the client has been told no end |
| CcBridge.UsageAgrees | plugin/internal/ccbridge/stream.go:36-83 | when the last line probed is the first result after the first assistant line and carries usage, both name that usage |
| CcBridge.TwoResultsDisagree | plugin/internal/ccbridge/stream.go:57-62 | a stream on which message_delta names the first of two usages and the bridge the second |
| UsageAssertion.CanonicalUsageAssertionPreSig | shared/signing/usage_assertion.go:28-58 | the appends build exactly the documented layout, or report the first violated field rule |
| UsageAssertion.LayoutBytes | shared/signing/usage_assertion.go:38-57 | the preimage is the header, the model, a NUL byte and the counters, at fixed places |
| UsageAssertion.HeaderBytes | shared/signing/usage_assertion.go:39-47 | the header's bytes, one by one: the domain string, the three ids and the NUL bytes between |
| UsageAssertion.NumberBytes | shared/signing/usage_assertion.go:48-56 | each counter in eight bytes, most significant first |
| UsageAssertion.EncodeErrors | shared/signing/usage_assertion.go:28-37 | which assertions are refused, and for which rule |
| UsageAssertion.ParseInvertsEncode | plugin/internal/consumerflow/settlement.go:141-181 | parsing an encoding returns the assertion if and only if its model has no NUL byte |
| UsageAssertion.ParseAccepts | plugin/internal/consumerflow/settlement.go:141-181 | the parser accepts exactly the bytes that encode an assertion whose model has no NUL byte |
| UsageAssertion.EncodeInvertsParse | plugin/internal/consumerflow/settlement.go:141-181 | any accepted bytes re-encode to exactly those bytes, and the parsed model has no NUL |
| UsageAssertion.EncodeInjective | shared/signing/usage_assertion.go:38-57 | no two encodable assertions share a preimage, NUL bytes in models included |
| UsageAssertion.ParseInjective | plugin/internal/consumerflow/settlement.go:141-181 | two accepted preimages that parse alike are the same bytes |
| UsageAssertion.NumberOfBigEndian | shared/signing/usage_assertion.go:50-56 | a number that fits survives its big-endian encoding |
| UsageAssertion.BigEndianOfNumber | plugin/internal/consumerflow/settlement.go:171-179 | big-endian bytes are recovered from the number they denote |
| UsageAssertion.ClampToInt64 | plugin/internal/consumerflow/settlement.go:187-192 | the result fits an int64 and equals the cost, or is the largest int64 below it |
| ConsumerFlow.SettlementSafety | plugin/internal/consumerflow/settlement.go:38-124 | in every interleaving of looks, settle calls and deletes each settlement is for canonical bytes whose handler found a pending registration with room under its ceiling; it is justified if and only if that registration was not settled before and nothing between look and settlement ended it; no registration justifies two |
| ConsumerFlow.JustifiedExactlyWhen | plugin/internal/consumerflow/settlement.go:66-115 | a settlement about to be made will be justified if and only if its key is pending, was not registered anew since its look, and is not settled already |
| ConsumerFlow.OneAtATime | plugin/internal/consumerflow/settlement.go:38-124 | when calls run one at a time every settlement is justified, and every routed session is active with the same expiry |
| ConsumerFlow.CallUninterrupted | plugin/internal/consumerflow/coordinator.go:280-375 | each hook, reap and settlement call, uninterrupted, is a run of its critical sections with one combined effect |
| ConsumerFlow.SettlesExactlyWhenOpen | plugin/internal/consumerflow/settlement.go:43-109 | in any reachable state an uninterrupted settlement succeeds if and only if hash, body, signer and tracker agree and a pending registration of its request id covers its output tokens |
| ConsumerFlow.EntryOpensSettlement | plugin/internal/consumerflow/coordinator.go:280-319 | a successful entry routes the session and makes its token settleable within the ceiling; exiting the session takes both away |
| ConsumerFlow.EntryRecords | plugin/internal/consumerflow/coordinator.go:283-319 | what an entry records in each map; a token of another length than 16 opens no settlement |
| ConsumerFlow.SessionEndExactly | plugin/internal/consumerflow/coordinator.go:162-173 | ending an active session removes it from all three maps and nothing else; ending another changes nothing |
| ConsumerFlow.RefusalExactly | plugin/internal/consumerflow/settlement.go:46-89 | each refusal from its cause: mismatched hash, bytes that encode nothing, unknown request, tokens over the ceiling |
| ConsumerFlow.BooksAlwaysBalance | plugin/internal/consumerflow/coordinator.go:280-319 | in every interleaving the pending settlements belong to active sessions and are exactly the registrations not yet consumed, exited or replaced |
| ConsumerFlow.RoutesLeadExactly | plugin/internal/consumerflow/coordinator.go:362-375 | all through a run every routed session is active or being entered, if and only if no exit clears a session routed again since that exit unrouted it |
| ConsumerFlow.ReentryDuringExitStrandsRoute | plugin/internal/consumerflow/coordinator.go:362-375 | a re-entry between the two critical sections of an exit leaves its session routed and not active |
| ConsumerFlow.StepKeeps | plugin/internal/consumerflow/coordinator.go:280-375 | every step of every call keeps pending within the active sessions and equal to the registrations still pending, and every look and settlement resting on a registration it found |
| ConsumerFlow.ReapClears | plugin/internal/consumerflow/coordinator.go:123-136 | after an uninterrupted reap a session is active if and only if it was and its expiry is unset or not before now; its route and settlements go with it |
| ConsumerFlow.ReapEndsLiveExactly | plugin/internal/consumerflow/coordinator.go:124-135 | when a reap comes to clear a session it collected, the session is live again if and only if some activation since renewed it and none after dropped it; it is ended either way |
| ConsumerFlow.ReapEndsReentry | plugin/internal/consumerflow/coordinator.go:124-135 | a run in which a collected session is entered again with an unlapsed expiry before the reap exits it, and is ended |
| ConsumerFlow.OverlappingHandlersSettleTwice | plugin/internal/consumerflow/settlement.go:68-115 | a run in which two handlers look before either settles has two settlements, the second without any open registration |
| ConsumerFlow.ExitDisturbsSettlement | plugin/internal/consumerflow/settlement.go:68-109 | a run in which the session ends between the look and the settlement of one handler settles without any open registration |
| ConsumerFlow.PassedLookFinds | plugin/internal/consumerflow/settlement.go:66-89 | a look that passes finds a pending registration of an active session with room for the tokens |
| ConsumerFlow.SerializedHandlerRefuses | plugin/internal/consumerflow/settlement.go:68-75 | a handler that looks up after the other's delete finds the request unknown |
| ConsumerFlow.Coordinator.HandleRateLimit | plugin/internal/consumerflow/coordinator.go:183-319 | a failed earlier check changes nothing; otherwise routes the session, undoes that when settings cannot be redirected, else records the session and a 16-byte reservation token |
| ConsumerFlow.Coordinator.ExitNetworkMode | plugin/internal/consumerflow/coordinator.go:362-385 | removes the route, the active entry and every pending settlement of the session, and reports whether settings must be restored |
| ConsumerFlow.Coordinator.OnSessionEnd | plugin/internal/consumerflow/coordinator.go:162-173 | exits an active named session, otherwise changes nothing |
| ConsumerFlow.Coordinator.ReapExpired | plugin/internal/consumerflow/coordinator.go:123-136 | exits each lapsed session exactly once, in the order the map yields them |
| ConsumerFlow.Coordinator.LookUp | plugin/internal/consumerflow/settlement.go:46-89 | the first failing check decides the refusal; a look that passes is one step of the relation and changes no map |
| ConsumerFlow.Coordinator.Conclude | plugin/internal/consumerflow/settlement.go:96-109 | from whatever state other calls have left, signs and settles, as one step that changes no map |
| ConsumerFlow.Coordinator.ConsumePending | plugin/internal/consumerflow/settlement.go:111-115 | from whatever state other calls have left, deletes the entry under the key, as one step |
| ConsumerFlow.Coordinator.HandleSettlement | plugin/internal/consumerflow/settlement.go:38-124 | the first failing check decides the outcome; only a successful one consumes the pending entry, and only it can return no error |
| ConsumerFlow.SessionModeStore.EnterNetworkMode | plugin/internal/ccproxy/sessionmode.go:48-53 | replaces the session's entry and no other |
| ConsumerFlow.SessionModeStore.ExitNetworkMode | plugin/internal/ccproxy/sessionmode.go:57-65 | removes the session's entry and reports whether there was one |
| ConsumerFlow.SessionModeStore.GetMode | plugin/internal/ccproxy/sessionmode.go:71-84 | network mode exactly for a present entry whose expiry is unset or not before now |
| SettingsJson.CrashRecovery | plugin/internal/settingsjson/enter.go:57-89 | for any calls, re-entries over a live redirect included, cut short at any write: from every disk state leaving once removes the redirect exactly when no journal names it as prior value, and leaving twice restores every other lookup and an unset redirect |
| SettingsJson.OrderlyCrashRecovery | plugin/internal/settingsjson/enter.go:63-67 | when entries come only while no redirect is live, a live redirect is journaled at every disk state and leaving once restores every lookup |
| SettingsJson.CoveredExactly | plugin/internal/settingsjson/enter.go:63-87 | a live redirect is journaled at every disk state of a sequence of calls if and only if none is a live re-entry whose settings write fails and cleanup succeeds, or an exit that restores the redirect |
| SettingsJson.LeavesRestore | plugin/internal/consumerflow/coordinator.go:377-385 | what one and two leaves make of any disk state between original, redirected and re-entered |
| SettingsJson.RecoverRestores | plugin/internal/consumerflow/coordinator.go:377-385 | journal exit, then best effort, removes the redirect and the journal and changes no other lookup, from any state between original and redirected |
| SettingsJson.EnterKeeps | plugin/internal/settingsjson/enter.go:63-87 | every disk state of an entry, with any write failing or the process dying, is between the original and the redirected file |
| SettingsJson.ExitKeeps | plugin/internal/settingsjson/exit.go:15-29 | the same for every disk state of a journal exit |
| SettingsJson.BestEffortKeeps | plugin/internal/settingsjson/exit.go:37-66 | the same for every disk state of a best-effort exit |
| SettingsJson.OnlyPlainOrNullIsEntered | plugin/internal/settingsjson/enter.go:18-61 | entering writes nothing unless the file is absent, plain JSON with an object root and env, or null |
| SettingsJson.EnterDecides | plugin/internal/settingsjson/enter.go:18-77 | an entry refuses, writing nothing, for the first reason its lookups give: unreadable, Bedrock, Vertex, Foundry, comments, another redirect, null env; with none it journals what it found and then redirects |
| SettingsJson.EnterEnds | plugin/internal/settingsjson/enter.go:63-89 | an entry that nothing refuses succeeds if and only if both writes do, dies with the write that dies, and leaves the settings as they were unless it succeeds |
| SettingsJson.EnteredIsOff | plugin/internal/settingsjson/state.go:64-88 | an entry that wrote anything found each provider switch absent, null, empty or an off word, no comments and no other redirect |
| SettingsJson.ExitDecides | plugin/internal/settingsjson/exit.go:15-29 | how a journal exit ends for each state of journal, file and its two writes, with the journaled value back before the journal goes |
| SettingsJson.BestEffortDecides | plugin/internal/settingsjson/exit.go:37-66 | a best-effort exit writes once, removing our key, exactly when the file can be rewritten and holds our redirect |
| SettingsJson.OffWordsExactly | plugin/internal/settingsjson/state.go:78-88 | of the spellings of 0, false, no and off, a switch is turned off by lower case, upper case and capitalised only |
| SettingsJson.MixedCaseIsOn | plugin/internal/settingsjson/state.go:78-88 | a mixed spelling of an off word leaves the switch on |
| SettingsJson.RoundTripExact | plugin/internal/settingsjson/enter.go:68-77 | after enter and exit the raw key lookup returns exactly when it was absent or the redirect, and the redirect is gone exactly when it was not live before |
| SettingsJson.OnlyNullCannotBeRestored | plugin/internal/settingsjson/exit.go:71-121 | for every disk an entry accepts, after a crash between its writes the exit dies if and only if the file holds null, and otherwise succeeds |
| SettingsJson.NullRootCannotBeRestored | plugin/internal/settingsjson/exit.go:92-111 | a disk with a file holding null that can be entered but not restored from its journal |
| SettingsJson.MergedKeeps | plugin/internal/settingsjson/enter.go:94-130 | merging sets the redirect and preserves every other top-level and env lookup |
| SettingsJson.RestoredKeeps | plugin/internal/settingsjson/exit.go:71-121 | restoring sets or removes our key as journaled and preserves every other lookup |
| SettingsJson.StrippedKeeps | plugin/internal/settingsjson/exit.go:125-161 | stripping removes our key exactly when it equals the given redirect and preserves every other lookup |
| SettingsJson.Store.EnterNetworkMode | plugin/internal/settingsjson/enter.go:14-89 | refuses in the documented order; otherwise journal first, settings second, journal removed when the settings write fails |
| SettingsJson.Store.ExitNetworkMode | plugin/internal/settingsjson/exit.go:15-29 | settings restored before the journal is deleted; no journal is an error |
| SettingsJson.Store.ExitNetworkModeBestEffort | plugin/internal/settingsjson/exit.go:37-66 | one write that removes our redirect, or none |
| SettingsJson.Store.MergeWithBaseURL | plugin/internal/settingsjson/enter.go:94-130 | the in-place edit of root and env computes the merged file, or refuses a file it cannot edit |
| SettingsJson.Store.RestoreFromJournal | plugin/internal/settingsjson/exit.go:71-121 | the in-place edit computes the restored file, or fails as the source does |
| SettingsJson.Store.StripBaseURLIfMatches | plugin/internal/settingsjson/exit.go:125-161 | the in-place edit computes the stripped file and whether anything changes |
| SettingsJson.Store.LeaveNetworkMode | plugin/internal/consumerflow/coordinator.go:377-385 | journal exit, then best effort when it returns an error, each write done, failed or cut short by a crash |
| NetworkMode.RedirectExactly | plugin/internal/consumerflow/coordinator.go:362-385 | for any calls one at a time on a working disk: the redirect is live from an entry to the next exit, and to the one after if the entry found it live; hence exactly when it outlives the last session and when a session lacks it; the journal exists exactly from entry to exit |
| NetworkMode.NextIsFlow | plugin/internal/consumerflow/coordinator.go:301-319 | the coordinator's half of every coupled call is that call of the coordinator, with the settings write's outcome decided by the file |
| NetworkMode.EnterAgain | plugin/internal/settingsjson/enter.go:14-89 | settings that were entered once can be entered again, by any session, and the entry finds the redirect live |
| NetworkMode.TwoLimitsStrandRedirect | plugin/internal/consumerflow/coordinator.go:301-319 | a session that hits the limit twice and ends leaves the redirect live with no journal and no session |
| NetworkMode.ThirdSessionLosesRedirect | plugin/internal/consumerflow/coordinator.go:375-385 | of three sessions the first two to end remove the redirect the third still needs |
| NetworkMode.OneSessionPairs | plugin/internal/consumerflow/coordinator.go:301-385 | when a fallback is entered only while no session is active, the redirect is live exactly while one is |
| TrackerConn.WaiterHandOff | plugin/internal/trackerclient/conn.go:19-86 | in every interleaving each waiter is in the list, in one call's private slice, or resolved once; no send is dropped, no channel is both sent to and closed |
| TrackerConn.HandOneKeeps | plugin/internal/trackerclient/conn.go:63-85 | handing over the head of a private slice resolves exactly that waiter and finds its channel empty and open |
| TrackerConn.GetKeeps | plugin/internal/trackerclient/conn.go:32-44 | registering keeps a waiting list only while there is no connection and no close |
| TrackerConn.FinishServesAll | plugin/internal/trackerclient/conn.go:57-86 | a set or close run to its end gives every waiter it took its connection or its close, and touches no other channel |
| TrackerConn.NobodyForgotten | plugin/internal/trackerclient/conn.go:46-54 | with no call under way and a connection or a close in place, every waiter can go on |
| TrackerConn.OperationsExactly | plugin/internal/trackerclient/conn.go:63-85 | a send or a close panics exactly on a closed channel, and a send is dropped exactly on a full one |
| TrackerConn.CancelIsFinal | plugin/internal/trackerclient/conn.go:46-54 | a caller that gave up is handed nothing any more |
| TrackerConn.ServedReceives | plugin/internal/trackerclient/conn.go:46-86 | a set or close call from start to end is a run, after which every waiter it found in the list and still waiting receives that connection, or the close |
| TrackerConn.HeartbeatFirst | plugin/internal/trackerclient/reconnect.go:93-135 | in every interleaving with callers and over reconnects the first client-opened stream of each connection is the heartbeat |
| TrackerConn.CurrentIsConnected | plugin/internal/trackerclient/reconnect.go:135-172 | in every run the holder's current connection is exactly the one the supervisor is connected with, so between a loss or stop and the next publication get hands out nothing |
| TrackerConn.SupervisorCycle | plugin/internal/trackerclient/reconnect.go:93-182 | a successful dial and heartbeat stream lead to a published fresh connection whose only stream is the heartbeat's; without the stream, or after a loss, the supervisor dials again |
| TrackerConn.ConnectionServes | plugin/internal/trackerclient/reconnect.go:93-182 | from any dialing state the steps that bring up a connection, hand it to a caller, open its stream and lose it are a run; the caller has that connection, its stream comes after the heartbeat's, and then there is nothing to hand out |
| TrackerConn.SystemStepKeeps | plugin/internal/trackerclient/reconnect.go:107-182 | a connection any caller holds or will be handed already has its heartbeat stream |
| TrackerConn.ConnHolder.Get | plugin/internal/trackerclient/conn.go:19-44 | closed error, current connection, or a fresh registered channel: the locked step of the relation |
| TrackerConn.ConnHolder.Set | plugin/internal/trackerclient/conn.go:57-69 | publishes the connection and leaves it in every waiter's channel: the locked step and every hand-over |
| TrackerConn.ConnHolder.Clear | plugin/internal/trackerclient/conn.go:71-75 | no current connection; waiters untouched |
| TrackerConn.ConnHolder.Close | plugin/internal/trackerclient/conn.go:77-86 | closes every waiter's channel with nothing sent: the locked step and every hand-over |
| TrackerConn.ConnHolder.Receive | plugin/internal/trackerclient/conn.go:46-54 | a waiter takes the connection out of its channel, or its close |
| Backoff.DoublesUpToMax | plugin/internal/trackerclient/reconnect.go:15-19 | when base times max fits an int64, wrapped shift and clamp equal min(base * 2^attempt, max) at every attempt |
| Backoff.WrapExact | plugin/internal/trackerclient/reconnect.go:16-19 | at any attempt that holds exactly when the product fits or its wrapped value is not a positive number below max |
| Backoff.Monotone | plugin/internal/trackerclient/reconnect.go:15-19 | under that condition the delay before jitter never shrinks |
| Backoff.DelayBounds | plugin/internal/trackerclient/reconnect.go:15-29 | with no such condition the delay is still within half the base and max |
| Backoff.BaseBoundExactly | plugin/internal/trackerclient/reconnect.go:12-29 | the documented lower bound, the base, holds for every draw if and only if the delay before jitter is at least twice the base |
| Backoff.BaseBoundFromSecondAttempt | plugin/internal/trackerclient/reconnect.go:12-29 | under the product condition, if and only if it is not the first attempt and the cap is at least twice the base |
| Backoff.FirstDelayBelowBase | plugin/internal/trackerclient/reconnect.go:15-29 | the first delay is below the base for every draw |
| Backoff.JitterBounds | plugin/internal/trackerclient/reconnect.go:20-28 | jitter leaves between half and all of the intended delay |
| Backoff.DelayExactly | plugin/internal/trackerclient/reconnect.go:20-28 | under the product condition the delay is the intended one times (1 + draw) / 2, rounded down; the clamps after it never bite |
| Backoff.MissedWrap | plugin/internal/trackerclient/reconnect.go:16-19 | base 5, attempt 62 and a cap of 2^63 - 1 wrap to 2^62, which the guard accepts |
| Supervisor.Run | plugin/internal/trackerclient/reconnect.go:78-182 | turn by turn the loop dials the rotation's next endpoint among the candidates in force at that turn, and its attempt number counts the turns since the last connection stable for 30 seconds |
| Supervisor.AttemptExactly | plugin/internal/trackerclient/reconnect.go:118-180 | the attempt number is 0 at the start and after a connection that was up for 30 seconds, and otherwise one more than before |
| Supervisor.EveryEndpointDialed | plugin/internal/trackerclient/reconnect.go:87-181 | while the candidates stay the same, among any as many consecutive turns as there are merged endpoints each one is dialed |
| Supervisor.BackoffFollowsStreak | plugin/internal/trackerclient/reconnect.go:118-180 | after a stable connection the delay before jitter starts at the base and doubles to the cap over the following turns |
| PeerCandidates.Candidates.Update | plugin/internal/trackerclient/peercandidates.go:34-67 | the stored list follows a permutation of the peers by score descending, address ascending, input order |
| PeerCandidates.SortOrders | plugin/internal/trackerclient/peercandidates.go:48-57 | the sort yields every index once, in ranking order |
| PeerCandidates.ScoresFall | plugin/internal/trackerclient/peercandidates.go:48-57 | along the ranking scores never rise; ties go by address and then by place in the list |
| PeerCandidates.RankingUnique | plugin/internal/trackerclient/peercandidates.go:42-57 | only one permutation is in ranking order, so the ordering is deterministic |
| PeerCandidates.MergeEndpoints | plugin/internal/trackerclient/peercandidates.go:102-116 | base followed by the candidates that repeat no base address, ignoring case |
| PeerCandidates.MergedShape | plugin/internal/trackerclient/peercandidates.go:98-116 | base is a prefix, past it no endpoint shares a base address, and no other candidate is lost |
| PeerCandidates.FreshKeepsOrder | plugin/internal/trackerclient/peercandidates.go:102-116 | the candidates kept stand in their ranking order, each exactly once |
| PeerCandidates.Candidates.NextEndpoint | plugin/internal/trackerclient/peercandidates.go:76-96 | the endpoint at the index modulo the merged list, with expired candidates treated as none |
| PeerCandidates.RotationFair | plugin/internal/trackerclient/peercandidates.go:69-96 | any run of as many consecutive indices as the merged list has entries picks every position exactly once, labelled candidate exactly past base |
| SeederFlow.SingleUse | plugin/internal/seederflow/serve.go:30-136 | in every interleaving, reports that fail before they are sent included, no registration is invoked or reported twice, so per envelope hash both are bounded by registrations, and each report carries its registration's request id and model |
| SeederFlow.ReportsFollowSuccess | plugin/internal/seederflow/serve.go:64-81 | in every interleaving a report is sent only for a registration whose bridge returned without an error |
| SeederFlow.OfferIsServed | plugin/internal/seederflow/serve.go:30-60 | an offer that is the only one outstanding is taken by the next tunnel, leaves the map empty and its client counted once more |
| SeederFlow.ServedIsReported | plugin/internal/seederflow/serve.go:59-81 | a registered client's bridge is invoked once, reported once if it returned without an error and the report was sent, and the client is released on either path |
| SeederFlow.NothingToServe | plugin/internal/seederflow/serve.go:33-52 | a goroutine that finds no reservation, or a bad request, ends and changes nothing else |
| SeederFlow.GivingUpIsFinal | plugin/internal/seederflow/serve.go:30-60 | a goroutine that gave up or unregistered takes no further step |
| SeederFlow.CountsAreExact | plugin/internal/seederflow/active_clients.go:23-55 | in every interleaving a client's count is the number of goroutines between register and unregister, with no zero entries |
| SeederFlow.CustodyKept | plugin/internal/seederflow/serve.go:98-108 | each registration stays in the map, with one goroutine, or gone |
| SeederFlow.UsedKept | plugin/internal/seederflow/serve.go:58-81 | invoked and reported registrations stay distinct and are never waiting again |
| SeederFlow.CountsKept | plugin/internal/seederflow/active_clients.go:31-55 | every step keeps every client's count exact |
| SeederFlow.Coordinator.RegisterReservation | plugin/internal/seederflow/offer.go:74-90 | registers under the envelope hash, replacing an earlier reservation |
| SeederFlow.Coordinator.ConsumeReservation | plugin/internal/seederflow/serve.go:98-108 | look-up and removal are one step |
| SeederFlow.Coordinator.PeekReservation | plugin/internal/seederflow/run.go:81-115 | returns the only outstanding hash, and nothing unless there is exactly one; a goroutine is started to serve it |
| SeederFlow.Coordinator.RegisterActive | plugin/internal/seederflow/active_clients.go:31-39 | increments the client's count, creating it at one |
| SeederFlow.Coordinator.UnregisterActive | plugin/internal/seederflow/active_clients.go:43-55 | decrements, deleting the entry with its last user |
| SeederFlow.Coordinator.IsActiveByHash | plugin/internal/seederflow/active_clients.go:23-27 | true exactly while some goroutine is between register and unregister for the client |
| RebindingAcceptor.ChannelsClosedOnce | plugin/internal/seederflow/rebinding_acceptor.go:67-157 | in every interleaving each bound channel is current, owed one close by a call in flight, or closed exactly once |
| RebindingAcceptor.NoMissedWake | plugin/internal/seederflow/rebinding_acceptor.go:104-125 | a waiting Accept can go on, or is about to be woken, or no listener is bound to an open acceptor |
| RebindingAcceptor.AcceptBegins | plugin/internal/seederflow/rebinding_acceptor.go:105-113 | an Accept waits, on the current channel, exactly when the acceptor is open and no listener is bound |
| RebindingAcceptor.AcceptEnds | plugin/internal/seederflow/rebinding_acceptor.go:114-122 | an Accept that is woken or cancelled waits no longer, and nothing else changes |
| RebindingAcceptor.StepKeepsChannels | plugin/internal/seederflow/rebinding_acceptor.go:67-157 | every step keeps each channel in exactly one of those three places |
| RebindingAcceptor.ListenersClosedOnce | plugin/internal/seederflow/rebinding_acceptor.go:67-157 | once the calls of a run are done, every listener made is closed exactly once and the current one never, if and only if every install found the listener its Bind had looked at still current |
| RebindingAcceptor.OpenWhileInHands | plugin/internal/seederflow/rebinding_acceptor.go:67-157 | in such runs a listener is open exactly while it is current or in the hands of a call in flight |
| RebindingAcceptor.SecondOpenListener | plugin/internal/seederflow/rebinding_acceptor.go:67-157 | in such runs a listener besides the current one is open exactly while some call in flight is about to close one |
| RebindingAcceptor.InstalledBeforeClosed | plugin/internal/seederflow/rebinding_acceptor.go:91-97 | right after an install over a listener both the new and the old one are open |
| RebindingAcceptor.StepKeepsListeners | plugin/internal/seederflow/rebinding_acceptor.go:67-157 | every step but a stale install keeps each listener in exactly one hand and open, or in none and closed once |
| RebindingAcceptor.StaleInstallLoses | plugin/internal/seederflow/rebinding_acceptor.go:84-97 | an install over a listener its Bind has not seen leaves that listener open, not current and in nobody's hands |
| RebindingAcceptor.SerialIsFresh | plugin/internal/seederflow/rebinding_acceptor.go:67-99 | Binds that do not overlap make no stale install |
| RebindingAcceptor.NoneSurvivesClose | plugin/internal/seederflow/rebinding_acceptor.go:140-157 | once closed the acceptor never has a current listener again |
| RebindingAcceptor.BindUninterrupted | plugin/internal/seederflow/rebinding_acceptor.go:67-99 | the steps of an uninterrupted Bind are a run without stale install and put a fresh listener and channel in place of the closed old ones |
| RebindingAcceptor.OverlappingBindsLeak | plugin/internal/seederflow/rebinding_acceptor.go:68-97 | two overlapping Binds leave a listener that is neither current nor ever closed |
| RebindingAcceptor.Acceptor.Bind | plugin/internal/seederflow/rebinding_acceptor.go:67-99 | takes the state through the steps of one Bind: a fresh listener and channel, the old ones closed; refuses when closed or when the factory fails |
| RebindingAcceptor.Acceptor.Look | plugin/internal/seederflow/rebinding_acceptor.go:105-124 | closed, the current listener, or an open channel to wait on |
| RebindingAcceptor.Acceptor.Close | plugin/internal/seederflow/rebinding_acceptor.go:140-157 | idempotent; takes the state through the steps of one Close: the channel and the current listener closed |
| DayBuckets.RingRefinesLog | tracker/internal/admission/buckets.go:40-58 | for any window and any log whose events are less than a window older than the newest before them, each used cell holds exactly its stamped day's sum |
| DayBuckets.WindowIsKept | tracker/internal/admission/buckets.go:40-58 | a day with events keeps its cell and exact sum while no event is a window or more newer |
| DayBuckets.RecordExactIff | tracker/internal/admission/buckets.go:49-57 | recording one event keeps every cell exact if and only if the event is not older than the stamp of its cell |
| DayBuckets.RingExactIff | tracker/internal/admission/buckets.go:40-58 | a ring stays exact all through a log of counting events if and only if no event comes after a newer one of its residue class |
| DayBuckets.TimelyIsNotOlder | tracker/internal/admission/buckets.go:53-57 | a timely event never finds a newer day in its cell, which is the comment's claim |
| DayBuckets.RecordInPlace | tracker/internal/admission/events.go:133-143 | rotating then incrementing the indexed cell of the array is one recorded event |
| DayBuckets.DayExactly | tracker/internal/admission/buckets.go:20-38 | a day is the 86400 seconds from one midnight to the next |
| DayBuckets.SettlementAdds | tracker/internal/admission/events.go:133-143 | a settlement adds one to its day's total, and one to its clean count when it is clean, modulo 2^32 |
| DayBuckets.ScoreIsWindowAndStale | tracker/internal/admission/score.go:85-99 | adding all cells gives the sum of the window's days and, on top, of the cells whose day has left the window |
| DayBuckets.ScoreIsWindow | tracker/internal/admission/score.go:85-99 | so it gives the window's events if and only if those stale cells add up to nothing |
| DayBuckets.NoneStaleScoresWindow | tracker/internal/admission/score.go:85-99 | in particular when no cell is stale |
| DayBuckets.StaleDaysStillCount | tracker/internal/admission/score.go:85-99 | for every window, one settlement is still added on every day after its own has left the window |
| KnownPeers.UpsertIsLatest | plugin/internal/bootstrap/known_peers.go:110-122 | before eviction each id holds the last of its competing rows with the greatest last-seen time, and only ids with such rows are present |
| KnownPeers.AcceptableExactly | plugin/internal/bootstrap/known_peers.go:110-114 | an entry is turned away exactly when its id is all zero, its address empty, or it was last seen more than seven days ago |
| KnownPeers.MergeBounds | plugin/internal/bootstrap/known_peers.go:95-145 | afterwards at most 256 rows, none stale, every kept row outranks every evicted live row, and nothing is evicted below the cap |
| KnownPeers.KeptOutrankEvicted | plugin/internal/bootstrap/known_peers.go:131-142 | every kept row comes before every evicted row by health descending, id ascending |
| KnownPeers.EvictedAreNoHealthier | plugin/internal/bootstrap/known_peers.go:131-142 | no evicted row is healthier than a kept one, and at equal health it has the greater id |
| KnownPeers.HealthFalls | plugin/internal/bootstrap/known_peers.go:180-193 | along the sorted list health never rises and ids ascend where it stays the same |
| KnownPeers.CapSize | plugin/internal/bootstrap/known_peers.go:131-142 | the cap keeps a small table whole and exactly 256 rows of a larger one |
| KnownPeers.RankIsSlot | plugin/internal/bootstrap/known_peers.go:180-193 | a row's place in the sorted list is the number of rows that outrank it |
| KnownPeers.SplitBatch | plugin/internal/bootstrap/known_peers.go:98-145 | merging a batch in two parts at one clock changes nothing while the live ids fit the cap |
| KnownPeers.DropCommutes | plugin/internal/bootstrap/known_peers.go:114-129 | dropping stale rows before or after an upsert gives the same table |
| KnownPeers.Store.Merge | plugin/internal/bootstrap/known_peers.go:98-145 | the three passes compute the merged table |
| KnownPeers.Store.UpsertEntries | plugin/internal/bootstrap/known_peers.go:110-122 | the first pass is the upsert of all entries in order |
| KnownPeers.Store.PruneStale | plugin/internal/bootstrap/known_peers.go:125-129 | the second pass removes exactly the stale rows |
| KnownPeers.Store.Evict | plugin/internal/bootstrap/known_peers.go:132-142 | the third pass keeps exactly the rows with fewer than 256 above them |
| KnownPeers.Store.Snapshot | plugin/internal/bootstrap/known_peers.go:149-158 | every row once, in rank order |

## Left out

- Backoff.DoublesUpToMax: the product condition is sufficient, not necessary; `Backoff.WrapExact` gives the exact condition attempt by attempt.
- DayBuckets.RingRefinesLog: the ordering condition, which is the comment's, is sufficient; `DayBuckets.RingExactIff` gives the exact one.
- DayBuckets.ScoreIsWindow: no event is dated after the day of scoring, as when a clock has been set back.
- ConsumerFlow.ReapClears: for a reap that nothing interrupts; `ConsumerFlow.ReapEndsLiveExactly` says when an interrupted one ends a live session.
- NetworkMode.RedirectExactly: calls one at a time, every write done and one sidecar address; `SettingsJson.CrashRecovery` covers failing writes and crashes.
- ConsumerFlow.Coordinator.HandleRateLimit: which of the checks before the session store fails is a parameter; their own logic (probe, verdict, proof, balance, envelope, broker) is not modelled.
- SettingsJson.CrashRecovery: assumes that each file replacement is atomic and that no other program edits the files meanwhile; symbolic links are not modelled.
- Supervisor.EveryEndpointDialed: is about turns during which the candidates stay the same; the index is taken modulo a list whose length changes with them.
- SeederFlow.Coordinator.RegisterActive: takes the client's hash; a key of the wrong length, which the source ignores, is left out.
- KnownPeers.Store.Merge: the cancelled-context return and the write to disk change no row and are not modelled.
- JSON and JSONC text, key case folding, duplicate keys, and the escaping and compaction of raw blocks inside events: abstracted by the decoder and the marshaller.
- Marshalling errors of the translator: its values always marshal, so only the sink fails.
- Ed25519, SHA-256, TLS, QUIC, protobuf and the audit log's content.
- Floating-point rounding in jitter and health scores, which are reals; not-a-number scores are rejected before they reach these files.
- The first unlocked look of the holder's get, which changes nothing, and the status, metrics and cancellation of the supervisor loop.
- The offer's availability, model and key checks, the building of a bridge request, pricing and signing of a usage report.
- Overflow of 64-bit nanosecond durations in the ring for stamps centuries apart, and instants before the Unix epoch.
- The tracker's broker, ledger, federation, reputation, session and registry packages.
