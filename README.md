# Nova Sonic voice assistant: a Dafny model of its session and business logic

This project models the stateful core of a voice-assistant backend built on a
bidirectional model stream, together with the self-contained business logic
around it:

- **The Bedrock session manager** (`BedrockSession`, dist/bedrock-session.js).
  It keeps a registry of sessions, and each session has:
  - a FIFO queue of outbound protocol events;
  - the flags `isPromptStartSent` and `isAudioContentStartSent`;
  - an `audioContentId` that is replaced with a fresh id when audio content ends;
  - a tool-use accumulator;
  - its own event handlers.

  Each session's state is a datatype value, and every protocol step
  (prompt start, system prompt, history, audio start, audio chunk, content
  end, prompt end) is a pure transition on it. The manager class stores the
  values in a map and proves that each of its methods applies exactly that
  transition. Handler calls are recorded in a `deliveries` log.
- **The stream client** (`StreamClient`, dist/client.js):
  - `StreamSession` with its audio buffer: at most 200 chunks, dropping the
    oldest when full, and drained at most 5 per pass;
  - `NovaSonicBidirectionalStreamClient` with its session registry, the input
    iterator (`next`/`return`), and handler dispatch (the specific handler,
    then `'any'`);
  - classification of response events, the tool round trip, and the
    close cascade (content end, then prompt end, then session end).
- **The socket server's lifecycle manager** (`NovaServer`, dist/server.js). It
  is a three-level state machine: a session contains a prompt, and a prompt
  contains content. Its invariant "content ⇒ prompt ⇒ session" is preserved
  by every operation. The setup stream it emits is proved well nested.
- **The conversation session** (`NovaSonicSession`,
  clean-src/novaSonic/NovaSessionManager.ts). This covers:
  - its status machine (initializing, active, processing, error, ended);
    `IsActive` holds exactly in the active and processing statuses;
  - the transcript and the error log;
  - the accumulation of streamed text;
  - the outcome heuristic (incomplete, qualified, not qualified).
- **The hotel tools** (`HotelConfirmation`, dist/hotel-confirmation.js): the
  reservation lookup, the tiered refund on cancellation, and the dispatch by
  tool name.
- **The reservation table** (`HotelReservationSystem`,
  dist/hotelReservationSystem.js). A reservation starts active and moves to
  modified or cancelled.
- **Call analytics** (`AnalyticsManager`, clean-src/admin/AnalyticsManager.ts):
  - a recent-calls list bounded at 100;
  - a knowledge-gap list without duplicates;
  - daily statistics with a running average duration;
  - topic counting;
  - qualification rate, average duration and top topics over a window;
  - a health classification.
- **The knowledge base** (`KnowledgeBaseManager`,
  clean-src/knowledge/KnowledgeBaseManager.ts): keyword-scored FAQ matching
  (the first best entry wins), updates, contextual prompt assembly, and the
  template-name filter.

Two helper modules are shared. `Common` holds Option/Result, ASCII case
mapping, substring search and number formatting. `Types` holds the shapes of
clean-src/types/index.ts.

The environment becomes parameters:
- the clock (`now`, `today`);
- UUIDs (fresh ids);
- the random confirmation number (`codeNumber`);
- the model's replies and the tools' answers;
- read failures of the response stream.

A JavaScript exception that the source throws to its caller becomes an `Err`
value.

The tool names announced to the model in the Bedrock prompt are
`get_reservation_details` and `cancel_reservation`. `handleToolCall`
dispatches on `getReservationTool` and `cancelReservationTool`. As written,
the bedrock session passes the tool input under the wrong key, so every tool
call, announced or not, is answered "Invalid input format"
(`BedrockSession.BridgeAsWrittenAlwaysInvalid`). With that key corrected, the
announced tools would still be answered "not supported"
(`BedrockSession.ConfiguredToolsUnsupported`).

The hotel tools read their reservation and policy tables from a `ToolEnv`
value, together with today's date and the confirmation number. `MockEnv`
holds the tables the source ships.

## Model

| member | source | states |
|---|---|---|
| BedrockSession.NewSession | dist/bedrock-session.js:179-194 | A new session is active, has sent neither prompt start nor audio start, and has an empty queue, no handlers and an empty tool accumulator |
| BedrockSession.StartPrompt | dist/bedrock-session.js:459-476 | Afterwards the prompt is marked started; a second call changes nothing; otherwise exactly the prompt-start event is appended and the audio flag and content id are kept; the order "audio ⇒ prompt" is kept |
| BedrockSession.SystemPrompt | dist/bedrock-session.js:477-517 | Nothing is queued before the prompt has started; after it, exactly the system-prompt event with the configured tool names is appended and both flags are kept; protocol order kept |
| BedrockSession.History | dist/bedrock-session.js:518-550 | Enqueues exactly the history event with the upper-cased role when the prompt has started and the role is USER or ASSISTANT, keeping both flags; otherwise nothing changes |
| BedrockSession.StartAudio | dist/bedrock-session.js:551-576 | Does nothing before the prompt starts or once audio has started; otherwise marks audio started; keeps the content id |
| BedrockSession.AudioChunk | dist/bedrock-session.js:578-598 | A chunk is queued only while audio content is open, tagged with the current `audioContentId` |
| BedrockSession.ContentEnd | dist/bedrock-session.js:600-617 | Only with audio open: queues the content end for the current content id, closes audio, keeps the prompt flag, and installs the fresh content id, which differs from the old one |
| BedrockSession.PromptEnd | dist/bedrock-session.js:619-635 | Afterwards neither prompt nor audio is open; the prompt-end event is queued only when the prompt was open |
| BedrockSession.PromptStartIdempotent | dist/bedrock-session.js:463-474 | Starting the prompt twice equals starting it once and queues at most one event |
| BedrockSession.ChunkEvents | dist/bedrock-session.js:578-598 | One audio-input event per chunk, in order, each tagged with the given content id |
| BedrockSession.StreamChunksQueued | dist/bedrock-session.js:578-598 | With audio open, streaming a sequence of chunks appends exactly their events, in order |
| BedrockSession.AudioContentCycle | dist/bedrock-session.js:551-617 | Audio start, chunks and content end queue start, the chunks and end in that order, then close audio and rotate the id |
| BedrockSession.NoAudioAfterPromptEnd | dist/bedrock-session.js:553-560 | After prompt end neither audio start nor an audio chunk queues anything |
| BedrockSession.Deliveries | dist/bedrock-session.js:152-173 | A handler is called at most once per event |
| BedrockSession.DeliveriesRegistered | dist/bedrock-session.js:152-173 | Every handler call goes to this session and to the handler registered for the notice's type |
| BedrockSession.DeliveriesAppend | dist/bedrock-session.js:152-173 | Dispatching two event sequences in turn calls the same handlers as dispatching their concatenation |
| BedrockSession.BridgeAsWrittenAlwaysInvalid | dist/bedrock-session.js:333-337 | With the input passed under `toolInput`, every tool call is answered "Invalid input format" |
| BedrockSession.BridgeReachesDispatch | dist/bedrock-session.js:328-354 | With the input passed as `content`, the call reaches the name dispatch, and an unknown name is reported as unsupported |
| BedrockSession.ConfiguredToolsUnsupported | dist/bedrock-session.js:496-507 | Once the input reaches the dispatcher, every tool name the prompt announces is answered "not supported" |
| BedrockSession.AfterEvent | dist/bedrock-session.js:307-360 | An output event changes only the tool accumulator and queue; flags, content id and handlers stay; only tool start and tool end change anything |
| BedrockSession.Notifications | dist/bedrock-session.js:292-374 | Each output event notifies one to three handlers, the first with the raw event |
| BedrockSession.RunStep | dist/bedrock-session.js:292-374 | Handling one more event of a stream applies that event's transition to the session so far and appends its notifications |
| BedrockSession.RunDeliveriesStep | dist/bedrock-session.js:292-374 | The handler calls of one more event follow those of the events before it |
| BedrockSession.RunEventsKeeps | dist/bedrock-session.js:292-374 | Inbound events never change whether the session is active, its handlers, its protocol flags or its content id, and only extend its queue |
| BedrockSession.FeedChunksConcatenates | dist/bedrock-session.js:317-323 | Tool input chunks concatenate per key in arrival order onto what was there |
| BedrockSession.ToolUseAccumulates | dist/bedrock-session.js:310-323 | After a tool-use start, the accumulator holds exactly the concatenation of the chunks for each key |
| BedrockSession.ToolUseEndAnswers | dist/bedrock-session.js:328-354 | Tool end queues one tool result, the tool's answer, and resets the tool id, name and input |
| BedrockSession.BedrockSessionManager.constructor | dist/bedrock-session.js:100-127 | Starts with no sessions, no activity times, no closes in progress |
| BedrockSession.BedrockSessionManager.RegisterEventHandler | dist/bedrock-session.js:136-142 | Installs the handler for that event type on an existing session and stamps its activity; an unknown id changes nothing |
| BedrockSession.BedrockSessionManager.UnregisterEventHandler | dist/bedrock-session.js:144-150 | Removes the handler of that type from an existing session |
| BedrockSession.BedrockSessionManager.DispatchEvent | dist/bedrock-session.js:152-173 | Calls the session's handler for the type only when the session is active and has one |
| BedrockSession.BedrockSessionManager.CreateNewSession | dist/bedrock-session.js:174-200 | A duplicate id is refused and nothing changes; otherwise the fresh session is registered and stamped |
| BedrockSession.BedrockSessionManager.RemoveSessionData | dist/bedrock-session.js:231-235 | The id is removed from both the registry and the activity map |
| BedrockSession.BedrockSessionManager.GetSessionData | dist/bedrock-session.js:236-244 | Returns the session exactly when it is active |
| BedrockSession.BedrockSessionManager.EnqueueEvent | dist/bedrock-session.js:448-458 | Appends one event at the tail only for an active session; otherwise no queue changes |
| BedrockSession.BedrockSessionManager.SetupPromptStartEvent | dist/bedrock-session.js:459-476 | Applies the prompt-start transition to an active session only |
| BedrockSession.BedrockSessionManager.SetupSystemPromptEvent | dist/bedrock-session.js:477-517 | Applies the system-prompt transition to an active session only |
| BedrockSession.BedrockSessionManager.SetupHistoryEvent | dist/bedrock-session.js:518-550 | Applies the history transition to an active session only |
| BedrockSession.BedrockSessionManager.SetupStartAudioEvent | dist/bedrock-session.js:551-576 | Applies the audio-start transition to an active session only |
| BedrockSession.BedrockSessionManager.StreamAudioChunk | dist/bedrock-session.js:578-598 | Applies the audio-chunk transition to an active session only |
| BedrockSession.BedrockSessionManager.SendContentEnd | dist/bedrock-session.js:600-617 | Applies the content-end transition, with a fresh id different from the current one, to an active session only |
| BedrockSession.BedrockSessionManager.SendPromptEnd | dist/bedrock-session.js:619-635 | Applies the prompt-end transition to an active session only |
| BedrockSession.BedrockSessionManager.SendToolResult | dist/bedrock-session.js:636-655 | Queues one tool-result event for an active session only |
| BedrockSession.BedrockSessionManager.SendToolError | dist/bedrock-session.js:656-673 | Queues one tool-error event for an active session only |
| BedrockSession.BedrockSessionManager.SendSessionEnd | dist/bedrock-session.js:675-703 | Afterwards the id is in neither map; an absent id changes nothing |
| BedrockSession.BedrockSessionManager.CleanupInactiveSessions | dist/bedrock-session.js:201-230 | Exactly the sessions idle beyond the threshold and not already closing are removed; the others are untouched |
| BedrockSession.BedrockSessionManager.DrainQueue | dist/bedrock-session.js:246-274 | Sends the whole queue of an active session in FIFO order and leaves it empty |
| BedrockSession.BedrockSessionManager.DispatchAll | dist/bedrock-session.js:292-374 | Delivers a sequence of notices in order to the session's handlers |
| BedrockSession.BedrockSessionManager.ProcessOutputEvent | dist/bedrock-session.js:283-375 | One output event applies its transition to the session and notifies the handlers as `Notifications` says |
| BedrockSession.BedrockSessionManager.EndStreamAsWritten | dist/bedrock-session.js:386-398 | The `finally` block as written: the session ends inactive and no handler is ever called |
| BedrockSession.BedrockSessionManager.EndStream | dist/bedrock-session.js:386-398 | With the notice sent before deactivation, a registered `streamEndedUnexpectedly` handler is called exactly once |
| BedrockSession.BedrockSessionManager.ProcessEvents | dist/bedrock-session.js:288-380 | Each event of the stream in turn: the session becomes `RunEvents` of the events, the handlers are called for `RunNotices` in order, the activity is stamped, and other sessions are untouched |
| BedrockSession.BedrockSessionManager.FinishStream | dist/bedrock-session.js:376-398 | A stream error is reported to the handlers and ends the session, removing it from both maps; otherwise the session is marked inactive first, so the `streamEndedUnexpectedly` dispatch reaches no handler and leaves the activity map as it was |
| BedrockSession.BedrockSessionManager.ProcessOutputStream | dist/bedrock-session.js:275-399 | An inactive or unknown session is untouched. For an active one, every event is handled (`RunEvents`, `RunNotices`); then an error ends the session and is reported after the events' notices, or else the session is left inactive with the events applied and no handler hears of the end (the order of the `finally` block as written); other sessions are untouched |
| StreamClient.NewClientSession | dist/client.js:181-196 | A new session is active with both protocol flags false, an empty queue, no handlers, no tool content, and the fresh prompt and content names |
| StreamClient.EnqueuedNothing | dist/client.js:533-540 | Enqueuing no events changes no session |
| StreamClient.EnqueuedConcat | dist/client.js:533-540 | Enqueuing two batches one after the other equals enqueuing their concatenation |
| StreamClient.StampedTwice | dist/client.js:537 | Stamping the activity again at the same instant changes nothing |
| StreamClient.Buffered | dist/client.js:73-81 | The buffer grows by one unless full, never exceeds 200, and always ends with the new chunk |
| StreamClient.Newest | dist/client.js:75-81 | Keeps the last n elements of a sequence |
| StreamClient.NewestStep | dist/client.js:75-81 | Appending to a full window drops its oldest element |
| StreamClient.NewestNewest | dist/client.js:75-81 | Trimming early and trimming late give the same window |
| StreamClient.BufferAllKeepsNewest | dist/client.js:73-83 | However many chunks arrive, the buffer holds exactly the 200 newest in arrival order |
| StreamClient.AudioInputs | dist/client.js:661-678 | One audio-input event per chunk, in order, under the session's prompt and content names |
| StreamClient.ForwardedNothing | dist/client.js:93-99 | Forwarding no chunks changes nothing |
| StreamClient.ForwardedStep | dist/client.js:93-99 | Forwarding one more chunk appends its audio-input event to the session queue |
| StreamClient.Consumed | dist/client.js:86-99 | A pass takes at most 5 chunks and at most the buffer; it takes none while processing, when inactive or when empty |
| StreamClient.Dispatched | dist/client.js:784-807 | The type's handler is called with the data, then the `'any'` handler with `{type, data}`, each only when registered |
| StreamClient.DispatchedAll | dist/client.js:784-807 | Each event calls at most two handlers |
| StreamClient.DispatchedAllAppend | dist/client.js:784-807 | Dispatching two sequences in turn equals dispatching their concatenation |
| StreamClient.ToolFor | dist/client.js:200-231 | A tool is found exactly when the lower-cased name is `getdateandtimetool` or `getweathertool` |
| StreamClient.ToolForIgnoresCase | dist/client.js:201-203 | Tool lookup gives the same answer for any case of the name |
| StreamClient.LowerUpper | dist/client.js:201 | Lower-casing an upper-cased name equals lower-casing the name |
| StreamClient.Classify | dist/client.js:442-492 | Response classification follows the `else if` chain: contentStart first; a TOOL content end only when no earlier field is set; no dispatch exactly when no key is present; otherwise the first event key names the event |
| StreamClient.ResponseNotices | dist/client.js:436-516 | A response event notifies at most two event types |
| StreamClient.AfterResponse | dist/client.js:436-516 | A response event leaves the flags, names and handlers of the session as they were |
| StreamClient.ToolUseRoundTrip | dist/client.js:451-478 | A tool-use event records id and name; the following TOOL content end notifies `toolEnd`; a supported tool's answer then queues the three tool-result events and notifies `toolResult`, and an unsupported or failing tool queues nothing |
| StreamClient.RunResponses | dist/client.js:431-516 | Inbound items never change whether the session is active or its handlers |
| StreamClient.ChunkAmongMeansSomeChunk | dist/client.js:436-438 | The activity is stamped exactly when some item handled is a chunk |
| StreamClient.CloseEvents | dist/client.js:808-835 | Closing an inactive session sends nothing; closing an active one sends 1 to 3 events, the last being session end |
| StreamClient.CloseEventsOrder | dist/client.js:808-835 | Content end is sent iff audio started, prompt end iff the prompt started, in the order content, prompt, session |
| StreamClient.NovaSonicBidirectionalStreamClient.constructor | dist/client.js:134-159 | Starts with no sessions, no activity times and no closes in progress |
| StreamClient.NovaSonicBidirectionalStreamClient.CreateStreamSession | dist/client.js:177-199 | A duplicate id is refused with its message; otherwise a fresh session is registered and a new active `StreamSession` with an empty buffer is returned |
| StreamClient.NovaSonicBidirectionalStreamClient.RegisterEventHandler | dist/client.js:776-783 | An unknown session is an error; otherwise the handler for the type is installed |
| StreamClient.NovaSonicBidirectionalStreamClient.DispatchEvent | dist/client.js:784-807 | Calls the handlers `Dispatched` names for a registered session; an unknown one calls none |
| StreamClient.NovaSonicBidirectionalStreamClient.AddEventToSessionQueue | dist/client.js:533-540 | Appends the event and stamps activity for an active session; otherwise nothing changes |
| StreamClient.NovaSonicBidirectionalStreamClient.SetupSessionStartEvent | dist/client.js:542-555 | Queues session start for an active session; stamps the activity of an active session |
| StreamClient.NovaSonicBidirectionalStreamClient.SetupPromptStartEvent | dist/client.js:556-598 | Queues prompt start with the announced tools when active, and marks the prompt started for any registered session; stamps the activity of an active session |
| StreamClient.NovaSonicBidirectionalStreamClient.SetupSystemPromptEvent | dist/client.js:599-637 | Queues text content start, the system prompt and content end under a fresh content name; stamps the activity of an active session |
| StreamClient.NovaSonicBidirectionalStreamClient.SetupStartAudioEvent | dist/client.js:638-659 | Queues audio content start when active, and marks audio started for any registered session; stamps the activity of an active session |
| StreamClient.NovaSonicBidirectionalStreamClient.StreamAudioChunk | dist/client.js:661-677 | An absent or inactive session is an error and nothing changes; otherwise one audio-input event is queued |
| StreamClient.NovaSonicBidirectionalStreamClient.SendToolResult | dist/client.js:679-726 | Queues the three tool-result events for an active session |
| StreamClient.NovaSonicBidirectionalStreamClient.SendContentEnd | dist/client.js:727-741 | Queues audio content end only when active and audio started |
| StreamClient.NovaSonicBidirectionalStreamClient.SendPromptEnd | dist/client.js:742-755 | Queues prompt end only when active and the prompt started |
| StreamClient.NovaSonicBidirectionalStreamClient.SendSessionEnd | dist/client.js:756-774 | Sends session end for an active session, then removes the id from both maps |
| StreamClient.NovaSonicBidirectionalStreamClient.CloseSession | dist/client.js:808-835 | Skipped while a close is in progress; otherwise sends `CloseEvents` and removes the session |
| StreamClient.CloseSequence | dist/client.js:808-835 | Content end then prompt end are queued only on an active session whose opening was sent, so the last queue is the old queue plus `CloseEvents`; other sessions are untouched |
| StreamClient.NovaSonicBidirectionalStreamClient.ForceCloseSession | dist/client.js:837-859 | Removes a registered session and its activity entry; absent or closing ids are untouched |
| StreamClient.NovaSonicBidirectionalStreamClient.Next | dist/client.js:355-410 | Returns and removes the queue head of an active session (FIFO), and signals done for an inactive or unknown session or an empty queue |
| StreamClient.NovaSonicBidirectionalStreamClient.Return | dist/client.js:411-415 | Afterwards the session is inactive |
| StreamClient.NovaSonicBidirectionalStreamClient.DispatchAll | dist/client.js:784-807 | Delivers a sequence of notices in order |
| StreamClient.NovaSonicBidirectionalStreamClient.ProcessResponseEvent | dist/client.js:431-516 | One response event applies `AfterResponse` to the session and notifies the handlers `ResponseNotices` names |
| StreamClient.NovaSonicBidirectionalStreamClient.ResponseStep | dist/client.js:431-517 | One more item extends the session, the handler calls and the activity stamp of the items so far by that item's own step |
| StreamClient.NovaSonicBidirectionalStreamClient.ProcessResponseEvents | dist/client.js:431-517 | Each item in turn on an active session: the session becomes `RunResponses` of the items, the handlers are called for `RunResponseNotices` in order, and the activity is stamped iff an item is a chunk |
| StreamClient.NovaSonicBidirectionalStreamClient.ProcessResponseStream | dist/client.js:426-531 | On an active session, every item is handled (`RunResponses`, `RunResponseNotices`) and then `streamComplete`, or `error` when reading failed, is dispatched; an inactive session only gets that last notice; other sessions are untouched |
| StreamClient.StreamSession.constructor | dist/client.js:50-57 | A new stream session is active, idle and has an empty buffer |
| StreamClient.StreamSession.OnEvent | dist/client.js:59-62 | Registers the handler with the client, or reports an unknown session |
| StreamClient.StreamSession.ProcessAudioQueue | dist/client.js:85-108 | One pass forwards the first `Consumed` chunks in FIFO order and removes them from the buffer; it fails when the client refuses; it reschedules while chunks remain |
| StreamClient.StreamSession.StreamAudio | dist/client.js:73-83 | Buffers the chunk as `Buffered` says, then runs one pass |
| StreamClient.StreamSession.EndAudioContent | dist/client.js:113-117 | Sends content end only while this session and the client's session are active and audio started |
| StreamClient.StreamSession.EndPrompt | dist/client.js:118-122 | Sends prompt end only while active and the prompt started |
| StreamClient.StreamSession.Close | dist/client.js:123-130 | Afterwards inactive; the first close clears the buffer and removes the session from the client; later closes change nothing |
| NovaServer.NovaSessionManager.constructor | dist/server.js:35-43 | Nothing is open and the nesting invariant holds |
| NovaServer.NovaSessionManager.StartSession | dist/server.js:44-52 | Refused when a session is open; otherwise opens it under the fresh id; invariant kept |
| NovaServer.NovaSessionManager.StartPrompt | dist/server.js:53-64 | Needs an open session and no open prompt; otherwise refused with the source's messages |
| NovaServer.NovaSessionManager.StartContent | dist/server.js:65-76 | Needs an open prompt and no open content |
| NovaServer.NovaSessionManager.EndContent | dist/server.js:77-84 | Refused with no open content; otherwise closes it and clears its id |
| NovaServer.NovaSessionManager.EndPrompt | dist/server.js:85-96 | Ends open content first; afterwards prompt and content are closed and both ids cleared |
| NovaServer.NovaSessionManager.EndSession | dist/server.js:97-108 | Idempotent; afterwards all three levels are closed |
| NovaServer.SetupStreamIsWellNested | dist/server.js:198-286 | The setup event order is accepted by the nesting rules and leaves only the session open |
| NovaServer.CreateEventStream | dist/server.js:191-297 | Emits session start, prompt start, content start, text, content end and prompt end in that order, well nested; without a session, or with a prompt already open, stops with the source's error |
| NovaSonicSession.ReadStreamStopsAtMessageStop | clean-src/novaSonic/NovaSessionManager.ts:205-213 | Nothing after a `messageStop` chunk affects the text read |
| NovaSonicSession.ReadStreamConcatenates | clean-src/novaSonic/NovaSessionManager.ts:205-208 | Reading two pieces of stream concatenates their delta texts |
| NovaSonicSession.ReadStreamAt | clean-src/novaSonic/NovaSessionManager.ts:205-213 | Reading from position i: a failure stops with it, a stop chunk ends with its text, any other chunk prefixes its text |
| NovaSonicSession.NonEmpty | clean-src/novaSonic/NovaSessionManager.ts:216 | Empty text becomes null; other text is kept |
| NovaSonicSession.DetermineOutcome | clean-src/novaSonic/NovaSessionManager.ts:248-269 | Incomplete iff fewer than 3 turns; qualified iff at least 3 turns and a keyword occurs in the lower-cased transcript |
| NovaSonicSession.KeywordInOneTurnQualifies | clean-src/novaSonic/NovaSessionManager.ts:254-268 | A keyword in any single turn of a 3-turn conversation qualifies it |
| NovaSonicSession.PrepareMessages | clean-src/novaSonic/NovaSessionManager.ts:223-228 | Maps turns one to one, in order, keeping role and text |
| NovaSonicSession.PrepareMessagesAppend | clean-src/novaSonic/NovaSessionManager.ts:223-228 | Preparing a concatenation concatenates the prepared messages |
| NovaSonicSession.UserTurnsAppend | clean-src/novaSonic/NovaSessionManager.ts:152-158 | Appending a turn adds one user turn exactly when it is a user turn |
| NovaSonicSession.MergeClientInfo | clean-src/novaSonic/NovaSessionManager.ts:321-335 | Supplied fields override, missing ones keep their old value or default to now, and an existing record's activity is stamped now |
| NovaSonicSession.NovaSessionManager.constructor | clean-src/novaSonic/NovaSessionManager.ts:40-70 | A new session is initializing with empty transcript, no errors, no end time and fresh analytics |
| NovaSonicSession.NovaSessionManager.StartSession | clean-src/novaSonic/NovaSessionManager.ts:72-88 | Becomes active and appends exactly one assistant greeting |
| NovaSonicSession.NovaSessionManager.HandleError | clean-src/novaSonic/NovaSessionManager.ts:271-285 | Appends exactly one error log and moves to error unless already ended |
| NovaSonicSession.NovaSessionManager.ProcessStreamResponse | clean-src/novaSonic/NovaSessionManager.ts:200-221 | Returns the text read up to `messageStop`, null when empty; a read failure is logged once and returns null |
| NovaSonicSession.NovaSessionManager.ProcessTextMessage | clean-src/novaSonic/NovaSessionManager.ts:143-198 | Refused unless active; otherwise appends the user turn and counts it; an answered request returns the text read (null when empty or failed), logs only a read failure, appends a non-empty answer as an assistant turn and returns to active; a refused request is logged and leaves the error status |
| NovaSonicSession.NovaSessionManager.AddUserTurn | clean-src/novaSonic/NovaSessionManager.ts:152-158 | Appends the user turn and counts it, so the turn count still equals the number of user turns |
| NovaSonicSession.NovaSessionManager.AddAssistantTurn | clean-src/novaSonic/NovaSessionManager.ts:179-187 | Appends the assistant turn and makes the transcript a copy of the conversation; the turn count is unchanged |
| NovaSonicSession.NovaSessionManager.ProcessAudioChunk | clean-src/novaSonic/NovaSessionManager.ts:90-141 | Refused unless active; the transcript is not changed; an answered request returns the text read (null when empty or failed), logs only a read failure and returns to active; a refused request is logged and leaves the error status |
| NovaSonicSession.NovaSessionManager.EndSession | clean-src/novaSonic/NovaSessionManager.ts:230-246 | Ends the session; the result has the duration end − start, the transcript, the errors and the outcome |
| NovaSonicSession.NovaSessionManager.UpdateClientInfo | clean-src/novaSonic/NovaSessionManager.ts:321-335 | Stores the merge of the old client info with the update; nothing else changes |
| HotelConfirmation.FindByNameAndDate | dist/hotel-confirmation.js:75-76 | The first reservation whose name matches ignoring case and whose check-in date matches exactly; none when there is no such entry |
| HotelConfirmation.FindById | dist/hotel-confirmation.js:105 | The first reservation with that id, or none |
| HotelConfirmation.GetReservation | dist/hotel-confirmation.js:73-89 | A null input throws; null exactly when no reservation has that name (ignoring case) and date; otherwise the first match, with the policy stored under its id |
| HotelConfirmation.RefundFor | dist/hotel-confirmation.js:131-150 | Full refund up to the free date, the policy percentage up to the partial date, otherwise nothing |
| HotelConfirmation.RefundBounded | dist/hotel-confirmation.js:132-150 | The refund lies between 0 and the total cost; the percentage is 0, the policy's or 100 |
| HotelConfirmation.RefundMessage | dist/hotel-confirmation.js:151-153 | Non-empty additional notes are appended to the refund message |
| HotelConfirmation.CancelReservation | dist/hotel-confirmation.js:91-166 | Unconfirmed, unknown id or missing policy give `success: false` with zero refund; success carries the refund tier, the code and the message |
| HotelConfirmation.HandleToolCall | dist/hotel-confirmation.js:169-213 | Missing or unparsable content is an error; an unknown name is unsupported; success only for the two known tool names, each with its own kind of result |
| HotelConfirmation.HandleToolCallOutcomes | dist/hotel-confirmation.js:194-212 | A lookup that throws is an execution error, one that finds nothing is the default message, and a match is reported as found; a cancellation that throws is an execution error, otherwise its result is reported |
| HotelConfirmation.ToolNameIsCaseSensitive | dist/hotel-confirmation.js:194-204 | A tool name in another case is unsupported |
| HotelReservationSystem.RoomDisplayName | dist/hotelReservationSystem.js:9-13 | Finds a room type exactly for the table's own keys, with that entry's display name |
| HotelReservationSystem.RoomLookupAsWritten | dist/hotelReservationSystem.js:23-24 | The check as written also passes the inherited names `constructor` and `__proto__`, with no display name |
| HotelReservationSystem.ConstructorRoomTypeAccepted | dist/hotelReservationSystem.js:23-32 | Room type "Constructor" passes the check as written, though it is no room type |
| HotelReservationSystem.ActiveForGuest | dist/hotelReservationSystem.js:15-18 | Lists only active reservations of the guest, name matched ignoring case, each from the table |
| HotelReservationSystem.ActiveForGuestComplete | dist/hotelReservationSystem.js:15-18 | Every active reservation of the guest is listed |
| HotelReservationSystem.Merge | dist/hotelReservationSystem.js:43-47 | Supplied fields override, others are kept, and the status is modified |
| HotelReservationSystem.CheckAvailability | dist/hotelReservationSystem.js:60-70 | Error iff the city is unsupported; otherwise every room display name maps to true |
| HotelReservationSystem.ReservationTable.constructor | dist/hotelReservationSystem.js:6-14 | Starts with no reservations |
| HotelReservationSystem.ReservationTable.GetReservationsForGuest | dist/hotelReservationSystem.js:15-18 | Exactly the guest's active reservations, ignoring case of the name |
| HotelReservationSystem.ReservationTable.CreateReservation | dist/hotelReservationSystem.js:19-37 | Unsupported city, then unknown room type (ignoring case) are refused; otherwise exactly one active reservation with the display name is added under the fresh id |
| HotelReservationSystem.ReservationTable.ModifyReservation | dist/hotelReservationSystem.js:38-50 | Null unless the reservation exists and is active; otherwise it becomes the merge |
| HotelReservationSystem.ReservationTable.CancelReservation | dist/hotelReservationSystem.js:51-59 | True exactly for an active reservation, which becomes cancelled |
| HotelReservationSystem.CancelTwice | dist/hotelReservationSystem.js:51-59 | A second cancellation of the same reservation returns false |
| HotelReservationSystem.OthersUntouched | dist/hotelReservationSystem.js:38-59 | Modifying and cancelling one reservation leaves every other one unchanged |
| AnalyticsManager.RoundDivNearest | clean-src/admin/AnalyticsManager.ts:147 | `Math.round(p / q)` for positive q: the nearest integer, halves rounded up |
| AnalyticsManager.RoundDivBetween | clean-src/admin/AnalyticsManager.ts:146-147 | A rounded quotient of a value between lo·q and hi·q lies between lo and hi |
| AnalyticsManager.TopicsIn | clean-src/admin/AnalyticsManager.ts:179-187 | Lists exactly the topics one of whose keywords occurs in the text |
| AnalyticsManager.TopicsInDistinct | clean-src/admin/AnalyticsManager.ts:183-187 | With distinct topic names, no topic is listed twice |
| AnalyticsManager.Names | clean-src/admin/AnalyticsManager.ts:168-177 | The topic names of a table, position by position |
| AnalyticsManager.TopicsInOrder | clean-src/admin/AnalyticsManager.ts:179-187 | With distinct names, the topics found keep the table's order |
| AnalyticsManager.ExtractTopics | clean-src/admin/AnalyticsManager.ts:166-190 | Each topic at most once, listed iff a keyword occurs in the lower-cased joined transcript, in the order of the topic table |
| AnalyticsManager.TopicsOfTable | clean-src/admin/AnalyticsManager.ts:166-190 | Over the fixed topic table, names are listed once each, exactly for the topics that occur |
| AnalyticsManager.AddToTopic | clean-src/admin/AnalyticsManager.ts:153-155 | Adds to that topic's count, appending a new topic at the end; no other count changes |
| AnalyticsManager.AddToTopicDistinct | clean-src/admin/AnalyticsManager.ts:154 | Adding to a topic keeps a table's keys distinct, as an object's keys are |
| AnalyticsManager.CountTopicsCounts | clean-src/admin/AnalyticsManager.ts:150-156 | Counting the extracted topics adds to each topic the number of times it is listed and leaves the others; for a list without repeats, one per listed topic |
| AnalyticsManager.WithCall | clean-src/admin/AnalyticsManager.ts:137-161 | One more call; one more qualified call iff qualified; errors added; the running average updated only for a nonzero duration; topics counted when there is a transcript |
| AnalyticsManager.RunningAverageBetween | clean-src/admin/AnalyticsManager.ts:145-148 | The new average lies between the old average and the new duration |
| AnalyticsManager.WeightedBetween | clean-src/admin/AnalyticsManager.ts:145-148 | A rounded average of n values averaging m plus one value d lies between m and d |
| AnalyticsManager.FindDay | clean-src/admin/AnalyticsManager.ts:128 | The position of that day's entry, or none when the day has no entry |
| AnalyticsManager.SetDay | clean-src/admin/AnalyticsManager.ts:163 | Replaces that day's entry, or appends a new one |
| AnalyticsManager.RecordInStats | clean-src/admin/AnalyticsManager.ts:126-164 | Keeps one entry per day with qualified ≤ total; the entry for the call's day becomes `WithCall` of it and every other entry is unchanged; a new day gets one appended entry for the call |
| AnalyticsManager.AddGaps | clean-src/admin/AnalyticsManager.ts:112-118 | Keeps the old list as a prefix, adds exactly the new gaps, and stays duplicate-free |
| AnalyticsManager.InsertDesc | clean-src/admin/AnalyticsManager.ts:268-271 | Inserts one element, keeping all the others |
| AnalyticsManager.InsertDescSorted | clean-src/admin/AnalyticsManager.ts:268-271 | Inserting into a descending list keeps it descending |
| AnalyticsManager.SortDesc | clean-src/admin/AnalyticsManager.ts:205-208 | A descending permutation of its input |
| AnalyticsManager.RecentStats | clean-src/admin/AnalyticsManager.ts:219-223 | Exactly the days within the window, newest first |
| AnalyticsManager.WindowOfSorted | clean-src/admin/AnalyticsManager.ts:219-223 | Sorting newest first then filtering by the cutoff keeps exactly the days in the window, still sorted |
| AnalyticsManager.FilterFrom | clean-src/admin/AnalyticsManager.ts:222-223 | Exactly the entries on or after the cutoff |
| AnalyticsManager.FilterFromSorted | clean-src/admin/AnalyticsManager.ts:222-223 | Filtering a descending list keeps it descending |
| AnalyticsManager.SumsBounded | clean-src/admin/AnalyticsManager.ts:229-230 | The qualified sum lies between 0 and the total sum |
| AnalyticsManager.QualificationRate | clean-src/admin/AnalyticsManager.ts:218-233 | Between 0 and 100; 0 when the window holds no calls; otherwise the rounded percentage of qualified calls over all calls in the window |
| AnalyticsManager.AverageDuration | clean-src/admin/AnalyticsManager.ts:235-251 | 0 without calls; otherwise the rounded call-weighted average |
| AnalyticsManager.AddAllCounts | clean-src/admin/AnalyticsManager.ts:263-265 | Adding one day's topic entries adds, to every topic, the sum of that day's counts for it |
| AnalyticsManager.AddAllDistinct | clean-src/admin/AnalyticsManager.ts:263-265 | Adding entries keeps the keys of the totals distinct |
| AnalyticsManager.AccumulateTopicsCounts | clean-src/admin/AnalyticsManager.ts:260-266 | The totals give every topic its count summed over the window's days, and their keys stay distinct |
| AnalyticsManager.DistinctEntriesSum | clean-src/admin/AnalyticsManager.ts:263 | For a day's table with distinct keys, the summed entries of a topic are its count |
| AnalyticsManager.CountOfEntry | clean-src/admin/AnalyticsManager.ts:268-269 | An entry of a table with distinct keys holds its topic's count |
| AnalyticsManager.TotalsEntry | clean-src/admin/AnalyticsManager.ts:260-269 | Every entry of the totals holds its topic's count summed over the days |
| AnalyticsManager.TopTopics | clean-src/admin/AnalyticsManager.ts:253-272 | A prefix of the summed topics sorted by count, descending; exactly `min(limit, number of topics)` entries for a non-negative limit; each entry's count is its topic's count summed over the window's days |
| AnalyticsManager.CallsWithErrors | clean-src/admin/AnalyticsManager.ts:303-304 | Never more than the number of calls |
| AnalyticsManager.StatusFor | clean-src/admin/AnalyticsManager.ts:327-332 | Healthy iff no issue, warning iff one or two, error iff more |
| AnalyticsManager.IndexOfGap | clean-src/admin/AnalyticsManager.ts:286 | A position holding the gap, or none iff it is absent |
| AnalyticsManager.Analytics.constructor | clean-src/admin/AnalyticsManager.ts:17-22 | Starts with no calls, no days and no gaps |
| AnalyticsManager.Analytics.RecordCall | clean-src/admin/AnalyticsManager.ts:97-124 | The call goes first in a list of at most 100; the day's statistics and the gap list are updated |
| AnalyticsManager.Analytics.MergeGaps | clean-src/admin/AnalyticsManager.ts:112-118 | Adds each new gap once, in order |
| AnalyticsManager.Analytics.UpdateDailyStats | clean-src/admin/AnalyticsManager.ts:126-164 | The statistics become `RecordInStats` of the call |
| AnalyticsManager.Analytics.GetDailyStats | clean-src/admin/AnalyticsManager.ts:192-195 | That day's entry, or null iff there is none |
| AnalyticsManager.Analytics.GetRecentCalls | clean-src/admin/AnalyticsManager.ts:197-199 | A prefix of the recent calls of length min(limit, count) |
| AnalyticsManager.Analytics.AddKnowledgeGap | clean-src/admin/AnalyticsManager.ts:274-283 | Appends the gap only when absent |
| AnalyticsManager.Analytics.RemoveKnowledgeGap | clean-src/admin/AnalyticsManager.ts:285-295 | Removes the gap's one occurrence, or does nothing when absent; other gaps stay |
| AnalyticsManager.RemoveAtDistinct | clean-src/admin/AnalyticsManager.ts:285-289 | Splicing one entry out of a duplicate-free list removes that value entirely and keeps every other one |
| AnalyticsManager.Analytics.GetSystemHealth | clean-src/admin/AnalyticsManager.ts:297-339 | Each of the four issues is raised iff its condition holds, and the status follows the issue count |
| AnalyticsManager.HealthIssuesListed | clean-src/admin/AnalyticsManager.ts:299-324 | At most four issues, each listed exactly when its check failed |
| KnowledgeBaseManager.HitCount | clean-src/knowledge/KnowledgeBaseManager.ts:170-177 | At most the number of keywords |
| KnowledgeBaseManager.HitCountZeroIff | clean-src/knowledge/KnowledgeBaseManager.ts:170-177 | No hits exactly when no keyword occurs in the query |
| KnowledgeBaseManager.ScorePositiveIff | clean-src/knowledge/KnowledgeBaseManager.ts:171-177 | Positive iff the entry matches the query |
| KnowledgeBaseManager.MatchingEntries | clean-src/knowledge/KnowledgeBaseManager.ts:159-163 | Exactly the entries with a keyword in the lower-cased query |
| KnowledgeBaseManager.FirstBestStep | clean-src/knowledge/KnowledgeBaseManager.ts:170-180 | One reduce step keeps the earliest entry with the highest score |
| KnowledgeBaseManager.ReduceBestIsFirstBest | clean-src/knowledge/KnowledgeBaseManager.ts:170-180 | The whole reduce returns the earliest entry with the highest score |
| KnowledgeBaseManager.FindAnswerNoneIff | clean-src/knowledge/KnowledgeBaseManager.ts:155-167 | Null iff no entry matches the query |
| KnowledgeBaseManager.FindAnswerIsFirstBest | clean-src/knowledge/KnowledgeBaseManager.ts:155-181 | The answer matches, has the highest score, and is the earliest among ties |
| KnowledgeBaseManager.MergeKnowledgeBase | clean-src/knowledge/KnowledgeBaseManager.ts:108-111 | Supplied fields override, the rest are kept |
| KnowledgeBaseManager.MergeKnowledgeBaseLaws | clean-src/knowledge/KnowledgeBaseManager.ts:105-111 | An empty update changes nothing; applying an update twice equals applying it once |
| KnowledgeBaseManager.GenerateContextualPrompt | clean-src/knowledge/KnowledgeBaseManager.ts:206-232 | The system prompt and company context, plus the Q/A exactly when an answer is found |
| KnowledgeBaseManager.ContextualPromptContents | clean-src/knowledge/KnowledgeBaseManager.ts:206-232 | Starts with the system prompt and contains the found answer |
| KnowledgeBaseManager.UnmatchedMessagesGiveSamePrompt | clean-src/knowledge/KnowledgeBaseManager.ts:223-231 | Two messages that match no entry give the same prompt |
| KnowledgeBaseManager.TemplateNames | clean-src/knowledge/KnowledgeBaseManager.ts:194-204 | Never more names than files |
| KnowledgeBaseManager.JsonFileName | clean-src/knowledge/KnowledgeBaseManager.ts:197-198 | `name.json` passes the `.json` filter, and removing the first `.json` gives back `name` when the name has no dot |
| KnowledgeBaseManager.JsonFiles | clean-src/knowledge/KnowledgeBaseManager.ts:196 | The directory listing of a list of template names: one `name.json` file per name, in order |
| KnowledgeBaseManager.TemplateNameRoundTrip | clean-src/knowledge/KnowledgeBaseManager.ts:196-199 | Listing the files of any list of dot-free template names gives back exactly those names, in order |
| KnowledgeBaseManager.TemplateNamesSkipsOthers | clean-src/knowledge/KnowledgeBaseManager.ts:197 | A file not ending in `.json` is dropped wherever it stands in the listing |
| KnowledgeBaseManager.KnowledgeBaseStore.constructor | clean-src/knowledge/KnowledgeBaseManager.ts:10-37 | Starts with the default knowledge base |
| KnowledgeBaseManager.KnowledgeBaseStore.UpdateKnowledgeBase | clean-src/knowledge/KnowledgeBaseManager.ts:105-115 | The knowledge base becomes the shallow merge |
| KnowledgeBaseManager.KnowledgeBaseStore.UpdateSystemPrompt | clean-src/knowledge/KnowledgeBaseManager.ts:117-127 | Always sets the prompt; changes the industry only for a non-empty one; other fields kept |
| KnowledgeBaseManager.KnowledgeBaseStore.AddQuestion | clean-src/knowledge/KnowledgeBaseManager.ts:183-192 | Appends exactly one entry at the end; nothing else changes |
| KnowledgeBaseManager.AddedQuestionIsFound | clean-src/knowledge/KnowledgeBaseManager.ts:183-192 | After adding an entry that matches a query, the query finds an answer |

## Left out

- SDK connection setup and the `send` calls (dist/client.js:138-153 and 292-295; dist/bedrock-session.js:104-119 and 400-445; clean-src/novaSonic/NovaSessionManager.ts:61-67, 129-131 and 175-177). The model's replies, tool answers and stream failures are parameters.
- The missing-credentials check in both constructors (dist/client.js:145-147, dist/bedrock-session.js:111-113): it is configuration, not session logic.
- `initiateSession` (dist/client.js:281-311) and `startBedrockStream` (dist/bedrock-session.js:400-445): they only chain the modelled steps around the SDK call.
- RxJS subjects and timers: `queueSignal`, `closeSignal`, `Promise.race`, the waits in the close methods and the `setInterval` reaper. The iterator's `Next` returns done on an empty queue instead of waiting. The bedrock drain is one step. The reaper is one sweep with `now` as a parameter. The `setTimeout` re-run of `processAudioQueue` is returned as a `rescheduled` flag.
- Aliasing: the source's response loops hold the session object by reference. The model reads the session from the registry map at each step.
- Handlers are recorded as deliveries. Their effects and exceptions are not modelled; a throwing handler does not stop the next one in the source either.
- JSON and TextEncoder encoding: events are datatypes, and parsed input is an `Option`.
- The date/time and weather tools (dist/client.js:203-226, 232-279): clock, locale formatting and HTTP. Their answers are parameters.
- The bedrock `StreamSession` wrapper (dist/bedrock-session.js:11-98): it duplicates the client.js `StreamSession`, which is modelled.
- The bedrock TOOL error path (dist/bedrock-session.js:343-349): unreachable, since `handleToolCall` never throws.
- The `closeSession` catch (dist/client.js:821-829): unreachable in the model, since the modelled steps do not throw.
- Getters that return a field or a copy: client.js:164-175, bedrock-session.js:128-135, server.js:109-120, NovaSessionManager.ts:288-314, KnowledgeBaseManager.ts:93-103, AnalyticsManager.ts:201-203, hotelReservationSystem.js:71-76.
- `getWeeklyStats` (clean-src/admin/AnalyticsManager.ts:210-216) is `RecentStats` with a window of 7·weeks days. `generateReport` (341-358) only assembles getter results.
- Dates: a day key is an integer day number. Window cutoffs are `now − days·DayMs`, passed in. The default date of `getDailyStats` is a parameter.
- AnalyticsManager.QualificationRate: `Math.round(q / t * 100)` in floating point is modelled as integer rounding of `100·q / t`.
- HotelConfirmation.RefundFor: money is integer cents. The partial refund is `cost·pct / 100` truncated to a cent, where the source uses a float and `toFixed(2)`.
- `Math.random` for the confirmation code and `getTodayDate` are parameters (`codeNumber`, `today`).
- UUIDs are parameters. A method that needs a fresh content id requires it to differ from the current one (`BedrockSession.ContentEnd`, `SendContentEnd`); other fresh ids (prompt and content names, the server's ids) are taken as given, and their uniqueness is not modelled.
- Case mapping covers ASCII letters only.
- BedrockSession.AfterEvent: models the intended program, in which the tool input reaches `handleToolCall` as `content`. As written, every tool end is answered "Invalid input format" (`BridgeAsWrittenAlwaysInvalid`).
- BedrockSession.Notifications: its `toolResult` notice carries the answer of the intended program, not the "Invalid input format" of the code as written.
- BedrockSession.ToolUseEndAnswers: states the answer of the intended program, not the one of the code as written.
- BedrockSession.BedrockSessionManager.ProcessOutputEvent: applies `AfterEvent` and `Notifications`, so it models the intended program for tool ends.
- BedrockSession.BedrockSessionManager.ProcessEvents: likewise, for every tool end in the stream.
- BedrockSession.BedrockSessionManager.ProcessOutputStream: likewise, for every tool end in the stream.
- BedrockSession.BedrockSessionManager.EndStream: the corrected stream end stands on its own; `FinishStream` and `ProcessOutputStream` follow the `finally` block as written (`EndStreamAsWritten`), so their handlers never hear of an unexpected end.
- HotelReservationSystem.ReservationTable.CreateReservation: models the intended room check, which accepts only the table's own keys. As written, inherited names such as `constructor` also pass (`ConstructorRoomTypeAccepted`).
- HotelReservationSystem.ReservationTable.CreateReservation and HotelReservationSystem.ReservationTable.CancelReservation: the source returns the stored reservation object, and cancelling mutates that object in place, so a caller holding it sees the change. The model stores values and returns copies, so this aliasing is not captured.
- File-system persistence in AnalyticsManager.ts (24-95) and KnowledgeBaseManager.ts (39-91, 129-153). `readdir` in `getAvailableTemplates` (196) is replaced by a list of file names.
- The text of `getDefaultSystemPrompt` (KnowledgeBaseManager.ts:234-265) is a parameter.
- KnowledgeBaseManager.TemplateNames: its own contract only bounds the length. What it keeps is stated by `TemplateNameRoundTrip` and `TemplateNamesSkipsOthers`.
- The HTTP, socket.io and signal handling of dist/server.js (123-189, 299-390), clean-src/server/, clean-src/admin/routes.ts, clean-src/config/config.ts and clean-src/novaSonic/NovaStreamingClient.ts: these are plumbing.
- Logging.

## Findings

| source | as written | input that shows it | evidently intended | confidence | as-written member | corrected member |
|---|---|---|---|---|---|---|
| dist/bedrock-session.js:386-398 | The `finally` block sets `isActive = false` and then dispatches `streamEndedUnexpectedly`, but `dispatchEvent` drops events for inactive sessions | Any stream that ends while the session is active, with a `streamEndedUnexpectedly` handler registered | The handler is called once before the session is deactivated | not executed | BedrockSession.BedrockSessionManager.EndStreamAsWritten | BedrockSession.BedrockSessionManager.EndStream |
| dist/bedrock-session.js:333-337 | The tool input is passed to `handleToolCall` as `toolInput`, while `handleToolCall` reads `toolUse.content` | Any TOOL_USE_END, e.g. `getReservationTool` with a name and date | The accumulated input reaches the tool dispatch | not executed | BedrockSession.BridgeAsWrittenAlwaysInvalid | BedrockSession.BridgeReachesDispatch |
| dist/hotelReservationSystem.js:23-32 | `this.roomTypes[roomType.toLowerCase()]` is a property read, so inherited names pass the check | `createReservation(…, "Constructor")` creates a reservation whose `roomType` is undefined | Only the three table keys are accepted | not executed | HotelReservationSystem.ConstructorRoomTypeAccepted | HotelReservationSystem.RoomDisplayName |
