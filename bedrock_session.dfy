/** The per-session protocol manager of the bidirectional model stream
    (dist/bedrock-session.js, `BedrockSessionManager`): a registry of
    sessions, each with a FIFO queue of outbound protocol events, the
    prompt/audio flags that guard which events may be queued, the current
    audio content id, a tool-use accumulator, and the handlers that inbound
    events are dispatched to. Handlers are outside code: a call to one is
    recorded in the `deliveries` log and has no other effect. The clock
    (`now`) and fresh ids are parameters. */
module BedrockSession {
  import opened Common
  import opened HotelConfirmation

  /** Inactivity after which the reaper closes a session: 30 minutes. */
  const InactivityThresholdMs: int := 30 * 60 * 1000

  /** The tools announced to the model in the PRELUDE event. */
  const ConfiguredToolNames: seq<string> := ["get_reservation_details", "cancel_reservation"]

  /** Outbound protocol events, without their JSON framing. */
  datatype InputEvent =
    | PromptStartEvent(promptId: string)
    | SystemPromptEvent(text: string, toolNames: seq<string>)
    | HistoryEvent(role: string, content: string)
    | AudioContentStartEvent(contentId: string)
    | AudioChunkEvent(contentId: string, audio: AudioData)
    | ContentEndEvent(contentId: string)
    | PromptFinishEvent
    | ToolResultEvent(toolUseId: string, result: ToolResponse)
    | ToolErrorEvent(toolUseId: string, message: string)

  /** The state kept for one session (the queue and close signals and the
      response subject are not modelled). */
  datatype SessionData = SessionData(
    queue: seq<InputEvent>,
    responseHandlers: map<string, Handler>,
    toolUseContent: map<string, string>,
    toolUseId: string,
    toolName: string,
    isActive: bool,
    isPromptStartSent: bool,
    isAudioContentStartSent: bool,
    audioContentId: string)

  /** Audio content is only ever open inside a started prompt. */
  predicate ProtocolOrdered(s: SessionData) {
    s.isAudioContentStartSent ==> s.isPromptStartSent
  }

  /** The queue grew by at most one event, at its tail. */
  predicate AppendsAtMostOne(before: SessionData, after: SessionData) {
    before.queue <= after.queue && |after.queue| <= |before.queue| + 1
  }

  /** A fresh session: active, nothing sent, no handlers. */
  function NewSession(audioContentId: string): (s: SessionData)
    ensures s.isActive && !s.isPromptStartSent && !s.isAudioContentStartSent
    ensures s.queue == [] && s.responseHandlers == map[] && s.toolUseContent == map[]
    ensures ProtocolOrdered(s)
  {
    SessionData([], map[], map[], "", "", true, false, false, audioContentId)
  }

  function Enqueue(s: SessionData, e: InputEvent): SessionData {
    s.(queue := s.queue + [e])
  }

  // The transitions below act on an active session; every operation first
  // checks that the session exists and is active.

  /** `setupPromptStartEvent`: opens the prompt once. */
  function StartPrompt(s: SessionData, promptId: string): (r: SessionData)
    ensures r.isPromptStartSent
    ensures s.isPromptStartSent ==> r == s
    ensures !s.isPromptStartSent ==>
      r.queue == s.queue + [PromptStartEvent(promptId)]
      && r.isAudioContentStartSent == s.isAudioContentStartSent && r.audioContentId == s.audioContentId
    ensures ProtocolOrdered(s) ==> ProtocolOrdered(r)
    ensures AppendsAtMostOne(s, r)
  {
    if s.isPromptStartSent then s
    else Enqueue(s, PromptStartEvent(promptId)).(isPromptStartSent := true)
  }

  /** `setupSystemPromptEvent`: only inside a started prompt. */
  function SystemPrompt(s: SessionData, text: string): (r: SessionData)
    ensures !s.isPromptStartSent ==> r == s
    ensures s.isPromptStartSent ==>
      r.queue == s.queue + [SystemPromptEvent(text, ConfiguredToolNames)]
      && r.isPromptStartSent && r.isAudioContentStartSent == s.isAudioContentStartSent
    ensures ProtocolOrdered(s) ==> ProtocolOrdered(r)
    ensures AppendsAtMostOne(s, r)
  {
    if !s.isPromptStartSent then s
    else Enqueue(s, SystemPromptEvent(text, ConfiguredToolNames))
  }

  /** The history roles the protocol accepts, after upper-casing. */
  predicate ValidHistoryRole(role: string) {
    Upper(role) == "USER" || Upper(role) == "ASSISTANT"
  }

  /** `setupHistoryEventForConversationResumption`: only inside a started
      prompt and for a user or assistant role, sent upper-cased. */
  function History(s: SessionData, content: string, role: string): (r: SessionData)
    ensures !s.isPromptStartSent || !ValidHistoryRole(role) ==> r == s
    ensures s.isPromptStartSent && ValidHistoryRole(role) ==>
      r.queue == s.queue + [HistoryEvent(Upper(role), content)]
      && r.isPromptStartSent && r.isAudioContentStartSent == s.isAudioContentStartSent
    ensures ProtocolOrdered(s) ==> ProtocolOrdered(r)
    ensures AppendsAtMostOne(s, r)
  {
    if !s.isPromptStartSent || !ValidHistoryRole(role) then s
    else Enqueue(s, HistoryEvent(Upper(role), content))
  }

  /** `setupStartAudioEvent`: opens audio content once, inside a prompt,
      under the current content id. */
  function StartAudio(s: SessionData): (r: SessionData)
    ensures !s.isPromptStartSent || s.isAudioContentStartSent ==> r == s
    ensures s.isPromptStartSent ==> r.isAudioContentStartSent
    ensures r.audioContentId == s.audioContentId
    ensures ProtocolOrdered(s) ==> ProtocolOrdered(r)
    ensures AppendsAtMostOne(s, r)
  {
    if !s.isPromptStartSent || s.isAudioContentStartSent then s
    else Enqueue(s, AudioContentStartEvent(s.audioContentId)).(isAudioContentStartSent := true)
  }

  /** `streamAudioChunk`: only while audio content is open, tagged with
      its id. */
  function AudioChunk(s: SessionData, audio: AudioData): (r: SessionData)
    ensures !s.isAudioContentStartSent ==> r == s
    ensures s.isAudioContentStartSent ==> r.queue == s.queue + [AudioChunkEvent(s.audioContentId, audio)]
    ensures ProtocolOrdered(s) ==> ProtocolOrdered(r)
    ensures AppendsAtMostOne(s, r)
  {
    if !s.isAudioContentStartSent then s
    else Enqueue(s, AudioChunkEvent(s.audioContentId, audio))
  }

  /** `sendContentEnd`: closes the open audio content and moves to a new
      content id. */
  function ContentEnd(s: SessionData, freshContentId: string): (r: SessionData)
    requires freshContentId != s.audioContentId
    ensures !s.isAudioContentStartSent ==> r == s
    ensures s.isAudioContentStartSent ==> r.queue == s.queue + [ContentEndEvent(s.audioContentId)]
    ensures s.isAudioContentStartSent ==> r.audioContentId != s.audioContentId
    ensures s.isAudioContentStartSent ==> !r.isAudioContentStartSent && r.isPromptStartSent == s.isPromptStartSent
    ensures s.isAudioContentStartSent ==> r.audioContentId == freshContentId
    ensures ProtocolOrdered(s) ==> ProtocolOrdered(r)
    ensures AppendsAtMostOne(s, r)
  {
    if !s.isAudioContentStartSent then s
    else Enqueue(s, ContentEndEvent(s.audioContentId)).(isAudioContentStartSent := false, audioContentId := freshContentId)
  }

  /** `sendPromptEnd`: closes the prompt, and with it any audio content. */
  function PromptEnd(s: SessionData): (r: SessionData)
    ensures !r.isPromptStartSent
    ensures ProtocolOrdered(s) ==> ProtocolOrdered(r) && !r.isAudioContentStartSent
    ensures !s.isPromptStartSent ==> r == s
    ensures s.isPromptStartSent ==> r.queue == s.queue + [PromptFinishEvent]
    ensures AppendsAtMostOne(s, r)
  {
    if !s.isPromptStartSent then s
    else Enqueue(s, PromptFinishEvent).(isPromptStartSent := false, isAudioContentStartSent := false)
  }

  /** Opening a prompt a second time changes nothing. */
  lemma PromptStartIdempotent(s: SessionData, p: string, q: string)
    ensures StartPrompt(StartPrompt(s, p), q) == StartPrompt(s, p)
    ensures |StartPrompt(StartPrompt(s, p), q).queue| <= |s.queue| + 1
  {
  }

  /** The audio events for a run of chunks of one content. */
  function ChunkEvents(contentId: string, chunks: seq<AudioData>): (r: seq<InputEvent>)
    ensures |r| == |chunks|
    ensures forall i :: 0 <= i < |r| ==> r[i] == AudioChunkEvent(contentId, chunks[i])
  {
    if chunks == [] then [] else [AudioChunkEvent(contentId, chunks[0])] + ChunkEvents(contentId, chunks[1..])
  }

  function StreamChunks(s: SessionData, chunks: seq<AudioData>): (r: SessionData)
    ensures r.audioContentId == s.audioContentId
    decreases |chunks|
  {
    if chunks == [] then s else StreamChunks(AudioChunk(s, chunks[0]), chunks[1..])
  }

  /** Queuing one event and then a run is queuing the whole run at once. */
  lemma EnqueueThenAppend(s: SessionData, e: InputEvent, rest: seq<InputEvent>)
    ensures Enqueue(s, e).(queue := Enqueue(s, e).queue + rest) == s.(queue := s.queue + ([e] + rest))
  {
    assert (s.queue + [e]) + rest == s.queue + ([e] + rest);
  }

  /** While audio content is open, every chunk is queued in order under
      the content's id, and the session's flags and id stay as they were. */
  lemma {:induction false} StreamChunksQueued(s: SessionData, chunks: seq<AudioData>)
    requires s.isAudioContentStartSent
    ensures StreamChunks(s, chunks) == s.(queue := s.queue + ChunkEvents(s.audioContentId, chunks))
    decreases |chunks|
  {
    if chunks != [] {
      var e := AudioChunkEvent(s.audioContentId, chunks[0]);
      var rest := ChunkEvents(s.audioContentId, chunks[1..]);
      StreamChunksQueued(Enqueue(s, e), chunks[1..]);
      assert StreamChunks(s, chunks) == StreamChunks(Enqueue(s, e), chunks[1..]);
      assert ChunkEvents(s.audioContentId, chunks) == [e] + rest;
      EnqueueThenAppend(s, e, rest);
    }
  }

  /** One audio content inside a started prompt: its start, its chunks and
      its end all carry the same id, and the next content gets the fresh
      id. */
  lemma AudioContentCycle(s: SessionData, chunks: seq<AudioData>, freshContentId: string)
    requires s.isPromptStartSent && !s.isAudioContentStartSent
    requires freshContentId != s.audioContentId
    ensures var r := ContentEnd(StreamChunks(StartAudio(s), chunks), freshContentId);
      r.queue == s.queue + [AudioContentStartEvent(s.audioContentId)]
                 + ChunkEvents(s.audioContentId, chunks) + [ContentEndEvent(s.audioContentId)]
      && !r.isAudioContentStartSent && r.isPromptStartSent
      && r.audioContentId == freshContentId
  {
    StreamChunksQueued(StartAudio(s), chunks);
  }

  /** After the prompt ends no audio can be opened until a new prompt starts. */
  lemma NoAudioAfterPromptEnd(s: SessionData, audio: AudioData)
    requires ProtocolOrdered(s)
    ensures StartAudio(PromptEnd(s)) == PromptEnd(s)
    ensures AudioChunk(PromptEnd(s), audio) == PromptEnd(s)
  {
  }

  // ---------------- Inbound events ----------------

  datatype ToolStartAction =
    | ToolUseStart(toolUseId: string, toolName: string)
    | ToolInputChunk(key: string, value: string)
    | OtherToolStart

  datatype ToolEndAction =
    | ToolUseEnd
    | ToolUseError(toolUseId: string, message: string)
    | OtherToolEnd

  /** The payload of an inbound event, classified by `invocationType` and
      `action`. */
  datatype OutputEvent =
    | InvocationStart
    | InvocationFinish
    | ModelStream(action: string, chunk: string)
    | ToolStart(startAction: ToolStartAction)
    | ToolEnd(endAction: ToolEndAction)
    | Intent
    | ErrorEvent
    | Unrecognised(invocationType: string)

  /** What a handler is called with. */
  datatype EventData =
    | Raw(event: OutputEvent)
    | ChunkData(chunk: string)
    | ToolUseInfo(toolUseId: string, toolName: string)
    | ToolInputInfo(toolUseId: string, key: string, value: string)
    | ToolEndInfo(toolUseId: string, toolName: string, toolInput: map<string, string>)
    | ToolResultInfo(toolUseId: string, toolName: string, toolResult: ToolResponse)
    | ToolErrorInfo(toolUseId: string, message: string)
    | StreamErrorInfo(error: string)
    | NoData

  datatype Notice = Notice(eventType: string, data: EventData)

  /** A call of a registered handler. */
  datatype Delivery = Delivery(sessionId: string, eventType: string, handler: Handler, data: EventData)

  /** The handler calls for a run of notices: one per notice whose type has
      a handler, in order. */
  function Deliveries(sessionId: string, handlers: map<string, Handler>, notices: seq<Notice>): (r: seq<Delivery>)
    ensures |r| <= |notices|
  {
    if notices == [] then []
    else
      (if notices[0].eventType in handlers
       then [Delivery(sessionId, notices[0].eventType, handlers[notices[0].eventType], notices[0].data)]
       else [])
      + Deliveries(sessionId, handlers, notices[1..])
  }

  /** Every call goes to this session's handler registered for its type. */
  predicate AllRegistered(sessionId: string, handlers: map<string, Handler>, calls: seq<Delivery>) {
    forall j :: 0 <= j < |calls| ==>
      calls[j].sessionId == sessionId && calls[j].eventType in handlers
      && calls[j].handler == handlers[calls[j].eventType]
  }

  /** Every handler call goes to this session's handler registered for
      the notice's type. */
  lemma {:induction false} DeliveriesRegistered(sessionId: string, handlers: map<string, Handler>, notices: seq<Notice>)
    ensures AllRegistered(sessionId, handlers, Deliveries(sessionId, handlers, notices))
    decreases |notices|
  {
    if notices != [] {
      DeliveriesRegistered(sessionId, handlers, notices[1..]);
      var first: seq<Delivery> := if notices[0].eventType in handlers
        then [Delivery(sessionId, notices[0].eventType, handlers[notices[0].eventType], notices[0].data)]
        else [];
      var rest := Deliveries(sessionId, handlers, notices[1..]);
      assert Deliveries(sessionId, handlers, notices) == first + rest;
      assert AllRegistered(sessionId, handlers, first);
      forall j | 0 <= j < |first + rest|
        ensures (first + rest)[j].sessionId == sessionId && (first + rest)[j].eventType in handlers
          && (first + rest)[j].handler == handlers[(first + rest)[j].eventType]
      {
        if j >= |first| {
          assert (first + rest)[j] == rest[j - |first|];
        } else {
          assert (first + rest)[j] == first[j];
        }
      }
    }
  }

  lemma {:induction false} DeliveriesAppend(sessionId: string, handlers: map<string, Handler>, a: seq<Notice>, b: seq<Notice>)
    ensures Deliveries(sessionId, handlers, a + b) == Deliveries(sessionId, handlers, a) + Deliveries(sessionId, handlers, b)
  {
    if a == [] {
      assert a + b == b;
    } else {
      assert (a + b)[0] == a[0];
      assert (a + b)[1..] == a[1..] + b;
      DeliveriesAppend(sessionId, handlers, a[1..], b);
    }
  }

  /** The tool-use accumulator after one input chunk: the value is appended
      to whatever the key held (`|| ''`). */
  function AddChunk(content: map<string, string>, key: string, value: string): map<string, string> {
    content[key := (if key in content then content[key] else "") + value]
  }

  /** The tool request as the bridge builds it: the accumulated input under
      `toolInput`, a field the tool handler does not read. */
  function BridgeAsWritten(s: SessionData): ToolUse {
    ToolUse(s.toolUseId, s.toolName, Missing)
  }

  /** The tool request with the accumulated input passed as the parsed
      `content` the tool handler reads. */
  function Bridge(s: SessionData): ToolUse {
    ToolUse(s.toolUseId, s.toolName, Object(JObject(map k | k in s.toolUseContent :: Str(s.toolUseContent[k]))))
  }

  /** As written, every tool call is answered "Invalid input format". */
  lemma BridgeAsWrittenAlwaysInvalid(s: SessionData, env: ToolEnv)
    ensures HandleToolCall(BridgeAsWritten(s), env) == InvalidInput
  {
  }

  /** With the input passed as content it reaches the tool dispatch. */
  lemma BridgeReachesDispatch(s: SessionData, env: ToolEnv)
    ensures HandleToolCall(Bridge(s), env) != InvalidInput
    ensures s.toolName !in {"getReservationTool", "cancelReservationTool"} ==>
      HandleToolCall(Bridge(s), env) == UnsupportedTool(s.toolName)
  {
    assert InputOf(Bridge(s).content).Some?;
  }

  /** The tool names announced in the PRELUDE are not the names the tool
      handler dispatches on, so the model's tool calls are answered as
      unsupported. */
  lemma ConfiguredToolsUnsupported(s: SessionData, env: ToolEnv)
    requires s.toolName in ConfiguredToolNames
    ensures HandleToolCall(Bridge(s), env) == UnsupportedTool(s.toolName)
  {
    BridgeReachesDispatch(s, env);
  }

  /** The session after one inbound event: only the tool branch changes
      it. A finished tool use queues its result and clears the accumulator. */
  function AfterEvent(s: SessionData, e: OutputEvent, env: ToolEnv): (r: SessionData)
    ensures r.isActive == s.isActive && r.isPromptStartSent == s.isPromptStartSent
    ensures r.isAudioContentStartSent == s.isAudioContentStartSent && r.audioContentId == s.audioContentId
    ensures r.responseHandlers == s.responseHandlers
    ensures AppendsAtMostOne(s, r)
    ensures !e.ToolStart? && !e.ToolEnd? ==> r == s
  {
    match e
    case ToolStart(ToolUseStart(id, name)) => s.(toolUseContent := map[], toolUseId := id, toolName := name)
    case ToolStart(ToolInputChunk(key, value)) => s.(toolUseContent := AddChunk(s.toolUseContent, key, value))
    case ToolEnd(ToolUseEnd) =>
      Enqueue(s, ToolResultEvent(s.toolUseId, HandleToolCall(Bridge(s), env)))
        .(toolUseContent := map[], toolUseId := "", toolName := "")
    case _ => s
  }

  /** The handler notifications for one inbound event, in dispatch order:
      the event's own type first, then the finer one. */
  function Notifications(s: SessionData, e: OutputEvent, env: ToolEnv): (r: seq<Notice>)
    ensures 1 <= |r| <= 3
    ensures r[0].data == Raw(e)
  {
    match e
    case InvocationStart => [Notice("invocationStart", Raw(e))]
    case InvocationFinish => [Notice("invocationFinish", Raw(e))]
    case ModelStream(action, chunk) =>
      [Notice("modelStream", Raw(e))]
      + (if action == "TEXT_CHUNK" then [Notice("textChunk", ChunkData(chunk))]
         else if action == "AUDIO_CHUNK" then [Notice("audioChunk", ChunkData(chunk))]
         else [])
    case ToolStart(a) =>
      [Notice("toolStart", Raw(e))]
      + (match a
         case ToolUseStart(id, name) => [Notice("toolUseStart", ToolUseInfo(id, name))]
         case ToolInputChunk(key, value) => [Notice("toolInputChunk", ToolInputInfo(s.toolUseId, key, value))]
         case OtherToolStart => [])
    case ToolEnd(a) =>
      [Notice("toolEnd", Raw(e))]
      + (match a
         case ToolUseEnd =>
           [Notice("toolUseEnd", ToolEndInfo(s.toolUseId, s.toolName, s.toolUseContent)),
            Notice("toolResult", ToolResultInfo(s.toolUseId, s.toolName, HandleToolCall(Bridge(s), env)))]
         case ToolUseError(id, message) => [Notice("toolUseError", ToolErrorInfo(id, message))]
         case OtherToolEnd => [])
    case Intent => [Notice("intent", Raw(e))]
    case ErrorEvent => [Notice("error", Raw(e))]
    case Unrecognised(_) => [Notice("unknownEvent", Raw(e))]
  }

  /** The session after a run of inbound events, each applied in turn. */
  function RunEvents(s: SessionData, events: seq<OutputEvent>, env: ToolEnv): SessionData
    decreases |events|
  {
    if events == [] then s
    else AfterEvent(RunEvents(s, events[..|events| - 1], env), events[|events| - 1], env)
  }

  /** The handler notifications a run of inbound events causes, in order. */
  function RunNotices(s: SessionData, events: seq<OutputEvent>, env: ToolEnv): seq<Notice>
    decreases |events|
  {
    if events == [] then []
    else
      var init := events[..|events| - 1];
      RunNotices(s, init, env) + Notifications(RunEvents(s, init, env), events[|events| - 1], env)
  }

  /** One more event extends both runs by that event's own step. */
  lemma RunStep(s: SessionData, events: seq<OutputEvent>, i: nat, env: ToolEnv)
    requires i < |events|
    ensures RunEvents(s, events[..i + 1], env)
         == AfterEvent(RunEvents(s, events[..i], env), events[i], env)
    ensures RunNotices(s, events[..i + 1], env)
         == RunNotices(s, events[..i], env) + Notifications(RunEvents(s, events[..i], env), events[i], env)
  {
    var p := events[..i + 1];
    assert p[..|p| - 1] == events[..i];
    assert p[|p| - 1] == events[i];
  }

  /** The handler calls of one more event follow those of the run so far. */
  lemma RunDeliveriesStep(id: string, h: map<string, Handler>, s: SessionData, events: seq<OutputEvent>, i: nat,
                          env: ToolEnv)
    requires i < |events|
    ensures Deliveries(id, h, RunNotices(s, events[..i + 1], env))
         == Deliveries(id, h, RunNotices(s, events[..i], env))
            + Deliveries(id, h, Notifications(RunEvents(s, events[..i], env), events[i], env))
  {
    RunStep(s, events, i, env);
    DeliveriesAppend(id, h, RunNotices(s, events[..i], env),
                     Notifications(RunEvents(s, events[..i], env), events[i], env));
  }

  /** Inbound events never change whether the session is active, its
      handlers or its protocol flags; they only add to its queue. */
  lemma {:induction false} RunEventsKeeps(s: SessionData, events: seq<OutputEvent>, env: ToolEnv)
    ensures var r := RunEvents(s, events, env);
      r.isActive == s.isActive && r.responseHandlers == s.responseHandlers
      && r.isPromptStartSent == s.isPromptStartSent && r.isAudioContentStartSent == s.isAudioContentStartSent
      && r.audioContentId == s.audioContentId && s.queue <= r.queue
    decreases |events|
  {
    if events != [] {
      RunEventsKeeps(s, events[..|events| - 1], env);
    }
  }

  /** A tool use as it arrives: its start, then key/value input chunks. */
  datatype InputChunk = InputChunk(key: string, value: string)

  function FeedChunks(s: SessionData, chunks: seq<InputChunk>, env: ToolEnv): SessionData
    decreases |chunks|
  {
    if chunks == [] then s
    else FeedChunks(AfterEvent(s, ToolStart(ToolInputChunk(chunks[0].key, chunks[0].value)), env), chunks[1..], env)
  }

  /** The values sent for one key, concatenated in arrival order. */
  function ValuesFor(chunks: seq<InputChunk>, key: string): string {
    if chunks == [] then ""
    else (if chunks[0].key == key then chunks[0].value else "") + ValuesFor(chunks[1..], key)
  }

  predicate HasKey(chunks: seq<InputChunk>, key: string) {
    exists i :: 0 <= i < |chunks| && chunks[i].key == key
  }

  /** The accumulator after a run of input chunks. */
  function FeedContent(content: map<string, string>, chunks: seq<InputChunk>): map<string, string>
    decreases |chunks|
  {
    if chunks == [] then content
    else FeedContent(AddChunk(content, chunks[0].key, chunks[0].value), chunks[1..])
  }

  /** Input chunks change the session's accumulator only. */
  lemma {:induction false} FeedChunksContent(s: SessionData, chunks: seq<InputChunk>, env: ToolEnv)
    ensures FeedChunks(s, chunks, env).toolUseContent == FeedContent(s.toolUseContent, chunks)
    decreases |chunks|
  {
    if chunks != [] {
      var next := AfterEvent(s, ToolStart(ToolInputChunk(chunks[0].key, chunks[0].value)), env);
      assert next.toolUseContent == AddChunk(s.toolUseContent, chunks[0].key, chunks[0].value);
      FeedChunksContent(next, chunks[1..], env);
    }
  }

  /** A run of chunks holds a key exactly when its first chunk or the rest does. */
  lemma HasKeyCons(chunks: seq<InputChunk>, key: string)
    requires chunks != []
    ensures HasKey(chunks, key) <==> chunks[0].key == key || HasKey(chunks[1..], key)
  {
    if HasKey(chunks[1..], key) {
      var i :| 0 <= i < |chunks[1..]| && chunks[1..][i].key == key;
      assert chunks[i + 1].key == key;
    }
    if HasKey(chunks, key) && chunks[0].key != key {
      var i :| 0 <= i < |chunks| && chunks[i].key == key;
      assert chunks[1..][i - 1].key == key;
    }
  }

  /** One chunk appends its value under its own key and leaves the other
      keys alone. */
  lemma AddChunkAt(content: map<string, string>, k: string, v: string, key: string)
    ensures var c := AddChunk(content, k, v);
      (key in c <==> key in content || k == key)
      && (key in c ==> c[key] == (if key in content then content[key] else "") + (if k == key then v else ""))
  {
    if k != key && key in content {
      assert content[key] + "" == content[key];
    }
  }

  /** On the accumulator, chunks concatenate per key in arrival order. */
  lemma {:induction false} FeedContentConcatenates(content: map<string, string>, chunks: seq<InputChunk>, key: string)
    ensures var c := FeedContent(content, chunks);
      (key in c <==> key in content || HasKey(chunks, key))
      && (key in c ==> c[key] == (if key in content then content[key] else "") + ValuesFor(chunks, key))
    decreases |chunks|
  {
    if chunks != [] {
      var next := AddChunk(content, chunks[0].key, chunks[0].value);
      FeedContentConcatenates(next, chunks[1..], key);
      AddChunkAt(content, chunks[0].key, chunks[0].value, key);
      HasKeyCons(chunks, key);
      var old0 := if key in content then content[key] else "";
      var head := if chunks[0].key == key then chunks[0].value else "";
      assert (old0 + head) + ValuesFor(chunks[1..], key) == old0 + (head + ValuesFor(chunks[1..], key));
    }
  }

  /** Input chunks concatenate per key, in arrival order, onto what the
      accumulator already held. */
  lemma FeedChunksConcatenates(s: SessionData, chunks: seq<InputChunk>, env: ToolEnv, key: string)
    ensures var c := FeedChunks(s, chunks, env).toolUseContent;
      (key in c <==> key in s.toolUseContent || HasKey(chunks, key))
      && (key in c ==> c[key] == (if key in s.toolUseContent then s.toolUseContent[key] else "") + ValuesFor(chunks, key))
  {
    FeedChunksContent(s, chunks, env);
    FeedContentConcatenates(s.toolUseContent, chunks, key);
  }

  /** A tool use from its start: the accumulator holds exactly the keys sent,
      each with its values concatenated in order, under the new tool's id. */
  lemma ToolUseAccumulates(s: SessionData, id: string, name: string, chunks: seq<InputChunk>,
                           env: ToolEnv, key: string)
    ensures var r := FeedChunks(AfterEvent(s, ToolStart(ToolUseStart(id, name)), env), chunks, env);
      (key in r.toolUseContent <==> HasKey(chunks, key))
      && (key in r.toolUseContent ==> r.toolUseContent[key] == ValuesFor(chunks, key))
  {
    FeedChunksConcatenates(AfterEvent(s, ToolStart(ToolUseStart(id, name)), env), chunks, env, key);
  }

  /** The end of a tool use queues exactly the tool's answer and clears the
      tool state. */
  lemma ToolUseEndAnswers(s: SessionData, env: ToolEnv)
    ensures var r := AfterEvent(s, ToolEnd(ToolUseEnd), env);
      r.queue == s.queue + [ToolResultEvent(s.toolUseId, HandleToolCall(Bridge(s), env))]
      && r.toolUseContent == map[] && r.toolUseId == "" && r.toolName == ""
  {
  }


  /** A stale entry the reaper acts on. */
  predicate Expired(lastActivity: map<string, int>, inProgress: set<string>, id: string, now: int) {
    id in lastActivity && now - lastActivity[id] > InactivityThresholdMs && id !in inProgress
  }

  class BedrockSessionManager {
    var activeSessions: map<string, SessionData>
    var sessionLastActivity: map<string, int>
    var sessionCleanupInProgress: set<string>
    /** Every handler call so far, oldest first. */
    var deliveries: seq<Delivery>

    /** Every registered session has an activity time and nothing else has;
        every session keeps its audio content inside its prompt. */
    ghost predicate Valid()
      reads this
    {
      activeSessions.Keys == sessionLastActivity.Keys
      && (forall id :: id in activeSessions ==> ProtocolOrdered(activeSessions[id]))
    }

    constructor()
      ensures Valid()
      ensures activeSessions == map[] && sessionLastActivity == map[]
      ensures sessionCleanupInProgress == {} && deliveries == []
    {
      activeSessions := map[];
      sessionLastActivity := map[];
      sessionCleanupInProgress := {};
      deliveries := [];
    }

    /** `isSessionActive`. */
    predicate IsSessionActive(id: string)
      reads this
    {
      id in activeSessions && activeSessions[id].isActive
    }

    /** The activity times after `getSessionData(id)`: an active session is
        stamped with `now`. */
    function Touched(id: string, now: int): map<string, int>
      reads this
    {
      if IsSessionActive(id) then sessionLastActivity[id := now] else sessionLastActivity
    }

    /** The handler call `dispatchEvent` makes now, if any. */
    function DeliveredNow(id: string, n: Notice): seq<Delivery>
      reads this
    {
      if IsSessionActive(id) then Deliveries(id, activeSessions[id].responseHandlers, [n]) else []
    }

    /** `registerEventHandler`: works on inactive sessions too. */
    method RegisterEventHandler(id: string, eventType: string, handler: Handler, now: int)
      requires Valid()
      modifies this
      ensures Valid()
      ensures id in old(activeSessions) ==>
        activeSessions == old(activeSessions)[id := old(activeSessions)[id].(responseHandlers := old(activeSessions)[id].responseHandlers[eventType := handler])]
        && sessionLastActivity == old(sessionLastActivity)[id := now]
      ensures id !in old(activeSessions) ==> activeSessions == old(activeSessions) && sessionLastActivity == old(sessionLastActivity)
      ensures sessionCleanupInProgress == old(sessionCleanupInProgress) && deliveries == old(deliveries)
    {
      if id in activeSessions {
        var s := activeSessions[id];
        activeSessions := activeSessions[id := s.(responseHandlers := s.responseHandlers[eventType := handler])];
        sessionLastActivity := sessionLastActivity[id := now];
      }
    }

    /** `unregisterEventHandler`. */
    method UnregisterEventHandler(id: string, eventType: string, now: int)
      requires Valid()
      modifies this
      ensures Valid()
      ensures id in old(activeSessions) ==>
        activeSessions == old(activeSessions)[id := old(activeSessions)[id].(responseHandlers := old(activeSessions)[id].responseHandlers - {eventType})]
        && sessionLastActivity == old(sessionLastActivity)[id := now]
      ensures id !in old(activeSessions) ==> activeSessions == old(activeSessions) && sessionLastActivity == old(sessionLastActivity)
      ensures sessionCleanupInProgress == old(sessionCleanupInProgress) && deliveries == old(deliveries)
    {
      if id in activeSessions {
        var s := activeSessions[id];
        activeSessions := activeSessions[id := s.(responseHandlers := s.responseHandlers - {eventType})];
        sessionLastActivity := sessionLastActivity[id := now];
      }
    }

    /** `dispatchEvent`: calls the handler registered for the type, only
        for an active session. A handler's exception is caught and has no
        effect here. */
    method DispatchEvent(id: string, eventType: string, data: EventData, now: int)
      requires Valid()
      modifies this
      ensures Valid()
      ensures deliveries == old(deliveries) + old(DeliveredNow(id, Notice(eventType, data)))
      ensures sessionLastActivity == old(Touched(id, now))
      ensures activeSessions == old(activeSessions) && sessionCleanupInProgress == old(sessionCleanupInProgress)
    {
      if id in activeSessions && activeSessions[id].isActive {
        sessionLastActivity := sessionLastActivity[id := now];
        var handlers := activeSessions[id].responseHandlers;
        if eventType in handlers {
          deliveries := deliveries + [Delivery(id, eventType, handlers[eventType], data)];
        }
      }
    }

    /** `createNewSession`: refuses a registered id; otherwise registers a
        fresh active session (starting the model stream is not modelled). */
    method CreateNewSession(id: string, freshAudioContentId: string, now: int) returns (r: Result<string, string>)
      requires Valid()
      modifies this
      ensures Valid()
      ensures id in old(activeSessions) ==>
        (r == Err("Session with ID " + id + " already exists")
         && activeSessions == old(activeSessions) && sessionLastActivity == old(sessionLastActivity))
      ensures id !in old(activeSessions) ==>
        (r == Ok(id)
         && activeSessions == old(activeSessions)[id := NewSession(freshAudioContentId)]
         && sessionLastActivity == old(sessionLastActivity)[id := now])
      ensures sessionCleanupInProgress == old(sessionCleanupInProgress) && deliveries == old(deliveries)
    {
      if id in activeSessions {
        return Err("Session with ID " + id + " already exists");
      }
      activeSessions := activeSessions[id := NewSession(freshAudioContentId)];
      sessionLastActivity := sessionLastActivity[id := now];
      return Ok(id);
    }

    /** `removeSessionData`. */
    method RemoveSessionData(id: string)
      requires Valid()
      modifies this
      ensures Valid()
      ensures activeSessions == old(activeSessions) - {id} && sessionLastActivity == old(sessionLastActivity) - {id}
      ensures sessionCleanupInProgress == old(sessionCleanupInProgress) && deliveries == old(deliveries)
    {
      activeSessions := activeSessions - {id};
      sessionLastActivity := sessionLastActivity - {id};
    }

    /** `getSessionData`: the session if it is active, stamping its activity. */
    method GetSessionData(id: string, now: int) returns (s: Option<SessionData>)
      requires Valid()
      modifies this
      ensures Valid()
      ensures s.Some? <==> old(IsSessionActive(id))
      ensures s.Some? ==> id in activeSessions && s.value == activeSessions[id]
      ensures sessionLastActivity == old(Touched(id, now))
      ensures activeSessions == old(activeSessions) && sessionCleanupInProgress == old(sessionCleanupInProgress)
      ensures deliveries == old(deliveries)
    {
      if id !in activeSessions || !activeSessions[id].isActive {
        return None;
      }
      sessionLastActivity := sessionLastActivity[id := now];
      return Some(activeSessions[id]);
    }

    /** `enqueueEvent`: appends to the queue of an active session only. */
    method EnqueueEvent(id: string, e: InputEvent, now: int)
      requires Valid()
      modifies this
      ensures Valid()
      ensures old(IsSessionActive(id)) ==> activeSessions == old(activeSessions)[id := Enqueue(old(activeSessions)[id], e)]
      ensures !old(IsSessionActive(id)) ==> activeSessions == old(activeSessions)
      ensures sessionLastActivity == old(Touched(id, now))
      ensures sessionCleanupInProgress == old(sessionCleanupInProgress) && deliveries == old(deliveries)
    {
      var s := GetSessionData(id, now);
      if s.Some? {
        activeSessions := activeSessions[id := Enqueue(s.value, e)];
        sessionLastActivity := sessionLastActivity[id := now];
      }
    }

    /** `setupPromptStartEvent`. */
    method SetupPromptStartEvent(id: string, freshPromptId: string, now: int)
      requires Valid()
      modifies this
      ensures Valid()
      ensures old(IsSessionActive(id)) ==> activeSessions == old(activeSessions)[id := StartPrompt(old(activeSessions)[id], freshPromptId)]
      ensures !old(IsSessionActive(id)) ==> activeSessions == old(activeSessions)
      ensures sessionLastActivity == old(Touched(id, now))
      ensures sessionCleanupInProgress == old(sessionCleanupInProgress) && deliveries == old(deliveries)
    {
      var s := GetSessionData(id, now);
      if s.Some? {
        activeSessions := activeSessions[id := StartPrompt(s.value, freshPromptId)];
      }
    }

    /** `setupSystemPromptEvent`. */
    method SetupSystemPromptEvent(id: string, systemPrompt: string, now: int)
      requires Valid()
      modifies this
      ensures Valid()
      ensures old(IsSessionActive(id)) ==> activeSessions == old(activeSessions)[id := SystemPrompt(old(activeSessions)[id], systemPrompt)]
      ensures !old(IsSessionActive(id)) ==> activeSessions == old(activeSessions)
      ensures sessionLastActivity == old(Touched(id, now))
      ensures sessionCleanupInProgress == old(sessionCleanupInProgress) && deliveries == old(deliveries)
    {
      var s := GetSessionData(id, now);
      if s.Some? {
        activeSessions := activeSessions[id := SystemPrompt(s.value, systemPrompt)];
      }
    }

    /** `setupHistoryEventForConversationResumption`. */
    method SetupHistoryEvent(id: string, content: string, role: string, now: int)
      requires Valid()
      modifies this
      ensures Valid()
      ensures old(IsSessionActive(id)) ==> activeSessions == old(activeSessions)[id := History(old(activeSessions)[id], content, role)]
      ensures !old(IsSessionActive(id)) ==> activeSessions == old(activeSessions)
      ensures sessionLastActivity == old(Touched(id, now))
      ensures sessionCleanupInProgress == old(sessionCleanupInProgress) && deliveries == old(deliveries)
    {
      var s := GetSessionData(id, now);
      if s.Some? {
        activeSessions := activeSessions[id := History(s.value, content, role)];
      }
    }

    /** `setupStartAudioEvent`. */
    method SetupStartAudioEvent(id: string, now: int)
      requires Valid()
      modifies this
      ensures Valid()
      ensures old(IsSessionActive(id)) ==> activeSessions == old(activeSessions)[id := StartAudio(old(activeSessions)[id])]
      ensures !old(IsSessionActive(id)) ==> activeSessions == old(activeSessions)
      ensures sessionLastActivity == old(Touched(id, now))
      ensures sessionCleanupInProgress == old(sessionCleanupInProgress) && deliveries == old(deliveries)
    {
      var s := GetSessionData(id, now);
      if s.Some? {
        activeSessions := activeSessions[id := StartAudio(s.value)];
      }
    }

    /** `streamAudioChunk`. */
    method StreamAudioChunk(id: string, audio: AudioData, now: int)
      requires Valid()
      modifies this
      ensures Valid()
      ensures old(IsSessionActive(id)) ==> activeSessions == old(activeSessions)[id := AudioChunk(old(activeSessions)[id], audio)]
      ensures !old(IsSessionActive(id)) ==> activeSessions == old(activeSessions)
      ensures sessionLastActivity == old(Touched(id, now))
      ensures sessionCleanupInProgress == old(sessionCleanupInProgress) && deliveries == old(deliveries)
    {
      var s := GetSessionData(id, now);
      if s.Some? {
        activeSessions := activeSessions[id := AudioChunk(s.value, audio)];
      }
    }

    /** `sendContentEnd`: the next audio content gets a fresh id. */
    method SendContentEnd(id: string, freshContentId: string, now: int)
      requires Valid()
      requires id in activeSessions ==> freshContentId != activeSessions[id].audioContentId
      modifies this
      ensures Valid()
      ensures old(IsSessionActive(id)) ==> activeSessions == old(activeSessions)[id := ContentEnd(old(activeSessions)[id], freshContentId)]
      ensures !old(IsSessionActive(id)) ==> activeSessions == old(activeSessions)
      ensures sessionLastActivity == old(Touched(id, now))
      ensures sessionCleanupInProgress == old(sessionCleanupInProgress) && deliveries == old(deliveries)
    {
      var s := GetSessionData(id, now);
      if s.Some? {
        activeSessions := activeSessions[id := ContentEnd(s.value, freshContentId)];
      }
    }

    /** `sendPromptEnd`. */
    method SendPromptEnd(id: string, now: int)
      requires Valid()
      modifies this
      ensures Valid()
      ensures old(IsSessionActive(id)) ==> activeSessions == old(activeSessions)[id := PromptEnd(old(activeSessions)[id])]
      ensures !old(IsSessionActive(id)) ==> activeSessions == old(activeSessions)
      ensures sessionLastActivity == old(Touched(id, now))
      ensures sessionCleanupInProgress == old(sessionCleanupInProgress) && deliveries == old(deliveries)
    {
      var s := GetSessionData(id, now);
      if s.Some? {
        activeSessions := activeSessions[id := PromptEnd(s.value)];
      }
    }

    /** `sendToolResult`. */
    method SendToolResult(id: string, toolUseId: string, result: ToolResponse, now: int)
      requires Valid()
      modifies this
      ensures Valid()
      ensures old(IsSessionActive(id)) ==> activeSessions == old(activeSessions)[id := Enqueue(old(activeSessions)[id], ToolResultEvent(toolUseId, result))]
      ensures !old(IsSessionActive(id)) ==> activeSessions == old(activeSessions)
      ensures sessionLastActivity == old(Touched(id, now))
      ensures sessionCleanupInProgress == old(sessionCleanupInProgress) && deliveries == old(deliveries)
    {
      EnqueueEvent(id, ToolResultEvent(toolUseId, result), now);
    }

    /** `sendToolError`. */
    method SendToolError(id: string, toolUseId: string, message: string, now: int)
      requires Valid()
      modifies this
      ensures Valid()
      ensures old(IsSessionActive(id)) ==> activeSessions == old(activeSessions)[id := Enqueue(old(activeSessions)[id], ToolErrorEvent(toolUseId, message))]
      ensures !old(IsSessionActive(id)) ==> activeSessions == old(activeSessions)
      ensures sessionLastActivity == old(Touched(id, now))
      ensures sessionCleanupInProgress == old(sessionCleanupInProgress) && deliveries == old(deliveries)
    {
      EnqueueEvent(id, ToolErrorEvent(toolUseId, message), now);
    }

    /** `sendSessionEnd`: forgets the session, active or not; nothing
        happens for an unknown id. */
    method SendSessionEnd(id: string)
      requires Valid()
      modifies this
      ensures Valid()
      ensures id !in activeSessions && id !in sessionLastActivity
      ensures activeSessions == old(activeSessions) - {id} && sessionLastActivity == old(sessionLastActivity) - {id}
      ensures id !in old(activeSessions) ==> activeSessions == old(activeSessions)
      ensures sessionCleanupInProgress == old(sessionCleanupInProgress) && deliveries == old(deliveries)
    {
      if id !in activeSessions {
        return;
      }
      if activeSessions[id].isActive {
        activeSessions := activeSessions[id := activeSessions[id].(isActive := false)];
      }
      activeSessions := activeSessions[id := activeSessions[id].(queue := [], responseHandlers := map[])];
      RemoveSessionData(id);
    }

    /** `cleanupInactiveSessions`, one sweep: every session idle for more
        than 30 minutes and not already being cleaned up is closed and
        forgotten; every other session is left as it was. */
    method CleanupInactiveSessions(now: int)
      requires Valid()
      modifies this
      ensures Valid()
      ensures forall id :: id in activeSessions <==>
        id in old(activeSessions) && !Expired(old(sessionLastActivity), old(sessionCleanupInProgress), id, now)
      ensures forall id :: id in activeSessions ==>
        activeSessions[id] == old(activeSessions)[id] && sessionLastActivity[id] == old(sessionLastActivity)[id]
      ensures sessionCleanupInProgress == old(sessionCleanupInProgress) && deliveries == old(deliveries)
    {
      ghost var sessions0 := activeSessions;
      ghost var activity0 := sessionLastActivity;
      var pending := sessionLastActivity.Keys;
      while pending != {}
        invariant Valid()
        invariant pending <= activity0.Keys
        invariant forall id :: id in pending ==> id in activeSessions
        invariant forall id :: id in activeSessions <==>
          id in sessions0 && (id in pending || !Expired(activity0, sessionCleanupInProgress, id, now))
        invariant forall id :: id in activeSessions ==>
          activeSessions[id] == sessions0[id] && sessionLastActivity[id] == activity0[id]
        invariant sessionCleanupInProgress == old(sessionCleanupInProgress) && deliveries == old(deliveries)
        decreases pending
      {
        var id :| id in pending;
        pending := pending - {id};
        if now - sessionLastActivity[id] > InactivityThresholdMs && id !in sessionCleanupInProgress {
          sessionCleanupInProgress := sessionCleanupInProgress + {id};
          if IsSessionActive(id) {
            SendSessionEnd(id);
          } else {
            RemoveSessionData(id);
          }
          sessionCleanupInProgress := sessionCleanupInProgress - {id};
        }
      }
    }

    /** The drain step of `createInputStream`: everything queued for an
        active session is sent, oldest first, and the queue is left empty. */
    method DrainQueue(id: string) returns (sent: seq<InputEvent>)
      requires Valid()
      modifies this
      ensures Valid()
      ensures old(IsSessionActive(id)) ==>
        (sent == old(activeSessions)[id].queue
         && activeSessions == old(activeSessions)[id := old(activeSessions)[id].(queue := [])])
      ensures !old(IsSessionActive(id)) ==> sent == [] && activeSessions == old(activeSessions)
      ensures sessionLastActivity == old(sessionLastActivity)
      ensures sessionCleanupInProgress == old(sessionCleanupInProgress) && deliveries == old(deliveries)
    {
      sent := [];
      if !IsSessionActive(id) {
        return;
      }
      while |activeSessions[id].queue| > 0
        invariant id in activeSessions
        invariant sent + activeSessions[id].queue == old(activeSessions)[id].queue
        invariant activeSessions == old(activeSessions)[id := old(activeSessions)[id].(queue := activeSessions[id].queue)]
        invariant sessionLastActivity == old(sessionLastActivity)
        invariant sessionCleanupInProgress == old(sessionCleanupInProgress) && deliveries == old(deliveries)
        decreases |activeSessions[id].queue|
      {
        var s := activeSessions[id];
        sent := sent + [s.queue[0]];
        assert sent + s.queue[1..] == old(activeSessions)[id].queue by {
          assert s.queue == [s.queue[0]] + s.queue[1..];
        }
        activeSessions := activeSessions[id := s.(queue := s.queue[1..])];
      }
    }

    /** The `dispatchEvent` calls one inbound event causes, made in order
        on an active session. */
    method DispatchAll(id: string, notices: seq<Notice>, now: int)
      requires Valid() && IsSessionActive(id)
      modifies this
      ensures Valid() && IsSessionActive(id)
      ensures deliveries == old(deliveries) + Deliveries(id, old(activeSessions)[id].responseHandlers, notices)
      ensures activeSessions == old(activeSessions) && sessionLastActivity == old(sessionLastActivity)[id := now]
      ensures sessionCleanupInProgress == old(sessionCleanupInProgress)
    {
      var h := activeSessions[id].responseHandlers;
      sessionLastActivity := sessionLastActivity[id := now];
      var i := 0;
      while i < |notices|
        invariant 0 <= i <= |notices|
        invariant Valid() && activeSessions == old(activeSessions)
        invariant sessionLastActivity == old(sessionLastActivity)[id := now]
        invariant sessionCleanupInProgress == old(sessionCleanupInProgress)
        invariant deliveries == old(deliveries) + Deliveries(id, h, notices[..i])
      {
        DispatchEvent(id, notices[i].eventType, notices[i].data, now);
        DeliveriesAppend(id, h, notices[..i], [notices[i]]);
        assert notices[..i + 1] == notices[..i] + [notices[i]];
        i := i + 1;
      }
      assert notices[..i] == notices;
    }

    /** One inbound event of `processOutputStream` for an active session:
        its notifications go to the registered handlers and the tool branch
        updates the session (a finished tool use has its answer queued by
        `sendToolResult`). */
    method ProcessOutputEvent(id: string, e: OutputEvent, env: ToolEnv, now: int)
      requires Valid() && IsSessionActive(id)
      modifies this
      ensures Valid() && IsSessionActive(id)
      ensures activeSessions == old(activeSessions)[id := AfterEvent(old(activeSessions)[id], e, env)]
      ensures sessionLastActivity == old(sessionLastActivity)[id := now]
      ensures deliveries == old(deliveries)
        + Deliveries(id, old(activeSessions)[id].responseHandlers, Notifications(old(activeSessions)[id], e, env))
      ensures sessionCleanupInProgress == old(sessionCleanupInProgress)
    {
      var s := activeSessions[id];
      DispatchAll(id, Notifications(s, e, env), now);
      activeSessions := activeSessions[id := AfterEvent(s, e, env)];
    }

    /** The `finally` block of `processOutputStream` as written: the session
        is marked inactive before 'streamEndedUnexpectedly' is dispatched,
        and `dispatchEvent` ignores inactive sessions, so no handler is
        ever told. */
    method EndStreamAsWritten(id: string, now: int)
      requires Valid()
      modifies this
      ensures Valid()
      ensures !IsSessionActive(id)
      ensures deliveries == old(deliveries)
      ensures old(IsSessionActive(id)) ==> activeSessions == old(activeSessions)[id := old(activeSessions)[id].(isActive := false)]
      ensures !old(IsSessionActive(id)) ==> activeSessions == old(activeSessions)
      ensures sessionLastActivity == old(sessionLastActivity) && sessionCleanupInProgress == old(sessionCleanupInProgress)
    {
      if id in activeSessions && activeSessions[id].isActive {
        activeSessions := activeSessions[id := activeSessions[id].(isActive := false)];
        DispatchEvent(id, "streamEndedUnexpectedly", NoData, now);
      }
    }

    /** The `finally` block with the notification sent while the session is
        still active, so a registered handler hears of the unexpected end. */
    method EndStream(id: string, now: int)
      requires Valid()
      modifies this
      ensures Valid()
      ensures !IsSessionActive(id)
      ensures deliveries == old(deliveries) + old(DeliveredNow(id, Notice("streamEndedUnexpectedly", NoData)))
      ensures old(IsSessionActive(id)) && "streamEndedUnexpectedly" in old(activeSessions)[id].responseHandlers ==>
        |deliveries| == |old(deliveries)| + 1
      ensures old(IsSessionActive(id)) ==> activeSessions == old(activeSessions)[id := old(activeSessions)[id].(isActive := false)]
      ensures !old(IsSessionActive(id)) ==> activeSessions == old(activeSessions)
      ensures sessionLastActivity == old(Touched(id, now)) && sessionCleanupInProgress == old(sessionCleanupInProgress)
    {
      if id in activeSessions && activeSessions[id].isActive {
        DispatchEvent(id, "streamEndedUnexpectedly", NoData, now);
        activeSessions := activeSessions[id := activeSessions[id].(isActive := false)];
      }
    }

    /** The event loop of `processOutputStream`: each event is handled in
        turn while the session stays active, which inbound events never
        change. */
    method ProcessEvents(id: string, events: seq<OutputEvent>, env: ToolEnv, now: int)
      requires Valid() && IsSessionActive(id)
      modifies this
      ensures Valid() && IsSessionActive(id)
      ensures activeSessions == old(activeSessions)[id := RunEvents(old(activeSessions)[id], events, env)]
      ensures deliveries == old(deliveries)
        + Deliveries(id, old(activeSessions)[id].responseHandlers, RunNotices(old(activeSessions)[id], events, env))
      ensures sessionLastActivity == if events == [] then old(sessionLastActivity) else old(sessionLastActivity)[id := now]
      ensures sessionCleanupInProgress == old(sessionCleanupInProgress)
    {
      ghost var s0 := activeSessions[id];
      ghost var h := s0.responseHandlers;
      var i := 0;
      while i < |events|
        invariant 0 <= i <= |events|
        invariant Valid() && IsSessionActive(id)
        invariant activeSessions == old(activeSessions)[id := RunEvents(s0, events[..i], env)]
        invariant deliveries == old(deliveries) + Deliveries(id, h, RunNotices(s0, events[..i], env))
        invariant sessionLastActivity == if i == 0 then old(sessionLastActivity) else old(sessionLastActivity)[id := now]
        invariant sessionCleanupInProgress == old(sessionCleanupInProgress)
        decreases |events| - i
      {
        ghost var current := RunEvents(s0, events[..i], env);
        ghost var earlier := Deliveries(id, h, RunNotices(s0, events[..i], env));
        ghost var activity := sessionLastActivity;
        RunEventsKeeps(s0, events[..i], env);
        ProcessOutputEvent(id, events[i], env, now);
        ghost var added := Deliveries(id, h, Notifications(current, events[i], env));
        RunStep(s0, events, i, env);
        UpdateOverride(old(activeSessions), id, current, RunEvents(s0, events[..i + 1], env));
        UpdateOverride(old(sessionLastActivity), id, now, now);
        RunDeliveriesStep(id, h, s0, events, i, env);
        AppendAssoc(old(deliveries), earlier, added);
        i := i + 1;
      }
      assert events[..i] == events;
    }

    /** What follows the event loop of `processOutputStream` on a session
        still active: an error is reported and ends the session, or else the
        `finally` block marks the session inactive before it dispatches
        'streamEndedUnexpectedly', so that notice reaches no handler. */
    method FinishStream(id: string, streamError: Option<string>, now: int)
      requires Valid() && IsSessionActive(id)
      modifies this
      ensures Valid() && !IsSessionActive(id)
      ensures streamError.Some? ==>
        activeSessions == old(activeSessions) - {id} && sessionLastActivity == old(sessionLastActivity) - {id}
        && deliveries == old(deliveries)
           + Deliveries(id, old(activeSessions)[id].responseHandlers, [Notice("streamError", StreamErrorInfo(streamError.value))])
      ensures streamError.None? ==>
        activeSessions == old(activeSessions)[id := old(activeSessions)[id].(isActive := false)]
        && sessionLastActivity == old(sessionLastActivity)
        && deliveries == old(deliveries)
      ensures sessionCleanupInProgress == old(sessionCleanupInProgress)
    {
      if streamError.Some? {
        DispatchEvent(id, "streamError", StreamErrorInfo(streamError.value), now);
        if IsSessionActive(id) {
          SendSessionEnd(id);
        }
        UpdateThenRemove(old(sessionLastActivity), id, now);
      }
      EndStreamAsWritten(id, now);
    }

    /** `processOutputStream` over a finite inbound stream that may end with
        an error: every event is handled, then an error is reported and ends
        the session, or else the session is marked inactive and, as the
        `finally` block is written, no handler hears of the stream's end. */
    method ProcessOutputStream(id: string, events: seq<OutputEvent>, streamError: Option<string>,
                               env: ToolEnv, now: int)
      requires Valid()
      modifies this
      ensures Valid()
      ensures !IsSessionActive(id)
      ensures !old(IsSessionActive(id)) ==>
        activeSessions == old(activeSessions) && sessionLastActivity == old(sessionLastActivity) && deliveries == old(deliveries)
      ensures old(IsSessionActive(id)) && streamError.Some? ==>
        activeSessions == old(activeSessions) - {id} && sessionLastActivity == old(sessionLastActivity) - {id}
        && deliveries == old(deliveries)
           + Deliveries(id, old(activeSessions)[id].responseHandlers,
                        RunNotices(old(activeSessions)[id], events, env)
                        + [Notice("streamError", StreamErrorInfo(streamError.value))])
      ensures old(IsSessionActive(id)) && streamError.None? ==>
        activeSessions == old(activeSessions)[id := RunEvents(old(activeSessions)[id], events, env).(isActive := false)]
        && sessionLastActivity == old(sessionLastActivity)[id := now]
        && deliveries == old(deliveries)
           + Deliveries(id, old(activeSessions)[id].responseHandlers, RunNotices(old(activeSessions)[id], events, env))
      ensures sessionCleanupInProgress == old(sessionCleanupInProgress)
    {
      var start := GetSessionData(id, now);
      if start.None? {
        return;
      }
      ghost var s0 := start.value;
      ProcessEvents(id, events, env, now);
      UpdateOverride(old(sessionLastActivity), id, now, now);
      RunEventsKeeps(s0, events, env);
      ghost var notices := RunNotices(s0, events, env);
      ghost var run := RunEvents(s0, events, env);
      FinishStream(id, streamError, now);
      if streamError.Some? {
        ghost var n := Notice("streamError", StreamErrorInfo(streamError.value));
        DeliveriesAppend(id, s0.responseHandlers, notices, [n]);
        AppendAssoc(old(deliveries), Deliveries(id, s0.responseHandlers, notices), Deliveries(id, s0.responseHandlers, [n]));
        UpdateThenRemove(old(activeSessions), id, run);
        UpdateThenRemove(old(sessionLastActivity), id, now);
      } else {
        UpdateOverride(old(activeSessions), id, run, run.(isActive := false));
      }
    }
  }
}
