/** The second version of the streaming client (dist/client.js).
    `StreamSession` is the per-conversation handle: it buffers microphone
    audio (at most 200 chunks, dropping the oldest) and forwards it in
    batches of at most 5. `NovaSonicBidirectionalStreamClient` is the
    registry of sessions: each has a FIFO queue of outbound protocol events
    read by the request iterator, the prompt/audio flags, the tool use last
    announced by the model, and the handlers that inbound events are
    dispatched to (first the handler for the event type, then the 'any'
    handler). Handlers are outside code: a call to one is recorded in the
    `deliveries` log and has no other effect, and an exception it throws is
    caught, so it never stops a later call. The clock (`now`), fresh ids and
    the answers of the two client-side tools are parameters. */
module StreamClient {
  import opened Common

  /** `maxQueueSize` of the audio buffer. */
  const MaxQueueSize: nat := 200

  /** `maxChunksPerBatch` of one `processAudioQueue` pass. */
  const MaxChunksPerBatch: nat := 5

  /** The tools announced in the prompt start event. */
  const AnnouncedTools: seq<string> := ["getDateAndTimeTool", "getWeatherTool"]

  /** Outbound protocol events, without their JSON framing. */
  datatype ClientEvent =
    | SessionStart
    | PromptStart(promptName: string, tools: seq<string>)
    | TextContentStart(promptName: string, contentName: string)
    | TextInput(promptName: string, contentName: string, content: string)
    | AudioContentStart(promptName: string, contentName: string)
    | AudioInput(promptName: string, contentName: string, audio: AudioData)
    | ToolContentStart(promptName: string, contentName: string, toolUseId: string)
    | ToolResultInput(promptName: string, contentName: string, content: string)
    | ContentEnd(promptName: string, contentName: string)
    | PromptEnd(promptName: string)
    | SessionEnd

  /** A field of a parsed inbound event: falsy (absent or null), or an
      object with the members the client reads. */
  datatype FieldValue =
    | Falsy
    | Obj(fieldType: string, toolUseId: string, toolName: string, content: string)

  /** The `event` object of an inbound chunk: its keys in order and their values. */
  datatype EventObject = EventObject(keys: seq<string>, fields: map<string, FieldValue>)

  /** An inbound chunk that parsed as JSON: its `event` member, if any, and
      the number of its top-level keys. */
  datatype Response = Response(event: Option<EventObject>, topLevelKeys: nat)

  /** One item of the inbound stream: a chunk with bytes (`None` when they
      are not JSON), one of the two error items, or anything else. */
  datatype StreamEvent =
    | Chunk(parsed: Option<Response>)
    | ModelStreamError
    | InternalServerError
    | OtherStreamEvent

  /** What a handler is called with. */
  datatype EventBody =
    | FieldBody(value: FieldValue)
    | WholeEvent(event: EventObject)
    | WholeResponse(response: Response)
    | ToolEndBody(toolUseContent: FieldValue, toolUseId: string, toolName: string)
    | ToolResultBody(toolUseId: string, result: string)
    | StreamErrorBody(errorType: string)
    | StreamCompleteBody
    | ResponseStreamErrorBody

  /** The argument of a handler call: the data itself, or, for the 'any'
      handler, `{type, data}`. */
  datatype Payload = Plain(body: EventBody) | Tagged(eventType: string, body: EventBody)

  /** A call of a registered handler, under the key it was found by. */
  datatype Delivery = Delivery(sessionId: string, key: string, handler: Handler, payload: Payload)

  datatype Notice = Notice(eventType: string, body: EventBody)

  /** The state kept for one session (its subjects are not modelled). */
  datatype ClientSession = ClientSession(
    queue: seq<ClientEvent>,
    responseHandlers: map<string, Handler>,
    toolUseContent: FieldValue,
    toolUseId: string,
    toolName: string,
    promptName: string,
    isActive: bool,
    isPromptStartSent: bool,
    isAudioContentStartSent: bool,
    audioContentId: string)

  /** The session `createStreamSession` registers. */
  function NewClientSession(promptName: string, audioContentId: string): (s: ClientSession)
    ensures s.isActive && !s.isPromptStartSent && !s.isAudioContentStartSent
    ensures s.queue == [] && s.responseHandlers == map[] && s.toolUseContent == Falsy
    ensures s.promptName == promptName && s.audioContentId == audioContentId
  {
    ClientSession([], map[], Falsy, "", "", promptName, true, false, false, audioContentId)
  }

  function Push(s: ClientSession, e: ClientEvent): ClientSession {
    s.(queue := s.queue + [e])
  }

  /** The sessions after `events` were offered to the queue of `id`: only
      an active session takes them. */
  function Enqueued(sessions: map<string, ClientSession>, id: string, events: seq<ClientEvent>): map<string, ClientSession> {
    if id in sessions && sessions[id].isActive
    then sessions[id := sessions[id].(queue := sessions[id].queue + events)]
    else sessions
  }

  lemma EnqueuedNothing(sessions: map<string, ClientSession>, id: string)
    ensures Enqueued(sessions, id, []) == sessions
  {
    if id in sessions && sessions[id].isActive {
      assert sessions[id].(queue := sessions[id].queue + []) == sessions[id];
    }
  }

  lemma EnqueuedConcat(sessions: map<string, ClientSession>, id: string, a: seq<ClientEvent>, b: seq<ClientEvent>)
    ensures Enqueued(Enqueued(sessions, id, a), id, b) == Enqueued(sessions, id, a + b)
  {
    if id in sessions && sessions[id].isActive {
      assert sessions[id].queue + a + b == sessions[id].queue + (a + b);
    }
  }

  /** The activity times after an offer to the queue of `id`: an active
      session is stamped with `now`. */
  function Stamped(times: map<string, int>, sessions: map<string, ClientSession>, id: string, now: int): map<string, int> {
    if id in sessions && sessions[id].isActive then times[id := now] else times
  }

  lemma StampedTwice(times: map<string, int>, sessions: map<string, ClientSession>, id: string, now: int, events: seq<ClientEvent>)
    ensures Stamped(Stamped(times, sessions, id, now), Enqueued(sessions, id, events), id, now) == Stamped(times, sessions, id, now)
  {
    if id in sessions && sessions[id].isActive {
      assert times[id := now][id := now] == times[id := now];
    }
  }

  // ---------------------------------------------------------------------
  // The audio buffer of StreamSession

  /** The buffer after `streamAudio` has queued one chunk: when full, the
      oldest chunk is dropped first. */
  function Buffered(buffer: seq<AudioData>, chunk: AudioData): (r: seq<AudioData>)
    ensures |r| == if |buffer| >= MaxQueueSize then |buffer| else |buffer| + 1
    ensures |buffer| <= MaxQueueSize ==> |r| <= MaxQueueSize
    ensures |buffer| < MaxQueueSize ==> r == buffer + [chunk]
    ensures r[|r| - 1] == chunk
  {
    (if |buffer| >= MaxQueueSize then buffer[1..] else buffer) + [chunk]
  }

  /** The newest `n` items of `s`, in order. */
  function Newest<T>(s: seq<T>, n: nat): (r: seq<T>)
    ensures |r| == if |s| < n then |s| else n
    ensures r == s[|s| - |r|..]
  {
    if |s| <= n then s else s[|s| - n..]
  }

  /** The buffer after several chunks were queued while no pass ran. */
  function BufferAll(buffer: seq<AudioData>, chunks: seq<AudioData>): seq<AudioData>
    decreases |chunks|
  {
    if chunks == [] then buffer else BufferAll(Buffered(buffer, chunks[0]), chunks[1..])
  }

  lemma NewestStep<T>(s: seq<T>, x: T, n: nat)
    requires n > 0 && |s| <= n
    ensures Newest(s + [x], n) == (if |s| >= n then s[1..] else s) + [x]
  {
    if |s| >= n {
      assert (s + [x])[|s + [x]| - n..] == s[1..] + [x];
    }
  }

  /** Dropping a prefix that leaves at least `n` items keeps the newest `n`. */
  lemma NewestOfSuffix<T>(u: seq<T>, d: nat, n: nat)
    requires d <= |u| && (d == 0 || |u| - d >= n)
    ensures Newest(u[d..], n) == Newest(u, n)
  {
    if d == 0 {
      assert u[d..] == u;
    } else {
      assert u[d..][|u| - d - n..] == u[|u| - n..];
    }
  }

  lemma NewestNewest<T>(s: seq<T>, t: seq<T>, n: nat)
    ensures Newest(Newest(s, n) + t, n) == Newest(s + t, n)
  {
    var a := Newest(s, n);
    var d := |s| - |a|;
    assert a + t == (s + t)[d..];
    NewestOfSuffix(s + t, d, n);
  }

  /** A full buffer keeps the 200 most recent chunks, oldest first: queueing
      any run of chunks leaves exactly the newest ones of everything queued. */
  lemma {:induction false} BufferAllKeepsNewest(buffer: seq<AudioData>, chunks: seq<AudioData>)
    requires |buffer| <= MaxQueueSize
    ensures BufferAll(buffer, chunks) == Newest(buffer + chunks, MaxQueueSize)
    ensures |BufferAll(buffer, chunks)| <= MaxQueueSize
    decreases |chunks|
  {
    if chunks == [] {
      assert buffer + chunks == buffer;
    } else {
      var b1 := Buffered(buffer, chunks[0]);
      NewestStep(buffer, chunks[0], MaxQueueSize);
      assert b1 == Newest(buffer + [chunks[0]], MaxQueueSize);
      BufferAllKeepsNewest(b1, chunks[1..]);
      NewestNewest(buffer + [chunks[0]], chunks[1..], MaxQueueSize);
      assert buffer + [chunks[0]] + chunks[1..] == buffer + chunks;
    }
  }

  /** The audio input events for a run of chunks, in order. */
  function AudioInputs(promptName: string, contentName: string, chunks: seq<AudioData>): (r: seq<ClientEvent>)
    ensures |r| == |chunks|
    ensures forall i :: 0 <= i < |chunks| ==> r[i] == AudioInput(promptName, contentName, chunks[i])
  {
    seq(|chunks|, i requires 0 <= i < |chunks| => AudioInput(promptName, contentName, chunks[i]))
  }

  /** The sessions after `chunks` were queued as audio input of session `id`. */
  function Forwarded(sessions: map<string, ClientSession>, id: string, chunks: seq<AudioData>): map<string, ClientSession>
    requires id in sessions
  {
    var s := sessions[id];
    sessions[id := s.(queue := s.queue + AudioInputs(s.promptName, s.audioContentId, chunks))]
  }

  lemma ForwardedNothing(sessions: map<string, ClientSession>, id: string)
    requires id in sessions
    ensures Forwarded(sessions, id, []) == sessions
  {
    var s := sessions[id];
    assert s.(queue := s.queue + AudioInputs(s.promptName, s.audioContentId, [])) == s;
  }

  lemma ForwardedStep(sessions: map<string, ClientSession>, id: string, chunks: seq<AudioData>, k: nat)
    requires id in sessions && k < |chunks|
    ensures var m := Forwarded(sessions, id, chunks[..k]);
      Forwarded(sessions, id, chunks[..k + 1])
        == m[id := Push(m[id], AudioInput(m[id].promptName, m[id].audioContentId, chunks[k]))]
  {
    var s := sessions[id];
    var a := AudioInputs(s.promptName, s.audioContentId, chunks[..k]);
    assert AudioInputs(s.promptName, s.audioContentId, chunks[..k + 1]) == a + [AudioInput(s.promptName, s.audioContentId, chunks[k])];
    assert s.queue + a + [AudioInput(s.promptName, s.audioContentId, chunks[k])]
      == s.queue + (a + [AudioInput(s.promptName, s.audioContentId, chunks[k])]);
  }

  /** How many chunks one `processAudioQueue` pass takes off the buffer:
      none when it may not run, up to 5 when the client accepts audio, and
      one (the chunk whose send throws) when it does not. */
  function Consumed(size: nat, mayRun: bool, accepted: bool): (k: nat)
    ensures k <= size && k <= MaxChunksPerBatch
    ensures mayRun && accepted ==> k == if size < MaxChunksPerBatch then size else MaxChunksPerBatch
    ensures !mayRun || size == 0 ==> k == 0
  {
    if !mayRun || size == 0 then 0
    else if !accepted then 1
    else if size < MaxChunksPerBatch then size
    else MaxChunksPerBatch
  }

  // ---------------------------------------------------------------------
  // Handler dispatch

  /** The handler calls `dispatchEvent` makes: the handler registered for
      the type with the data, then the 'any' handler with `{type, data}`
      (so an 'any' event reaches the 'any' handler twice). */
  function Dispatched(sessionId: string, handlers: map<string, Handler>, eventType: string, body: EventBody): (r: seq<Delivery>)
    ensures |r| == (if eventType in handlers then 1 else 0) + (if "any" in handlers then 1 else 0)
    ensures eventType in handlers ==> r[0] == Delivery(sessionId, eventType, handlers[eventType], Plain(body))
    ensures "any" in handlers ==> r[|r| - 1] == Delivery(sessionId, "any", handlers["any"], Tagged(eventType, body))
  {
    (if eventType in handlers then [Delivery(sessionId, eventType, handlers[eventType], Plain(body))] else [])
    + (if "any" in handlers then [Delivery(sessionId, "any", handlers["any"], Tagged(eventType, body))] else [])
  }

  /** The handler calls for a run of notices, in order. */
  function DispatchedAll(sessionId: string, handlers: map<string, Handler>, notices: seq<Notice>): (r: seq<Delivery>)
    ensures |r| <= 2 * |notices|
  {
    if notices == [] then []
    else
      Dispatched(sessionId, handlers, notices[0].eventType, notices[0].body)
      + DispatchedAll(sessionId, handlers, notices[1..])
  }

  lemma {:induction false} DispatchedAllAppend(sessionId: string, handlers: map<string, Handler>, a: seq<Notice>, b: seq<Notice>)
    ensures DispatchedAll(sessionId, handlers, a + b) == DispatchedAll(sessionId, handlers, a) + DispatchedAll(sessionId, handlers, b)
  {
    if a == [] {
      assert a + b == b;
    } else {
      assert (a + b)[0] == a[0];
      assert (a + b)[1..] == a[1..] + b;
      DispatchedAllAppend(sessionId, handlers, a[1..], b);
    }
  }

  /** The handler calls for one more notice come after those of the
      notices before it. */
  lemma DispatchedAllStep(sessionId: string, handlers: map<string, Handler>, notices: seq<Notice>, i: nat)
    requires i < |notices|
    ensures DispatchedAll(sessionId, handlers, notices[..i + 1])
      == DispatchedAll(sessionId, handlers, notices[..i]) + Dispatched(sessionId, handlers, notices[i].eventType, notices[i].body)
  {
    var one := [notices[i]];
    assert notices[..i + 1] == notices[..i] + one;
    DispatchedAllAppend(sessionId, handlers, notices[..i], one);
    assert one[1..] == [];
    assert DispatchedAll(sessionId, handlers, one)
      == Dispatched(sessionId, handlers, notices[i].eventType, notices[i].body) + [];
  }

  // ---------------------------------------------------------------------
  // Tools and the classification of inbound chunks

  datatype ClientTool = DateAndTime | Weather

  /** The `processToolUse` switch on the lower-cased tool name. */
  function ToolFor(toolName: string): (r: Option<ClientTool>)
    ensures r.Some? <==> Lower(toolName) in {"getdateandtimetool", "getweathertool"}
  {
    var tool := Lower(toolName);
    if tool == "getdateandtimetool" then Some(DateAndTime)
    else if tool == "getweathertool" then Some(Weather)
    else None
  }

  lemma LowerUpper(s: string)
    ensures Lower(Upper(s)) == Lower(s)
  {
    assert forall i :: 0 <= i < |s| ==> LowerChar(UpperChar(s[i])) == LowerChar(s[i]);
  }

  /** The name dispatch ignores case. */
  lemma ToolForIgnoresCase(toolName: string)
    ensures ToolFor(Lower(toolName)) == ToolFor(toolName)
    ensures ToolFor(Upper(toolName)) == ToolFor(toolName)
  {
    LowerIdempotent(toolName);
    LowerUpper(toolName);
  }

  function Field(r: Response, key: string): FieldValue {
    if r.event.Some? && key in r.event.value.fields then r.event.value.fields[key] else Falsy
  }

  /** How `processResponseStream` reacts to a parsed chunk. */
  datatype Classification =
    | Forward(eventType: string, body: EventBody)
    | ToolUseSeen(toolUse: FieldValue)
    | ToolContentEnd
    | NoDispatch

  predicate KnownFieldPresent(r: Response) {
    Field(r, "contentStart").Obj? || Field(r, "textOutput").Obj? || Field(r, "audioOutput").Obj?
    || Field(r, "toolUse").Obj? || Field(r, "contentEnd").Obj?
  }

  /** The if/else chain over the members of `event`. */
  function Classify(r: Response): (c: Classification)
    ensures Field(r, "contentStart").Obj? ==> c == Forward("contentStart", FieldBody(Field(r, "contentStart")))
    ensures c.ToolUseSeen? ==> c.toolUse.Obj? && c.toolUse == Field(r, "toolUse")
    ensures c.ToolContentEnd? <==>
      Field(r, "contentEnd").Obj? && Field(r, "contentEnd").fieldType == "TOOL"
      && !Field(r, "contentStart").Obj? && !Field(r, "textOutput").Obj?
      && !Field(r, "audioOutput").Obj? && !Field(r, "toolUse").Obj?
    ensures c.NoDispatch? <==>
      !KnownFieldPresent(r) && (r.event.None? || r.event.value.keys == []) && r.topLevelKeys == 0
    ensures c.Forward? && !KnownFieldPresent(r) && r.event.Some? && r.event.value.keys != [] ==>
      c.eventType == r.event.value.keys[0]
  {
    if Field(r, "contentStart").Obj? then Forward("contentStart", FieldBody(Field(r, "contentStart")))
    else if Field(r, "textOutput").Obj? then Forward("textOutput", FieldBody(Field(r, "textOutput")))
    else if Field(r, "audioOutput").Obj? then Forward("audioOutput", FieldBody(Field(r, "audioOutput")))
    else if Field(r, "toolUse").Obj? then ToolUseSeen(Field(r, "toolUse"))
    else if Field(r, "contentEnd").Obj? && Field(r, "contentEnd").fieldType == "TOOL" then ToolContentEnd
    else if Field(r, "contentEnd").Obj? then Forward("contentEnd", FieldBody(Field(r, "contentEnd")))
    else if r.event.Some? && r.event.value.keys != [] then Forward(r.event.value.keys[0], WholeEvent(r.event.value))
    else if r.topLevelKeys > 0 then Forward("unknown", WholeResponse(r))
    else NoDispatch
  }

  /** The three events `sendToolResult` queues, sharing one content name. */
  function ToolResultEvents(promptName: string, contentName: string, toolUseId: string, result: string): seq<ClientEvent> {
    [ToolContentStart(promptName, contentName, toolUseId),
     ToolResultInput(promptName, contentName, result),
     ContentEnd(promptName, contentName)]
  }

  /** The tool run at the end of a tool use answers only when the name is
      a known tool and the tool did not throw. */
  predicate ToolAnswers(s: ClientSession, answer: Result<string, string>) {
    ToolFor(s.toolName).Some? && answer.Ok?
  }

  /** The handler notifications for one inbound item, in dispatch order.
      `answer` is what the tool would return (or the error it throws). */
  function ResponseNotices(s: ClientSession, e: StreamEvent, answer: Result<string, string>): (r: seq<Notice>)
    ensures |r| <= 2
  {
    match e
    case Chunk(None) => []
    case Chunk(Some(resp)) =>
      (match Classify(resp)
       case Forward(t, body) => [Notice(t, body)]
       case ToolUseSeen(v) => [Notice("toolUse", FieldBody(v))]
       case ToolContentEnd =>
         [Notice("toolEnd", ToolEndBody(s.toolUseContent, s.toolUseId, s.toolName))]
         + (if ToolAnswers(s, answer) then [Notice("toolResult", ToolResultBody(s.toolUseId, answer.value))] else [])
       case NoDispatch => [])
    case ModelStreamError => [Notice("error", StreamErrorBody("modelStreamErrorException"))]
    case InternalServerError => [Notice("error", StreamErrorBody("internalServerException"))]
    case OtherStreamEvent => []
  }

  /** The session after one inbound item: a tool use is remembered, and the
      end of a tool content queues the tool's answer. */
  function AfterResponse(s: ClientSession, e: StreamEvent, answer: Result<string, string>, freshContentId: string): (r: ClientSession)
    ensures r.isActive == s.isActive && r.isPromptStartSent == s.isPromptStartSent
    ensures r.isAudioContentStartSent == s.isAudioContentStartSent && r.audioContentId == s.audioContentId
    ensures r.responseHandlers == s.responseHandlers && r.promptName == s.promptName
  {
    match e
    case Chunk(Some(resp)) =>
      (match Classify(resp)
       case ToolUseSeen(v) => s.(toolUseContent := v, toolUseId := v.toolUseId, toolName := v.toolName)
       case ToolContentEnd =>
         if ToolAnswers(s, answer)
         then s.(queue := s.queue + ToolResultEvents(s.promptName, freshContentId, s.toolUseId, answer.value))
         else s
       case _ => s)
    case _ => s
  }

  /** A tool use announced by the model and then ended is run under the
      announced name; its answer is reported to the handlers and queued for
      the model under the announced id, and nothing is queued when the
      tool is unknown or throws. */
  lemma ToolUseRoundTrip(s: ClientSession, use: Response, end: Response, answer: Result<string, string>, id1: string, id2: string)
    requires Classify(use).ToolUseSeen? && Classify(end).ToolContentEnd?
    ensures var s1 := AfterResponse(s, Chunk(Some(use)), answer, id1);
      var v := Field(use, "toolUse");
      s1.toolUseId == v.toolUseId && s1.toolName == v.toolName
      && ResponseNotices(s1, Chunk(Some(end)), answer)[0] == Notice("toolEnd", ToolEndBody(v, v.toolUseId, v.toolName))
      && (ToolFor(v.toolName).Some? && answer.Ok? ==>
            AfterResponse(s1, Chunk(Some(end)), answer, id2).queue
              == s.queue + ToolResultEvents(s.promptName, id2, v.toolUseId, answer.value)
            && ResponseNotices(s1, Chunk(Some(end)), answer)
              == [Notice("toolEnd", ToolEndBody(v, v.toolUseId, v.toolName)),
                  Notice("toolResult", ToolResultBody(v.toolUseId, answer.value))])
      && (ToolFor(v.toolName).None? || answer.Err? ==>
            AfterResponse(s1, Chunk(Some(end)), answer, id2).queue == s.queue
            && |ResponseNotices(s1, Chunk(Some(end)), answer)| == 1)
  {
  }

  /** The session after the first `n` inbound items, each taken with the
      tool answer and fresh content id at its position. */
  function RunResponses(s: ClientSession, events: seq<StreamEvent>, answers: seq<Result<string, string>>,
                        freshIds: seq<string>, n: nat): (r: ClientSession)
    requires n <= |events| && |answers| == |events| && |freshIds| == |events|
    ensures r.isActive == s.isActive && r.responseHandlers == s.responseHandlers
    decreases n
  {
    if n == 0 then s
    else AfterResponse(RunResponses(s, events, answers, freshIds, n - 1), events[n - 1], answers[n - 1], freshIds[n - 1])
  }

  /** The notifications of the first `n` inbound items, in order. */
  function RunResponseNotices(s: ClientSession, events: seq<StreamEvent>, answers: seq<Result<string, string>>,
                              freshIds: seq<string>, n: nat): seq<Notice>
    requires n <= |events| && |answers| == |events| && |freshIds| == |events|
    decreases n
  {
    if n == 0 then []
    else RunResponseNotices(s, events, answers, freshIds, n - 1)
         + ResponseNotices(RunResponses(s, events, answers, freshIds, n - 1), events[n - 1], answers[n - 1])
  }

  /** Whether one of the first `n` inbound items is a chunk. */
  predicate ChunkAmong(events: seq<StreamEvent>, n: nat)
    requires n <= |events|
    decreases n
  {
    n > 0 && (events[n - 1].Chunk? || ChunkAmong(events, n - 1))
  }

  /** The registry, handler log and activity times after the first `n`
      items of a response stream that found them at `sessions0`,
      `deliveries0` and `activity0`, with session `id` then at `s0`. */
  ghost predicate RanResponses(sessions: map<string, ClientSession>, deliveries: seq<Delivery>, activity: map<string, int>,
                               id: string, events: seq<StreamEvent>, answers: seq<Result<string, string>>,
                               freshIds: seq<string>, n: nat, now: int, s0: ClientSession,
                               sessions0: map<string, ClientSession>, deliveries0: seq<Delivery>,
                               activity0: map<string, int>)
    requires n <= |events| && |answers| == |events| && |freshIds| == |events|
  {
    sessions == sessions0[id := RunResponses(s0, events, answers, freshIds, n)]
    && deliveries == deliveries0 + DispatchedAll(id, s0.responseHandlers, RunResponseNotices(s0, events, answers, freshIds, n))
    && activity == if ChunkAmong(events, n) then activity0[id := now] else activity0
  }

  /** `ChunkAmong` holds exactly when some earlier item is a chunk. */
  lemma {:induction false} ChunkAmongMeansSomeChunk(events: seq<StreamEvent>, n: nat)
    requires n <= |events|
    ensures ChunkAmong(events, n) <==> exists k :: 0 <= k < n && events[k].Chunk?
    decreases n
  {
    if n > 0 {
      ChunkAmongMeansSomeChunk(events, n - 1);
    }
  }

  /** The events `closeSession` queues for an open session: content end if
      audio was started, prompt end if the prompt was started, then session
      end. Nothing is queued on an inactive session. */
  function CloseEvents(s: ClientSession): (r: seq<ClientEvent>)
    ensures !s.isActive ==> r == []
    ensures s.isActive ==> 1 <= |r| <= 3 && r[|r| - 1] == SessionEnd
  {
    if !s.isActive then []
    else
      (if s.isAudioContentStartSent then [ContentEnd(s.promptName, s.audioContentId)] else [])
      + (if s.isPromptStartSent then [PromptEnd(s.promptName)] else [])
      + [SessionEnd]
  }

  /** Removing a key hides whether its value was overwritten. */
  lemma WithoutUpdated<K, V>(t0: map<K, V>, t: map<K, V>, id: K)
    requires forall k :: k != id ==> (k in t <==> k in t0)
    requires forall k :: k != id && k in t ==> t[k] == t0[k]
    ensures t - {id} == t0 - {id}
  {
  }

  /** The queue offers `closeSession` makes before the session end: the
      content end then the prompt end, each only on an active session
      whose opening was sent. Other sessions are untouched. */
  lemma CloseSequence(m0: map<string, ClientSession>, id: string)
    requires id in m0
    ensures var s := m0[id];
      var m1 := Enqueued(m0, id, if s.isAudioContentStartSent then [ContentEnd(s.promptName, s.audioContentId)] else []);
      id in m1
      && var m2 := Enqueued(m1, id, if m1[id].isPromptStartSent then [PromptEnd(m1[id].promptName)] else []);
      id in m2 && m2 - {id} == m0 - {id}
      && m2[id].queue + (if m2[id].isActive then [SessionEnd] else []) == s.queue + CloseEvents(s)
  {
    var s := m0[id];
    var a := if s.isAudioContentStartSent then [ContentEnd(s.promptName, s.audioContentId)] else [];
    var b := if s.isPromptStartSent then [PromptEnd(s.promptName)] else [];
    EnqueuedConcat(m0, id, a, b);
    var m2 := Enqueued(m0, id, a + b);
    WithoutUpdated(m0, m2, id);
    if s.isActive {
      assert s.queue + (a + b) + [SessionEnd] == s.queue + CloseEvents(s);
    }
  }

  /** The final queue of a closed session ends with its content, prompt
      and session ends, each present exactly when its opening was sent. */
  lemma CloseEventsOrder(s: ClientSession)
    requires s.isActive
    ensures s.isAudioContentStartSent && s.isPromptStartSent ==>
      CloseEvents(s) == [ContentEnd(s.promptName, s.audioContentId), PromptEnd(s.promptName), SessionEnd]
    ensures (ContentEnd(s.promptName, s.audioContentId) in CloseEvents(s)) <==> s.isAudioContentStartSent
    ensures (PromptEnd(s.promptName) in CloseEvents(s)) <==> s.isPromptStartSent
  {
  }

  // ---------------------------------------------------------------------
  // The client

  class NovaSonicBidirectionalStreamClient {
    var activeSessions: map<string, ClientSession>
    var sessionLastActivity: map<string, int>
    var sessionCleanupInProgress: set<string>
    /** Every handler call made so far, in order. */
    var deliveries: seq<Delivery>

    /** Activity is only recorded for registered sessions, and every
        session has an audio content id (a UUID). */
    ghost predicate Valid()
      reads this
    {
      sessionLastActivity.Keys <= activeSessions.Keys
      && (forall id :: id in activeSessions ==> activeSessions[id].audioContentId != "")
    }

    /** The credentials check and SDK client construction are not modelled. */
    constructor()
      ensures Valid()
      ensures activeSessions == map[] && sessionLastActivity == map[]
      ensures sessionCleanupInProgress == {} && deliveries == []
    {
      activeSessions := map[];
      sessionLastActivity := map[];
      sessionCleanupInProgress := {};
      deliveries := [];
    }

    /** `isSessionActive`. */
    predicate IsSessionActive(id: string)
      reads this
    {
      id in activeSessions && activeSessions[id].isActive
    }

    /** `createStreamSession`: refuses a registered id; otherwise registers
        a fresh active session and returns its handle. */
    method CreateStreamSession(id: string, freshPromptName: string, freshAudioContentId: string)
      returns (r: Result<StreamSession, string>)
      requires Valid() && freshAudioContentId != ""
      modifies this
      ensures Valid()
      ensures id in old(activeSessions) ==>
        r == Err("Stream session with ID " + id + " already exists") && activeSessions == old(activeSessions)
      ensures id !in old(activeSessions) ==>
        r.Ok? && fresh(r.value) && r.value.client == this && r.value.sessionId == id
        && r.value.audioBufferQueue == [] && r.value.isActive && !r.value.isProcessingAudio
        && activeSessions == old(activeSessions)[id := NewClientSession(freshPromptName, freshAudioContentId)]
      ensures sessionLastActivity == old(sessionLastActivity)
      ensures sessionCleanupInProgress == old(sessionCleanupInProgress) && deliveries == old(deliveries)
    {
      if id in activeSessions {
        return Err("Stream session with ID " + id + " already exists");
      }
      activeSessions := activeSessions[id := NewClientSession(freshPromptName, freshAudioContentId)];
      var handle := new StreamSession(id, this);
      return Ok(handle);
    }

    /** `registerEventHandler`: fails for an unregistered id. */
    method RegisterEventHandler(id: string, eventType: string, handler: Handler) returns (error: Option<string>)
      requires Valid()
      modifies this
      ensures Valid()
      ensures id !in old(activeSessions) ==>
        error == Some("Session " + id + " not found") && activeSessions == old(activeSessions)
      ensures id in old(activeSessions) ==>
        error.None?
        && activeSessions == old(activeSessions)[id := old(activeSessions)[id].(responseHandlers := old(activeSessions)[id].responseHandlers[eventType := handler])]
      ensures sessionLastActivity == old(sessionLastActivity)
      ensures sessionCleanupInProgress == old(sessionCleanupInProgress) && deliveries == old(deliveries)
    {
      if id !in activeSessions {
        return Some("Session " + id + " not found");
      }
      var s := activeSessions[id];
      activeSessions := activeSessions[id := s.(responseHandlers := s.responseHandlers[eventType := handler])];
      return None;
    }

    /** `dispatchEvent`: for a registered session, active or not. */
    method DispatchEvent(id: string, eventType: string, body: EventBody)
      requires Valid()
      modifies this
      ensures Valid()
      ensures id in old(activeSessions) ==>
        deliveries == old(deliveries) + Dispatched(id, old(activeSessions)[id].responseHandlers, eventType, body)
      ensures id !in old(activeSessions) ==> deliveries == old(deliveries)
      ensures activeSessions == old(activeSessions) && sessionLastActivity == old(sessionLastActivity)
      ensures sessionCleanupInProgress == old(sessionCleanupInProgress)
    {
      if id !in activeSessions {
        return;
      }
      var handlers := activeSessions[id].responseHandlers;
      if eventType in handlers {
        deliveries := deliveries + [Delivery(id, eventType, handlers[eventType], Plain(body))];
      }
      if "any" in handlers {
        deliveries := deliveries + [Delivery(id, "any", handlers["any"], Tagged(eventType, body))];
      }
    }

    /** `addEventToSessionQueue`: appends to the queue of an active session
        and stamps its activity; otherwise does nothing. */
    method AddEventToSessionQueue(id: string, e: ClientEvent, now: int)
      requires Valid()
      modifies this
      ensures Valid()
      ensures old(IsSessionActive(id)) ==>
        activeSessions == old(activeSessions)[id := Push(old(activeSessions)[id], e)]
        && sessionLastActivity == old(sessionLastActivity)[id := now]
      ensures !old(IsSessionActive(id)) ==>
        activeSessions == old(activeSessions) && sessionLastActivity == old(sessionLastActivity)
      ensures activeSessions == Enqueued(old(activeSessions), id, [e])
      ensures sessionLastActivity == Stamped(old(sessionLastActivity), old(activeSessions), id, now)
      ensures sessionCleanupInProgress == old(sessionCleanupInProgress) && deliveries == old(deliveries)
    {
      if id !in activeSessions || !activeSessions[id].isActive {
        return;
      }
      sessionLastActivity := sessionLastActivity[id := now];
      activeSessions := activeSessions[id := Push(activeSessions[id], e)];
    }

    /** `setupSessionStartEvent`. */
    method SetupSessionStartEvent(id: string, now: int)
      requires Valid()
      modifies this
      ensures Valid()
      ensures old(IsSessionActive(id)) ==>
        activeSessions == old(activeSessions)[id := Push(old(activeSessions)[id], SessionStart)]
      ensures !old(IsSessionActive(id)) ==> activeSessions == old(activeSessions)
      ensures sessionLastActivity == Stamped(old(sessionLastActivity), old(activeSessions), id, now)
      ensures sessionCleanupInProgress == old(sessionCleanupInProgress) && deliveries == old(deliveries)
    {
      if id !in activeSessions {
        return;
      }
      AddEventToSessionQueue(id, SessionStart, now);
    }

    /** `setupPromptStartEvent`: no guard on the flag; the flag is set on
        any registered session, even one whose queue refused the event. */
    method SetupPromptStartEvent(id: string, now: int)
      requires Valid()
      modifies this
      ensures Valid()
      ensures id in old(activeSessions) ==>
        var s := old(activeSessions)[id];
        var queued := if s.isActive then Push(s, PromptStart(s.promptName, AnnouncedTools)) else s;
        activeSessions == old(activeSessions)[id := queued.(isPromptStartSent := true)]
      ensures id !in old(activeSessions) ==> activeSessions == old(activeSessions)
      ensures sessionLastActivity == Stamped(old(sessionLastActivity), old(activeSessions), id, now)
      ensures sessionCleanupInProgress == old(sessionCleanupInProgress) && deliveries == old(deliveries)
    {
      if id !in activeSessions {
        return;
      }
      AddEventToSessionQueue(id, PromptStart(activeSessions[id].promptName, AnnouncedTools), now);
      activeSessions := activeSessions[id := activeSessions[id].(isPromptStartSent := true)];
    }

    /** `setupSystemPromptEvent`: a text content start, the prompt text and
        a content end, all under one fresh content name. */
    method SetupSystemPromptEvent(id: string, freshContentName: string, systemPrompt: string, now: int)
      requires Valid()
      modifies this
      ensures Valid()
      ensures old(IsSessionActive(id)) ==>
        var s := old(activeSessions)[id];
        activeSessions == old(activeSessions)[id := s.(queue := s.queue + [
          TextContentStart(s.promptName, freshContentName),
          TextInput(s.promptName, freshContentName, systemPrompt),
          ContentEnd(s.promptName, freshContentName)])]
      ensures !old(IsSessionActive(id)) ==> activeSessions == old(activeSessions)
      ensures sessionLastActivity == Stamped(old(sessionLastActivity), old(activeSessions), id, now)
      ensures sessionCleanupInProgress == old(sessionCleanupInProgress) && deliveries == old(deliveries)
    {
      if id !in activeSessions {
        return;
      }
      var p := activeSessions[id].promptName;
      ghost var m0 := activeSessions;
      var e1, e2, e3 := TextContentStart(p, freshContentName), TextInput(p, freshContentName, systemPrompt), ContentEnd(p, freshContentName);
      ghost var t0 := sessionLastActivity;
      AddEventToSessionQueue(id, e1, now);
      AddEventToSessionQueue(id, e2, now);
      StampedTwice(t0, m0, id, now, [e1]);
      EnqueuedConcat(m0, id, [e1], [e2]);
      AddEventToSessionQueue(id, e3, now);
      StampedTwice(t0, m0, id, now, [e1] + [e2]);
      EnqueuedConcat(m0, id, [e1] + [e2], [e3]);
      assert [e1] + [e2] + [e3] == [e1, e2, e3];
    }

    /** `setupStartAudioEvent`: no guard on either flag; sets the audio flag
        on any registered session. */
    method SetupStartAudioEvent(id: string, now: int)
      requires Valid()
      modifies this
      ensures Valid()
      ensures id in old(activeSessions) ==>
        var s := old(activeSessions)[id];
        var queued := if s.isActive then Push(s, AudioContentStart(s.promptName, s.audioContentId)) else s;
        activeSessions == old(activeSessions)[id := queued.(isAudioContentStartSent := true)]
      ensures id !in old(activeSessions) ==> activeSessions == old(activeSessions)
      ensures sessionLastActivity == Stamped(old(sessionLastActivity), old(activeSessions), id, now)
      ensures sessionCleanupInProgress == old(sessionCleanupInProgress) && deliveries == old(deliveries)
    {
      if id !in activeSessions {
        return;
      }
      var s := activeSessions[id];
      AddEventToSessionQueue(id, AudioContentStart(s.promptName, s.audioContentId), now);
      activeSessions := activeSessions[id := activeSessions[id].(isAudioContentStartSent := true)];
    }

    /** `streamAudioChunk`: refuses (throws) for an absent or inactive
        session instead of dropping the chunk; otherwise queues it under
        the current audio content id. */
    method StreamAudioChunk(id: string, audio: AudioData, now: int) returns (error: Option<string>)
      requires Valid()
      modifies this
      ensures Valid()
      ensures error.Some? <==> !old(IsSessionActive(id))
      ensures error.Some? ==>
        error.value == "Invalid session " + id + " for audio streaming"
        && activeSessions == old(activeSessions) && sessionLastActivity == old(sessionLastActivity)
      ensures error.None? ==>
        var s := old(activeSessions)[id];
        activeSessions == old(activeSessions)[id := Push(s, AudioInput(s.promptName, s.audioContentId, audio))]
        && sessionLastActivity == old(sessionLastActivity)[id := now]
      ensures sessionCleanupInProgress == old(sessionCleanupInProgress) && deliveries == old(deliveries)
    {
      if id !in activeSessions || !activeSessions[id].isActive || activeSessions[id].audioContentId == "" {
        return Some("Invalid session " + id + " for audio streaming");
      }
      var s := activeSessions[id];
      AddEventToSessionQueue(id, AudioInput(s.promptName, s.audioContentId, audio), now);
      return None;
    }

    /** `sendToolResult`: for an active session, the three tool-result
        events under one fresh content name. */
    method SendToolResult(id: string, toolUseId: string, result: string, freshContentName: string, now: int)
      requires Valid()
      modifies this
      ensures Valid()
      ensures old(IsSessionActive(id)) ==>
        var s := old(activeSessions)[id];
        activeSessions == old(activeSessions)[id := s.(queue := s.queue + ToolResultEvents(s.promptName, freshContentName, toolUseId, result))]
        && sessionLastActivity == old(sessionLastActivity)[id := now]
      ensures !old(IsSessionActive(id)) ==> activeSessions == old(activeSessions) && sessionLastActivity == old(sessionLastActivity)
      ensures sessionCleanupInProgress == old(sessionCleanupInProgress) && deliveries == old(deliveries)
    {
      if id !in activeSessions || !activeSessions[id].isActive {
        return;
      }
      var p := activeSessions[id].promptName;
      ghost var m0, t0 := activeSessions, sessionLastActivity;
      var e1, e2, e3 := ToolContentStart(p, freshContentName, toolUseId), ToolResultInput(p, freshContentName, result), ContentEnd(p, freshContentName);
      AddEventToSessionQueue(id, e1, now);
      AddEventToSessionQueue(id, e2, now);
      EnqueuedConcat(m0, id, [e1], [e2]);
      StampedTwice(t0, m0, id, now, [e1]);
      AddEventToSessionQueue(id, e3, now);
      EnqueuedConcat(m0, id, [e1] + [e2], [e3]);
      StampedTwice(t0, m0, id, now, [e1] + [e2]);
      assert [e1] + [e2] + [e3] == ToolResultEvents(p, freshContentName, toolUseId, result);
    }

    /** `sendContentEnd`: only once audio content was started; the flag is
        left set and the content id is not replaced. */
    method SendContentEnd(id: string, now: int)
      requires Valid()
      modifies this
      ensures Valid()
      ensures old(IsSessionActive(id)) && old(activeSessions)[id].isAudioContentStartSent ==>
        var s := old(activeSessions)[id];
        activeSessions == old(activeSessions)[id := Push(s, ContentEnd(s.promptName, s.audioContentId))]
        && sessionLastActivity == old(sessionLastActivity)[id := now]
      ensures !(old(IsSessionActive(id)) && old(activeSessions)[id].isAudioContentStartSent) ==>
        activeSessions == old(activeSessions) && sessionLastActivity == old(sessionLastActivity)
      ensures id in old(activeSessions) ==>
        var s := old(activeSessions)[id];
        activeSessions == Enqueued(old(activeSessions), id, if s.isAudioContentStartSent then [ContentEnd(s.promptName, s.audioContentId)] else [])
      ensures sessionCleanupInProgress == old(sessionCleanupInProgress) && deliveries == old(deliveries)
    {
      if id !in activeSessions || !activeSessions[id].isAudioContentStartSent {
        EnqueuedNothing(activeSessions, id);
        return;
      }
      var s := activeSessions[id];
      AddEventToSessionQueue(id, ContentEnd(s.promptName, s.audioContentId), now);
    }

    /** `sendPromptEnd`: only once the prompt was started; the flag is left set. */
    method SendPromptEnd(id: string, now: int)
      requires Valid()
      modifies this
      ensures Valid()
      ensures old(IsSessionActive(id)) && old(activeSessions)[id].isPromptStartSent ==>
        var s := old(activeSessions)[id];
        activeSessions == old(activeSessions)[id := Push(s, PromptEnd(s.promptName))]
        && sessionLastActivity == old(sessionLastActivity)[id := now]
      ensures !(old(IsSessionActive(id)) && old(activeSessions)[id].isPromptStartSent) ==>
        activeSessions == old(activeSessions) && sessionLastActivity == old(sessionLastActivity)
      ensures id in old(activeSessions) ==>
        var s := old(activeSessions)[id];
        activeSessions == Enqueued(old(activeSessions), id, if s.isPromptStartSent then [PromptEnd(s.promptName)] else [])
      ensures sessionCleanupInProgress == old(sessionCleanupInProgress) && deliveries == old(deliveries)
    {
      if id !in activeSessions || !activeSessions[id].isPromptStartSent {
        EnqueuedNothing(activeSessions, id);
        return;
      }
      AddEventToSessionQueue(id, PromptEnd(activeSessions[id].promptName), now);
    }

    /** `sendSessionEnd`: queues the session end (if active), then marks
        the session inactive and forgets it. `lastQueue` is the queue as
        the request iterator last sees it. */
    method SendSessionEnd(id: string, now: int) returns (ghost lastQueue: seq<ClientEvent>)
      requires Valid()
      modifies this
      ensures Valid()
      ensures id !in activeSessions && id !in sessionLastActivity
      ensures activeSessions == old(activeSessions) - {id} && sessionLastActivity == old(sessionLastActivity) - {id}
      ensures id in old(activeSessions) ==>
        lastQueue == old(activeSessions)[id].queue + (if old(activeSessions)[id].isActive then [SessionEnd] else [])
      ensures sessionCleanupInProgress == old(sessionCleanupInProgress) && deliveries == old(deliveries)
    {
      lastQueue := [];
      if id !in activeSessions {
        assert activeSessions - {id} == activeSessions;
        assert sessionLastActivity - {id} == sessionLastActivity;
        return;
      }
      AddEventToSessionQueue(id, SessionEnd, now);
      lastQueue := activeSessions[id].queue;
      assert activeSessions - {id} == old(activeSessions) - {id};
      assert sessionLastActivity - {id} == old(sessionLastActivity) - {id};
      activeSessions := activeSessions - {id};
      sessionLastActivity := sessionLastActivity - {id};
    }

    /** `closeSession`: skipped while a close of the same session is in
        progress; otherwise content end, prompt end and session end in that
        order, and the in-progress mark is always cleared. `lastQueue` is
        the queue of the closed session as the request iterator last sees it. */
    method CloseSession(id: string, now: int) returns (ghost lastQueue: seq<ClientEvent>)
      requires Valid()
      modifies this
      ensures Valid()
      ensures id in old(sessionCleanupInProgress) ==>
        activeSessions == old(activeSessions) && sessionLastActivity == old(sessionLastActivity)
      ensures id !in old(sessionCleanupInProgress) ==>
        activeSessions == old(activeSessions) - {id} && sessionLastActivity == old(sessionLastActivity) - {id}
      ensures id !in old(sessionCleanupInProgress) && id in old(activeSessions) ==>
        lastQueue == old(activeSessions)[id].queue + CloseEvents(old(activeSessions)[id])
      ensures sessionCleanupInProgress == old(sessionCleanupInProgress) && deliveries == old(deliveries)
    {
      lastQueue := [];
      if id in sessionCleanupInProgress {
        return;
      }
      sessionCleanupInProgress := sessionCleanupInProgress + {id};
      ghost var m0, t0 := activeSessions, sessionLastActivity;
      SendContentEnd(id, now);
      SendPromptEnd(id, now);
      WithoutUpdated(t0, sessionLastActivity, id);
      if id in m0 {
        CloseSequence(m0, id);
      } else {
        assert activeSessions == m0;
      }
      lastQueue := SendSessionEnd(id, now);
      sessionCleanupInProgress := sessionCleanupInProgress - {id};
    }

    /** `forceCloseSession`: skipped while a close is in progress or for an
        unregistered id; otherwise forgets the session at once, queueing
        nothing. */
    method ForceCloseSession(id: string)
      requires Valid()
      modifies this
      ensures Valid()
      ensures id in old(sessionCleanupInProgress) || id !in old(activeSessions) ==>
        activeSessions == old(activeSessions) && sessionLastActivity == old(sessionLastActivity)
      ensures id !in old(sessionCleanupInProgress) && id in old(activeSessions) ==>
        activeSessions == old(activeSessions) - {id} && sessionLastActivity == old(sessionLastActivity) - {id}
      ensures sessionCleanupInProgress == old(sessionCleanupInProgress) && deliveries == old(deliveries)
    {
      if id in sessionCleanupInProgress || id !in activeSessions {
        return;
      }
      sessionCleanupInProgress := sessionCleanupInProgress + {id};
      activeSessions := activeSessions - {id};
      sessionLastActivity := sessionLastActivity - {id};
      sessionCleanupInProgress := sessionCleanupInProgress - {id};
    }

    /** `next` of the request iterator: done (`None`) once the session is
        inactive or unregistered, or when nothing is queued; otherwise the
        head of the queue is removed and sent. */
    method Next(id: string) returns (r: Option<ClientEvent>)
      requires Valid()
      modifies this
      ensures Valid()
      ensures r.None? <==> !old(IsSessionActive(id)) || old(activeSessions)[id].queue == []
      ensures r.Some? ==>
        r.value == old(activeSessions)[id].queue[0]
        && activeSessions == old(activeSessions)[id := old(activeSessions)[id].(queue := old(activeSessions)[id].queue[1..])]
      ensures r.None? ==> activeSessions == old(activeSessions)
      ensures sessionLastActivity == old(sessionLastActivity)
      ensures sessionCleanupInProgress == old(sessionCleanupInProgress) && deliveries == old(deliveries)
    {
      if id !in activeSessions || !activeSessions[id].isActive {
        return None;
      }
      var s := activeSessions[id];
      if |s.queue| == 0 {
        return None;
      }
      activeSessions := activeSessions[id := s.(queue := s.queue[1..])];
      return Some(s.queue[0]);
    }

    /** `return` of the request iterator: marks the session inactive. */
    method Return(id: string)
      requires Valid()
      modifies this
      ensures Valid()
      ensures !IsSessionActive(id)
      ensures id in old(activeSessions) ==>
        activeSessions == old(activeSessions)[id := old(activeSessions)[id].(isActive := false)]
      ensures id !in old(activeSessions) ==> activeSessions == old(activeSessions)
      ensures sessionLastActivity == old(sessionLastActivity)
      ensures sessionCleanupInProgress == old(sessionCleanupInProgress) && deliveries == old(deliveries)
    {
      if id in activeSessions {
        activeSessions := activeSessions[id := activeSessions[id].(isActive := false)];
      }
    }

    /** The `dispatchEvent` calls one inbound item causes, in order. */
    method DispatchAll(id: string, notices: seq<Notice>)
      requires Valid() && id in activeSessions
      modifies this
      ensures Valid()
      ensures deliveries == old(deliveries) + DispatchedAll(id, old(activeSessions)[id].responseHandlers, notices)
      ensures activeSessions == old(activeSessions) && sessionLastActivity == old(sessionLastActivity)
      ensures sessionCleanupInProgress == old(sessionCleanupInProgress)
    {
      var h := activeSessions[id].responseHandlers;
      var i := 0;
      while i < |notices|
        invariant 0 <= i <= |notices|
        invariant Valid() && activeSessions == old(activeSessions)
        invariant sessionLastActivity == old(sessionLastActivity)
        invariant sessionCleanupInProgress == old(sessionCleanupInProgress)
        invariant deliveries == old(deliveries) + DispatchedAll(id, h, notices[..i])
      {
        ghost var before := deliveries;
        DispatchEvent(id, notices[i].eventType, notices[i].body);
        DispatchedAllStep(id, h, notices, i);
        assert deliveries == before + Dispatched(id, h, notices[i].eventType, notices[i].body);
        i := i + 1;
      }
      assert notices[..i] == notices;
    }

    /** One item of `processResponseStream` on an active session: a chunk
        stamps the activity, is classified and dispatched, a tool use is
        remembered, and a tool content end runs the tool and sends its
        answer. `answer` is what the tool returns or throws. */
    method ProcessResponseEvent(id: string, e: StreamEvent, answer: Result<string, string>, freshContentId: string, now: int)
      requires Valid() && IsSessionActive(id)
      modifies this
      ensures Valid() && IsSessionActive(id)
      ensures activeSessions == old(activeSessions)[id := AfterResponse(old(activeSessions)[id], e, answer, freshContentId)]
      ensures sessionLastActivity == if e.Chunk? then old(sessionLastActivity)[id := now] else old(sessionLastActivity)
      ensures deliveries == old(deliveries)
        + DispatchedAll(id, old(activeSessions)[id].responseHandlers, ResponseNotices(old(activeSessions)[id], e, answer))
      ensures sessionCleanupInProgress == old(sessionCleanupInProgress)
    {
      var s := activeSessions[id];
      if e.Chunk? {
        sessionLastActivity := sessionLastActivity[id := now];
      }
      DispatchAll(id, ResponseNotices(s, e, answer));
      activeSessions := activeSessions[id := AfterResponse(s, e, answer, freshContentId)];
    }

    /** One item of the loop of `processResponseStream`: the session, the
        handler calls and the activity stamp so far are extended by that
        item's own step. */
    method ResponseStep(id: string, events: seq<StreamEvent>, answers: seq<Result<string, string>>,
                        freshIds: seq<string>, i: nat, now: int, ghost s0: ClientSession,
                        ghost sessions0: map<string, ClientSession>, ghost deliveries0: seq<Delivery>,
                        ghost activity0: map<string, int>)
      requires Valid() && IsSessionActive(id) && i < |events| && |answers| == |events| && |freshIds| == |events|
      requires RanResponses(activeSessions, deliveries, sessionLastActivity, id, events, answers, freshIds, i, now,
                            s0, sessions0, deliveries0, activity0)
      modifies this
      ensures Valid() && IsSessionActive(id)
      ensures RanResponses(activeSessions, deliveries, sessionLastActivity, id, events, answers, freshIds, i + 1, now,
                           s0, sessions0, deliveries0, activity0)
      ensures sessionCleanupInProgress == old(sessionCleanupInProgress)
    {
      ghost var h := s0.responseHandlers;
      ghost var current := RunResponses(s0, events, answers, freshIds, i);
      ghost var earlier := DispatchedAll(id, h, RunResponseNotices(s0, events, answers, freshIds, i));
      ghost var notices := ResponseNotices(current, events[i], answers[i]);
      ProcessResponseEvent(id, events[i], answers[i], freshIds[i], now);
      UpdateOverride(sessions0, id, current, RunResponses(s0, events, answers, freshIds, i + 1));
      UpdateOverride(activity0, id, now, now);
      DispatchedAllAppend(id, h, RunResponseNotices(s0, events, answers, freshIds, i), notices);
      AppendAssoc(deliveries0, earlier, DispatchedAll(id, h, notices));
    }

    /** The item loop of `processResponseStream` on an active session; no
        item changes whether the session is active, so every item is
        handled. */
    method ProcessResponseEvents(id: string, events: seq<StreamEvent>, answers: seq<Result<string, string>>,
                                 freshIds: seq<string>, now: int)
      requires Valid() && IsSessionActive(id) && |answers| == |events| && |freshIds| == |events|
      modifies this
      ensures Valid() && IsSessionActive(id)
      ensures activeSessions == old(activeSessions)[id := RunResponses(old(activeSessions)[id], events, answers, freshIds, |events|)]
      ensures deliveries == old(deliveries)
        + DispatchedAll(id, old(activeSessions)[id].responseHandlers,
                        RunResponseNotices(old(activeSessions)[id], events, answers, freshIds, |events|))
      ensures sessionLastActivity == if ChunkAmong(events, |events|) then old(sessionLastActivity)[id := now]
                                     else old(sessionLastActivity)
      ensures sessionCleanupInProgress == old(sessionCleanupInProgress)
    {
      ghost var s0 := activeSessions[id];
      var i := 0;
      while i < |events|
        invariant 0 <= i <= |events|
        invariant Valid() && IsSessionActive(id)
        invariant RanResponses(activeSessions, deliveries, sessionLastActivity, id, events, answers, freshIds, i, now,
                               s0, old(activeSessions), old(deliveries), old(sessionLastActivity))
        invariant sessionCleanupInProgress == old(sessionCleanupInProgress)
      {
        ResponseStep(id, events, answers, freshIds, i, now, s0, old(activeSessions), old(deliveries), old(sessionLastActivity));
        i := i + 1;
      }
    }

    /** `processResponseStream` over a finite inbound stream that may end
        with an error: items are handled while the session is active, then
        'streamComplete' (or 'error' when the stream failed) is dispatched.
        Items, tool answers and fresh ids are aligned by position. */
    method ProcessResponseStream(id: string, events: seq<StreamEvent>, answers: seq<Result<string, string>>,
                                 freshIds: seq<string>, failed: bool, now: int)
      requires Valid() && |answers| == |events| && |freshIds| == |events|
      modifies this
      ensures Valid()
      ensures id !in old(activeSessions) ==> activeSessions == old(activeSessions) && deliveries == old(deliveries)
      ensures activeSessions.Keys == old(activeSessions.Keys)
      ensures forall other :: other != id && other in activeSessions ==> activeSessions[other] == old(activeSessions)[other]
      ensures old(deliveries) <= deliveries
      ensures old(IsSessionActive(id)) ==>
        var s0 := old(activeSessions)[id];
        activeSessions == old(activeSessions)[id := RunResponses(s0, events, answers, freshIds, |events|)]
        && deliveries == old(deliveries)
           + DispatchedAll(id, s0.responseHandlers, RunResponseNotices(s0, events, answers, freshIds, |events|))
           + Dispatched(id, s0.responseHandlers, if failed then "error" else "streamComplete",
                        if failed then ResponseStreamErrorBody else StreamCompleteBody)
        && sessionLastActivity == if ChunkAmong(events, |events|) then old(sessionLastActivity)[id := now]
                                  else old(sessionLastActivity)
      ensures id in old(activeSessions) && !old(IsSessionActive(id)) ==>
        activeSessions == old(activeSessions) && sessionLastActivity == old(sessionLastActivity)
        && deliveries == old(deliveries)
           + Dispatched(id, old(activeSessions)[id].responseHandlers, if failed then "error" else "streamComplete",
                        if failed then ResponseStreamErrorBody else StreamCompleteBody)
      ensures sessionCleanupInProgress == old(sessionCleanupInProgress)
    {
      if id !in activeSessions {
        return;
      }
      if IsSessionActive(id) {
        ProcessResponseEvents(id, events, answers, freshIds, now);
      }
      if failed {
        DispatchEvent(id, "error", ResponseStreamErrorBody);
      } else {
        DispatchEvent(id, "streamComplete", StreamCompleteBody);
      }
    }
  }

  // ---------------------------------------------------------------------
  // The session handle

  class StreamSession {
    const sessionId: string
    const client: NovaSonicBidirectionalStreamClient
    var audioBufferQueue: seq<AudioData>
    var isProcessingAudio: bool
    var isActive: bool

    ghost predicate Valid()
      reads this, client
    {
      |audioBufferQueue| <= MaxQueueSize && client.Valid()
    }

    constructor(sessionId: string, client: NovaSonicBidirectionalStreamClient)
      ensures this.sessionId == sessionId && this.client == client
      ensures audioBufferQueue == [] && !isProcessingAudio && isActive
    {
      this.sessionId := sessionId;
      this.client := client;
      audioBufferQueue := [];
      isProcessingAudio := false;
      isActive := true;
    }

    /** `onEvent`: registers a handler for this session. */
    method OnEvent(eventType: string, handler: Handler) returns (error: Option<string>)
      requires Valid()
      modifies client
      ensures Valid()
      ensures sessionId !in old(client.activeSessions) ==> error.Some? && client.activeSessions == old(client.activeSessions)
      ensures sessionId in old(client.activeSessions) ==>
        error.None? && sessionId in client.activeSessions
        && client.activeSessions[sessionId].responseHandlers == old(client.activeSessions)[sessionId].responseHandlers[eventType := handler]
    {
      error := client.RegisterEventHandler(sessionId, eventType, handler);
    }

    /** One `processAudioQueue` pass: nothing while a pass is running, the
        buffer is empty or the handle is closed; otherwise chunks are taken
        from the front and forwarded, at most 5, in order. A refused chunk
        (session gone or inactive) ends the pass with `failed`, that chunk
        lost. `rescheduled` says another pass is scheduled. */
    method ProcessAudioQueue(now: int) returns (failed: bool, rescheduled: bool)
      requires Valid()
      modifies this, client
      ensures Valid()
      ensures isActive == old(isActive) && isProcessingAudio == old(isProcessingAudio)
      ensures var mayRun := !old(isProcessingAudio) && old(isActive);
        var accepted := old(client.IsSessionActive(sessionId));
        var k := Consumed(|old(audioBufferQueue)|, mayRun, accepted);
        audioBufferQueue == old(audioBufferQueue)[k..]
        && (failed <==> mayRun && |old(audioBufferQueue)| > 0 && !accepted)
        && (mayRun && accepted ==>
              client.activeSessions == Forwarded(old(client.activeSessions), sessionId, old(audioBufferQueue)[..k]))
        && (!(mayRun && accepted) ==> client.activeSessions == old(client.activeSessions))
      ensures rescheduled <==> (!old(isProcessingAudio) && old(isActive) && |old(audioBufferQueue)| > 0 && |audioBufferQueue| > 0)
      ensures client.sessionCleanupInProgress == old(client.sessionCleanupInProgress)
      ensures client.deliveries == old(client.deliveries)
    {
      failed, rescheduled := false, false;
      if isProcessingAudio || |audioBufferQueue| == 0 || !isActive {
        if client.IsSessionActive(sessionId) {
          ForwardedNothing(client.activeSessions, sessionId);
          assert audioBufferQueue[..0] == [];
        }
        return;
      }
      isProcessingAudio := true;
      ghost var q := audioBufferQueue;
      ghost var sessions := client.activeSessions;
      ghost var accepted := client.IsSessionActive(sessionId);
      if accepted {
        ForwardedNothing(sessions, sessionId);
        assert q[..0] == [];
      }
      var processed := 0;
      while |audioBufferQueue| > 0 && processed < MaxChunksPerBatch && isActive
        invariant 0 <= processed <= |q| && processed <= MaxChunksPerBatch
        invariant audioBufferQueue == q[processed..]
        invariant isActive && isProcessingAudio && client.Valid()
        invariant accepted ==> client.IsSessionActive(sessionId)
        invariant accepted ==> client.activeSessions == Forwarded(sessions, sessionId, q[..processed])
        invariant !accepted ==> processed == 0 && client.activeSessions == sessions
        invariant client.sessionCleanupInProgress == old(client.sessionCleanupInProgress)
        invariant client.deliveries == old(client.deliveries)
        decreases |audioBufferQueue|
      {
        var chunk := audioBufferQueue[0];
        audioBufferQueue := audioBufferQueue[1..];
        var error := client.StreamAudioChunk(sessionId, chunk, now);
        if error.Some? {
          failed := true;
          break;
        }
        ForwardedStep(sessions, sessionId, q, processed);
        processed := processed + 1;
      }
      isProcessingAudio := false;
      rescheduled := |audioBufferQueue| > 0 && isActive;
    }

    /** `streamAudio`: queues the chunk (dropping the oldest when the buffer
        is full), then runs a pass. */
    method StreamAudio(audio: AudioData, now: int) returns (failed: bool, rescheduled: bool)
      requires Valid()
      modifies this, client
      ensures Valid()
      ensures isActive == old(isActive) && isProcessingAudio == old(isProcessingAudio)
      ensures var b := Buffered(old(audioBufferQueue), audio);
        var mayRun := !old(isProcessingAudio) && old(isActive);
        var accepted := old(client.IsSessionActive(sessionId));
        var k := Consumed(|b|, mayRun, accepted);
        audioBufferQueue == b[k..]
        && (failed <==> mayRun && !accepted)
        && (mayRun && accepted ==> client.activeSessions == Forwarded(old(client.activeSessions), sessionId, b[..k]))
        && (!(mayRun && accepted) ==> client.activeSessions == old(client.activeSessions))
      ensures client.sessionCleanupInProgress == old(client.sessionCleanupInProgress)
      ensures client.deliveries == old(client.deliveries)
    {
      if |audioBufferQueue| >= MaxQueueSize {
        audioBufferQueue := audioBufferQueue[1..];
      }
      audioBufferQueue := audioBufferQueue + [audio];
      failed, rescheduled := ProcessAudioQueue(now);
    }

    /** `endAudioContent`: does nothing once the handle is closed. */
    method EndAudioContent(now: int)
      requires Valid()
      modifies client
      ensures Valid()
      ensures old(isActive) && old(client.IsSessionActive(sessionId)) && old(client.activeSessions)[sessionId].isAudioContentStartSent ==>
        var s := old(client.activeSessions)[sessionId];
        client.activeSessions == old(client.activeSessions)[sessionId := Push(s, ContentEnd(s.promptName, s.audioContentId))]
      ensures !(old(isActive) && old(client.IsSessionActive(sessionId)) && old(client.activeSessions)[sessionId].isAudioContentStartSent) ==>
        client.activeSessions == old(client.activeSessions)
    {
      if !isActive {
        return;
      }
      client.SendContentEnd(sessionId, now);
    }

    /** `endPrompt`: does nothing once the handle is closed. */
    method EndPrompt(now: int)
      requires Valid()
      modifies client
      ensures Valid()
      ensures old(isActive) && old(client.IsSessionActive(sessionId)) && old(client.activeSessions)[sessionId].isPromptStartSent ==>
        var s := old(client.activeSessions)[sessionId];
        client.activeSessions == old(client.activeSessions)[sessionId := Push(s, PromptEnd(s.promptName))]
      ensures !(old(isActive) && old(client.IsSessionActive(sessionId)) && old(client.activeSessions)[sessionId].isPromptStartSent) ==>
        client.activeSessions == old(client.activeSessions)
    {
      if !isActive {
        return;
      }
      client.SendPromptEnd(sessionId, now);
    }

    /** `close`: once only; drops the pending audio and ends the session. */
    method Close(now: int)
      requires Valid()
      modifies this, client
      ensures Valid()
      ensures !isActive
      ensures old(isActive) ==>
        audioBufferQueue == [] && client.activeSessions == old(client.activeSessions) - {sessionId}
        && client.sessionLastActivity == old(client.sessionLastActivity) - {sessionId}
      ensures !old(isActive) ==> audioBufferQueue == old(audioBufferQueue) && client.activeSessions == old(client.activeSessions)
      ensures isProcessingAudio == old(isProcessingAudio)
    {
      if !isActive {
        return;
      }
      isActive := false;
      audioBufferQueue := [];
      var _ := client.SendSessionEnd(sessionId, now);
    }
  }
}