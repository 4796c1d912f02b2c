/** The conversation session of the voice agent
    (clean-src/novaSonic/NovaSessionManager.ts): a status machine over
    initializing, active, processing, error and ended; a conversation log;
    an error log; and the analytics record handed over when the session
    ends. The model call is a parameter describing what the upstream did
    (refused the request, or answered with a stream of chunks), and each
    operation reads the clock once, as the parameter `now`. */
module NovaSonicSession {
  import opened Common
  import opened Types

  const Greeting: string := "Hello! I'm your voice assistant. How can I help you today?"

  const QualificationKeywords: seq<string> :=
    ["interested", "schedule", "meeting", "demo", "qualified", "budget", "decision maker", "timeline"]

  /** One chunk of the upstream response stream: an optional text delta and
      whether it carries `messageStop`, or a failure while reading. */
  datatype StreamItem = Chunk(deltaText: Option<string>, messageStop: bool) | Fault(error: string)

  /** What the upstream did with one request. */
  datatype ModelCall = SendFailed(error: string) | Responded(stream: Option<seq<StreamItem>>)

  /** The text gathered from a stream, and the failure that cut it short if any. */
  datatype StreamOutcome = StreamOutcome(text: string, fault: Option<string>)

  /** Reading a stream: text deltas are concatenated in order until the
      first chunk that carries `messageStop` (its own delta included); a
      failure stops the reading. */
  function ReadStream(items: seq<StreamItem>): StreamOutcome {
    if items == [] then StreamOutcome("", None)
    else match items[0]
      case Fault(e) => StreamOutcome("", Some(e))
      case Chunk(t, stop) =>
        var head := if Truthy(t) then t.value else "";
        if stop then StreamOutcome(head, None)
        else
          var rest := ReadStream(items[1..]);
          StreamOutcome(head + rest.text, rest.fault)
  }

  /** Nothing after the first `messageStop` is read. */
  lemma {:induction false} ReadStreamStopsAtMessageStop(items: seq<StreamItem>, i: nat, more: seq<StreamItem>)
    requires i < |items| && items[i].Chunk? && items[i].messageStop
    ensures ReadStream(items[..i + 1] + more) == ReadStream(items[..i + 1])
  {
    if i > 0 {
      assert (items[..i + 1] + more)[1..] == items[1..][..i] + more;
      assert items[..i + 1][1..] == items[1..][..i];
      ReadStreamStopsAtMessageStop(items[1..], i - 1, more);
    } else {
      assert (items[..1] + more)[0] == items[0];
      assert items[..1][0] == items[0];
    }
  }

  /** Without stops or failures, the text is every truthy delta in order. */
  lemma {:induction false} ReadStreamConcatenates(a: seq<StreamItem>, b: seq<StreamItem>)
    requires forall k :: 0 <= k < |a| ==> a[k].Chunk? && !a[k].messageStop
    ensures ReadStream(a + b).text == ReadStream(a).text + ReadStream(b).text
    ensures ReadStream(a + b).fault == ReadStream(b).fault
  {
    if a != [] {
      assert (a + b)[0] == a[0];
      assert (a + b)[1..] == a[1..] + b;
      ReadStreamConcatenates(a[1..], b);
    } else {
      assert a + b == b;
    }
  }

  /** The chunks of a response; a response without a stream has none. */
  function StreamItems(stream: Option<seq<StreamItem>>): seq<StreamItem> {
    if stream.Some? then stream.value else []
  }

  /** `fullText || null`. */
  function NonEmpty(text: string): (r: Option<string>)
    ensures r.None? <==> text == ""
    ensures r.Some? ==> r.value == text
  {
    if text == "" then None else Some(text)
  }

  /** The answer `processStreamResponse` gives for a response: the text
      read, unless it is empty or the reading failed. */
  function ResponseText(stream: Option<seq<StreamItem>>): Option<string> {
    var read := ReadStream(StreamItems(stream));
    if read.fault.Some? then None else NonEmpty(read.text)
  }

  /** The error `processStreamResponse` logs for a response, if any. */
  function ResponseErrors(stream: Option<seq<StreamItem>>, now: int): seq<ErrorLog> {
    var read := ReadStream(StreamItems(stream));
    if read.fault.Some? then [ErrorLog(now, read.fault.value, Some("Failed to process stream response"), Medium)] else []
  }

  /** Reading from position `i` on, one chunk at a time. */
  lemma ReadStreamAt(items: seq<StreamItem>, i: nat)
    requires i < |items|
    ensures items[i].Fault? ==> ReadStream(items[i..]) == StreamOutcome("", Some(items[i].error))
    ensures items[i].Chunk? && items[i].messageStop ==>
      ReadStream(items[i..]) == StreamOutcome(if Truthy(items[i].deltaText) then items[i].deltaText.value else "", None)
    ensures items[i].Chunk? && !items[i].messageStop ==>
      ReadStream(items[i..]) == StreamOutcome((if Truthy(items[i].deltaText) then items[i].deltaText.value else "")
                                                + ReadStream(items[i + 1..]).text, ReadStream(items[i + 1..]).fault)
  {
    assert items[i..][0] == items[i];
    assert items[i..][1..] == items[i + 1..];
  }

  /** Taking in one chunk after the text `read` so far. */
  lemma ReadChunkStep(items: seq<StreamItem>, i: nat, read: string)
    requires i < |items| && items[i].Chunk?
    requires ReadStream(items) == StreamOutcome(read + ReadStream(items[i..]).text, ReadStream(items[i..]).fault)
    ensures var head := if Truthy(items[i].deltaText) then items[i].deltaText.value else "";
      if items[i].messageStop then ReadStream(items) == StreamOutcome(read + head, None)
      else ReadStream(items) == StreamOutcome(read + head + ReadStream(items[i + 1..]).text, ReadStream(items[i + 1..]).fault)
  {
    ReadStreamAt(items, i);
    var head := if Truthy(items[i].deltaText) then items[i].deltaText.value else "";
    if !items[i].messageStop {
      assert read + head + ReadStream(items[i + 1..]).text == read + (head + ReadStream(items[i + 1..]).text);
    }
  }

  predicate HasQualificationIndicator(text: string) {
    exists k :: 0 <= k < |QualificationKeywords| && Contains(text, QualificationKeywords[k])
  }

  /** `determineOutcome`: too short a conversation is incomplete; otherwise
      qualified exactly when a qualification keyword occurs in the
      lower-cased transcript. */
  function DetermineOutcome(conversation: seq<ConversationTurn>): (r: Outcome)
    ensures |conversation| < 3 <==> r == Incomplete
    ensures r == Qualified <==> |conversation| >= 3 && HasQualificationIndicator(TranscriptText(conversation))
  {
    if |conversation| < 3 then Incomplete
    else if HasQualificationIndicator(TranscriptText(conversation)) then Qualified
    else NotQualified
  }

  /** A keyword in any single turn, in any letter case, qualifies a
      conversation of at least three turns. */
  lemma KeywordInOneTurnQualifies(conversation: seq<ConversationTurn>, i: nat, k: nat)
    requires |conversation| >= 3 && i < |conversation| && k < |QualificationKeywords|
    requires Contains(Lower(conversation[i].content), QualificationKeywords[k])
    ensures DetermineOutcome(conversation) == Qualified
  {
    JoinContainsPart(LowerContents(conversation), " ", i, QualificationKeywords[k]);
  }

  /** The request messages built from the conversation: one per turn. */
  datatype Message = Message(role: Role, text: string)

  /** `prepareMessages`: the turns as messages, one for one and in order. */
  function PrepareMessages(conversation: seq<ConversationTurn>): (r: seq<Message>)
    ensures |r| == |conversation|
    ensures forall i :: 0 <= i < |r| ==> r[i].role == conversation[i].role && r[i].text == conversation[i].content
  {
    if conversation == [] then [] else [Message(conversation[0].role, conversation[0].content)] + PrepareMessages(conversation[1..])
  }

  /** Messages for a longer conversation extend the earlier messages. */
  lemma PrepareMessagesAppend(a: seq<ConversationTurn>, b: seq<ConversationTurn>)
    ensures PrepareMessages(a + b) == PrepareMessages(a) + PrepareMessages(b)
  {
    assert |PrepareMessages(a + b)| == |PrepareMessages(a) + PrepareMessages(b)|;
    forall i | 0 <= i < |a + b|
      ensures PrepareMessages(a + b)[i] == (PrepareMessages(a) + PrepareMessages(b))[i]
    {
      if i < |a| {
        assert (a + b)[i] == a[i];
      } else {
        assert (a + b)[i] == b[i - |a|];
      }
    }
  }

  /** `isActive`: a session is active while active or processing. */
  predicate IsActiveStatus(s: SessionStatus) {
    s == Active || s == Processing
  }

  /** The number of user turns, which the analytics record counts. */
  function UserTurns(conversation: seq<ConversationTurn>): nat {
    if conversation == [] then 0
    else UserTurns(conversation[..|conversation| - 1]) + (if conversation[|conversation| - 1].role == User then 1 else 0)
  }

  lemma UserTurnsAppend(conversation: seq<ConversationTurn>, t: ConversationTurn)
    ensures UserTurns(conversation + [t]) == UserTurns(conversation) + (if t.role == User then 1 else 0)
  {
    assert (conversation + [t])[..|conversation|] == conversation;
  }

  lemma AppendPair<T>(s: seq<T>, x: T, y: T)
    ensures s + [x] + [y] == s + [x, y]
  {
  }

  /** The fields of a `Partial<ClientInfo>`; absent ones are not supplied. */
  datatype ClientInfoUpdate = ClientInfoUpdate(
    userAgent: Option<string>,
    ipAddress: Option<string>,
    sessionStartTime: Option<int>,
    lastActivity: Option<int>)

  /** `updateClientInfo`: merge into the existing record and stamp the
      activity time, or build a new record whose times default to `now`
      unless supplied. */
  function MergeClientInfo(current: Option<ClientInfo>, u: ClientInfoUpdate, now: int): (r: ClientInfo)
    ensures current.Some? ==> r.lastActivity == now
    ensures r.sessionStartTime == if u.sessionStartTime.Some? then u.sessionStartTime.value
                                  else if current.Some? then current.value.sessionStartTime else now
    ensures current.None? ==> r.lastActivity == (if u.lastActivity.Some? then u.lastActivity.value else now)
    ensures u.userAgent.Some? ==> r.userAgent == u.userAgent
    ensures u.userAgent.None? ==> r.userAgent == (if current.Some? then current.value.userAgent else None)
    ensures u.ipAddress.Some? ==> r.ipAddress == u.ipAddress
    ensures u.ipAddress.None? ==> r.ipAddress == (if current.Some? then current.value.ipAddress else None)
  {
    var base := match current
      case Some(c) => c
      case None => ClientInfo(None, None, now, now);
    var merged := ClientInfo(
      if u.userAgent.Some? then u.userAgent else base.userAgent,
      if u.ipAddress.Some? then u.ipAddress else base.ipAddress,
      if u.sessionStartTime.Some? then u.sessionStartTime.value else base.sessionStartTime,
      if u.lastActivity.Some? then u.lastActivity.value else base.lastActivity);
    if current.Some? then merged.(lastActivity := now) else merged
  }

  class NovaSessionManager {
    const sessionId: string
    const startTime: int
    var conversation: seq<ConversationTurn>
    var status: SessionStatus
    var endTime: Option<int>
    var clientInfo: Option<ClientInfo>
    var systemPrompt: string
    var analytics: CallAnalytics
    var errors: seq<ErrorLog>

    /** The analytics record belongs to this session and counts its user turns. */
    ghost predicate Valid()
      reads this
    {
      analytics.sessionId == sessionId
      && analytics.startTime == startTime
      && analytics.turnCount == UserTurns(conversation)
    }

    constructor(sessionId: string, systemPrompt: string, clientInfo: Option<ClientInfo>, now: int)
      ensures Valid()
      ensures this.sessionId == sessionId && this.startTime == now && this.systemPrompt == systemPrompt
      ensures this.clientInfo == clientInfo
      ensures conversation == [] && errors == [] && status == Initializing && endTime == None
      ensures analytics == CallAnalytics(sessionId, now, None, None, 0, None, [], Some([]), Some([]))
    {
      this.sessionId := sessionId;
      this.startTime := now;
      this.systemPrompt := systemPrompt;
      this.clientInfo := clientInfo;
      conversation := [];
      status := Initializing;
      endTime := None;
      errors := [];
      analytics := CallAnalytics(sessionId, now, None, None, 0, None, [], Some([]), Some([]));
    }

    predicate IsActive()
      reads this
    {
      IsActiveStatus(status)
    }

    /** `startSession`: the session becomes active and greets the caller. */
    method StartSession(now: int)
      requires Valid()
      modifies this
      ensures Valid()
      ensures status == Active && IsActive()
      ensures conversation == old(conversation) + [ConversationTurn(Assistant, Greeting, now)]
      ensures errors == old(errors) && analytics == old(analytics) && endTime == old(endTime)
      ensures clientInfo == old(clientInfo)
    {
      status := Active;
      UserTurnsAppend(conversation, ConversationTurn(Assistant, Greeting, now));
      conversation := conversation + [ConversationTurn(Assistant, Greeting, now)];
    }

    /** `handleError`: logs one medium-severity error and moves to the
        error status unless the session has ended. */
    method HandleError(context: string, error: string, now: int)
      modifies this
      ensures errors == old(errors) + [ErrorLog(now, error, Some(context), Medium)]
      ensures old(status) == Ended ==> status == Ended
      ensures old(status) != Ended ==> status == Error
      ensures conversation == old(conversation) && analytics == old(analytics)
      ensures endTime == old(endTime) && clientInfo == old(clientInfo)
    {
      errors := errors + [ErrorLog(now, error, Some(context), Medium)];
      if status != Ended {
        status := Error;
      }
    }

    /** `processStreamResponse`: gathers the streamed text; a failure while
        reading is logged and gives no text, as does an empty text. */
    method ProcessStreamResponse(stream: Option<seq<StreamItem>>, now: int) returns (text: Option<string>)
      modifies this
      ensures text == ResponseText(stream) && errors == old(errors) + ResponseErrors(stream, now)
      ensures ReadStream(StreamItems(stream)).fault.Some? ==>
        text == None
        && errors == old(errors) + [ErrorLog(now, ReadStream(StreamItems(stream)).fault.value,
                                             Some("Failed to process stream response"), Medium)]
        && status == (if old(status) == Ended then Ended else Error)
      ensures ReadStream(StreamItems(stream)).fault.None? ==>
        errors == old(errors) && status == old(status) && text == NonEmpty(ReadStream(StreamItems(stream)).text)
      ensures conversation == old(conversation) && analytics == old(analytics)
      ensures endTime == old(endTime) && clientInfo == old(clientInfo)
    {
      var items := StreamItems(stream);
      var fullText := "";
      var i := 0;
      while i < |items|
        invariant 0 <= i <= |items|
        invariant ReadStream(items) == StreamOutcome(fullText + ReadStream(items[i..]).text, ReadStream(items[i..]).fault)
        invariant errors == old(errors) && status == old(status)
        invariant conversation == old(conversation) && analytics == old(analytics)
        invariant endTime == old(endTime) && clientInfo == old(clientInfo)
      {
        ReadStreamAt(items, i);
        match items[i]
        case Fault(e) =>
          HandleError("Failed to process stream response", e, now);
          return None;
        case Chunk(t, stop) =>
          ReadChunkStep(items, i, fullText);
          if Truthy(t) {
            fullText := fullText + t.value;
          } else {
            assert fullText + "" == fullText;
          }
          if stop {
            return NonEmpty(fullText);
          }
        i := i + 1;
      }
      assert items[i..] == [];
      assert fullText + "" == fullText;
      return NonEmpty(fullText);
    }

    /** `processTextMessage`: refused unless active. Otherwise records the
        user turn, asks the model, records a non-empty answer as an
        assistant turn, and returns to active; a refused request is logged
        and leaves the session in the error status. */
    method ProcessTextMessage(message: string, call: ModelCall, now: int) returns (r: Result<Option<string>, string>)
      requires Valid()
      modifies this
      ensures Valid()
      ensures old(status) != Active ==> r == Err("Session " + sessionId + " is not active") && unchanged(this)
      ensures old(status) == Active ==> r.Ok?
      ensures old(status) == Active && call.Responded? && r.value.Some? ==>
        conversation == old(conversation) + [ConversationTurn(User, message, now), ConversationTurn(Assistant, r.value.value, now)]
        && analytics.transcript == conversation
      ensures old(status) == Active && !(call.Responded? && r.value.Some?) ==>
        conversation == old(conversation) + [ConversationTurn(User, message, now)]
      ensures old(status) == Active ==> analytics.turnCount == old(analytics.turnCount) + 1
      ensures old(status) == Active && call.Responded? ==>
        status == Active && r == Ok(ResponseText(call.stream)) && errors == old(errors) + ResponseErrors(call.stream, now)
      ensures old(status) == Active && call.SendFailed? ==> (status == Error && r.value == None
        && errors == old(errors) + [ErrorLog(now, call.error, Some("Failed to process text message"), Medium)])
      ensures r.Ok? && r.value.Some? ==> r.value.value != ""
    {
      if status != Active {
        return Err("Session " + sessionId + " is not active");
      }
      status := Processing;
      AddUserTurn(message, now);
      match call
      case SendFailed(e) =>
        status := Active;
        HandleError("Failed to process text message", e, now);
        return Ok(None);
      case Responded(stream) =>
        var text := ProcessStreamResponse(stream, now);
        if text.Some? {
          AddAssistantTurn(text.value, now);
          AppendPair(old(conversation), ConversationTurn(User, message, now), ConversationTurn(Assistant, text.value, now));
        }
        status := Active;
        return Ok(text);
    }

    /** The user turn of `processTextMessage`, counted in the analytics. */
    method AddUserTurn(message: string, now: int)
      requires Valid()
      modifies this
      ensures Valid()
      ensures conversation == old(conversation) + [ConversationTurn(User, message, now)]
      ensures analytics == old(analytics).(turnCount := old(analytics).turnCount + 1)
      ensures status == old(status) && errors == old(errors)
      ensures endTime == old(endTime) && clientInfo == old(clientInfo)
    {
      var next := conversation + [ConversationTurn(User, message, now)];
      UserTurnsAppend(conversation, ConversationTurn(User, message, now));
      analytics := analytics.(turnCount := analytics.turnCount + 1);
      conversation := next;
    }

    /** The answer turn of `processTextMessage`; the transcript becomes a
        copy of the conversation. */
    method AddAssistantTurn(text: string, now: int)
      requires Valid()
      modifies this
      ensures Valid()
      ensures conversation == old(conversation) + [ConversationTurn(Assistant, text, now)]
      ensures analytics == old(analytics).(transcript := conversation)
      ensures status == old(status) && errors == old(errors)
      ensures endTime == old(endTime) && clientInfo == old(clientInfo)
    {
      var next := conversation + [ConversationTurn(Assistant, text, now)];
      UserTurnsAppend(conversation, ConversationTurn(Assistant, text, now));
      analytics := analytics.(transcript := next);
      conversation := next;
    }

    /** `processAudioChunk`: refused unless active; asks the model without
        recording any turn, and returns to active, or to the error status
        when the request is refused. */
    method ProcessAudioChunk(call: ModelCall, now: int) returns (r: Result<Option<string>, string>)
      requires Valid()
      modifies this
      ensures Valid()
      ensures old(status) != Active ==> r == Err("Session " + sessionId + " is not active") && unchanged(this)
      ensures old(status) == Active ==> r.Ok? && conversation == old(conversation) && analytics == old(analytics)
      ensures old(status) == Active && call.Responded? ==>
        status == Active && r == Ok(ResponseText(call.stream)) && errors == old(errors) + ResponseErrors(call.stream, now)
      ensures old(status) == Active && call.SendFailed? ==> (status == Error && r.value == None
        && errors == old(errors) + [ErrorLog(now, call.error, Some("Failed to process audio chunk"), Medium)])
    {
      if status != Active {
        return Err("Session " + sessionId + " is not active");
      }
      status := Processing;
      match call
      case SendFailed(e) =>
        status := Active;
        HandleError("Failed to process audio chunk", e, now);
        return Ok(None);
      case Responded(stream) =>
        var text := ProcessStreamResponse(stream, now);
        status := Active;
        return Ok(text);
    }

    /** `endSession`: the session ends and the analytics record is
        completed with the end time, duration, transcript, errors and
        outcome. */
    method EndSession(now: int) returns (result: CallAnalytics)
      requires Valid()
      modifies this
      ensures Valid()
      ensures status == Ended && endTime == Some(now)
      ensures result == analytics
      ensures result.endTime == Some(now) && result.duration == Some(now - startTime)
      ensures result.transcript == conversation && result.errors == Some(errors)
      ensures result.outcome == Some(DetermineOutcome(conversation))
      ensures result.turnCount == old(analytics.turnCount) && result.knowledgeGaps == old(analytics.knowledgeGaps)
      ensures conversation == old(conversation) && errors == old(errors)
    {
      status := Ended;
      endTime := Some(now);
      analytics := analytics.(endTime := Some(now), duration := Some(now - startTime), transcript := conversation,
                              errors := Some(errors), outcome := Some(DetermineOutcome(conversation)));
      return analytics;
    }

    /** `updateClientInfo`. */
    method UpdateClientInfo(u: ClientInfoUpdate, now: int)
      modifies this
      ensures clientInfo == Some(MergeClientInfo(old(clientInfo), u, now))
      ensures status == old(status) && conversation == old(conversation) && errors == old(errors)
      ensures analytics == old(analytics)
    {
      clientInfo := Some(MergeClientInfo(clientInfo, u, now));
    }
  }
}
