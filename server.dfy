/** The three-level lifecycle manager of the socket server (dist/server.js):
    a session contains at most one prompt, which contains at most one
    content block. Start operations refuse to open a level twice or inside
    a closed parent; end operations close the inner levels first. Ids are
    supplied by the caller in place of `randomUUID()`, and a thrown error
    is an `Err` carrying its message. */
module NovaServer {
  import opened Common

  class NovaSessionManager {
    var sessionId: Option<string>
    var promptId: Option<string>
    var contentId: Option<string>
    var isSessionActive: bool
    var isPromptActive: bool
    var isContentActive: bool

    /** Content lives inside a prompt, a prompt inside a session, and an id
        is held exactly while its level is open. */
    ghost predicate Valid()
      reads this
    {
      (isContentActive ==> isPromptActive)
      && (isPromptActive ==> isSessionActive)
      && (sessionId.Some? <==> isSessionActive)
      && (promptId.Some? <==> isPromptActive)
      && (contentId.Some? <==> isContentActive)
    }

    constructor()
      ensures Valid()
      ensures !isSessionActive && !isPromptActive && !isContentActive
    {
      sessionId, promptId, contentId := None, None, None;
      isSessionActive, isPromptActive, isContentActive := false, false, false;
    }

    method StartSession(freshId: string) returns (r: Result<string, string>)
      requires Valid()
      modifies this
      ensures Valid()
      ensures old(isSessionActive) ==> r == Err("Session already active") && unchanged(this)
      ensures !old(isSessionActive) ==> (r == Ok(freshId) && isSessionActive && sessionId == Some(freshId)
        && isPromptActive == old(isPromptActive) && isContentActive == old(isContentActive)
        && promptId == old(promptId) && contentId == old(contentId))
    {
      if isSessionActive {
        return Err("Session already active");
      }
      sessionId := Some(freshId);
      isSessionActive := true;
      return Ok(freshId);
    }

    method StartPrompt(freshId: string) returns (r: Result<string, string>)
      requires Valid()
      modifies this
      ensures Valid()
      ensures !old(isSessionActive) ==> r == Err("No active session") && unchanged(this)
      ensures old(isSessionActive) && old(isPromptActive) ==> r == Err("Prompt already active") && unchanged(this)
      ensures old(isSessionActive) && !old(isPromptActive) ==> (r == Ok(freshId) && isPromptActive && promptId == Some(freshId)
        && isSessionActive && sessionId == old(sessionId)
        && isContentActive == old(isContentActive) && contentId == old(contentId))
    {
      if !isSessionActive {
        return Err("No active session");
      }
      if isPromptActive {
        return Err("Prompt already active");
      }
      promptId := Some(freshId);
      isPromptActive := true;
      return Ok(freshId);
    }

    method StartContent(freshId: string) returns (r: Result<string, string>)
      requires Valid()
      modifies this
      ensures Valid()
      ensures !old(isPromptActive) ==> r == Err("No active prompt") && unchanged(this)
      ensures old(isPromptActive) && old(isContentActive) ==> r == Err("Content already active") && unchanged(this)
      ensures old(isPromptActive) && !old(isContentActive) ==> (r == Ok(freshId) && isContentActive && contentId == Some(freshId)
        && isSessionActive && sessionId == old(sessionId) && isPromptActive && promptId == old(promptId))
    {
      if !isPromptActive {
        return Err("No active prompt");
      }
      if isContentActive {
        return Err("Content already active");
      }
      contentId := Some(freshId);
      isContentActive := true;
      return Ok(freshId);
    }

    method EndContent() returns (r: Result<(), string>)
      requires Valid()
      modifies this
      ensures Valid()
      ensures !old(isContentActive) ==> r == Err("No active content to end") && unchanged(this)
      ensures old(isContentActive) ==> (r.Ok? && !isContentActive && contentId == None
        && isPromptActive && promptId == old(promptId) && isSessionActive && sessionId == old(sessionId))
    {
      if !isContentActive {
        return Err("No active content to end");
      }
      isContentActive := false;
      contentId := None;
      return Ok(());
    }

    /** Closes the prompt, ending any open content first. */
    method EndPrompt() returns (r: Result<(), string>)
      requires Valid()
      modifies this
      ensures Valid()
      ensures !old(isPromptActive) ==> r == Err("No active prompt to end") && unchanged(this)
      ensures old(isPromptActive) ==> (r.Ok? && !isPromptActive && !isContentActive && promptId == None && contentId == None
        && isSessionActive && sessionId == old(sessionId))
    {
      if !isPromptActive {
        return Err("No active prompt to end");
      }
      if isContentActive {
        var _ := EndContent();
      }
      isPromptActive := false;
      promptId := None;
      return Ok(());
    }

    /** Closes the session, ending any open prompt first; does nothing when
        no session is open. */
    method EndSession()
      requires Valid()
      modifies this
      ensures Valid()
      ensures !isSessionActive && !isPromptActive && !isContentActive
      ensures !old(isSessionActive) ==> unchanged(this)
    {
      if !isSessionActive {
        return;
      }
      if isPromptActive {
        var _ := EndPrompt();
      }
      isSessionActive := false;
      sessionId := None;
    }
  }

  /** The events `createEventStream` yields, without their JSON framing. */
  datatype StreamEvent =
    | SessionStart(sessionId: string, maxTokens: nat, topP: real, temperature: real)
    | PromptStart(promptId: string)
    | SystemContentStart(promptId: string, contentId: string)
    | TextInput(promptId: string, contentId: string, content: string)
    | ContentEnd(promptId: string, contentId: string)
    | PromptEnd(promptId: string)

  /** Which levels of the protocol are open on the wire. */
  datatype Nesting = Nesting(session: bool, prompt: bool, content: bool)

  /** The protocol's own rule for one event: a level opens only inside an
      open parent and only when it is not open already, text goes into open
      content, and a level closes only after its children. */
  function Step(n: Nesting, e: StreamEvent): Option<Nesting> {
    match e
    case SessionStart(_, _, _, _) => if n.session then None else Some(n.(session := true))
    case PromptStart(_) => if n.session && !n.prompt then Some(n.(prompt := true)) else None
    case SystemContentStart(_, _) => if n.prompt && !n.content then Some(n.(content := true)) else None
    case TextInput(_, _, _) => if n.content then Some(n) else None
    case ContentEnd(_, _) => if n.content then Some(n.(content := false)) else None
    case PromptEnd(_) => if n.prompt && !n.content then Some(n.(prompt := false)) else None
  }

  /** The nesting after a whole event sequence, or `None` at the first
      event the protocol refuses. */
  function Replay(n: Nesting, events: seq<StreamEvent>): Option<Nesting>
    decreases |events|
  {
    if events == [] then Some(n)
    else match Step(n, events[0])
      case None => None
      case Some(n') => Replay(n', events[1..])
  }

  /** The setup stream opens a session and leaves only the session open. */
  lemma SetupStreamIsWellNested(sid: string, p: string, c: string, text: string)
    ensures Replay(Nesting(false, false, false),
                   [SessionStart(sid, 1024, 0.9, 0.7), PromptStart(p), SystemContentStart(p, c),
                    TextInput(p, c, text), ContentEnd(p, c), PromptEnd(p)])
         == Some(Nesting(true, false, false))
  {
    var events := [SessionStart(sid, 1024, 0.9, 0.7), PromptStart(p), SystemContentStart(p, c),
                   TextInput(p, c, text), ContentEnd(p, c), PromptEnd(p)];
    assert Replay(Nesting(true, false, false), events[6..]) == Some(Nesting(true, false, false));
    assert Replay(Nesting(true, true, false), events[5..]) == Some(Nesting(true, false, false));
    assert Replay(Nesting(true, true, true), events[4..]) == Some(Nesting(true, false, false));
    assert Replay(Nesting(true, true, true), events[3..]) == Some(Nesting(true, false, false));
    assert Replay(Nesting(true, true, false), events[2..]) == Some(Nesting(true, false, false));
    assert Replay(Nesting(true, false, false), events[1..]) == Some(Nesting(true, false, false));
  }

  /** `createEventStream` run to completion: session start, then a prompt
      with one system text block, closed again. A refused step ends the
      session and stops the stream with that step's error. */
  method CreateEventStream(m: NovaSessionManager, systemPrompt: string, freshPromptId: string, freshContentId: string)
    returns (events: seq<StreamEvent>, err: Option<string>)
    requires m.Valid()
    modifies m
    ensures m.Valid()
    ensures !old(m.isSessionActive) ==> events == [] && err == Some("No active session")
    ensures old(m.isSessionActive) && old(m.isPromptActive) ==>
      (events == [SessionStart(old(m.sessionId).value, 1024, 0.9, 0.7)] && err == Some("Prompt already active")
      && !m.isSessionActive)
    ensures old(m.isSessionActive) && !old(m.isPromptActive) ==>
      (err == None
      && events == [SessionStart(old(m.sessionId).value, 1024, 0.9, 0.7),
                    PromptStart(freshPromptId),
                    SystemContentStart(freshPromptId, freshContentId),
                    TextInput(freshPromptId, freshContentId, systemPrompt),
                    ContentEnd(freshPromptId, freshContentId),
                    PromptEnd(freshPromptId)]
      && m.isSessionActive && m.sessionId == old(m.sessionId) && !m.isPromptActive && !m.isContentActive)
    ensures err == None ==> Replay(Nesting(false, false, false), events) == Some(Nesting(true, false, false))
  {
    events := [];
    if m.sessionId.None? {
      m.EndSession();
      return [], Some("No active session");
    }
    var sid := m.sessionId.value;
    events := events + [SessionStart(sid, 1024, 0.9, 0.7)];
    var p := m.StartPrompt(freshPromptId);
    if p.Err? {
      m.EndSession();
      return events, Some(p.error);
    }
    events := events + [PromptStart(p.value)];
    // The prompt was just opened with no content inside, so this step cannot be refused.
    var c := m.StartContent(freshContentId);
    events := events + [SystemContentStart(p.value, c.value), TextInput(p.value, c.value, systemPrompt)];
    var ec := m.EndContent();
    events := events + [ContentEnd(p.value, c.value)];
    var ep := m.EndPrompt();
    events := events + [PromptEnd(p.value)];
    SetupStreamIsWellNested(sid, p.value, c.value, systemPrompt);
    err := None;
  }
}
