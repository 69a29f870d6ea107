/**
 * The AI-side session (class `OpenAIRealtimeSession` in
 * apps/twilio-bridge/src/services/openaiRealtimeService.ts).
 *
 * The session's observable state is its socket reference `ws` (null, or a
 * socket with a ready state), the one-way `isClosing` flag, and the wire log:
 * every message sent on the socket and every call of `ws.close()`, in order.
 * The pure functions below say what each callback and method does to that
 * state; the class's methods are proved to do exactly that, and the lemmas
 * state the promised properties of the functions. Audio deltas leave this
 * state alone and go to the telephony registry's push primitive.
 */
module RealtimeSession {
  import opened Shared
  import opened Instructions
  import opened AgentTools
  import MediaStream

  /** The structured result a tool call returns (serialised with `JSON.stringify` in the source). */
  datatype ToolOutput = ToolOutput(status: string, message: string)

  /** Server-side voice activity detection, with its threshold and timings in milliseconds. */
  datatype TurnDetection = ServerVad(threshold: real, prefixPaddingMs: int, silenceDurationMs: int)

  /**
   * The constant session settings the session update copies (`SessionConfig`
   * of the agent configuration package, without its `model`, which the
   * update does not send). `None` is a setting given as `null`.
   */
  datatype SessionConfig = SessionConfig(
    voice: string,
    modalities: seq<string>,
    transcriptionModel: Option<string>,
    turnDetection: Option<TurnDetection>)

  /** `DEFAULT_SESSION_CONFIG`: the "verse" voice, text and audio, Whisper transcription, server VAD. */
  const DEFAULT_SESSION_CONFIG := SessionConfig("verse", ["text", "audio"], Some("whisper-1"), Some(ServerVad(0.5, 300, 500)))

  /** A client → server message of the AI protocol. */
  datatype ClientMessage =
    | SessionUpdate(instructions: string, tools: seq<ToolDefinition>, config: SessionConfig, inputAudioFormat: string, outputAudioFormat: string)
    | ItemCreateMessage(role: string, text: string)
    | FunctionCallOutput(callId: string, output: ToolOutput)
    | ResponseCreate
    | AudioAppend(audio: string)

  /** What the session did to its socket: sent one message, or called `close()`. */
  datatype WireOp = Sent(msg: ClientMessage) | CloseRequested

  /** The `ws` field: `null`, or a socket in some ready state. */
  /**
   * The `ws` field: `null`, or a socket in some ready state. `id` names the
   * socket by the `connect()` call that created it (0 for the first), so that
   * a callback of a replaced socket can be told from one of the current socket.
   */
  datatype WsRef = Null | Ws(id: nat, readyState: ReadyState)

  /** How a tool call's `arguments` string decoded. */
  datatype Arguments =
    | Unparseable                          // JSON.parse threw: the source uses `{}`
    | JsonNull                             // the string was "null": property reads on it throw
    | JsonValue(fields: map<string, string>)  // any other JSON value (its string fields, if an object)

  /** The fields of a decoded server event that the session reads. */
  datatype ServerEvent = ServerEvent(
    eventType: string,
    delta: Option<string>,
    name: string,
    callId: string,
    arguments: Arguments)

  /** The session's state; `created` counts the sockets `connect()` has made. */
  datatype AiState = AiState(ws: WsRef, isClosing: bool, wire: seq<WireOp>, created: nat)

  /** The callbacks and public calls that drive a session. */
  datatype Input =
    | Connect                           // `connect()`: a new socket, still connecting
    | Opened(socket: nat)                // socket number `socket` opened (its `open` callback)
    | SocketClosed                      // the `close` callback of any socket, current or replaced
    | Message(event: Option<ServerEvent>)  // a frame; `None` when it is not JSON
    | AudioIn(audio: string)            // `sendAudio(base64Audio)`
    | CloseCall                         // `close()`

  const SESSION_UPDATED := "session.updated"
  const AUDIO_DELTA := "response.audio.delta"
  const FUNCTION_CALL_ARGUMENTS_DONE := "response.function_call_arguments.done"
  const RESPONSE_DONE := "response.done"

  const G711_ULAW := "g711_ulaw"
  const GREET_PROMPT := "The caller just picked up. Greet them."

  const TAKE_MESSAGE_ACK := ToolOutput("success", "Message recorded successfully")
  const END_CALL_ACK := ToolOutput("success", "Call will end after your response")

  predicate IsOpen(ws: WsRef) {
    ws.Ws? && ws.readyState == Open
  }

  /** `send`: one message on an OPEN socket; dropped (and logged) otherwise. */
  function SendSpec(s: AiState, m: ClientMessage): AiState {
    if IsOpen(s.ws) then s.(wire := s.wire + [Sent(m)]) else s
  }

  /** `close`: closes and forgets the socket if there is one. */
  function CloseSpec(s: AiState): AiState {
    if s.ws.Ws? then s.(ws := Null, wire := s.wire + [CloseRequested]) else s
  }

  /** `configureSession`: the session update with the persona's prompt, the tool catalogue and G.711 μ-law audio. */
  function ConfigureSpec(persona: AgentPersona, s: AiState): AiState {
    SendSpec(s, SessionUpdate(BuildSystemInstructions(persona), TOOLS, DEFAULT_SESSION_CONFIG, G711_ULAW, G711_ULAW))
  }

  /** `sendGreeting`: a user message asking for a greeting, then a response trigger. */
  function GreetSpec(s: AiState): AiState {
    SendSpec(SendSpec(s, ItemCreateMessage("user", GREET_PROMPT)), ResponseCreate)
  }

  /** The tool's result by name; only the two catalogue tools succeed. */
  function ToolResult(name: string): (out: ToolOutput)
    ensures out.status == "success" <==> name in ToolNames(TOOLS)
    ensures out.status != "success" ==> out == ToolOutput("error", "Unknown tool: " + name)
  {
    CatalogueNames();
    if name == "take_message" then TAKE_MESSAGE_ACK
    else if name == "end_call" then END_CALL_ACK
    else ToolOutput("error", "Unknown tool: " + name)
  }

  /** The two tool branches read properties of the parsed arguments (for logging). */
  predicate ReadsArguments(name: string) {
    name == "take_message" || name == "end_call"
  }

  /**
   * `handleToolCall`: sets `isClosing` for `end_call`, then sends the tool's
   * output under the event's `call_id` and a response trigger. When the
   * arguments are JSON `null`, the property read of a catalogue tool throws
   * before anything happens; the exception ends the message callback.
   */
  function ToolCallSpec(s: AiState, ev: ServerEvent): AiState {
    if ev.arguments.JsonNull? && ReadsArguments(ev.name) then s
    else
      var s1 := if ev.name == "end_call" then s.(isClosing := true) else s;
      SendSpec(SendSpec(s1, FunctionCallOutput(ev.callId, ToolResult(ev.name))), ResponseCreate)
  }

  /** `handleEvent`, on the session's own state (audio deltas go to the telephony leg instead). */
  function HandleEventSpec(s: AiState, ev: ServerEvent): AiState {
    if ev.eventType == SESSION_UPDATED then GreetSpec(s)
    else if ev.eventType == FUNCTION_CALL_ARGUMENTS_DONE then ToolCallSpec(s, ev)
    else if ev.eventType == RESPONSE_DONE then (if s.isClosing then CloseSpec(s) else s)
    else s
  }

  /** The audio an event pushes back to the phone: a truthy `delta` of `response.audio.delta`. */
  function AudioDelta(ev: ServerEvent): Option<string> {
    if ev.eventType == AUDIO_DELTA && Truthy(ev.delta) then ev.delta else None
  }

  /** One input's effect on the session. */
  function Step(persona: AgentPersona, s: AiState, i: Input): AiState {
    match i
    case Connect => s.(ws := Ws(s.created, Connecting), created := s.created + 1)
    case Opened(socket) => ConfigureSpec(persona, if s.ws.Ws? && s.ws.id == socket then s.(ws := s.ws.(readyState := Open)) else s)
    case SocketClosed => s.(ws := Null)
    case Message(ev) => if ev.Some? then HandleEventSpec(s, ev.value) else s
    case AudioIn(audio) => if IsOpen(s.ws) then SendSpec(s, AudioAppend(audio)) else s
    case CloseCall => CloseSpec(s)
  }

  /** The session after a run of inputs. */
  function Run(persona: AgentPersona, s: AiState, inputs: seq<Input>): AiState
    decreases |inputs|
  {
    if inputs == [] then s else Run(persona, Step(persona, s, inputs[0]), inputs[1..])
  }

  const INITIAL := AiState(Null, false, [], 0)

  /** A tool call asking to end the call, whose arguments do not make the handler throw. */
  predicate RequestsEndCall(i: Input) {
    && i.Message? && i.event.Some?
    && i.event.value.eventType == FUNCTION_CALL_ARGUMENTS_DONE
    && i.event.value.name == "end_call"
    && !i.event.value.arguments.JsonNull?
  }

  // ---- Properties of single steps ----

  /** With no socket, or one that is not OPEN, sending emits nothing and changes nothing. */
  lemma SendGated(s: AiState, m: ClientMessage)
    ensures !IsOpen(s.ws) ==> SendSpec(s, m) == s
    ensures IsOpen(s.ws) ==> SendSpec(s, m) == s.(wire := s.wire + [Sent(m)])
  {
  }

  /** `sendAudio` on an OPEN socket appends exactly one append message carrying the payload unchanged; otherwise nothing. */
  lemma SendAudioAppendsOne(persona: AgentPersona, s: AiState, audio: string)
    ensures var t := Step(persona, s, AudioIn(audio));
      && t.ws == s.ws && t.isClosing == s.isClosing
      && t.wire == s.wire + (if IsOpen(s.ws) then [Sent(AudioAppend(audio))] else [])
  {
  }

  /** Opening the current socket sends the session configuration, built from the persona, and nothing else. */
  lemma OpenedConfigures(persona: AgentPersona, s: AiState)
    requires s.ws.Ws?
    ensures var t := Step(persona, s, Opened(s.ws.id));
      && t.ws == Ws(s.ws.id, Open) && t.isClosing == s.isClosing && t.created == s.created
      && t.wire == s.wire + [Sent(SessionUpdate(BuildSystemInstructions(persona), TOOLS, DEFAULT_SESSION_CONFIG, G711_ULAW, G711_ULAW))]
  {
  }

  /**
   * The `open` callback of a socket that a later `connect()` replaced still
   * runs `configureSession`, but on the current socket: it opens nothing, and
   * the update goes out only if the current socket is already OPEN.
   */
  lemma StaleOpenKeepsSocket(persona: AgentPersona, s: AiState, socket: nat)
    requires !(s.ws.Ws? && s.ws.id == socket)
    ensures var t := Step(persona, s, Opened(socket));
      && t.ws == s.ws && t.isClosing == s.isClosing && t.created == s.created
      && t.wire == s.wire + (if IsOpen(s.ws) then [Sent(SessionUpdate(BuildSystemInstructions(persona), TOOLS, DEFAULT_SESSION_CONFIG, G711_ULAW, G711_ULAW))] else [])
  {
  }

  /** `session.updated` on an OPEN socket sends the greeting request, then a response trigger, in that order. */
  lemma SessionUpdatedGreets(s: AiState, ev: ServerEvent)
    requires ev.eventType == SESSION_UPDATED
    ensures var t := HandleEventSpec(s, ev);
      && t.ws == s.ws && t.isClosing == s.isClosing
      && t.wire == s.wire + (if IsOpen(s.ws) then [Sent(ItemCreateMessage("user", GREET_PROMPT)), Sent(ResponseCreate)] else [])
  {
  }

  /**
   * Every tool call on an OPEN socket is answered: its output under the same
   * `call_id`, then a response trigger, whether the tool is known or not and
   * whether its arguments parsed or not. The one exception is arguments that
   * decode to JSON `null` for a catalogue tool, where the handler throws and
   * nothing changes.
   */
  lemma ToolCallAnswered(s: AiState, ev: ServerEvent)
    requires ev.eventType == FUNCTION_CALL_ARGUMENTS_DONE
    ensures var t := HandleEventSpec(s, ev);
      if ev.arguments.JsonNull? && ReadsArguments(ev.name) then t == s
      else
        && t.ws == s.ws
        && t.isClosing == (s.isClosing || ev.name == "end_call")
        && t.wire == s.wire + (if IsOpen(s.ws) then [Sent(FunctionCallOutput(ev.callId, ToolResult(ev.name))), Sent(ResponseCreate)] else [])
  {
  }

  /** The tool results by name: two acknowledgements and an error naming any other tool. */
  lemma ToolResultsByName(name: string)
    ensures name == "take_message" ==> ToolResult(name) == ToolOutput("success", "Message recorded successfully")
    ensures name == "end_call" ==> ToolResult(name) == ToolOutput("success", "Call will end after your response")
    ensures name != "take_message" && name != "end_call" ==> ToolResult(name) == ToolOutput("error", "Unknown tool: " + name)
  {
  }

  /** The result of a tool call does not depend on its arguments, parsed or not (short of the `null` case). */
  lemma ToolCallIgnoresArguments(s: AiState, ev: ServerEvent, args: map<string, string>)
    requires !ev.arguments.JsonNull?
    ensures ToolCallSpec(s, ev) == ToolCallSpec(s, ev.(arguments := JsonValue(args)))
    ensures ToolCallSpec(s, ev) == ToolCallSpec(s, ev.(arguments := Unparseable))
  {
  }

  /** `response.done` closes the socket if and only if `end_call` was requested earlier; otherwise it changes nothing. */
  lemma ResponseDoneClosesIffClosing(s: AiState, ev: ServerEvent)
    requires ev.eventType == RESPONSE_DONE
    ensures s.isClosing ==> HandleEventSpec(s, ev) == CloseSpec(s)
    ensures !s.isClosing ==> HandleEventSpec(s, ev) == s
    ensures s.ws.Ws? ==> (HandleEventSpec(s, ev).ws == Null <==> s.isClosing)
  {
  }

  /** Event types other than the three the session acts on send nothing and change nothing. */
  lemma OtherEventsInert(s: AiState, ev: ServerEvent)
    requires ev.eventType !in {SESSION_UPDATED, FUNCTION_CALL_ARGUMENTS_DONE, RESPONSE_DONE}
    ensures HandleEventSpec(s, ev) == s
  {
  }

  /** `close()` leaves no socket, and a second call does nothing. */
  lemma CloseIdempotent(s: AiState)
    ensures CloseSpec(s).ws == Null
    ensures CloseSpec(CloseSpec(s)) == CloseSpec(s)
    ensures s.ws.Null? ==> CloseSpec(s) == s
  {
  }

  /** A tool call and `isClosing`: only `end_call` sets it, and nothing clears it. */
  lemma StepClosingFlag(persona: AgentPersona, s: AiState, i: Input)
    ensures s.isClosing ==> Step(persona, s, i).isClosing
    ensures !s.isClosing && Step(persona, s, i).isClosing ==> RequestsEndCall(i)
  {
  }

  // ---- Properties of runs ----

  /** Once set, `isClosing` stays set whatever follows. */
  lemma {:induction false} ClosingIsSticky(persona: AgentPersona, s: AiState, inputs: seq<Input>)
    requires s.isClosing
    ensures Run(persona, s, inputs).isClosing
    decreases |inputs|
  {
    if inputs != [] {
      StepClosingFlag(persona, s, inputs[0]);
      ClosingIsSticky(persona, Step(persona, s, inputs[0]), inputs[1..]);
    }
  }

  /** `isClosing` becomes set only through an `end_call` tool call. */
  lemma {:induction false} ClosingOnlyAfterEndCall(persona: AgentPersona, s: AiState, inputs: seq<Input>)
    requires !s.isClosing
    requires forall k :: 0 <= k < |inputs| ==> !RequestsEndCall(inputs[k])
    ensures !Run(persona, s, inputs).isClosing
    decreases |inputs|
  {
    if inputs != [] {
      StepClosingFlag(persona, s, inputs[0]);
      ClosingOnlyAfterEndCall(persona, Step(persona, s, inputs[0]), inputs[1..]);
    }
  }

  /** The wire log only grows: nothing sent is ever taken back or reordered. */
  lemma {:induction false} WireAppendOnly(persona: AgentPersona, s: AiState, inputs: seq<Input>)
    ensures s.wire <= Run(persona, s, inputs).wire
    decreases |inputs|
  {
    if inputs != [] {
      var t := Step(persona, s, inputs[0]);
      assert s.wire <= t.wire;
      WireAppendOnly(persona, t, inputs[1..]);
    }
  }

  /** With no socket, nothing is ever sent or closed again until `connect()` makes a new one. */
  lemma {:induction false} SilentWithoutSocket(persona: AgentPersona, s: AiState, inputs: seq<Input>)
    requires s.ws.Null?
    requires forall k :: 0 <= k < |inputs| ==> !inputs[k].Connect?
    ensures Run(persona, s, inputs).wire == s.wire
    ensures Run(persona, s, inputs).ws.Null?
    decreases |inputs|
  {
    if inputs != [] {
      var t := Step(persona, s, inputs[0]);
      assert t.wire == s.wire && t.ws.Null?;
      SilentWithoutSocket(persona, t, inputs[1..]);
    }
  }

  /**
   * `end_call` does not close the socket: the tool's answer and a response
   * trigger go out, and the socket closes at the following `response.done`.
   */
  lemma EndCallClosesAtResponseDone(persona: AgentPersona, s: AiState, call: ServerEvent, done: ServerEvent)
    requires IsOpen(s.ws)
    requires call.eventType == FUNCTION_CALL_ARGUMENTS_DONE && call.name == "end_call" && !call.arguments.JsonNull?
    requires done.eventType == RESPONSE_DONE
    ensures var mid := Step(persona, s, Message(Some(call)));
      && mid.ws == s.ws && mid.isClosing
      && Run(persona, s, [Message(Some(call)), Message(Some(done))])
        == s.(ws := Null, isClosing := true, wire := s.wire + [Sent(FunctionCallOutput(call.callId, END_CALL_ACK)), Sent(ResponseCreate), CloseRequested])
  {
    var mid := Step(persona, s, Message(Some(call)));
    assert mid.wire == s.wire + [Sent(FunctionCallOutput(call.callId, END_CALL_ACK)), Sent(ResponseCreate)];
    var inputs := [Message(Some(call)), Message(Some(done))];
    assert inputs[1..] == [Message(Some(done))] && inputs[1..][1..] == [];
    assert Run(persona, s, inputs) == Run(persona, mid, [Message(Some(done))]);
    assert Run(persona, mid, [Message(Some(done))]) == Step(persona, mid, Message(Some(done)));
  }

  /** The wire log holds no sent message (it may hold calls of `close()`). */
  predicate NoneSent(wire: seq<WireOp>) {
    forall k :: 0 <= k < |wire| ==> !wire[k].Sent?
  }

  /**
   * Until an `open` callback, the socket is never OPEN and no message goes
   * out, whatever else happens: `connect()` only yields a CONNECTING socket,
   * and every send before that is dropped. Calls of `close()` are still
   * recorded.
   */
  lemma {:induction false} SilentUntilOpened(persona: AgentPersona, s: AiState, inputs: seq<Input>)
    requires !IsOpen(s.ws) && NoneSent(s.wire)
    requires forall k :: 0 <= k < |inputs| ==> !inputs[k].Opened?
    ensures !IsOpen(Run(persona, s, inputs).ws)
    ensures NoneSent(Run(persona, s, inputs).wire)
    decreases |inputs|
  {
    if inputs != [] {
      var t := Step(persona, s, inputs[0]);
      assert !IsOpen(t.ws) && (t.wire == s.wire || t.wire == s.wire + [CloseRequested]);
      SilentUntilOpened(persona, t, inputs[1..]);
    }
  }

  /** The current socket, if any, is the newest one `connect()` made. */
  predicate NewestSocket(s: AiState) {
    s.ws.Ws? ==> s.ws.id + 1 == s.created
  }

  /**
   * Over any run the current socket stays the newest one and the count of
   * sockets never falls, so the number of a replaced socket is never the
   * current socket's again: its `open` callback is always stale.
   */
  lemma {:induction false} SocketsNeverReused(persona: AgentPersona, s: AiState, inputs: seq<Input>)
    requires NewestSocket(s)
    ensures NewestSocket(Run(persona, s, inputs))
    ensures s.created <= Run(persona, s, inputs).created
    decreases |inputs|
  {
    if inputs != [] {
      var t := Step(persona, s, inputs[0]);
      assert NewestSocket(t) && s.created <= t.created;
      SocketsNeverReused(persona, t, inputs[1..]);
    }
  }

  /** A fresh session sends no message before its socket opens, including while it is still connecting. */
  lemma NothingSentBeforeOpen(persona: AgentPersona, inputs: seq<Input>)
    requires forall k :: 0 <= k < |inputs| ==> !inputs[k].Opened?
    ensures NoneSent(Run(persona, INITIAL, inputs).wire)
  {
    SilentUntilOpened(persona, INITIAL, inputs);
  }

  /** The session object; each method changes its state exactly as the function of the same step says. */
  class OpenAIRealtimeSession {
    var ws: WsRef
    var isClosing: bool
    var wire: seq<WireOp>
    var created: nat
    const persona: AgentPersona
    const streamSid: string
    const registry: MediaStream.MediaStreamRegistry

    function State(): AiState
      reads this
    {
      AiState(ws, isClosing, wire, created)
    }

    constructor (streamSid: string, persona: AgentPersona, registry: MediaStream.MediaStreamRegistry)
      ensures State() == INITIAL
      ensures this.streamSid == streamSid && this.persona == persona && this.registry == registry
    {
      this.streamSid := streamSid;
      this.persona := persona;
      this.registry := registry;
      ws := Null;
      isClosing := false;
      wire := [];
      created := 0;
    }

    /** `connect()`: a new socket, not yet open. */
    method Connect()
      modifies this
      ensures State() == Step(persona, old(State()), Input.Connect)
    {
      ws := Ws(created, Connecting);
      created := created + 1;
    }

    /**
     * The `open` callback of socket number `socket`: that socket is now OPEN
     * if it is still the current one, and the session configures itself.
     */
    method OnOpen(socket: nat)
      modifies this
      ensures State() == Step(persona, old(State()), Opened(socket))
    {
      if ws.Ws? && ws.id == socket {
        ws := ws.(readyState := Open);
      }
      ConfigureSession();
    }

    /** The socket's `close` callback. */
    method OnSocketClose()
      modifies this
      ensures State() == Step(persona, old(State()), SocketClosed)
    {
      ws := Null;
    }

    /** The socket's `message` callback; `None` is a frame that is not JSON, caught and logged. */
    method OnMessage(data: Option<ServerEvent>)
      modifies this, registry.SocketOf(streamSid)
      ensures State() == Step(persona, old(State()), Message(data))
      ensures data.Some? && AudioDelta(data.value).Some? && streamSid in registry.activeSessions ==>
        var w := registry.activeSessions[streamSid].ws;
        && w.readyState == old(w.readyState)
        && w.sent == old(w.sent) + (if old(w.readyState) == Open then [MediaStream.OutboundMedia(streamSid, AudioDelta(data.value).value)] else [])
      ensures data.None? || AudioDelta(data.value).None? ==> unchanged(registry.SocketOf(streamSid))
    {
      if data.Some? {
        HandleEvent(data.value);
      }
    }

    method ConfigureSession()
      modifies this
      ensures State() == ConfigureSpec(persona, old(State()))
    {
      Send(SessionUpdate(BuildSystemInstructions(persona), TOOLS, DEFAULT_SESSION_CONFIG, G711_ULAW, G711_ULAW));
    }

    method SendGreeting()
      modifies this
      ensures State() == GreetSpec(old(State()))
    {
      Send(ItemCreateMessage("user", GREET_PROMPT));
      Send(ResponseCreate);
    }

    /** `sendAudio`: forwards the payload only on an OPEN socket. */
    method SendAudio(base64Audio: string)
      modifies this
      ensures State() == Step(persona, old(State()), AudioIn(base64Audio))
    {
      if !IsOpen(ws) {
        return;
      }
      Send(AudioAppend(base64Audio));
    }

    method HandleEvent(ev: ServerEvent)
      modifies this, registry.SocketOf(streamSid)
      ensures State() == HandleEventSpec(old(State()), ev)
      ensures AudioDelta(ev).Some? && streamSid in registry.activeSessions ==>
        var w := registry.activeSessions[streamSid].ws;
        && w.readyState == old(w.readyState)
        && w.sent == old(w.sent) + (if old(w.readyState) == Open then [MediaStream.OutboundMedia(streamSid, AudioDelta(ev).value)] else [])
      ensures AudioDelta(ev).None? ==> unchanged(registry.SocketOf(streamSid))
    {
      if ev.eventType == SESSION_UPDATED {
        SendGreeting();
      } else if ev.eventType == AUDIO_DELTA {
        HandleAudioDelta(ev);
      } else if ev.eventType == FUNCTION_CALL_ARGUMENTS_DONE {
        HandleToolCall(ev);
      } else if ev.eventType == RESPONSE_DONE {
        if isClosing {
          Close();
        }
      }
    }

    /** `handleAudioDelta`: a truthy delta is pushed to the phone leg of this stream. */
    method HandleAudioDelta(ev: ServerEvent)
      requires ev.eventType == AUDIO_DELTA
      modifies registry.SocketOf(streamSid)
      ensures AudioDelta(ev).Some? && streamSid in registry.activeSessions ==>
        var w := registry.activeSessions[streamSid].ws;
        && w.readyState == old(w.readyState)
        && w.sent == old(w.sent) + (if old(w.readyState) == Open then [MediaStream.OutboundMedia(streamSid, AudioDelta(ev).value)] else [])
      ensures AudioDelta(ev).None? ==> unchanged(registry.SocketOf(streamSid))
    {
      if Truthy(ev.delta) {
        registry.SendAudioToTwilio(streamSid, ev.delta.value);
      }
    }

    method HandleToolCall(ev: ServerEvent)
      modifies this
      ensures State() == ToolCallSpec(old(State()), ev)
    {
      if ev.arguments.JsonNull? && ReadsArguments(ev.name) {
        return;
      }
      var output: ToolOutput;
      if ev.name == "take_message" {
        output := TAKE_MESSAGE_ACK;
      } else if ev.name == "end_call" {
        isClosing := true;
        output := END_CALL_ACK;
      } else {
        output := ToolOutput("error", "Unknown tool: " + ev.name);
      }
      Send(FunctionCallOutput(ev.callId, output));
      Send(ResponseCreate);
    }

    method Send(m: ClientMessage)
      modifies this
      ensures State() == SendSpec(old(State()), m)
    {
      if !IsOpen(ws) {
        return;
      }
      wire := wire + [Sent(m)];
    }

    method Close()
      modifies this
      ensures State() == CloseSpec(old(State()))
    {
      if ws.Ws? {
        wire := wire + [CloseRequested];
        ws := Null;
      }
    }
  }
}
