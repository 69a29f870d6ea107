# CallMeMaybe bridge core, modelled in Dafny

CallMeMaybe answers phone calls with an AI assistant. Its core is the bridge
between a Twilio media stream (the phone leg, one WebSocket per call, frames
`connected` / `start` / `media` / `stop`) and the OpenAI Realtime API (the AI
leg, one WebSocket per session exchanging session updates, audio, transcripts
and tool calls). This project models that core and a few small pieces of pure
logic around it, and proves properties of the model:

- `RealtimeSession` — the AI-side session `OpenAIRealtimeSession`. Its state
  is the socket reference `ws` (null, or a socket with a ready state), the
  one-way `isClosing` flag, and the wire log: every message sent and every
  `ws.close()`, in order. Pure functions (`SendSpec`, `ToolCallSpec`,
  `HandleEventSpec`, `Step`, `Run`) say what each callback does to that
  state. The class's methods are proved to do exactly that, and the lemmas
  prove the properties: sends are gated on an OPEN socket, the greeting
  order, every tool call is answered under its `call_id`, `response.done`
  closes only after `end_call`, `close()` is idempotent, and nothing is sent
  once the socket is gone. Audio deltas go to the telephony registry's push
  primitive.
- `MediaStream` — the process-wide `activeSessions` registry, the
  per-connection frame and close handlers, and `sendAudioToTwilio`. These are
  classes whose methods state the exact new map, and that no other key
  changes.
- `Instructions` — the persona → system prompt and greeting builder. Each
  optional section is present exactly when its field is truthy, and the
  sections come in a fixed order.
- `AgentTools` — the constant tool catalogue. Its names match the tools the
  session's dispatcher answers with success.
- `Transcripts` — the browser client's transcript list, as reducers on a
  sequence.
- `TestApis` — `mask_key`, the API-key masking helper of the backend's
  connectivity script.

Decoded JSON is modelled as datatypes. A frame that is not JSON is `None`.
Tool-call arguments that are JSON `null` are kept apart from other values,
because in the source, reading a property of them throws before the tool is
answered. The clock reading for a call's `startTime` is a parameter. The
AI session is driven by inputs: the public calls `connect()`, `sendAudio()`
and `close()`, and the socket's `open`, `message` and `close` callbacks. The
sockets' ready states come from the environment. For the AI leg they change
only through those inputs. For the phone leg the ready state is a field of
`TwilioSocket`. Each socket made by `connect()` has a number. A new `connect()`
replaces the old socket without closing it, and the old socket's callbacks
stay live. Its `message` and `close` callbacks act on the session exactly like
the current socket's do. Its `open` callback configures the session, but it
does not open the current socket.

The bridge code does less than a reader might expect:

- `media` frames are not forwarded to the AI leg. The handler only logs them.
- The media format in `start` is not checked.
- `start` does not open an AI session.
- `stop` and connection close do not close an AI session. They only remove a
  registry entry:
  - `stop` removes the key given by the frame's top-level `streamSid`;
  - close removes the key given by the connection's own session.
- `take_message` does not check its required fields. It acknowledges success
  unless its arguments are JSON `null`. In that case reading a property
  throws, and nothing is sent.
- The greeting text built by `buildGreeting` is only logged. The message
  actually sent asks the model to greet the caller with a fixed sentence.

## Model

| member | source | states |
|---|---|---|
| `RealtimeSession.OpenAIRealtimeSession.constructor` | apps/twilio-bridge/src/services/openaiRealtimeService.ts:19-30 | a new session has no socket, `isClosing` false and has sent nothing |
| `RealtimeSession.OpenAIRealtimeSession.Connect` | apps/twilio-bridge/src/services/openaiRealtimeService.ts:33-39 | `connect()` installs a new, still-connecting socket, numbered after every earlier one; an earlier socket is replaced, not closed |
| `RealtimeSession.OpenAIRealtimeSession.OnOpen` | apps/twilio-bridge/src/services/openaiRealtimeService.ts:41-44 | the `open` callback of the current socket makes it OPEN; the callback of a socket replaced by a later `connect()` leaves `ws` alone; either way the session configuration is then sent through the gated `send` |
| `RealtimeSession.OpenAIRealtimeSession.OnMessage` | apps/twilio-bridge/src/services/openaiRealtimeService.ts:46-53 | a frame that is not JSON changes nothing; a decoded event is handled as `HandleEvent` says |
| `RealtimeSession.OpenAIRealtimeSession.OnSocketClose` | apps/twilio-bridge/src/services/openaiRealtimeService.ts:55-58 | the socket's close callback sets `ws` to null and sends nothing |
| `RealtimeSession.OpenAIRealtimeSession.ConfigureSession` | apps/twilio-bridge/src/services/openaiRealtimeService.ts:66-80 | sends one session update with the persona's prompt, the tool catalogue, the default voice, modality, transcription and turn-detection settings, and g711_ulaw in and out, if the socket is OPEN |
| `RealtimeSession.OpenAIRealtimeSession.SendGreeting` | apps/twilio-bridge/src/services/openaiRealtimeService.ts:83-104 | sends the user greeting request, then a response trigger, if the socket is OPEN |
| `RealtimeSession.OpenAIRealtimeSession.SendAudio` | apps/twilio-bridge/src/services/openaiRealtimeService.ts:107-114 | forwards the audio as one append message only on an OPEN socket |
| `RealtimeSession.OpenAIRealtimeSession.HandleEvent` | apps/twilio-bridge/src/services/openaiRealtimeService.ts:117-176 | new session state is `HandleEventSpec` of the old one; a truthy audio delta becomes exactly one media frame on the call's phone socket if that socket is OPEN; otherwise no phone socket changes |
| `RealtimeSession.OpenAIRealtimeSession.HandleAudioDelta` | apps/twilio-bridge/src/services/openaiRealtimeService.ts:179-184 | a truthy delta is pushed through the registry unchanged; an absent or empty one touches nothing |
| `RealtimeSession.OpenAIRealtimeSession.HandleToolCall` | apps/twilio-bridge/src/services/openaiRealtimeService.ts:187-239 | new state is `ToolCallSpec` of the old one: `end_call` sets `isClosing`, then the output and a response trigger are sent |
| `RealtimeSession.OpenAIRealtimeSession.Send` | apps/twilio-bridge/src/services/openaiRealtimeService.ts:242-248 | appends the message to the wire log only when the socket is OPEN |
| `RealtimeSession.OpenAIRealtimeSession.Close` | apps/twilio-bridge/src/services/openaiRealtimeService.ts:251-256 | closes and forgets the socket if there is one, else does nothing |
| `RealtimeSession.ToolResult` | apps/twilio-bridge/src/services/openaiRealtimeService.ts:203-224 | the status is success exactly for the names in the tool catalogue; any other name gets `error` with "Unknown tool: " + name |
| `RealtimeSession.SendGated` | apps/twilio-bridge/src/services/openaiRealtimeService.ts:242-246 | with no socket or a socket that is not OPEN, a send emits nothing and changes nothing; on OPEN it appends exactly that message |
| `RealtimeSession.SendAudioAppendsOne` | apps/twilio-bridge/src/services/openaiRealtimeService.ts:107-114 | `sendAudio` appends exactly one append message carrying the payload unchanged on an OPEN socket, nothing otherwise, and leaves `ws` and `isClosing` alone |
| `RealtimeSession.OpenedConfigures` | apps/twilio-bridge/src/services/openaiRealtimeService.ts:41-44 | opening the current socket makes it OPEN and sends exactly one session update built from the persona, with the tool catalogue, the default session settings and G.711 μ-law formats |
| `RealtimeSession.StaleOpenKeepsSocket` | apps/twilio-bridge/src/services/openaiRealtimeService.ts:33-44 | the `open` callback of a replaced socket leaves the current socket, flag and counter unchanged; its session update goes out only if the current socket is already OPEN and is dropped otherwise |
| `RealtimeSession.SocketsNeverReused` | apps/twilio-bridge/src/services/openaiRealtimeService.ts:33-39 | over any run the current socket is the newest one created and the number of sockets never falls, so a replaced socket never becomes current again |
| `RealtimeSession.SessionUpdatedGreets` | apps/twilio-bridge/src/services/openaiRealtimeService.ts:123-126 | `session.updated` on an OPEN socket appends the greeting request and then a response trigger, in that order |
| `RealtimeSession.ToolCallAnswered` | apps/twilio-bridge/src/services/openaiRealtimeService.ts:187-239 | every tool call on an OPEN socket appends its output under the event's `call_id`, then a response trigger, for known and unknown tools and unparseable arguments; `isClosing` becomes old value or `end_call`; JSON-`null` arguments to a catalogue tool change nothing |
| `RealtimeSession.ToolResultsByName` | apps/twilio-bridge/src/services/openaiRealtimeService.ts:203-224 | the exact acknowledgement for `take_message`, for `end_call`, and the error for any other name |
| `RealtimeSession.ToolCallIgnoresArguments` | apps/twilio-bridge/src/services/openaiRealtimeService.ts:192-197 | unparseable arguments behave exactly like any parsed arguments: the answer does not depend on them |
| `RealtimeSession.ResponseDoneClosesIffClosing` | apps/twilio-bridge/src/services/openaiRealtimeService.ts:144-149 | `response.done` closes an existing socket if and only if `isClosing` is set, and otherwise changes nothing |
| `RealtimeSession.OtherEventsInert` | apps/twilio-bridge/src/services/openaiRealtimeService.ts:117-176 | every event type other than `session.updated`, the tool-call event and `response.done` leaves the session state unchanged |
| `RealtimeSession.CloseIdempotent` | apps/twilio-bridge/src/services/openaiRealtimeService.ts:251-256 | after `close()` there is no socket, a second `close()` changes nothing, and with no socket `close()` is a no-op |
| `RealtimeSession.StepClosingFlag` | apps/twilio-bridge/src/services/openaiRealtimeService.ts:215-218 | no input clears `isClosing`, and only an `end_call` tool call sets it |
| `RealtimeSession.ClosingIsSticky` | apps/twilio-bridge/src/services/openaiRealtimeService.ts:215-218 | once `isClosing` is set it stays set over any run of inputs |
| `RealtimeSession.ClosingOnlyAfterEndCall` | apps/twilio-bridge/src/services/openaiRealtimeService.ts:215-218 | a run without an `end_call` tool call never sets `isClosing` |
| `RealtimeSession.WireAppendOnly` | apps/twilio-bridge/src/services/openaiRealtimeService.ts:242-248 | over any run the wire log only grows at its end |
| `RealtimeSession.SilentWithoutSocket` | apps/twilio-bridge/src/services/openaiRealtimeService.ts:251-256 | once `ws` is null, no message is sent and no close is issued until `connect()` is called again |
| `RealtimeSession.EndCallClosesAtResponseDone` | apps/twilio-bridge/src/services/openaiRealtimeService.ts:140-149 | after `end_call` the socket is still open and the answer plus a response trigger were sent; the next `response.done` closes it |
| `RealtimeSession.SilentUntilOpened` | apps/twilio-bridge/src/services/openaiRealtimeService.ts:33-44 | until an `open` callback the socket is never OPEN and no message is sent, through any `connect()`, message, audio, close call or close callback; only `close()` calls are recorded |
| `RealtimeSession.NothingSentBeforeOpen` | apps/twilio-bridge/src/services/openaiRealtimeService.ts:33-44 | a fresh session sends no message until its socket's `open` callback, including while a socket created by `connect()` is still connecting |
| `MediaStream.MediaStreamRegistry.constructor` | apps/twilio-bridge/src/services/mediaStream.ts:71-72 | the registry starts empty |
| `MediaStream.MediaStreamRegistry.SendAudioToTwilio` | apps/twilio-bridge/src/services/mediaStream.ts:158-174 | with no session for the key nothing is touched; with one, exactly one `media` frame carrying the key and the payload unchanged is sent on its socket if OPEN, nothing otherwise |
| `MediaStream.MediaStreamRegistry.GetSession` | apps/twilio-bridge/src/services/mediaStream.ts:195-197 | returns the entry for the key exactly when there is one |
| `MediaStream.MediaStreamRegistry.GetActiveSessions` | apps/twilio-bridge/src/services/mediaStream.ts:202-204 | returns the registry's own keys and entries |
| `MediaStream.Connection.constructor` | apps/twilio-bridge/src/services/mediaStream.ts:77-80 | a new connection has no session |
| `MediaStream.Connection.OnMessage` | apps/twilio-bridge/src/services/mediaStream.ts:82-139 | `start` sets the connection's session and maps its `streamSid` to it, replacing any earlier entry and no other key; `stop` on a started connection removes the frame's top-level `streamSid` and nothing else, else no change; `connected`, `media`, unknown and unparseable frames change nothing; every session stays registered under its own `streamSid` |
| `MediaStream.Connection.OnClose` | apps/twilio-bridge/src/services/mediaStream.ts:141-146 | close removes the connection's own session key if it started, and changes nothing otherwise |
| `Instructions.OwnerDescription` | packages/agent-config/src/instructions.ts:17-19 | `ownerName, role` when the role is truthy, the owner name alone otherwise |
| `Instructions.BuildSystemInstructions` | packages/agent-config/src/instructions.ts:16-71 | the base block is a proper prefix of the prompt |
| `Instructions.BuildGreeting` | packages/agent-config/src/instructions.ts:73-76 | the greeting opens with "Hi, this is <ownerName>'s AI assistant." |
| `Instructions.GreetingDependsOnlyOnOwner` | packages/agent-config/src/instructions.ts:73-76 | two personas with the same owner name get the same greeting |
| `Instructions.OpeningNamesOwner` | packages/agent-config/src/instructions.ts:17-21 | the prompt's first line names `ownerName, role` when the role is truthy and `ownerName` alone otherwise |
| `Instructions.AboutSectionIff` | packages/agent-config/src/instructions.ts:43-49 | right after the base block an About section starts if and only if `aboutMe` is truthy, and then it carries `aboutMe` |
| `Instructions.ContactSectionExactlyOne` | packages/agent-config/src/instructions.ts:51-61 | next comes the share-email section if and only if `shareEmail` is truthy, and the don't-share section if and only if it is not |
| `Instructions.SpecialSectionIffLast` | packages/agent-config/src/instructions.ts:63-70 | the prompt extends past the contact section if and only if `specialInstructions` is truthy, and then the special section is its last block |
| `Instructions.DefaultPersonaPrompt` | packages/agent-config/src/instructions.ts:78-80 | the default persona is "the owner" with no optional field, so its prompt is the base block plus the don't-share section |
| `AgentTools.CatalogueNames` | packages/agent-config/src/tools.ts:12-60 | the catalogue holds exactly `take_message` then `end_call`, with distinct names |
| `AgentTools.CatalogueShape` | packages/agent-config/src/tools.ts:12-60 | every tool has type `function`, `object` parameters, and required names that are declared properties |
| `AgentTools.TakeMessageSchema` | packages/agent-config/src/tools.ts:13-45 | `take_message` declares its five properties, requires exactly `caller_name` and `message`, and limits `urgency` to low, medium, high |
| `AgentTools.EndCallSchema` | packages/agent-config/src/tools.ts:46-59 | `end_call` has the single property `reason` and no required list |
| `Transcripts.AddTranscript` | apps/frontend/hooks/useTranscripts.ts:13-15 | appends exactly one `{role, text}` at the end and keeps every earlier entry |
| `Transcripts.ClearTranscripts` | apps/frontend/hooks/useTranscripts.ts:17-19 | the list becomes empty |
| `Transcripts.HandleDataChannelMessage` | apps/frontend/hooks/useTranscripts.ts:21-44 | the old list is a prefix of the new one, at most one entry is added, and one is added exactly when the event yields an entry |
| `Transcripts.UserTranscriptionAppends` | apps/frontend/hooks/useTranscripts.ts:26-28 | a completed input transcription appends a `user` entry with its transcript |
| `Transcripts.AudioTranscriptAppends` | apps/frontend/hooks/useTranscripts.ts:30-32 | a finished audio transcript appends an `assistant` entry with its transcript |
| `Transcripts.ContentPartAppendsOnlySpokenParts` | apps/frontend/hooks/useTranscripts.ts:34-36 | a finished content part appends an `assistant` entry exactly when it is audio with a non-empty transcript |
| `Transcripts.TextDoneAppends` | apps/frontend/hooks/useTranscripts.ts:39-41 | a finished text response appends an `assistant` entry with its text |
| `Transcripts.OtherEventsIgnored` | apps/frontend/hooks/useTranscripts.ts:21-44 | any other event type leaves the list unchanged |
| `Transcripts.ReplayAppendOnly` | apps/frontend/hooks/useTranscripts.ts:21-44 | over any run of messages earlier entries are kept and at most one entry per message is added |
| `Transcripts.ReplayEntries` | apps/frontend/hooks/useTranscripts.ts:21-44 | a run of messages appends exactly the entries of its messages, in order |
| `TestApis.MaskKey` | backend/test_apis.py:16-20 | an unset or empty key gives "(not set)"; a set key gives at most 13 characters that start with its first min(10, length) characters |
| `TestApis.ShortKeyUnchanged` | backend/test_apis.py:20-20 | a key of 1 to 10 characters, 10 included, is returned unchanged |
| `TestApis.LongKeyTruncated` | backend/test_apis.py:20-20 | a key longer than 10 characters becomes its first 10 characters followed by "...", 13 characters in all |

## Left out

- Socket plumbing of `connect`: the URL, the API key and headers, and the `error` callbacks, which only log. The AI socket is an abstract ready state. The phone socket is a `TwilioSocket` object holding a ready state and a log of sent frames.
- The `model` field of `DEFAULT_SESSION_CONFIG` and the text-only configuration. The session update does not send the first and does not use the second. The settings the update does send are copied as constant data, with the VAD threshold as an exact decimal.
- JSON encoding and decoding: messages are datatypes. A missing field of an event (an `undefined` transcript, name or `call_id`) is not modelled. Every field the handlers read is present.
- Logging everywhere, and the `parseInt(sequenceNumber) % 100` test of `media` frames, which only decides whether to log.
- The call-duration arithmetic on `stop`. It uses the wall clock and floating-point division, and only feeds a log line.
- `initMediaStreamServer`: the server wiring that creates a connection handler per inbound socket.
- `Transcripts.HandleDataChannelMessage`: a message that is not JSON makes `JSON.parse` throw out of the handler. The model keeps the list unchanged and does not model the exception reaching the caller.
- Concurrency: the source runs on one event loop, so each callback is modelled as one atomic method call.
- The HTTP routes, request signature check, S3 upload, configuration loading, user interface, WebRTC and the Python speech and language wrappers. These are not part of this model.
- `MediaStream.MediaStreamRegistry.GetActiveSessions`: the source returns the live `Map` object. A caller therefore sees later registrations and can change the registry through it. The model returns the map's value at the time of the call, so that aliasing is not captured.
- Ready states of the AI socket other than CONNECTING and OPEN: no input moves the socket to CLOSING or CLOSED before its `close` callback. A server-initiated close, where the ready state leaves OPEN before that callback, is not represented. The gating lemmas hold for every ready state.
