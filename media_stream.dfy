/**
 * The telephony media-stream side (apps/twilio-bridge/src/services/mediaStream.ts):
 * a process-wide registry from `streamSid` to call session, a handler per
 * inbound connection driven by decoded frames and by the socket's close, and
 * the push primitive that sends audio back to a call.
 *
 * As in the source, `media` frames are not forwarded anywhere, the media
 * format of `start` is not checked, and nothing here opens an AI session.
 */
module MediaStream {
  import opened Shared

  datatype MediaFormat = MediaFormat(encoding: string, sampleRate: int, channels: int)

  datatype StartInfo = StartInfo(streamSid: string, accountSid: string, callSid: string, mediaFormat: MediaFormat)

  datatype MediaInfo = MediaInfo(track: string, chunk: string, timestamp: string, payload: string)

  datatype StopInfo = StopInfo(accountSid: string, callSid: string)

  /** A decoded inbound frame, by its `event` discriminant; any other discriminant is `UnknownEvent`. */
  datatype TwilioMessage =
    | Connected(protocol: string, version: string)
    | Start(sequenceNumber: string, start: StartInfo, streamSid: string)
    | Media(sequenceNumber: string, media: MediaInfo, streamSid: string)
    | Stop(sequenceNumber: string, stop: StopInfo, streamSid: string)
    | UnknownEvent(event: string)

  /** The outbound frame `{event: "media", streamSid, media: {payload}}`. */
  datatype OutboundMedia = OutboundMedia(streamSid: string, payload: string)

  /** The telephony leg's WebSocket, as far as the bridge sees it: its state and what was sent on it. */
  class TwilioSocket {
    var readyState: ReadyState
    var sent: seq<OutboundMedia>

    constructor (state: ReadyState)
      ensures readyState == state && sent == []
    {
      readyState := state;
      sent := [];
    }

    /** `ws.send(JSON.stringify(frame))`. */
    method Send(frame: OutboundMedia)
      modifies this
      ensures sent == old(sent) + [frame] && readyState == old(readyState)
    {
      sent := sent + [frame];
    }
  }

  /** An active call: the `CallSession` record, with `startTime` as a clock reading. */
  datatype CallSession = CallSession(streamSid: string, callSid: string, ws: TwilioSocket, startTime: int)

  /** `m2` agrees with `m1` on every key other than `k`. */
  ghost predicate SameExcept(m1: map<string, CallSession>, m2: map<string, CallSession>, k: string) {
    forall j :: j != k ==> (j in m1 <==> j in m2) && (j in m1 ==> m1[j] == m2[j])
  }

  /** The module-level `activeSessions` map and the functions that read or push through it. */
  class MediaStreamRegistry {
    var activeSessions: map<string, CallSession>

    /** Every session is registered under its own `streamSid`. */
    ghost predicate Valid()
      reads this
    {
      forall k :: k in activeSessions ==> activeSessions[k].streamSid == k
    }

    constructor ()
      ensures activeSessions == map[] && Valid()
    {
      activeSessions := map[];
    }

    /** The socket `sendAudioToTwilio(streamSid, …)` may write to. */
    ghost function SocketOf(streamSid: string): set<TwilioSocket>
      reads this
    {
      if streamSid in activeSessions then {activeSessions[streamSid].ws} else {}
    }

    /**
     * `sendAudioToTwilio`: one `media` frame carrying the payload unchanged on
     * the session's socket if that socket is OPEN; otherwise nothing is sent
     * (and with no session for the key, no socket is touched at all).
     */
    method SendAudioToTwilio(streamSid: string, audioPayload: string)
      modifies SocketOf(streamSid)
      ensures streamSid in activeSessions ==>
        var w := activeSessions[streamSid].ws;
        && w.readyState == old(w.readyState)
        && w.sent == old(w.sent) + (if old(w.readyState) == Open then [OutboundMedia(streamSid, audioPayload)] else [])
    {
      if streamSid in activeSessions && activeSessions[streamSid].ws.readyState == Open {
        activeSessions[streamSid].ws.Send(OutboundMedia(streamSid, audioPayload));
      }
    }

    /** `getSession`: exactly the registry entry for the key, or nothing. */
    function GetSession(streamSid: string): (r: Option<CallSession>)
      reads this
      ensures r.Some? <==> streamSid in activeSessions
      ensures r.Some? ==> r.value == activeSessions[streamSid]
    {
      if streamSid in activeSessions then Some(activeSessions[streamSid]) else None
    }

    /** `getActiveSessions`: the registry itself. */
    function GetActiveSessions(): (r: map<string, CallSession>)
      reads this
      ensures r.Keys == activeSessions.Keys
      ensures forall k :: k in r ==> r[k] == activeSessions[k]
    {
      activeSessions
    }
  }

  /** One inbound connection: its socket, the shared registry, and its own `session` variable. */
  class Connection {
    const ws: TwilioSocket
    const registry: MediaStreamRegistry
    var session: Option<CallSession>

    /** The connection's session, once started, is bound to the connection's own socket. */
    ghost predicate Valid()
      reads this, registry
    {
      registry.Valid() && (session.Some? ==> session.value.ws == ws)
    }

    constructor (ws: TwilioSocket, registry: MediaStreamRegistry)
      requires registry.Valid()
      ensures this.ws == ws && this.registry == registry && session == None && Valid()
    {
      this.ws := ws;
      this.registry := registry;
      session := None;
    }

    /**
     * The `message` handler. `None` is a frame that is not JSON (or lacks the
     * fields its handler reads): the exception is caught and logged.
     * `now` is the clock reading taken for `startTime`.
     */
    method OnMessage(message: Option<TwilioMessage>, now: int)
      requires Valid()
      modifies this, registry
      ensures Valid()
      ensures message.Some? && message.value.Start? ==>
        var st := message.value.start;
        && session == Some(CallSession(st.streamSid, st.callSid, ws, now))
        && registry.activeSessions == old(registry.activeSessions)[st.streamSid := session.value]
        && SameExcept(old(registry.activeSessions), registry.activeSessions, st.streamSid)
      ensures message.Some? && message.value.Stop? ==>
        && session == old(session)
        && registry.activeSessions ==
          (if old(session).Some? then old(registry.activeSessions) - {message.value.streamSid}
           else old(registry.activeSessions))
        && SameExcept(old(registry.activeSessions), registry.activeSessions, message.value.streamSid)
      ensures message.None? || !(message.value.Start? || message.value.Stop?) ==>
        session == old(session) && registry.activeSessions == old(registry.activeSessions)
    {
      if message.None? {
        return;
      }
      match message.value {
        case Connected(_, _) =>
        case Start(_, st, _) =>
          session := Some(CallSession(st.streamSid, st.callSid, ws, now));
          registry.activeSessions := registry.activeSessions[st.streamSid := session.value];
        case Media(_, _, _) =>
        case Stop(_, _, streamSid) =>
          if session.Some? {
            registry.activeSessions := registry.activeSessions - {streamSid};
          }
        case UnknownEvent(_) =>
      }
    }

    /** The `close` handler: drops the connection's own session from the registry, if it has one. */
    method OnClose()
      requires Valid()
      modifies registry
      ensures Valid()
      ensures registry.activeSessions ==
        (if session.Some? then old(registry.activeSessions) - {session.value.streamSid}
         else old(registry.activeSessions))
      ensures session.Some? ==> session.value.streamSid !in registry.activeSessions
    {
      if session.Some? {
        registry.activeSessions := registry.activeSessions - {session.value.streamSid};
      }
    }
  }
}
