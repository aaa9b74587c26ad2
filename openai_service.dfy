/** The relay client: one outbound connection to the realtime speech service,
    shared by the whole process (the service is a singleton). */
module OpenAi {
  import opened Wrappers
  import opened Messages
  import opened Sockets
  import Base64

  /** The session configuration sent once the connection has been open for
      250 ms. */
  const SESSION: Session :=
    Session(TurnDetection("server_vad"), "g711_ulaw", "g711_ulaw", "alloy", ["text", "audio"])

  /** Server event types that are only logged. */
  const LOG_EVENT_TYPES: seq<string> := [
    "response.content.done",
    "rate_limits.updated",
    "response.done",
    "input_audio_buffer.committed",
    "input_audio_buffer.speech_stopped",
    "input_audio_buffer.speech_started",
    "session.created"
  ]

  const AUDIO_DELTA: string := "response.audio.delta"

  /** `!process.env.OPENAI_API_KEY`: unset and empty are both missing. */
  predicate ApiKeyMissing(apiKey: Option<string>) {
    apiKey.None? || apiKey.value == ""
  }

  /** A JavaScript truthiness test on an optional string property. */
  predicate Truthy(s: Option<string>) {
    s.Some? && s.value != ""
  }

  /** An audio delta with a payload: the one server event that reaches the
      callback. */
  predicate CarriesAudio(e: ServerEvent) {
    e.ServerObject? && e.kind == Some(AUDIO_DELTA) && Truthy(e.delta)
  }

  /** What the relay does with one frame from the speech service. */
  datatype Reaction =
    | ParseFailureLogged              // JSON.parse threw: logged and dropped
    | DiagnosticLogged(kind: string)  // one of LOG_EVENT_TYPES: logged only
    | AudioForwarded(payload: string) // the callback is called once with payload
    | Ignored                         // any other event
    | Threw                           // a TypeError escapes the handler

  /** `Buffer.from(delta, 'base64').toString('base64')`. On canonical input this
      is decode then encode; a non-canonical delta goes through Node's lenient
      decoder, which is left abstract as `lenient`. */
  function Reencode(delta: string, lenient: string -> string): (r: string)
    ensures Base64.IsCanonical(delta) ==> r == delta
  {
    match Base64.Decode(delta)
    case Some(audio) => Base64.EncodeDecode(delta); Base64.Encode(audio)
    case None => lenient(delta)
  }

  /** The dispatch of one parsed server event by its `type` tag. */
  function HandleOpenAiMessage(response: ServerEvent, lenient: string -> string): (r: Reaction)
    ensures r.AudioForwarded? <==> CarriesAudio(response)
    ensures r.AudioForwarded? ==> r.payload == Reencode(response.delta.value, lenient)
    ensures r.DiagnosticLogged? <==> response.ServerObject? && response.kind.Some? && response.kind.value in LOG_EVENT_TYPES
    ensures r.Threw? <==> response.ServerNull?
    ensures !r.ParseFailureLogged?
  {
    match response
    case ServerNull => Threw
    case ServerObject(kind, delta) =>
      if kind.Some? && kind.value in LOG_EVENT_TYPES then DiagnosticLogged(kind.value)
      else if kind == Some(AUDIO_DELTA) && Truthy(delta) then AudioForwarded(Reencode(delta.value, lenient))
      else Ignored
  }

  /** The 'message' listener: parse, then dispatch. */
  function OnServerFrame(raw: Received<ServerEvent>, lenient: string -> string): (r: Reaction)
    ensures raw.ParseError? <==> r.ParseFailureLogged?
    ensures r.AudioForwarded? <==> raw.Parsed? && CarriesAudio(raw.value)
    ensures r.AudioForwarded? ==> r.payload == Reencode(raw.value.delta.value, lenient)
  {
    match raw
    case ParseError => ParseFailureLogged
    case Parsed(response) => HandleOpenAiMessage(response, lenient)
  }

  class OpenAiService {
    /** The current outbound connection; each setup replaces it. */
    var openAiWs: Socket?<ClientEvent>
    /** The 250 ms session-update timers armed by 'open' events that have not
        fired yet. */
    var pendingSessionUpdates: nat
    /** Every connection this service has opened, each with its handlers. */
    ghost var connections: set<Socket<ClientEvent>>
    /** Node's re-encoding of a delta that is not canonical base 64. */
    const lenientReencode: string -> string

    ghost predicate Valid()
      reads this
    {
      openAiWs != null ==> openAiWs in connections
    }

    constructor (lenientReencode: string -> string)
      ensures Valid()
      ensures openAiWs == null && pendingSessionUpdates == 0 && connections == {}
      ensures this.lenientReencode == lenientReencode
    {
      openAiWs := null;
      pendingSessionUpdates := 0;
      connections := {};
      this.lenientReencode := lenientReencode;
    }

    /** The connection exists and is OPEN. */
    predicate ConnectionOpen()
      reads this, openAiWs
    {
      openAiWs != null && openAiWs.readyState == Open
    }

    /** Without an API key nothing happens. With one, a fresh connection in
        state CONNECTING replaces `openAiWs` and gets the handlers. The
        Twilio socket and the callback are not stored: the callback is the
        gateway's `SendAudioToTwilio`, bound in `TwilioGateway.OnOpenAiMessage`. */
    method SetupOpenAiConnection(apiKey: Option<string>)
      requires Valid()
      modifies this
      ensures Valid()
      ensures pendingSessionUpdates == old(pendingSessionUpdates)
      ensures ApiKeyMissing(apiKey) ==> openAiWs == old(openAiWs) && connections == old(connections)
      ensures !ApiKeyMissing(apiKey) ==>
        && openAiWs != null && fresh(openAiWs)
        && openAiWs.readyState == Connecting && openAiWs.outbox == [] && openAiWs.closeCalls == 0
        && connections == old(connections) + {openAiWs}
    {
      if ApiKeyMissing(apiKey) {
        return;
      }
      var ws := new Socket<ClientEvent>(Connecting);
      openAiWs := ws;
      connections := connections + {ws};
    }

    /** The 'open' event on one of this service's connections arms a
        session-update timer. That connection need not be the current one. */
    method HandleOpen(ws: Socket<ClientEvent>)
      requires Valid() && ws in connections && ws.readyState == Connecting
      modifies this, ws
      ensures Valid()
      ensures ws.readyState == Open && ws.outbox == old(ws.outbox) && ws.closeCalls == old(ws.closeCalls)
      ensures pendingSessionUpdates == old(pendingSessionUpdates) + 1
      ensures openAiWs == old(openAiWs) && connections == old(connections)
    {
      ws.Opened();
      pendingSessionUpdates := pendingSessionUpdates + 1;
    }

    /** The 'close' event (also the end of an 'error'): logged only. */
    method HandleClose(ws: Socket<ClientEvent>)
      requires Valid() && ws in connections
      modifies ws
      ensures Valid()
      ensures ws.readyState == Closed && ws.outbox == old(ws.outbox) && ws.closeCalls == old(ws.closeCalls)
    {
      ws.Terminated();
    }

    /** A session-update timer fires: `this.openAiWs?.send(...)` hands the
        update to the CURRENT connection, whatever its ready-state, or does
        nothing when there is none. `threw` reports the error `send` throws on
        a CONNECTING socket, which nothing in the timer catches. */
    method FireSessionUpdate() returns (threw: bool)
      requires Valid() && pendingSessionUpdates > 0
      modifies this, openAiWs
      ensures Valid()
      ensures pendingSessionUpdates == old(pendingSessionUpdates) - 1
      ensures openAiWs == old(openAiWs) && connections == old(connections)
      ensures threw == (openAiWs != null && old(openAiWs.readyState) == Connecting)
      ensures openAiWs != null ==>
        && openAiWs.outbox == old(openAiWs.outbox) + (if threw then [] else [SessionUpdate(SESSION)])
        && openAiWs.readyState == old(openAiWs.readyState)
        && openAiWs.closeCalls == old(openAiWs.closeCalls)
    {
      pendingSessionUpdates := pendingSessionUpdates - 1;
      threw := false;
      if openAiWs != null {
        threw := openAiWs.Send(SessionUpdate(SESSION));
      }
    }

    /** Forwards a Twilio `media` frame as `input_audio_buffer.append`, only
        while the connection is OPEN. `threw` reports the TypeError of reading
        `data.media.payload` without a `media` object, or `data.event` of
        JSON `null`. */
    method ProcessTwilioMedia(data: TwilioMessage) returns (threw: bool)
      requires Valid()
      modifies openAiWs
      ensures Valid()
      ensures openAiWs != null ==>
        openAiWs.readyState == old(openAiWs.readyState) && openAiWs.closeCalls == old(openAiWs.closeCalls)
      ensures !old(ConnectionOpen()) ==> !threw && (openAiWs != null ==> openAiWs.outbox == old(openAiWs.outbox))
      ensures old(ConnectionOpen()) && data.HasEvent("media") && data.media.Some? ==>
        !threw && openAiWs.outbox == old(openAiWs.outbox) + [InputAudioBufferAppend(data.media.value.payload)]
      ensures old(ConnectionOpen()) && data.HasEvent("media") && data.media.None? ==>
        threw && openAiWs.outbox == old(openAiWs.outbox)
      ensures old(ConnectionOpen()) && !data.HasEvent("media") ==>
        threw == data.TwilioNull? && openAiWs.outbox == old(openAiWs.outbox)
    {
      if openAiWs == null || openAiWs.readyState != Open {
        return false;
      }
      match data
      case TwilioNull =>
        threw := true;
      case TwilioObject(event, _, media) =>
        if event == Some("media") {
          if media.None? {
            threw := true;
          } else {
            threw := openAiWs.Send(InputAudioBufferAppend(media.value.payload));
          }
        } else {
          threw := false;
        }
    }

    /** Closes the connection only when it is OPEN. */
    method CloseOpenAiConnection()
      requires Valid()
      modifies openAiWs
      ensures Valid()
      ensures openAiWs != null ==> openAiWs.outbox == old(openAiWs.outbox)
      ensures old(ConnectionOpen()) ==>
        openAiWs.readyState == Closing && openAiWs.closeCalls == old(openAiWs.closeCalls) + 1
      ensures !old(ConnectionOpen()) && openAiWs != null ==>
        openAiWs.readyState == old(openAiWs.readyState) && openAiWs.closeCalls == old(openAiWs.closeCalls)
    {
      if openAiWs != null && openAiWs.readyState == Open {
        openAiWs.Close();
      }
    }
  }

  /** A frame that fails to parse never reaches the callback. */
  lemma ParseErrorIsDropped(lenient: string -> string)
    ensures OnServerFrame(ParseError, lenient) == ParseFailureLogged
  {
  }

  /** A canonical, non-empty delta reaches the callback exactly as received. */
  lemma CanonicalDeltaPassesThrough(delta: string, lenient: string -> string)
    requires Base64.IsCanonical(delta) && delta != ""
    ensures OnServerFrame(Parsed(ServerObject(Some(AUDIO_DELTA), Some(delta))), lenient) == AudioForwarded(delta)
  {
  }

  /** The session-update frame carries the fixed negotiation fields. */
  lemma SessionUpdateFields()
    ensures SessionUpdate(SESSION).Tag() == "session.update"
    ensures SESSION.turnDetection.kind == "server_vad"
    ensures SESSION.inputAudioFormat == "g711_ulaw" && SESSION.outputAudioFormat == "g711_ulaw"
    ensures SESSION.voice == "alloy"
    ensures SESSION.modalities == ["text", "audio"]
  {
  }
}
