/** The session gateway: terminates the Twilio media stream at /media-stream
    and bridges it to the relay client. Like the relay client it is a
    singleton: one `clientSocket` and one `streamSid` for the whole process. */
module Twilio {
  import opened Wrappers
  import opened Messages
  import opened Sockets
  import opened OpenAi

  /** What a `start` event stores: `data.start?.streamSid`. */
  function StartedStreamSid(data: TwilioMessage): Option<string>
    requires data.TwilioObject?
  {
    if data.start.Some? then data.start.value.streamSid else None
  }

  /** When handling a parsed Twilio frame throws a TypeError: JSON `null`
      reaches `data.event` in the default branch, and a `media` event without
      a `media` object reaches `data.media.payload` while the relay
      connection is OPEN. */
  predicate HandlingThrows(data: TwilioMessage, connectionOpen: bool) {
    data.TwilioNull? || (data.HasEvent("media") && connectionOpen && data.media.None?)
  }

  class TwilioGateway {
    const openAiService: OpenAiService
    var clientSocket: Socket?<MediaEvent>
    var streamSid: Option<string>

    constructor (openAiService: OpenAiService)
      ensures this.openAiService == openAiService
      ensures clientSocket == null && streamSid == None
    {
      this.openAiService := openAiService;
      clientSocket := null;
      streamSid := None;
    }

    /** `this.clientSocket && this.streamSid`: both present and the id non-empty. */
    predicate CanSendAudio()
      reads this
    {
      clientSocket != null && streamSid.Some? && streamSid.value != ""
    }

    /** A new Twilio connection: the socket is stored (the stream id is left as
        it was) and the relay client is set up once. */
    method HandleConnection(client: Socket<MediaEvent>, apiKey: Option<string>)
      requires openAiService.Valid()
      modifies this, openAiService
      ensures clientSocket == client && streamSid == old(streamSid)
      ensures openAiService.Valid()
      ensures openAiService.pendingSessionUpdates == old(openAiService.pendingSessionUpdates)
      ensures ApiKeyMissing(apiKey) ==>
        openAiService.openAiWs == old(openAiService.openAiWs)
        && openAiService.connections == old(openAiService.connections)
      ensures !ApiKeyMissing(apiKey) ==>
        && openAiService.openAiWs != null && fresh(openAiService.openAiWs)
        && openAiService.openAiWs.readyState == Connecting
        && openAiService.openAiWs.outbox == [] && openAiService.openAiWs.closeCalls == 0
        && openAiService.connections == old(openAiService.connections) + {openAiService.openAiWs}
    {
      clientSocket := client;
      openAiService.SetupOpenAiConnection(apiKey);
    }

    /** Any Twilio disconnect closes the relay connection (if OPEN) and forgets
        the socket and the stream id. */
    method HandleDisconnect()
      requires openAiService.Valid()
      modifies this, openAiService.openAiWs
      ensures openAiService.Valid()
      ensures clientSocket == null && streamSid == None
      ensures openAiService.openAiWs != null ==>
        openAiService.openAiWs.outbox == old(openAiService.openAiWs.outbox)
      ensures old(openAiService.ConnectionOpen()) ==>
        && openAiService.openAiWs.readyState == Closing
        && openAiService.openAiWs.closeCalls == old(openAiService.openAiWs.closeCalls) + 1
      ensures !old(openAiService.ConnectionOpen()) && openAiService.openAiWs != null ==>
        && openAiService.openAiWs.readyState == old(openAiService.openAiWs.readyState)
        && openAiService.openAiWs.closeCalls == old(openAiService.openAiWs.closeCalls)
    {
      openAiService.CloseOpenAiConnection();
      streamSid := None;
      clientSocket := null;
    }

    /** Dispatch of one parsed Twilio frame by its `event` tag. `threw` reports
        a TypeError escaping the handler: `data.event` of JSON `null` in the
        default branch, or what `ProcessTwilioMedia` reports. */
    method HandleTwilioMessage(data: TwilioMessage) returns (threw: bool)
      requires openAiService.Valid()
      modifies this, openAiService.openAiWs
      ensures openAiService.Valid()
      ensures clientSocket == old(clientSocket)
      ensures threw == HandlingThrows(data, old(openAiService.ConnectionOpen()))
      ensures openAiService.openAiWs != null ==>
        && openAiService.openAiWs.readyState == old(openAiService.openAiWs.readyState)
        && openAiService.openAiWs.closeCalls == old(openAiService.openAiWs.closeCalls)
      // start: record the stream id, which may be absent; nothing else
      ensures data.HasEvent("start") ==>
        && !threw && streamSid == StartedStreamSid(data)
        && (openAiService.openAiWs != null ==> openAiService.openAiWs.outbox == old(openAiService.openAiWs.outbox))
      // media: the whole frame goes to the relay client; the gateway's fields stay
      ensures data.HasEvent("media") ==> streamSid == old(streamSid)
      ensures data.HasEvent("media") && !old(openAiService.ConnectionOpen()) ==>
        !threw && (openAiService.openAiWs != null ==> openAiService.openAiWs.outbox == old(openAiService.openAiWs.outbox))
      ensures data.HasEvent("media") && old(openAiService.ConnectionOpen()) ==>
        && threw == data.media.None?
        && openAiService.openAiWs.outbox == old(openAiService.openAiWs.outbox)
             + (if data.media.Some? then [InputAudioBufferAppend(data.media.value.payload)] else [])
      // anything else: ignored
      ensures !data.HasEvent("start") && !data.HasEvent("media") ==>
        && threw == data.TwilioNull? && streamSid == old(streamSid)
        && (openAiService.openAiWs != null ==> openAiService.openAiWs.outbox == old(openAiService.openAiWs.outbox))
    {
      match data
      case TwilioNull =>
        threw := true;
      case TwilioObject(event, start, _) =>
        if event == Some("start") {
          streamSid := StartedStreamSid(data);
          threw := false;
        } else if event == Some("media") {
          threw := openAiService.ProcessTwilioMedia(data);
        } else {
          threw := false;
        }
    }

    /** The 'message' listener on a Twilio socket: a frame that fails to parse
        is logged and dropped; any other goes to `HandleTwilioMessage`. */
    method OnClientMessage(raw: Received<TwilioMessage>) returns (threw: bool)
      requires openAiService.Valid()
      modifies this, openAiService.openAiWs
      ensures openAiService.Valid()
      ensures clientSocket == old(clientSocket)
      ensures threw == (raw.Parsed? && HandlingThrows(raw.value, old(openAiService.ConnectionOpen())))
      ensures openAiService.openAiWs != null ==>
        && openAiService.openAiWs.readyState == old(openAiService.openAiWs.readyState)
        && openAiService.openAiWs.closeCalls == old(openAiService.openAiWs.closeCalls)
      ensures raw.ParseError? ==>
        && !threw && streamSid == old(streamSid)
        && (openAiService.openAiWs != null ==> unchanged(openAiService.openAiWs))
      ensures raw.Parsed? && raw.value.HasEvent("start") ==>
        !threw && streamSid == StartedStreamSid(raw.value)
      ensures raw.Parsed? && !raw.value.HasEvent("start") ==> streamSid == old(streamSid)
      ensures raw.Parsed? && raw.value.HasEvent("media") && old(openAiService.ConnectionOpen()) ==>
        openAiService.openAiWs.outbox == old(openAiService.openAiWs.outbox)
          + (if raw.value.media.Some? then [InputAudioBufferAppend(raw.value.media.value.payload)] else [])
      ensures !(raw.Parsed? && raw.value.HasEvent("media") && old(openAiService.ConnectionOpen())) ==>
        openAiService.openAiWs != null ==> openAiService.openAiWs.outbox == old(openAiService.openAiWs.outbox)
    {
      match raw
      case ParseError =>
        threw := false;
      case Parsed(data) =>
        threw := HandleTwilioMessage(data);
    }

    /** The callback given to the relay client: sends one media frame with the
        stored stream id, or nothing when the socket or the id is missing.
        `threw` reports the error `send` throws on a CONNECTING socket. */
    method SendAudioToTwilio(base64Audio: string) returns (threw: bool)
      modifies clientSocket
      ensures clientSocket != null ==>
        clientSocket.readyState == old(clientSocket.readyState) && clientSocket.closeCalls == old(clientSocket.closeCalls)
      ensures threw == (CanSendAudio() && old(clientSocket.readyState) == Connecting)
      ensures !CanSendAudio() ==> clientSocket != null ==> clientSocket.outbox == old(clientSocket.outbox)
      ensures CanSendAudio() ==>
        clientSocket.outbox == old(clientSocket.outbox) + (if threw then [] else [MediaEvent(streamSid.value, base64Audio)])
    {
      if clientSocket == null || streamSid.None? || streamSid.value == "" {
        return false;
      }
      threw := clientSocket.Send(MediaEvent(streamSid.value, base64Audio));
    }

    /** The relay client's 'message' listener, with the callback bound to this
        gateway: a frame that carries audio is sent back to Twilio. `threw`
        reports an error escaping the callback. */
    method OnOpenAiMessage(raw: Received<ServerEvent>) returns (reaction: Reaction, threw: bool)
      modifies clientSocket
      ensures reaction == OnServerFrame(raw, openAiService.lenientReencode)
      ensures clientSocket != null ==>
        clientSocket.readyState == old(clientSocket.readyState) && clientSocket.closeCalls == old(clientSocket.closeCalls)
      ensures threw == (reaction.AudioForwarded? && CanSendAudio() && old(clientSocket.readyState) == Connecting)
      ensures reaction.AudioForwarded? && CanSendAudio() ==>
        clientSocket.outbox == old(clientSocket.outbox) + (if threw then [] else [MediaEvent(streamSid.value, reaction.payload)])
      ensures !(reaction.AudioForwarded? && CanSendAudio()) && clientSocket != null ==>
        clientSocket.outbox == old(clientSocket.outbox)
    {
      reaction := OnServerFrame(raw, openAiService.lenientReencode);
      threw := false;
      if reaction.AudioForwarded? {
        threw := SendAudioToTwilio(reaction.payload);
      }
    }
  }
}
