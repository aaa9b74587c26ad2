/** Whole runs of the relay, from a fresh gateway and relay client: the
    properties that relate several handler invocations. Each run returns what
    was sent on the sockets, and its postconditions state what that must be. */
module Relay {
  import opened Wrappers
  import opened Messages
  import opened Sockets
  import opened OpenAi
  import opened Twilio
  import Base64

  function StartFrame(sid: string): Received<TwilioMessage> {
    Parsed(TwilioObject(Some("start"), Some(StartInfo(Some(sid))), None))
  }

  function MediaFrame(payload: string): Received<TwilioMessage> {
    Parsed(TwilioObject(Some("media"), None, Some(MediaInfo(Some(payload)))))
  }

  function AudioDeltaFrame(delta: string): Received<ServerEvent> {
    Parsed(ServerObject(Some(AUDIO_DELTA), Some(delta)))
  }

  /** Connect, start, media, then an audio delta: the speech service gets the
      session update and the caller's audio, the caller gets the delta under
      the recorded stream id. */
  method EndToEnd(apiKey: string, sid: string, payload: string, delta: string, lenient: string -> string)
    returns (toService: seq<ClientEvent>, toCaller: seq<MediaEvent>, threw: bool)
    requires apiKey != "" && sid != ""
    requires Base64.IsCanonical(delta) && delta != ""
    ensures toService == [SessionUpdate(SESSION), InputAudioBufferAppend(Some(payload))]
    ensures toCaller == [MediaEvent(sid, delta)] && !threw
  {
    var service := new OpenAiService(lenient);
    var gateway := new TwilioGateway(service);
    var client := new Socket<MediaEvent>(Open);
    gateway.HandleConnection(client, Some(apiKey));
    var ws := service.openAiWs;
    assert ws != null && ws.outbox == [] && client.outbox == [];
    service.HandleOpen(ws);
    var threwTimer := service.FireSessionUpdate();
    assert ws.outbox == [SessionUpdate(SESSION)] && ws.readyState == Open;
    var threwStart := gateway.OnClientMessage(StartFrame(sid));
    assert gateway.streamSid == Some(sid) && service.openAiWs == ws;
    assert ws.outbox == [SessionUpdate(SESSION)] && ws.readyState == Open && client.outbox == [];
    var threwMedia := gateway.OnClientMessage(MediaFrame(payload));
    assert ws.outbox == [SessionUpdate(SESSION), InputAudioBufferAppend(Some(payload))];
    assert gateway.CanSendAudio() && gateway.clientSocket == client && client.outbox == [];
    var reaction, threwBack := gateway.OnOpenAiMessage(AudioDeltaFrame(delta));
    threw := threwTimer || threwStart || threwMedia || threwBack;
    toService, toCaller := ws.outbox, client.outbox;
  }

  /** An audio delta that arrives before any `start` is not sent, and
      neither is a media frame that arrives before the connection is OPEN. */
  method BeforeStart(apiKey: string, payload: string, delta: string, lenient: string -> string)
    returns (toService: seq<ClientEvent>, toCaller: seq<MediaEvent>, threw: bool)
    requires apiKey != "" && delta != ""
    ensures toService == [] && toCaller == [] && !threw
  {
    var service := new OpenAiService(lenient);
    var gateway := new TwilioGateway(service);
    var client := new Socket<MediaEvent>(Open);
    gateway.HandleConnection(client, Some(apiKey));
    var ws := service.openAiWs;
    threw := gateway.OnClientMessage(MediaFrame(payload));
    var reaction, threwBack := gateway.OnOpenAiMessage(AudioDeltaFrame(delta));
    threw := threw || threwBack;
    toService, toCaller := ws.outbox, client.outbox;
  }

  /** Without an API key no connection is made, and media frames go nowhere
      without an error. */
  method MissingApiKey(apiKey: Option<string>, sid: string, payload: string, lenient: string -> string)
    returns (connected: bool, toCaller: seq<MediaEvent>, threw: bool)
    requires ApiKeyMissing(apiKey)
    ensures !connected && toCaller == [] && !threw
  {
    var service := new OpenAiService(lenient);
    var gateway := new TwilioGateway(service);
    var client := new Socket<MediaEvent>(Open);
    gateway.HandleConnection(client, apiKey);
    threw := gateway.OnClientMessage(StartFrame(sid));
    var threwMedia := gateway.OnClientMessage(MediaFrame(payload));
    threw := threw || threwMedia;
    connected := service.openAiWs != null;
    toCaller := client.outbox;
  }

  /** Disconnecting twice closes the connection once; afterwards media frames
      and audio deltas are dropped without an error. */
  method DisconnectTwice(apiKey: string, sid: string, payload: string, delta: string, lenient: string -> string)
    returns (closeCalls: nat, state: ReadyState, toService: seq<ClientEvent>, toCaller: seq<MediaEvent>, threw: bool)
    requires apiKey != "" && sid != "" && delta != ""
    ensures closeCalls == 1 && state == Closing
    ensures toService == [SessionUpdate(SESSION)] && toCaller == [] && !threw
  {
    var service := new OpenAiService(lenient);
    var gateway := new TwilioGateway(service);
    var client := new Socket<MediaEvent>(Open);
    gateway.HandleConnection(client, Some(apiKey));
    var ws := service.openAiWs;
    service.HandleOpen(ws);
    var threwTimer := service.FireSessionUpdate();
    var threwStart := gateway.OnClientMessage(StartFrame(sid));
    gateway.HandleDisconnect();
    gateway.HandleDisconnect();
    var threwMedia := gateway.OnClientMessage(MediaFrame(payload));
    var reaction, threwBack := gateway.OnOpenAiMessage(AudioDeltaFrame(delta));
    threw := threwTimer || threwStart || threwMedia || threwBack;
    closeCalls, state := ws.closeCalls, ws.readyState;
    toService, toCaller := ws.outbox, client.outbox;
  }

  /** The session-update timer armed by one connection's 'open' uses
      whatever connection is current when it fires: after a second Twilio
      connection that is the new, still CONNECTING, socket, whose `send`
      throws. Neither socket ever gets the session update. */
  method TimerAfterReconnect(apiKey: string, lenient: string -> string)
    returns (toFirst: seq<ClientEvent>, toSecond: seq<ClientEvent>, secondState: ReadyState, threw: bool)
    requires apiKey != ""
    ensures toFirst == [] && toSecond == [] && secondState == Connecting && threw
  {
    var service := new OpenAiService(lenient);
    var gateway := new TwilioGateway(service);
    var client1 := new Socket<MediaEvent>(Open);
    gateway.HandleConnection(client1, Some(apiKey));
    var first := service.openAiWs;
    service.HandleOpen(first);
    var client2 := new Socket<MediaEvent>(Open);
    gateway.HandleConnection(client2, Some(apiKey));
    var second := service.openAiWs;
    threw := service.FireSessionUpdate();
    toFirst, toSecond, secondState := first.outbox, second.outbox, second.readyState;
  }

  /** A stray or malformed frame changes nothing and sends nothing. */
  method ParseErrorsAreDropped(apiKey: string, sid: string, lenient: string -> string)
    returns (streamSid: Option<string>, toService: seq<ClientEvent>, toCaller: seq<MediaEvent>, threw: bool)
    requires apiKey != "" && sid != ""
    ensures streamSid == Some(sid) && toService == [SessionUpdate(SESSION)] && toCaller == [] && !threw
  {
    var service := new OpenAiService(lenient);
    var gateway := new TwilioGateway(service);
    var client := new Socket<MediaEvent>(Open);
    gateway.HandleConnection(client, Some(apiKey));
    var ws := service.openAiWs;
    service.HandleOpen(ws);
    var threwTimer := service.FireSessionUpdate();
    var threwStart := gateway.OnClientMessage(StartFrame(sid));
    var threwBad := gateway.OnClientMessage(ParseError);
    var threwOther := gateway.OnClientMessage(Parsed(TwilioObject(Some("mark"), None, None)));
    var reaction, threwBack := gateway.OnOpenAiMessage(ParseError);
    var reaction2, threwBack2 := gateway.OnOpenAiMessage(Parsed(ServerObject(Some("session.created"), None)));
    threw := threwTimer || threwStart || threwBad || threwOther || threwBack || threwBack2;
    streamSid, toService, toCaller := gateway.streamSid, ws.outbox, client.outbox;
  }
}
