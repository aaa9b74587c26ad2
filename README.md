# Twilio ⇄ realtime speech relay, modelled in Dafny

The repository is a small NestJS server. It bridges a Twilio phone call to a
realtime speech service. Twilio opens a media-stream WebSocket at
`/media-stream`. The `TwilioGateway` reads its JSON frames:

- `start` records the stream id;
- `media` carries G.711 μ-law audio in base 64.

The gateway owns one `OpenAiService`. It opens one outbound WebSocket to the speech
service and does three things with it:

- 250 ms after the socket opens, it sends a fixed `session.update`;
- it forwards every Twilio `media` frame as `input_audio_buffer.append`, but only while that socket is OPEN;
- it passes every `response.audio.delta` whose `delta` is a non-empty string back to the gateway, re-encoded through a base-64 decode and encode.

The gateway then sends that delta to Twilio as a `media` frame under the
recorded stream id. This happens only when both the Twilio socket and the
stream id are present. A disconnect closes the outbound socket, but only if
it is OPEN, and forgets the Twilio socket and the stream id.

Both classes are process-wide singletons. A new call overwrites the state of
the previous one. The model keeps that single shared state.

Modules:

- `Wrappers`: `Option`, which stands for a value or `null`/`undefined`/an absent property.
- `Base64`: the base-64 alphabet and encoding of section 4 of RFC 4648, with a strict decoder.
  - `Decode(Encode(b)) == Some(b)` for every byte sequence.
  - `Encode(Decode(s)) == s` for every string the decoder accepts. That string is the canonical form.
- `Sockets`: a WebSocket as seen by the relay. It holds its ready-state, the frames `send` accepted (the outbox), and how often `close` was called. `send` throws on a CONNECTING socket and sends nothing.
- `Messages`: the JSON frames on both sockets, as datatypes. A received frame is either `ParseError` or the parsed value.
- `OpenAi`: the `OpenAiService` class and the pure event dispatch `HandleOpenAiMessage`.
- `Twilio`: the `TwilioGateway` class.
- `Relay`: whole runs from freshly constructed objects. Each run returns what ended up in each outbox, and its postconditions fix those contents exactly.

What the source does that the model makes explicit:

- A TypeError escaping a handler is modelled as an outcome: `threw` or `Threw`.
  - JSON `null` reaches `data.event` or `response.type`.
  - A `media` frame without a `media` object reaches `data.media.payload` while the socket is OPEN.
  - `send` on a socket that is still CONNECTING throws.
- The session-update timer is an explicit step, `FireSessionUpdate`. It sends on the connection that is current when it fires, and it does not check that connection's ready-state.

## Model

| member | source | states |
|---|---|---|
| Base64.Encode | src/openai/openai.service.ts:96 | the encoding of `n` bytes is `4·⌈n/3⌉` characters long (padded to whole quanta) |
| Base64.DecodeEncode | src/openai/openai.service.ts:96 | decoding the encoding of any byte sequence gives the bytes back |
| Base64.EncodeDecode | src/openai/openai.service.ts:96 | re-encoding what the decoder returns for a canonical string gives the string back |
| Base64.EncodeCanonicalAndInjective | src/openai/openai.service.ts:96 | every encoding is canonical, and distinct byte sequences have distinct encodings |
| OpenAi.Reencode | src/openai/openai.service.ts:96 | `Buffer.from(delta,'base64').toString('base64')` returns a canonical delta unchanged |
| OpenAi.HandleOpenAiMessage | src/openai/openai.service.ts:79-99 | the callback is called iff the type is `response.audio.delta` and the delta is truthy, and then with the re-encoded delta; an event is logged iff its type is one of the seven listed; JSON `null` throws; nothing else happens |
| OpenAi.OnServerFrame | src/openai/openai.service.ts:55-65 | a frame that fails to parse is logged and dropped; the callback is called iff the frame parses to an audio delta with a payload, and then with the re-encoded delta |
| OpenAi.ParseErrorIsDropped | src/openai/openai.service.ts:58-63 | an unparsable server frame never reaches the callback |
| OpenAi.CanonicalDeltaPassesThrough | src/openai/openai.service.ts:95-97 | a canonical non-empty delta is forwarded exactly as received |
| OpenAi.SessionUpdateFields | src/openai/openai.service.ts:38-49 | the session update is tagged `session.update` and sets `server_vad`, `g711_ulaw` both ways, voice `alloy`, modalities text and audio |
| OpenAi.OpenAiService.constructor | src/openai/openai.service.ts:8 | no connection at start |
| OpenAi.OpenAiService.SetupOpenAiConnection | src/openai/openai.service.ts:14-32 | a missing or empty key changes nothing; otherwise a fresh CONNECTING socket with nothing sent replaces the current connection |
| OpenAi.OpenAiService.HandleOpen | src/openai/openai.service.ts:34-37 | 'open' makes that socket OPEN and arms one session-update timer; nothing is sent yet |
| OpenAi.OpenAiService.HandleClose | src/openai/openai.service.ts:67-73 | 'close' only moves the socket to CLOSED; nothing is sent |
| OpenAi.OpenAiService.FireSessionUpdate | src/openai/openai.service.ts:37-52 | a firing timer hands exactly one session update to the CURRENT connection without checking its state: it throws and sends nothing iff that connection is CONNECTING; otherwise the update is appended; with no connection nothing happens |
| OpenAi.OpenAiService.ProcessTwilioMedia | src/openai/openai.service.ts:105-123 | nothing is sent unless the connection is OPEN; a `media` frame with a `media` object appends exactly one `input_audio_buffer.append` with its payload; without one it throws; other events send nothing and throw only for JSON `null` |
| OpenAi.OpenAiService.CloseOpenAiConnection | src/openai/openai.service.ts:128-132 | an OPEN connection goes to CLOSING with one more `close` call; any other connection is untouched |
| Twilio.TwilioGateway.constructor | src/twilio/twilio.gateway.ts:18-21 | no Twilio socket and no stream id at start |
| Twilio.TwilioGateway.HandleConnection | src/twilio/twilio.gateway.ts:27-46 | the Twilio socket is stored, the stream id is kept, and the relay client is set up once with the same guard on the key |
| Twilio.TwilioGateway.HandleDisconnect | src/twilio/twilio.gateway.ts:51-57 | the socket and the stream id are cleared; the relay connection is closed iff it was OPEN, nothing is sent on it |
| Twilio.TwilioGateway.HandleTwilioMessage | src/twilio/twilio.gateway.ts:64-80 | `start` sets the stream id, possibly to none, and sends nothing; `media` forwards the frame and leaves the gateway's fields alone; any other event changes nothing; it throws exactly for JSON `null` or a `media` frame without `media` on an OPEN connection |
| Twilio.TwilioGateway.OnClientMessage | src/twilio/twilio.gateway.ts:32-41 | an unparsable Twilio frame is dropped with the relay socket unchanged; a parsed one throws exactly as `HandleTwilioMessage` does; a parsed `media` frame on an OPEN connection appends one `input_audio_buffer.append` if it has a `media` object and nothing otherwise; every other frame sends nothing, and the relay socket's state and `close` count never change |
| Twilio.TwilioGateway.SendAudioToTwilio | src/twilio/twilio.gateway.ts:86-102 | with no socket or no (or an empty) stream id nothing is sent; otherwise exactly one `media` frame with the stored id and the given payload is handed to `send`, which throws and appends nothing iff the Twilio socket is CONNECTING; the socket's state and `close` count never change |
| Twilio.TwilioGateway.OnOpenAiMessage | src/openai/openai.service.ts:55-65 | the relay's reaction is `OnServerFrame` of the frame; the Twilio socket gets one frame iff the reaction forwards audio, sending is possible and the socket is not CONNECTING (then it throws); the socket's state and `close` count never change |
| Relay.EndToEnd | src/twilio/twilio.gateway.ts:27-102 | connect, open, timer, `start`, `media`, audio delta: the speech service receives exactly the session update then the caller's audio; the caller receives exactly the delta under the stream id; nothing throws |
| Relay.BeforeStart | src/twilio/twilio.gateway.ts:86-90 | media before OPEN and a delta before `start` send nothing anywhere and throw nothing |
| Relay.MissingApiKey | src/openai/openai.service.ts:18-21 | without a key no connection exists, media is dropped without error and the caller gets nothing |
| Relay.DisconnectTwice | src/openai/openai.service.ts:128-132 | two disconnects call `close` once and leave the socket CLOSING; later media and deltas are dropped |
| Relay.TimerAfterReconnect | src/openai/openai.service.ts:51 | a timer armed by the first connection fires on the second, still CONNECTING, connection, where `send` throws: neither connection ever receives the session update |
| Relay.ParseErrorsAreDropped | src/twilio/twilio.gateway.ts:34-39 | unparsable frames and unhandled events on either socket change neither the stream id nor any outbox |

## Left out

- The `ws` library itself is not modelled. This covers the URL, the headers, and the handshake. Of `send`'s behaviour only the error on a CONNECTING socket is modelled. A frame sent on a CLOSING or CLOSED socket, which `ws` discards without throwing, is still recorded in the outbox.
- `JSON.parse` and `JSON.stringify` are abstract. A received frame is a parse error or a value, and a sent frame is the value handed to `stringify`.
- Properties of another JSON type are not distinguished: a non-string `delta`, `type`, `event` or `streamSid` reads as absent. A `media` property that is not an object (and not `null`) reads as a `media` object without a `payload`, which is what `data.media.payload` gives for it.
- OpenAi.Reencode: a delta that is not canonical base 64 goes through Node's lenient `Buffer` decoder. That decoder skips invalid characters and tolerates missing padding. Its result is left abstract as the service's `lenientReencode`.
- The 250 ms delay is not timed. Each firing is an explicit `FireSessionUpdate` step for one armed timer.
- The session update's `instructions` text and its `temperature` are not part of `Session`. They are free text and a floating-point number, and are sent unchanged.
- Logging is not modelled (the Nest `Logger` calls, and the `close` and `error` handlers beyond the state change). What a handler logs shows only as its outcome, e.g. `DiagnosticLogged`.
- What Node does after an uncaught TypeError in a listener is not modelled. The model reports it as `threw`/`Threw` and stops that handler.
- The `twilioSocket` argument of `setupOpenAiConnection` is unused by the source and is dropped. The `client` argument of `handleDisconnect` is ignored by the source and is dropped.
- The `sendAudioToTwilio` callback is bound as `TwilioGateway.OnOpenAiMessage` rather than stored per connection. Every connection's callback is bound to the same singleton gateway.
- Interleavings of concurrent calls are not modelled. Each handler runs to completion, which matches Node's single event loop.
- The HTTP controller that returns the TwiML, the bootstrap in `main.ts`, and the two Nest modules do no relaying and are not part of this model.
