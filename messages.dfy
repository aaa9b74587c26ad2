/** The JSON frames exchanged on the two sockets, as values. `JSON.parse` and
    `JSON.stringify` are left abstract: a received frame is either the parsed
    value or a parse error, and a sent frame is the value handed to
    `JSON.stringify`. A field that is absent, `undefined` or `null` is `None`. */
module Messages {
  import opened Wrappers

  /** The outcome of `JSON.parse` on a received text frame. */
  datatype Received<T> = ParseError | Parsed(value: T)

  // ----- Twilio media stream -> gateway -----

  /** The `start` object of a `start` event. */
  datatype StartInfo = StartInfo(streamSid: Option<string>)

  /** The `media` property of a `media` event: `Some` for any value other
      than `undefined` or `null`. A value that is not an object has no
      `payload`, so it reads as `MediaInfo(None)`. */
  datatype MediaInfo = MediaInfo(payload: Option<string>)

  /** A parsed Twilio frame: JSON `null`, or any other value, whose `event`,
      `start` and `media` properties are read. A JSON value that is not an
      object reads as an object without those properties. */
  datatype TwilioMessage =
    | TwilioNull
    | TwilioObject(event: Option<string>, start: Option<StartInfo>, media: Option<MediaInfo>)
  {
    /** `data?.event === tag`; false for JSON `null`. */
    predicate HasEvent(tag: string) {
      TwilioObject? && event == Some(tag)
    }
  }

  // ----- gateway -> Twilio media stream -----

  /** `{event: "media", streamSid, media: {payload}}`. */
  datatype MediaEvent = MediaEvent(streamSid: string, payload: string)

  // ----- relay -> speech service -----

  datatype TurnDetection = TurnDetection(kind: string)

  /** The fixed fields of the `session` object of a `session.update` frame
      (its prompt text and sampling temperature are not modelled). */
  datatype Session = Session(
    turnDetection: TurnDetection,
    inputAudioFormat: string,
    outputAudioFormat: string,
    voice: string,
    modalities: seq<string>)

  /** Frames the relay sends to the speech service. `audio` is `None` when
      the Twilio frame had no `media.payload`; `JSON.stringify` then leaves
      the property out. */
  datatype ClientEvent =
    | SessionUpdate(session: Session)
    | InputAudioBufferAppend(audio: Option<string>)
  {
    /** The frame's `type` tag. */
    function Tag(): string {
      match this
      case SessionUpdate(_) => "session.update"
      case InputAudioBufferAppend(_) => "input_audio_buffer.append"
    }
  }

  // ----- speech service -> relay -----

  /** A parsed server frame: JSON `null`, or a value whose `type` and `delta`
      properties are read (`None` when absent or not a string). */
  datatype ServerEvent =
    | ServerNull
    | ServerObject(kind: Option<string>, delta: Option<string>)
}
