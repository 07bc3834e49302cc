/**
 * The values a call session reads and produces, already parsed: the agent profile and
 * key rows from the profile store, the inbound telephony messages, the transcriber's,
 * generator's and synthesizer's replies, and the side effects the session performs.
 */
module Messages {
  import opened Wrappers

  /** JavaScript truthiness of a value that is a string or absent: absent and "" are falsy. */
  predicate Truthy(v: Option<string>)
  {
    v.Some? && v.value != ""
  }

  /**
   * The characters `String.prototype.trim` removes: the ECMAScript WhiteSpace
   * (tab, vertical tab, form feed, space, no-break space, byte order mark and the
   * Unicode space separators) and LineTerminator (LF, CR, LS, PS) code points.
   */
  predicate IsJsWhitespace(c: char)
  {
    c == '\t' || c == '\n' || c == '\U{B}' || c == '\U{C}' || c == '\r' || c == ' '
    || c == '\U{A0}' || c == '\U{1680}' || ('\U{2000}' <= c <= '\U{200A}')
    || c == '\U{2028}' || c == '\U{2029}' || c == '\U{202F}' || c == '\U{205F}'
    || c == '\U{3000}' || c == '\U{FEFF}'
  }

  /** `s.trim()` is the empty string, i.e. falsy. */
  predicate IsBlank(s: string)
  {
    forall i :: 0 <= i < |s| ==> IsJsWhitespace(s[i])
  }

  newtype Byte = b: int | 0 <= b < 256

  datatype Role = System | User | Assistant

  /** One `{role, content}` element of the conversation context. */
  datatype Entry = Entry(role: Role, content: string)

  /**
   * A `voice_agents` row as the session reads it. `owner` is None when the joined
   * `clients` record is missing, so that reading `agent.clients.owner_id` throws.
   */
  datatype Agent = Agent(
    systemPrompt: string,
    greeting: Option<string>,
    voiceId: Option<string>,
    owner: Option<string>)

  /** An `api_keys` row: its `service_name` and its `api_key`, which may be absent. */
  datatype KeyRecord = KeyRecord(serviceName: string, apiKey: Option<string>)

  /** The three provider keys of a session that passed setup. */
  datatype Credentials = Credentials(synthesis: string, generation: string, transcription: string)

  /**
   * An inbound telephony message after `JSON.parse`. `Start.streamSid` is None when
   * the field is missing. `Media.payload` is the decoded audio, or None when the
   * payload is missing, so that decoding throws. Unparsable text, an unknown `event`,
   * and a `start` or `media` message without its nested object are `Unrecognized`.
   */
  datatype InboundMessage =
    | Start(streamSid: Option<string>)
    | Media(payload: Option<seq<Byte>>)
    | Stop
    | Unrecognized

  /**
   * A transcriber message: `channel.alternatives[0].transcript` (None when any step
   * of that path is missing) and the truthiness of `is_final`.
   */
  datatype TranscriptEvent =
    | Transcription(transcript: Option<string>, isFinal: bool)
    | MalformedTranscript

  /**
   * How the generation request ended: with a decoded body whose
   * `choices[0].message.content` is given (None when missing), or with a thrown
   * transport or decoding error.
   */
  datatype GenerationOutcome =
    | Completed(content: Option<string>)
    | RequestFailed

  /** A synthesizer message: its `audio` field (base64 text, None when missing). */
  datatype SynthesisReply =
    | AudioChunk(audio: Option<string>)
    | MalformedSynthesis

  /** `readyState` of a provider link; Closed also stands for CLOSING. */
  datatype LinkState = Connecting | Open | Closed

  /**
   * `readyState` of the inbound telephony socket. The `ws` library moves a socket to
   * CLOSING when `close()` is called or before it emits `error`; the `close` event comes
   * later and leaves it CLOSED.
   */
  datatype SocketState = SocketOpen | SocketClosing | SocketClosed

  /** One synthesis link: its state and the text its `open` handler submits. */
  datatype SynthesisLink = SynthesisLink(state: LinkState, text: string)

  datatype TranscriberFrame = KeepAlive | Audio(bytes: seq<Byte>)

  datatype SynthesisFrame = TextFrame(text: string, apiKey: string) | EndOfText

  /**
   * Everything the session does to the outside world, in order. Synthesis links are
   * numbered in creation order.
   */
  datatype Effect =
    | CloseInbound
    | OpenTranscriber(apiKey: string)
    | ToTranscriber(tframe: TranscriberFrame)
    | CloseTranscriber
    | RequestReply(apiKey: string, messages: seq<Entry>)
    | Synthesize(link: nat, voiceId: string, text: string)
    | ToSynthesizer(link: nat, sframe: SynthesisFrame)
    | CloseSynthesizer(link: nat)
    | ToCaller(streamSid: string, payload: string)

  predicate IsClose(e: Effect)
  {
    e.CloseTranscriber? || e.CloseSynthesizer?
  }
}
