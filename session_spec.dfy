/**
 * The per-call session of the connection handler (server.js lines 22-279) as a value:
 * the closure variables of one connection, one transition function per callback, and
 * the invariant every reachable state keeps. The CallSession class is specified by
 * these functions.
 */
module SessionSpec {
  import opened Wrappers
  import opened Messages
  import opened Setup

  /** Voice used when the agent has no truthy `elevenlabs_voice_id` (line 218). */
  const DefaultVoice := "21m00Tcm4TlvDq8ikWAM"

  /**
   * The closure state of one connection. `attached` says that setup succeeded and the
   * event handlers are registered; `inFlight` counts generation requests awaiting their
   * reply; `inbound` is the telephony socket's `readyState`; `synthesis` lists every synthesis link created, the last one being the one
   * the `elevenLabsWs` variable holds; `trace` records the effects performed.
   */
  datatype State = State(
    attached: bool,
    profile: Option<Agent>,
    creds: Option<Credentials>,
    context: seq<Entry>,
    speaking: bool,
    inFlight: nat,
    streamSid: Option<string>,
    currentTranscript: string,
    inbound: SocketState,
    transcriber: Option<LinkState>,
    synthesis: seq<SynthesisLink>,
    trace: seq<Effect>)

  /** The greeting to speak on `start`: `agent?.greeting_message` when truthy. */
  function GreetingOf(profile: Option<Agent>): Option<string>
  {
    if profile.Some? && Truthy(profile.value.greeting) then profile.value.greeting else None
  }

  /** `agent?.elevenlabs_voice_id || DefaultVoice`. */
  function VoiceFor(profile: Option<Agent>): string
  {
    if profile.Some? && Truthy(profile.value.voiceId) then profile.value.voiceId.value else DefaultVoice
  }

  /**
   * The state right after the connection handler's setup. A refused setup closes the
   * inbound socket and registers no handler; the system prompt is in the context once the
   * agent row was found (line 74), before the key checks.
   */
  function Connect(inp: SetupInputs): (s: State)
  {
    match Validate(inp)
    case Refused(e) =>
      var found := e == OwnerLookupFailed || e == MissingKeys || e == TranscriberRejected;
      State(false, if found then inp.agent else None, None,
            if found then [Entry(System, inp.agent.value.systemPrompt)] else [],
            false, 0, None, "", SocketClosing, None, [], [CloseInbound])
    case Ready(agent, creds) =>
      State(true, Some(agent), Some(creds), [Entry(System, agent.systemPrompt)],
            false, 0, None, "", SocketOpen, Some(Connecting), [], [OpenTranscriber(creds.transcription)])
  }

  /** Handlers exist and the keys are known. */
  predicate Attached(s: State)
  {
    s.attached && s.creds.Some?
  }

  /**
   * Whether `new WebSocket(url)` accepts the synthesis URL built from `voiceId` (line 219).
   * The `ws` constructor throws on a URL with a fragment identifier, and every character
   * after the voice id is part of the URL, so a `#` in the voice id makes it throw.
   */
  predicate LinkCreatable(voiceId: string)
  {
    '#' !in voiceId
  }

  /**
   * `speakText(text)` (lines 214-265): a fresh synthesis link becomes the current one. When
   * the constructor throws, the `catch` at 262-264 leaves `elevenLabsWs` as it was.
   */
  function Speak(s: State, text: string): State
  {
    var voice := VoiceFor(s.profile);
    if LinkCreatable(voice)
    then s.(synthesis := s.synthesis + [SynthesisLink(Connecting, text)],
            trace := s.trace + [Synthesize(|s.synthesis|, voice, text)])
    else s
  }

  /** The synchronous part of `generateAndStreamResponse`, up to its first `await` (180-196). */
  function BeginGeneration(s: State): State
    requires Attached(s)
  {
    s.(speaking := true, inFlight := s.inFlight + 1,
       trace := s.trace + [RequestReply(s.creds.value.generation, s.context)])
  }

  /** `cleanup()`: close each link whose state is OPEN, the synthesis link only if current (267-274). */
  function Cleanup(s: State): State
  {
    var s1 := if s.transcriber == Some(Open)
              then s.(transcriber := Some(Closed), trace := s.trace + [CloseTranscriber])
              else s;
    var k := |s1.synthesis| - 1;
    if k >= 0 && s1.synthesis[k].state == Open
    then s1.(synthesis := s1.synthesis[k := s1.synthesis[k].(state := Closed)],
             trace := s1.trace + [CloseSynthesizer(k)])
    else s1
  }

  /** The inbound `message` handler (lines 134-158). */
  function OnInbound(s: State, msg: InboundMessage): State
    requires Attached(s)
  {
    match msg
    case Start(sid) =>
      var s1 := s.(streamSid := sid);
      var g := GreetingOf(s.profile);
      if g.Some? then Speak(s1.(context := s1.context + [Entry(Assistant, g.value)]), g.value) else s1
    case Media(payload) =>
      if s.transcriber == Some(Open) then
        s.(trace := s.trace + [ToTranscriber(KeepAlive)]
                   + (if payload.Some? then [ToTranscriber(Audio(payload.value))] else []))
      else s
    case Stop => Cleanup(s)
    case Unrecognized => s
  }

  /** The transcriber `message` handler up to its `await` (lines 103-116). */
  function OnTranscript(s: State, ev: TranscriptEvent): State
    requires Attached(s)
  {
    match ev
    case MalformedTranscript => s
    case Transcription(t, isFinal) =>
      if !Truthy(t) || IsBlank(t.value) then s
      else
        var s1 := s.(currentTranscript := t.value);
        if isFinal && !s.speaking
        then BeginGeneration(s1.(context := s1.context + [Entry(User, t.value)]))
        else s1
  }

  /** Non-empty reply text of a finished generation request (line 199-201). */
  function ReplyText(o: GenerationOutcome): Option<string>
  {
    if o.Completed? && Truthy(o.content) then o.content else None
  }

  /**
   * The rest of `generateAndStreamResponse` after its reply arrives, and the statement
   * that follows its `await` in the transcriber handler (lines 198-211, 117).
   */
  function OnGenerationDone(s: State, o: GenerationOutcome): State
    requires s.inFlight > 0
  {
    var reply := ReplyText(o);
    var s1 := if reply.Some?
              then Speak(s.(context := s.context + [Entry(Assistant, reply.value)]), reply.value)
              else s;
    s1.(speaking := false, inFlight := s.inFlight - 1, currentTranscript := "")
  }

  /**
   * The `open` handler of synthesis link `i` (lines 223-234): link `i` is OPEN, and the
   * handler submits its own text, then the end marker, on whichever link `elevenLabsWs`
   * holds at that time. When that link is still CONNECTING, `send` at line 225 throws
   * and the handler stops before sending anything.
   */
  function OnSynthesisOpen(s: State, i: nat): State
    requires Attached(s) && i < |s.synthesis|
  {
    var current := |s.synthesis| - 1;
    var links := s.synthesis[i := s.synthesis[i].(state := Open)];
    if links[current].state == Connecting then s.(synthesis := links)
    else s.(synthesis := links,
            trace := s.trace + [ToSynthesizer(current, TextFrame(s.synthesis[i].text, s.creds.value.synthesis)),
                                ToSynthesizer(current, EndOfText)])
  }

  /** The synthesis `message` handler (lines 236-253): relay audio tagged with streamSid. */
  function OnSynthesisReply(s: State, m: SynthesisReply): State
  {
    if m.AudioChunk? && Truthy(m.audio) && s.inbound == SocketOpen && Truthy(s.streamSid)
    then s.(trace := s.trace + [ToCaller(s.streamSid.value, m.audio.value)])
    else s
  }

  /** Every event a session can receive, one per callback of the source. */
  datatype Event =
    | Inbound(msg: InboundMessage)
    | Transcript(ev: TranscriptEvent)
    | GenerationDone(outcome: GenerationOutcome)
    | SynthesisOpened(openLink: nat)
    | SynthesisMessage(fromLink: nat, reply: SynthesisReply)
    | SynthesisClosed(closedLink: nat)
    | TranscriberOpened
    | TranscriberClosed
    | InboundError
    | InboundClosed

  /**
   * When the environment can deliver an event: only to registered handlers; inbound
   * messages and the inbound `error` only while that socket is OPEN, its `close` once;
   * messages only on links past CONNECTING, `open` only on a connecting link, a
   * generation reply only for a request in flight. An `error` on a provider link only
   * logs (lines 126-128, 255-257); `ws` moves the link past OPEN before emitting it,
   * which is the state change of that link's close event.
   */
  predicate Enabled(s: State, e: Event)
  {
    Attached(s) &&
    match e
    case Inbound(_) => s.inbound == SocketOpen
    case Transcript(_) => s.transcriber.Some? && s.transcriber.value != Connecting
    case GenerationDone(_) => s.inFlight > 0
    case SynthesisOpened(i) => i < |s.synthesis| && s.synthesis[i].state == Connecting
    case SynthesisMessage(i, _) => i < |s.synthesis| && s.synthesis[i].state != Connecting
    case SynthesisClosed(i) => i < |s.synthesis| && s.synthesis[i].state != Closed
    case TranscriberOpened => s.transcriber == Some(Connecting)
    case TranscriberClosed => s.transcriber.Some? && s.transcriber.value != Closed
    case InboundError => s.inbound == SocketOpen
    case InboundClosed => s.inbound != SocketClosed
  }

  function Step(s: State, e: Event): State
    requires Enabled(s, e)
  {
    match e
    case Inbound(msg) => OnInbound(s, msg)
    case Transcript(ev) => OnTranscript(s, ev)
    case GenerationDone(o) => OnGenerationDone(s, o)
    case SynthesisOpened(i) => OnSynthesisOpen(s, i)
    case SynthesisMessage(_, m) => OnSynthesisReply(s, m)
    case SynthesisClosed(i) => s.(synthesis := s.synthesis[i := s.synthesis[i].(state := Closed)])
    case TranscriberOpened => s.(transcriber := Some(Open))
    case TranscriberClosed => s.(transcriber := Some(Closed))
    case InboundError => Cleanup(s.(inbound := SocketClosing))
    case InboundClosed => Cleanup(s.(inbound := SocketClosed))
  }

  /** Every event of `es` is enabled when it arrives. */
  ghost predicate Admissible(s: State, es: seq<Event>)
    decreases |es|
  {
    es == [] || (Enabled(s, es[0]) && Admissible(Step(s, es[0]), es[1..]))
  }

  function Run(s: State, es: seq<Event>): State
    requires Admissible(s, es)
    decreases |es|
  {
    if es == [] then s else Run(Step(s, es[0]), es[1..])
  }

  /** No link is closed twice: a close effect never recurs later in the trace. */
  ghost predicate ClosesOnce(trace: seq<Effect>)
  {
    forall i, j :: 0 <= i < j < |trace| && IsClose(trace[i]) ==> trace[j] != trace[i]
  }

  /**
   * The session invariant: an attached session has its profile, keys, system prompt and
   * transcriber; a generation is in flight exactly while speaking, so never more than
   * one; a link whose close is in the trace is closed; no link is closed twice.
   */
  ghost predicate Inv(s: State)
  {
    && (s.attached ==>
          && s.creds.Some? && s.profile.Some? && s.transcriber.Some?
          && |s.context| >= 1 && s.context[0] == Entry(System, s.profile.value.systemPrompt))
    && s.inFlight == (if s.speaking then 1 else 0)
    && (CloseTranscriber in s.trace ==> s.transcriber == Some(Closed))
    && (forall i :: 0 <= i < |s.trace| && s.trace[i].CloseSynthesizer? ==>
          s.trace[i].link < |s.synthesis| && s.synthesis[s.trace[i].link].state == Closed)
    && ClosesOnce(s.trace)
  }
}
