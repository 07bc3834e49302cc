/** What the session promises, proved about the transition functions of SessionSpec. */
module SessionProperties {
  import opened Wrappers
  import opened Messages
  import opened Setup
  import opened SessionSpec

  // ---------------------------------------------------------------------------
  // The invariant

  /** Appending effects that close nothing keeps every close unique. */
  lemma AppendNoClose(t: seq<Effect>, extra: seq<Effect>)
    requires ClosesOnce(t)
    requires forall k :: 0 <= k < |extra| ==> !IsClose(extra[k])
    ensures ClosesOnce(t + extra)
  {
    var u := t + extra;
    forall i, j | 0 <= i < j < |u| && IsClose(u[i]) ensures u[j] != u[i] {
      assert i < |t|;
      if j >= |t| { assert u[j] == extra[j - |t|]; }
    }
  }

  /** Appending one close that the trace does not hold yet keeps every close unique. */
  lemma AppendFreshClose(t: seq<Effect>, c: Effect)
    requires ClosesOnce(t) && IsClose(c) && c !in t
    ensures ClosesOnce(t + [c])
  {
    var u := t + [c];
    forall i, j | 0 <= i < j < |u| && IsClose(u[i]) ensures u[j] != u[i] {
      if j == |t| { assert u[i] == t[i] && u[j] == c; } else { assert u[i] == t[i] && u[j] == t[j]; }
    }
  }

  /** The setup state of a connection refused once its agent row is loaded. */
  lemma ConnectRefusedWithAgent(inp: SetupInputs, e: SetupError)
    requires inp.agent.Some? && Validate(inp) == Refused(e)
    requires e == OwnerLookupFailed || e == MissingKeys || e == TranscriberRejected
    ensures Connect(inp) == State(false, inp.agent, None, [Entry(System, inp.agent.value.systemPrompt)],
                                  false, 0, None, "", SocketClosing, None, [], [CloseInbound])
  {
  }

  /** The setup state of a connection whose checks all pass. */
  lemma ConnectReady(inp: SetupInputs, agent: Agent, creds: Credentials)
    requires Validate(inp) == Ready(agent, creds)
    ensures Connect(inp) == State(true, Some(agent), Some(creds), [Entry(System, agent.systemPrompt)],
                                  false, 0, None, "", SocketOpen, Some(Connecting), [],
                                  [OpenTranscriber(creds.transcription)])
  {
  }

  lemma ConnectEstablishesInv(inp: SetupInputs)
    ensures Inv(Connect(inp))
  {
  }

  /**
   * A step that appends no close to the trace, closes no link and leaves the profile,
   * keys, transcriber and the start of the context alone keeps the invariant.
   */
  lemma ExtendKeepsInv(s: State, s': State, extra: seq<Effect>)
    requires Inv(s)
    requires s'.attached == s.attached && s'.profile == s.profile && s'.creds == s.creds
    requires s'.transcriber == s.transcriber && s.context <= s'.context
    requires s'.inFlight == (if s'.speaking then 1 else 0)
    requires |s.synthesis| <= |s'.synthesis|
    requires forall i :: 0 <= i < |s.synthesis| && s.synthesis[i].state == Closed ==>
      s'.synthesis[i].state == Closed
    requires s'.trace == s.trace + extra
    requires forall k :: 0 <= k < |extra| ==> !IsClose(extra[k])
    ensures Inv(s')
  {
    AppendNoClose(s.trace, extra);
    forall i | 0 <= i < |s'.trace| && s'.trace[i].CloseSynthesizer?
      ensures s'.trace[i].link < |s'.synthesis| && s'.synthesis[s'.trace[i].link].state == Closed
    {
      if i >= |s.trace| {
        assert IsClose(extra[i - |s.trace|]);
        assert false;
      }
      assert s'.trace[i] == s.trace[i];
    }
    if s.attached { assert s'.context[0] == s.context[0]; }
  }

  lemma SpeakPreservesInv(s: State, text: string)
    requires Inv(s)
    ensures Inv(Speak(s, text))
  {
    if LinkCreatable(VoiceFor(s.profile)) {
      ExtendKeepsInv(s, Speak(s, text), [Synthesize(|s.synthesis|, VoiceFor(s.profile), text)]);
    }
  }

  /** The first half of cleanup: closing an open transcriber. */
  lemma CloseTranscriberKeepsInv(s: State)
    requires Inv(s) && s.transcriber == Some(Open)
    ensures Inv(s.(transcriber := Some(Closed), trace := s.trace + [CloseTranscriber]))
  {
    var s1 := s.(transcriber := Some(Closed), trace := s.trace + [CloseTranscriber]);
    AppendFreshClose(s.trace, CloseTranscriber);
    forall i | 0 <= i < |s1.trace| && s1.trace[i].CloseSynthesizer?
      ensures s1.trace[i].link < |s1.synthesis| && s1.synthesis[s1.trace[i].link].state == Closed
    {
      assert i < |s.trace|;
    }
  }

  /** The second half of cleanup: closing the current synthesis link when open. */
  lemma CloseCurrentSynthesisKeepsInv(s: State, k: nat)
    requires Inv(s) && k == |s.synthesis| - 1 && s.synthesis[k].state == Open
    ensures Inv(s.(synthesis := s.synthesis[k := s.synthesis[k].(state := Closed)],
                   trace := s.trace + [CloseSynthesizer(k)]))
  {
    var s' := s.(synthesis := s.synthesis[k := s.synthesis[k].(state := Closed)],
                 trace := s.trace + [CloseSynthesizer(k)]);
    assert CloseSynthesizer(k) !in s.trace;
    AppendFreshClose(s.trace, CloseSynthesizer(k));
    forall i | 0 <= i < |s'.trace| && s'.trace[i].CloseSynthesizer?
      ensures s'.trace[i].link < |s'.synthesis| && s'.synthesis[s'.trace[i].link].state == Closed
    {
      if i < |s.trace| { assert s'.trace[i] == s.trace[i]; }
    }
  }

  lemma CleanupPreservesInv(s: State)
    requires Inv(s)
    ensures Inv(Cleanup(s))
  {
    var s1 := if s.transcriber == Some(Open)
              then s.(transcriber := Some(Closed), trace := s.trace + [CloseTranscriber])
              else s;
    if s.transcriber == Some(Open) { CloseTranscriberKeepsInv(s); }
    var k := |s1.synthesis| - 1;
    if k >= 0 && s1.synthesis[k].state == Open { CloseCurrentSynthesisKeepsInv(s1, k); }
  }

  lemma InboundPreservesInv(s: State, msg: InboundMessage)
    requires Inv(s) && Attached(s)
    ensures Inv(OnInbound(s, msg))
  {
    match msg
    case Start(sid) =>
      var g := GreetingOf(s.profile);
      if g.Some? {
        var s1 := s.(streamSid := sid, context := s.context + [Entry(Assistant, g.value)]);
        SpeakPreservesInv(s1, g.value);
      }
    case Media(p) =>
      if s.transcriber == Some(Open) {
        ExtendKeepsInv(s, OnInbound(s, msg), [ToTranscriber(KeepAlive)]
                       + (if p.Some? then [ToTranscriber(Audio(p.value))] else []));
      }
    case Stop => CleanupPreservesInv(s);
    case Unrecognized =>
  }

  lemma TranscriptPreservesInv(s: State, ev: TranscriptEvent)
    requires Inv(s) && Attached(s)
    ensures Inv(OnTranscript(s, ev))
  {
    if ev.Transcription? && Truthy(ev.transcript) && !IsBlank(ev.transcript.value)
       && ev.isFinal && !s.speaking
    {
      ExtendKeepsInv(s, OnTranscript(s, ev),
        [RequestReply(s.creds.value.generation, s.context + [Entry(User, ev.transcript.value)])]);
    }
  }

  lemma GenerationDonePreservesInv(s: State, o: GenerationOutcome)
    requires Inv(s) && s.inFlight > 0
    ensures Inv(OnGenerationDone(s, o))
  {
    var reply := ReplyText(o);
    if reply.Some? { SpeakPreservesInv(s.(context := s.context + [Entry(Assistant, reply.value)]), reply.value); }
  }

  lemma SynthesisOpenPreservesInv(s: State, i: nat)
    requires Inv(s) && Attached(s) && i < |s.synthesis| && s.synthesis[i].state == Connecting
    ensures Inv(OnSynthesisOpen(s, i))
  {
    var current := |s.synthesis| - 1;
    var links := s.synthesis[i := s.synthesis[i].(state := Open)];
    if links[current].state == Connecting {
      ExtendKeepsInv(s, s.(synthesis := links), []);
    } else {
      ExtendKeepsInv(s, OnSynthesisOpen(s, i),
        [ToSynthesizer(current, TextFrame(s.synthesis[i].text, s.creds.value.synthesis)),
         ToSynthesizer(current, EndOfText)]);
    }
  }

  lemma StepPreservesInv(s: State, e: Event)
    requires Inv(s) && Enabled(s, e)
    ensures Inv(Step(s, e))
  {
    match e
    case Inbound(msg) => InboundPreservesInv(s, msg);
    case Transcript(ev) => TranscriptPreservesInv(s, ev);
    case GenerationDone(o) => GenerationDonePreservesInv(s, o);
    case SynthesisOpened(i) => SynthesisOpenPreservesInv(s, i);
    case SynthesisMessage(_, m) =>
      if m.AudioChunk? && Truthy(m.audio) && s.inbound == SocketOpen && Truthy(s.streamSid) {
        ExtendKeepsInv(s, Step(s, e), [ToCaller(s.streamSid.value, m.audio.value)]);
      }
    case SynthesisClosed(i) =>
    case TranscriberOpened =>
    case TranscriberClosed =>
    case InboundError => CleanupPreservesInv(s.(inbound := SocketClosing));
    case InboundClosed => CleanupPreservesInv(s.(inbound := SocketClosed));
  }

  lemma {:induction false} RunPreservesInv(s: State, es: seq<Event>)
    requires Inv(s) && Admissible(s, es)
    ensures Inv(Run(s, es))
    decreases |es|
  {
    if es != [] {
      StepPreservesInv(s, es[0]);
      RunPreservesInv(Step(s, es[0]), es[1..]);
    }
  }

  /**
   * Every state a connection reaches keeps its system prompt first, has at most one
   * generation in flight, is listening exactly when none is, and has closed no link twice.
   */
  lemma ReachableSessionsAreSound(inp: SetupInputs, es: seq<Event>)
    requires Admissible(Connect(inp), es)
    ensures var s := Run(Connect(inp), es);
      && s.inFlight <= 1 && (s.speaking <==> s.inFlight == 1)
      && ClosesOnce(s.trace)
      && (s.attached ==> s.profile == inp.agent && s.profile.Some? && |s.context| >= 1
                         && s.context[0] == Entry(System, s.profile.value.systemPrompt))
  {
    ConnectEstablishesInv(inp);
    RunPreservesInv(Connect(inp), es);
    RunKeepsProfile(Connect(inp), es);
  }

  lemma {:induction false} RunKeepsProfile(s: State, es: seq<Event>)
    requires Admissible(s, es)
    ensures Run(s, es).profile == s.profile && (Run(s, es).attached <==> s.attached)
    decreases |es|
  {
    if es != [] { RunKeepsProfile(Step(s, es[0]), es[1..]); }
  }
}

module SessionBehaviour {
  import opened Wrappers
  import opened Messages
  import opened Setup
  import opened SessionSpec

  // ---------------------------------------------------------------------------
  // Setup (server.js lines 33-97)

  /** Each failed check closes the inbound socket, registers nothing and opens no link. */
  lemma SetupFailureClosesInbound(inp: SetupInputs)
    requires || !inp.storeConfigured || !Truthy(inp.agentId) || inp.agent.None?
             || inp.agent.value.owner.None?
             || KeyFor(inp.keyRows, SynthesisService).None?
             || KeyFor(inp.keyRows, GenerationService).None?
             || KeyFor(inp.keyRows, TranscriptionService).None?
             || !HeaderSafe(KeyFor(inp.keyRows, TranscriptionService).value)
    ensures var s := Connect(inp);
      && !s.attached && s.inbound == SocketClosing && s.trace == [CloseInbound]
      && s.transcriber.None? && s.synthesis == []
    ensures forall e :: !Enabled(Connect(inp), e)
  {
  }

  /**
   * A successful setup seeds the context with the system prompt alone, keeps the first
   * matching key of each service and opens the transcriber with its key.
   */
  lemma SetupSuccessSeedsSession(inp: SetupInputs)
    requires inp.storeConfigured && Truthy(inp.agentId) && inp.agent.Some? && inp.agent.value.owner.Some?
    requires KeyFor(inp.keyRows, SynthesisService).Some?
    requires KeyFor(inp.keyRows, GenerationService).Some?
    requires KeyFor(inp.keyRows, TranscriptionService).Some?
    requires HeaderSafe(KeyFor(inp.keyRows, TranscriptionService).value)
    ensures var s := Connect(inp);
      && s.attached && s.inbound == SocketOpen && !s.speaking && s.inFlight == 0
      && s.context == [Entry(System, inp.agent.value.systemPrompt)]
      && s.creds == Some(Credentials(KeyFor(inp.keyRows, SynthesisService).value,
                                     KeyFor(inp.keyRows, GenerationService).value,
                                     KeyFor(inp.keyRows, TranscriptionService).value))
      && s.transcriber == Some(Connecting)
      && s.trace == [OpenTranscriber(KeyFor(inp.keyRows, TranscriptionService).value)]
  {
  }

  // ---------------------------------------------------------------------------
  // Transcripts and turn taking (lines 103-124, 178-212)

  /** A missing, empty or whitespace-only transcript changes nothing. */
  lemma BlankTranscriptIgnored(s: State, t: Option<string>, isFinal: bool)
    requires Attached(s) && (t.None? || IsBlank(t.value))
    ensures OnTranscript(s, Transcription(t, isFinal)) == s
  {
  }

  /** An interim transcript with text only records it as the current transcript. */
  lemma InterimTranscriptRecorded(s: State, t: string)
    requires Attached(s) && !IsBlank(t)
    ensures OnTranscript(s, Transcription(Some(t), false)) == s.(currentTranscript := t)
  {
  }

  /** A final transcript while listening is appended as a user turn and starts generation. */
  lemma FinalWhileListeningAccepted(s: State, t: string)
    requires Attached(s) && !IsBlank(t) && !s.speaking
    ensures OnTranscript(s, Transcription(Some(t), true))
      == s.(context := s.context + [Entry(User, t)], speaking := true, inFlight := s.inFlight + 1,
            currentTranscript := t,
            trace := s.trace + [RequestReply(s.creds.value.generation, s.context + [Entry(User, t)])])
  {
  }

  /** A final transcript while speaking is dropped: only the current transcript changes. */
  lemma FinalWhileSpeakingDropped(s: State, t: string)
    requires Attached(s) && !IsBlank(t) && s.speaking
    ensures OnTranscript(s, Transcription(Some(t), true)) == s.(currentTranscript := t)
  {
  }

  /** Of two final transcripts in a row, only the first is taken up. */
  lemma OnlyFirstOfTwoFinalsAccepted(s: State, t1: string, t2: string)
    requires Attached(s) && !s.speaking && !IsBlank(t1) && !IsBlank(t2)
    ensures var s2 := OnTranscript(OnTranscript(s, Transcription(Some(t1), true)), Transcription(Some(t2), true));
      && s2.context == s.context + [Entry(User, t1)]
      && s2.trace == s.trace + [RequestReply(s.creds.value.generation, s.context + [Entry(User, t1)])]
      && s2.speaking && s2.currentTranscript == t2
  {
    FinalWhileListeningAccepted(s, t1);
    FinalWhileSpeakingDropped(OnTranscript(s, Transcription(Some(t1), true)), t2);
  }

  predicate AllTranscripts(es: seq<Event>)
  {
    forall k :: 0 <= k < |es| ==> es[k].Transcript?
  }

  /** While speaking, any burst of transcriber events leaves context, trace and turn alone. */
  lemma {:induction false} TranscriptsWhileSpeakingDropped(s: State, es: seq<Event>)
    requires Admissible(s, es) && AllTranscripts(es) && s.speaking
    ensures var r := Run(s, es);
      r.context == s.context && r.trace == s.trace && r.speaking && r.inFlight == s.inFlight
    decreases |es|
  {
    if es != [] {
      assert AllTranscripts(es[1..]) by {
        forall k | 0 <= k < |es[1..]| ensures es[1..][k].Transcript? { assert es[1..][k] == es[k + 1]; }
      }
      TranscriptsWhileSpeakingDropped(Step(s, es[0]), es[1..]);
    }
  }

  /** Any burst of transcriber events adds at most one user turn and one generation request. */
  lemma {:induction false} TranscriptBurstAcceptsAtMostOne(s: State, es: seq<Event>)
    requires Admissible(s, es) && AllTranscripts(es)
    ensures var r := Run(s, es);
      && s.context <= r.context && |r.context| <= |s.context| + 1
      && s.trace <= r.trace && |r.trace| <= |s.trace| + 1
    decreases |es|
  {
    if es != [] {
      assert AllTranscripts(es[1..]) by {
        forall k | 0 <= k < |es[1..]| ensures es[1..][k].Transcript? { assert es[1..][k] == es[k + 1]; }
      }
      var s1 := Step(s, es[0]);
      if s1.speaking && !s.speaking {
        TranscriptsWhileSpeakingDropped(s1, es[1..]);
      } else {
        TranscriptBurstAcceptsAtMostOne(s1, es[1..]);
        assert s1.context == s.context && s1.trace == s.trace;
      }
    }
  }

  /**
   * A finished generation always releases the turn. Only a non-empty reply is appended
   * as an assistant turn and spoken, by exactly one new synthesis link when the voice's
   * URL is accepted and by none otherwise.
   */
  lemma GenerationReleasesTurn(s: State, o: GenerationOutcome)
    requires s.inFlight > 0
    ensures var s' := OnGenerationDone(s, o);
      && !s'.speaking && s'.inFlight == s.inFlight - 1 && s'.currentTranscript == ""
      && s'.streamSid == s.streamSid && s'.inbound == s.inbound && s'.transcriber == s.transcriber
      && (o.Completed? && Truthy(o.content) ==>
            s'.context == s.context + [Entry(Assistant, o.content.value)])
      && (o.Completed? && Truthy(o.content) && LinkCreatable(VoiceFor(s.profile)) ==>
            && s'.synthesis == s.synthesis + [SynthesisLink(Connecting, o.content.value)]
            && s'.trace == s.trace + [Synthesize(|s.synthesis|, VoiceFor(s.profile), o.content.value)])
      && (!(o.Completed? && Truthy(o.content) && LinkCreatable(VoiceFor(s.profile))) ==>
            s'.synthesis == s.synthesis && s'.trace == s.trace)
      && (!(o.Completed? && Truthy(o.content)) ==> s'.context == s.context)
  {
  }

  // ---------------------------------------------------------------------------
  // Inbound messages (lines 134-158)

  /**
   * `start` records the stream id. With a greeting, the greeting becomes one assistant
   * turn and is spoken by one new link (none when the voice's URL is refused); without
   * one, only the stream id changes.
   */
  lemma StartRecordsStreamAndGreets(s: State, sid: Option<string>)
    requires Attached(s)
    ensures var s' := OnInbound(s, Start(sid));
      && (GreetingOf(s.profile).Some? && LinkCreatable(VoiceFor(s.profile)) ==>
            var g := s.profile.value.greeting.value;
            s' == s.(streamSid := sid, context := s.context + [Entry(Assistant, g)],
                     synthesis := s.synthesis + [SynthesisLink(Connecting, g)],
                     trace := s.trace + [Synthesize(|s.synthesis|, VoiceFor(s.profile), g)]))
      && (GreetingOf(s.profile).Some? && !LinkCreatable(VoiceFor(s.profile)) ==>
            s' == s.(streamSid := sid, context := s.context + [Entry(Assistant, s.profile.value.greeting.value)]))
      && (GreetingOf(s.profile).None? ==> s' == s.(streamSid := sid))
  {
  }

  /**
   * Right after setup, a `start` from an agent with a greeting leaves the context at the
   * system prompt and the greeting, and has spoken the greeting on the first link.
   */
  lemma GreetingBeforeUserInput(inp: SetupInputs, sid: string)
    requires Validate(inp).Ready? && Truthy(inp.agent.value.greeting)
    ensures var s := OnInbound(Connect(inp), Start(Some(sid)));
      && s.context == [Entry(System, inp.agent.value.systemPrompt), Entry(Assistant, inp.agent.value.greeting.value)]
      && s.trace == [OpenTranscriber(Validate(inp).creds.transcription)]
                    + (if LinkCreatable(VoiceFor(inp.agent))
                       then [Synthesize(0, VoiceFor(inp.agent), inp.agent.value.greeting.value)] else [])
  {
  }

  /** `media` is forwarded only on an open transcriber: a keep-alive, then that frame's audio. */
  lemma MediaForwardedWhenOpen(s: State, payload: seq<Byte>)
    requires Attached(s)
    ensures s.transcriber == Some(Open) ==>
      OnInbound(s, Media(Some(payload))).trace == s.trace + [ToTranscriber(KeepAlive), ToTranscriber(Audio(payload))]
    ensures s.transcriber != Some(Open) ==> OnInbound(s, Media(Some(payload))) == s
    ensures OnInbound(s, Media(Some(payload))) == s.(trace := OnInbound(s, Media(Some(payload))).trace)
  {
  }

  /** The frames the transcriber receives for a stream of inbound audio. */
  function Forwarded(payloads: seq<seq<Byte>>): (r: seq<Effect>)
    ensures |r| == 2 * |payloads|
  {
    if payloads == [] then []
    else [ToTranscriber(KeepAlive), ToTranscriber(Audio(payloads[0]))] + Forwarded(payloads[1..])
  }

  function MediaEvents(payloads: seq<seq<Byte>>): (es: seq<Event>)
    ensures |es| == |payloads|
    ensures forall k :: 0 <= k < |es| ==> es[k] == Inbound(Media(Some(payloads[k])))
  {
    if payloads == [] then [] else [Inbound(Media(Some(payloads[0])))] + MediaEvents(payloads[1..])
  }

  /**
   * While the transcriber is open, every inbound audio frame is forwarded exactly once
   * and in arrival order, each after its keep-alive; nothing else changes.
   */
  lemma {:induction false} MediaStreamForwardedInOrder(s: State, payloads: seq<seq<Byte>>)
    requires Attached(s) && s.inbound == SocketOpen && s.transcriber == Some(Open)
    ensures Admissible(s, MediaEvents(payloads))
    ensures Run(s, MediaEvents(payloads)) == s.(trace := s.trace + Forwarded(payloads))
    decreases |payloads|
  {
    if payloads != [] {
      var es := MediaEvents(payloads);
      var s1 := OnInbound(s, Media(Some(payloads[0])));
      assert es[1..] == MediaEvents(payloads[1..]);
      MediaStreamForwardedInOrder(s1, payloads[1..]);
      assert s.trace + Forwarded(payloads)
          == s1.trace + Forwarded(payloads[1..]);
    }
  }

  // ---------------------------------------------------------------------------
  // Synthesis (lines 214-265)

  /** When the current link opens, it receives its text and then the end-of-text marker. */
  lemma CurrentLinkOpenSubmitsText(s: State)
    requires Attached(s) && |s.synthesis| > 0
    ensures var k := |s.synthesis| - 1;
      var s' := OnSynthesisOpen(s, k);
      && s'.trace == s.trace + [ToSynthesizer(k, TextFrame(s.synthesis[k].text, s.creds.value.synthesis)),
                                ToSynthesizer(k, EndOfText)]
      && s'.synthesis[k].state == Open
  {
  }

  /**
   * A superseded link that opens late sends its own text, and the end marker, on the
   * newest link, because the handler reads the shared `elevenLabsWs` variable. When the
   * newest link is still connecting, the first `send` throws and nothing is sent.
   */
  lemma SupersededLinkOpenSendsOnNewest(s: State, i: nat)
    requires Attached(s) && i + 1 < |s.synthesis|
    ensures var s' := OnSynthesisOpen(s, i);
      var k := |s.synthesis| - 1;
      && s'.synthesis == s.synthesis[i := s.synthesis[i].(state := Open)]
      && s'.synthesis[k] == s.synthesis[k]
      && (s.synthesis[k].state != Connecting ==>
            s' == s.(synthesis := s'.synthesis,
                     trace := s.trace + [ToSynthesizer(k, TextFrame(s.synthesis[i].text, s.creds.value.synthesis)),
                                         ToSynthesizer(k, EndOfText)]))
      && (s.synthesis[k].state == Connecting ==> s' == s.(synthesis := s'.synthesis))
  {
  }

  /** What the caller is sent for a stream of synthesizer `audio` fields. */
  function Relayed(sid: string, chunks: seq<Option<string>>): (r: seq<Effect>)
    ensures |r| <= |chunks|
    ensures forall k :: 0 <= k < |r| ==> r[k].ToCaller? && r[k].streamSid == sid && r[k].payload != ""
  {
    if chunks == [] then []
    else (if Truthy(chunks[0]) then [ToCaller(sid, chunks[0].value)] else []) + Relayed(sid, chunks[1..])
  }

  function ChunkEvents(link: nat, chunks: seq<Option<string>>): (es: seq<Event>)
    ensures |es| == |chunks|
  {
    if chunks == [] then [] else [SynthesisMessage(link, AudioChunk(chunks[0]))] + ChunkEvents(link, chunks[1..])
  }

  /** The relay of a chunk stream is that of its first chunk, then that of the rest. */
  lemma RelayedUnfolds(t: seq<Effect>, sid: string, chunks: seq<Option<string>>)
    requires chunks != []
    ensures t + Relayed(sid, chunks)
         == (t + (if Truthy(chunks[0]) then [ToCaller(sid, chunks[0].value)] else [])) + Relayed(sid, chunks[1..])
  {
  }

  /** One synthesizer message changes only the trace, by the relay of its audio if any. */
  lemma RelayStep(s: State, link: nat, c: Option<string>)
    requires Attached(s) && link < |s.synthesis| && s.synthesis[link].state != Connecting
    ensures Enabled(s, SynthesisMessage(link, AudioChunk(c)))
    ensures Step(s, SynthesisMessage(link, AudioChunk(c))) == OnSynthesisReply(s, AudioChunk(c))
    ensures OnSynthesisReply(s, AudioChunk(c))
      == s.(trace := s.trace + (if s.inbound == SocketOpen && Truthy(s.streamSid) && Truthy(c)
                                then [ToCaller(s.streamSid.value, c.value)] else []))
  {
  }

  /**
   * Audio from a synthesis link reaches the caller tagged with the stream id, in arrival
   * order and without empty chunks, when the inbound socket is open and the stream id is
   * set; otherwise nothing is sent. No other state changes.
   */
  lemma {:induction false} AudioRelayedInOrder(s: State, link: nat, chunks: seq<Option<string>>)
    requires Attached(s) && link < |s.synthesis| && s.synthesis[link].state != Connecting
    ensures Admissible(s, ChunkEvents(link, chunks))
    ensures s.inbound == SocketOpen && Truthy(s.streamSid) ==>
      Run(s, ChunkEvents(link, chunks)) == s.(trace := s.trace + Relayed(s.streamSid.value, chunks))
    ensures !(s.inbound == SocketOpen && Truthy(s.streamSid)) ==> Run(s, ChunkEvents(link, chunks)) == s
    decreases |chunks|
  {
    if chunks != [] {
      var es := ChunkEvents(link, chunks);
      var s1 := OnSynthesisReply(s, AudioChunk(chunks[0]));
      assert es == [SynthesisMessage(link, AudioChunk(chunks[0]))] + ChunkEvents(link, chunks[1..]);
      assert es[1..] == ChunkEvents(link, chunks[1..]);
      RelayStep(s, link, chunks[0]);
      AudioRelayedInOrder(s1, link, chunks[1..]);
      if s.inbound == SocketOpen && Truthy(s.streamSid) {
        RelayedUnfolds(s.trace, s.streamSid.value, chunks);
      }
    }
  }

  // ---------------------------------------------------------------------------
  // Teardown (lines 151-153, 160-167, 267-274)

  /** A second cleanup has no further effect. */
  lemma CleanupIdempotent(s: State)
    ensures Cleanup(Cleanup(s)) == Cleanup(s)
  {
  }

  /**
   * Cleanup closes exactly the open links among the transcriber and the newest synthesis
   * link; older synthesis links, and everything else, are left as they are.
   */
  lemma CleanupClosesOnlyCurrentLinks(s: State)
    ensures var k := |s.synthesis| - 1;
      var closeTranscriber := s.transcriber == Some(Open);
      var closeNewest := k >= 0 && s.synthesis[k].state == Open;
      Cleanup(s) == s.(
        transcriber := if closeTranscriber then Some(Closed) else s.transcriber,
        synthesis := if closeNewest then s.synthesis[k := s.synthesis[k].(state := Closed)] else s.synthesis,
        trace := s.trace + (if closeTranscriber then [CloseTranscriber] else [])
                         + (if closeNewest then [CloseSynthesizer(k)] else []))
    ensures var s' := Cleanup(s);
      && |s'.synthesis| == |s.synthesis|
      && (forall i :: 0 <= i < |s.synthesis| - 1 ==> s'.synthesis[i] == s.synthesis[i])
      && (s.transcriber != Some(Open) ==> s'.transcriber == s.transcriber)
      && s'.transcriber != Some(Open)
      && s'.trace == s.trace
           + (if s.transcriber == Some(Open) then [CloseTranscriber] else [])
           + (if |s.synthesis| > 0 && s.synthesis[|s.synthesis| - 1].state == Open
              then [CloseSynthesizer(|s.synthesis| - 1)] else [])
      && s'.context == s.context && s'.speaking == s.speaking && s'.streamSid == s.streamSid
  {
  }

  /**
   * `stop`, an inbound error and the inbound close all run the same cleanup; the error
   * leaves the socket CLOSING and the close leaves it CLOSED.
   */
  lemma TeardownPaths(s: State)
    requires Attached(s) && s.inbound == SocketOpen
    ensures Step(s, Inbound(Stop)) == Cleanup(s)
    ensures Step(s, InboundError) == Cleanup(s.(inbound := SocketClosing))
    ensures Step(s, InboundClosed) == Cleanup(s.(inbound := SocketClosed))
  {
  }

  /**
   * After an inbound `error` the socket is no longer OPEN: no inbound message or second
   * error arrives, no synthesis audio is relayed to the caller, and the `close` that
   * follows only marks the socket CLOSED, its cleanup finding nothing left to close.
   */
  lemma NothingRelayedAfterInboundError(s: State, msg: InboundMessage, m: SynthesisReply)
    requires Attached(s) && s.inbound == SocketOpen
    ensures var t := Step(s, InboundError);
      && !Enabled(t, Inbound(msg)) && !Enabled(t, InboundError)
      && OnSynthesisReply(t, m) == t
      && Enabled(t, InboundClosed) && Step(t, InboundClosed) == t.(inbound := SocketClosed)
  {
  }

  /**
   * Teardown does not cancel a generation request in flight: a non-empty reply that
   * arrives after `stop` is still appended and handed to a new synthesis link.
   */
  lemma ReplyAfterTeardownStillSpoken(s: State, reply: string)
    requires Attached(s) && s.inbound == SocketOpen && s.inFlight > 0 && reply != ""
    ensures var s' := OnGenerationDone(Step(s, Inbound(Stop)), Completed(Some(reply)));
      && s'.context == s.context + [Entry(Assistant, reply)]
      && (LinkCreatable(VoiceFor(s.profile)) ==>
            && s'.synthesis[|s'.synthesis| - 1] == SynthesisLink(Connecting, reply)
            && s'.trace[|s'.trace| - 1] == Synthesize(|s.synthesis|, VoiceFor(s.profile), reply))
  {
  }


  // ---------------------------------------------------------------------------
  // The voice (line 218)

  /** Every synthesis invocation in `t` uses voice `v`, whose URL the constructor accepts. */
  ghost predicate SpokenWith(t: seq<Effect>, v: string)
  {
    forall k :: 0 <= k < |t| && t[k].Synthesize? ==> t[k].voiceId == v && LinkCreatable(v)
  }

  /** Appending effects that invoke no synthesis keeps the voice of the trace. */
  lemma AppendSpeaksNothing(t: seq<Effect>, extra: seq<Effect>, v: string)
    requires SpokenWith(t, v)
    requires forall k :: 0 <= k < |extra| ==> !extra[k].Synthesize?
    ensures SpokenWith(t + extra, v)
  {
    forall k | 0 <= k < |t + extra| && (t + extra)[k].Synthesize?
      ensures (t + extra)[k].voiceId == v && LinkCreatable(v)
    {
      assert k < |t|;
    }
  }

  lemma SpeakUsesProfileVoice(s: State, text: string)
    requires SpokenWith(s.trace, VoiceFor(s.profile))
    ensures Speak(s, text).profile == s.profile
    ensures SpokenWith(Speak(s, text).trace, VoiceFor(s.profile))
  {
  }

  lemma CleanupSpeaksNothing(s: State, v: string)
    requires SpokenWith(s.trace, v)
    ensures Cleanup(s).profile == s.profile && SpokenWith(Cleanup(s).trace, v)
  {
    var extra := (if s.transcriber == Some(Open) then [CloseTranscriber] else [])
      + (if |s.synthesis| > 0 && s.synthesis[|s.synthesis| - 1].state == Open
         then [CloseSynthesizer(|s.synthesis| - 1)] else []);
    assert Cleanup(s).trace == s.trace + extra;
    AppendSpeaksNothing(s.trace, extra, v);
  }

  lemma StepUsesProfileVoice(s: State, e: Event)
    requires Enabled(s, e) && SpokenWith(s.trace, VoiceFor(s.profile))
    ensures Step(s, e).profile == s.profile
    ensures SpokenWith(Step(s, e).trace, VoiceFor(s.profile))
  {
    var v := VoiceFor(s.profile);
    match e
    case Inbound(msg) =>
      match msg {
        case Start(sid) =>
          var g := GreetingOf(s.profile);
          if g.Some? { SpeakUsesProfileVoice(s.(streamSid := sid, context := s.context + [Entry(Assistant, g.value)]), g.value); }
        case Media(p) =>
          if s.transcriber == Some(Open) {
            AppendSpeaksNothing(s.trace, [ToTranscriber(KeepAlive)]
                                + (if p.Some? then [ToTranscriber(Audio(p.value))] else []), v);
          }
        case Stop => CleanupSpeaksNothing(s, v);
        case Unrecognized =>
      }
    case Transcript(ev) =>
      if ev.Transcription? && Truthy(ev.transcript) && !IsBlank(ev.transcript.value) && ev.isFinal && !s.speaking {
        AppendSpeaksNothing(s.trace, [RequestReply(s.creds.value.generation, s.context + [Entry(User, ev.transcript.value)])], v);
      }
    case GenerationDone(o) =>
      var reply := ReplyText(o);
      if reply.Some? { SpeakUsesProfileVoice(s.(context := s.context + [Entry(Assistant, reply.value)]), reply.value); }
    case SynthesisOpened(i) =>
      var current := |s.synthesis| - 1;
      if current == i || s.synthesis[current].state != Connecting {
        AppendSpeaksNothing(s.trace, [ToSynthesizer(current, TextFrame(s.synthesis[i].text, s.creds.value.synthesis)),
                                      ToSynthesizer(current, EndOfText)], v);
      }
    case SynthesisMessage(_, m) =>
      if m.AudioChunk? && Truthy(m.audio) && s.inbound == SocketOpen && Truthy(s.streamSid) {
        AppendSpeaksNothing(s.trace, [ToCaller(s.streamSid.value, m.audio.value)], v);
      }
    case SynthesisClosed(_) =>
    case TranscriberOpened =>
    case TranscriberClosed =>
    case InboundError => CleanupSpeaksNothing(s.(inbound := SocketClosing), v);
    case InboundClosed => CleanupSpeaksNothing(s.(inbound := SocketClosed), v);
  }

  /** Over any run, every synthesis invocation keeps using the session's one voice. */
  lemma {:induction false} RunUsesOneVoice(s: State, es: seq<Event>)
    requires Admissible(s, es) && SpokenWith(s.trace, VoiceFor(s.profile))
    ensures SpokenWith(Run(s, es).trace, VoiceFor(s.profile))
    decreases |es|
  {
    if es != [] {
      StepUsesProfileVoice(s, es[0]);
      RunUsesOneVoice(Step(s, es[0]), es[1..]);
    }
  }

  /**
   * Every link a connection ever asks for is synthesized with the agent's truthy
   * `elevenlabs_voice_id`, or with the default voice when it has none.
   */
  lemma SpeechUsesAgentVoice(inp: SetupInputs, es: seq<Event>)
    requires Admissible(Connect(inp), es)
    ensures SpokenWith(Run(Connect(inp), es).trace, VoiceFor(inp.agent))
  {
    var s := Connect(inp);
    if s.attached {
      assert s.profile == inp.agent;
      RunUsesOneVoice(s, es);
    }
  }

  // ---------------------------------------------------------------------------
  // Ordering over whole runs

  lemma CleanupExtends(s: State)
    ensures s.context == Cleanup(s).context && s.trace <= Cleanup(s).trace
  {
  }

  lemma StepExtends(s: State, e: Event)
    requires Enabled(s, e)
    ensures s.context <= Step(s, e).context && s.trace <= Step(s, e).trace
  {
    match e
    case Inbound(msg) =>
      if msg.Stop? { CleanupExtends(s); }
    case InboundError => CleanupExtends(s.(inbound := SocketClosing));
    case InboundClosed => CleanupExtends(s.(inbound := SocketClosed));
    case _ =>
  }

  /** The context and the trace only ever grow at their end. */
  lemma {:induction false} RunExtends(s: State, es: seq<Event>)
    requires Admissible(s, es)
    ensures s.context <= Run(s, es).context && s.trace <= Run(s, es).trace
    decreases |es|
  {
    if es != [] {
      StepExtends(s, es[0]);
      RunExtends(Step(s, es[0]), es[1..]);
    }
  }
}
