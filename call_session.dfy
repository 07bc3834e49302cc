/**
 * The connection handler's closure as an object: the closure variables become fields,
 * each callback a method. Every method is specified by the matching transition function
 * of SessionSpec and keeps the session invariant.
 */
module Session {
  import opened Wrappers
  import opened Messages
  import opened Setup
  import opened SessionSpec
  import SessionProperties

  class CallSession {
    var attached: bool                    // setup succeeded, handlers registered
    var profile: Option<Agent>            // `agent`
    var creds: Option<Credentials>        // `elevenLabsKey`, `openaiKey`, `deepgramKey`
    var context: seq<Entry>               // `conversationContext`
    var speaking: bool                    // `isSpeaking`
    ghost var inFlight: nat               // generation requests awaiting their reply
    var streamSid: Option<string>         // `streamSid`
    var currentTranscript: string         // `currentTranscript`
    var inbound: SocketState              // `ws.readyState`
    var transcriber: Option<LinkState>    // `deepgramWs`
    var synthesis: seq<SynthesisLink>     // every `elevenLabsWs` created; the last is current
    var trace: seq<Effect>                // the effects performed so far

    ghost function Snapshot(): State
      reads this
    {
      State(attached, profile, creds, context, speaking, inFlight, streamSid,
            currentTranscript, inbound, transcriber, synthesis, trace)
    }

    ghost predicate Valid()
      reads this
    {
      Inv(Snapshot())
    }

    /** The connection handler's setup (lines 28-101). */
    constructor (inp: SetupInputs)
      ensures Valid() && Snapshot() == Connect(inp)
    {
      attached, profile, creds, context := false, None, None, [];
      speaking, inFlight, streamSid, currentTranscript := false, 0, None, "";
      inbound, transcriber, synthesis, trace := SocketOpen, None, [], [];
      new;
      RunSetup(inp);
      SessionProperties.ConnectEstablishesInv(inp);
    }

    /** The setup checks, in the order of lines 33-94, on a fresh connection. */
    method RunSetup(inp: SetupInputs)
      requires Snapshot() == State(false, None, None, [], false, 0, None, "", SocketOpen, None, [], [])
      modifies this
      ensures Snapshot() == Connect(inp)
    {
      if !inp.storeConfigured || !Truthy(inp.agentId) || inp.agent.None? {
        assert Validate(inp).Refused? && Validate(inp).error !in {OwnerLookupFailed, MissingKeys, TranscriberRejected};
        RefuseSetup();
        return;
      }
      profile := inp.agent;
      context := context + [Entry(System, inp.agent.value.systemPrompt)];
      LoadKeys(inp);
    }

    /** The owner and key checks once the agent row is loaded (lines 76-90). */
    method LoadKeys(inp: SetupInputs)
      requires inp.storeConfigured && Truthy(inp.agentId) && inp.agent.Some?
      requires Snapshot() == State(false, inp.agent, None, [Entry(System, inp.agent.value.systemPrompt)],
                                   false, 0, None, "", SocketOpen, None, [], [])
      modifies this
      ensures Snapshot() == Connect(inp)
    {
      if inp.agent.value.owner.None? {
        // reading `agent.clients.owner_id` throws; the outer catch closes the socket (lines 79, 275-277)
        assert Validate(inp) == Refused(OwnerLookupFailed);
        SessionProperties.ConnectRefusedWithAgent(inp, OwnerLookupFailed);
        RefuseSetup();
        return;
      }
      var synthesisKey := KeyFor(inp.keyRows, SynthesisService);
      var generationKey := KeyFor(inp.keyRows, GenerationService);
      var transcriptionKey := KeyFor(inp.keyRows, TranscriptionService);
      if synthesisKey.None? || generationKey.None? || transcriptionKey.None? {
        assert Validate(inp) == Refused(MissingKeys);
        SessionProperties.ConnectRefusedWithAgent(inp, MissingKeys);
        RefuseSetup();
        return;
      }
      StartTranscriber(inp, Credentials(synthesisKey.value, generationKey.value, transcriptionKey.value));
    }

    /**
     * `new WebSocket` for the transcriber with the key in its `Authorization` header
     * (lines 94-97): it throws on a key Node refuses as a header value, and the outer
     * catch closes the inbound socket (lines 275-277).
     */
    method StartTranscriber(inp: SetupInputs, keys: Credentials)
      requires inp.storeConfigured && Truthy(inp.agentId) && inp.agent.Some? && inp.agent.value.owner.Some?
      requires Some(keys.synthesis) == KeyFor(inp.keyRows, SynthesisService)
      requires Some(keys.generation) == KeyFor(inp.keyRows, GenerationService)
      requires Some(keys.transcription) == KeyFor(inp.keyRows, TranscriptionService)
      requires Snapshot() == State(false, inp.agent, None, [Entry(System, inp.agent.value.systemPrompt)],
                                   false, 0, None, "", SocketOpen, None, [], [])
      modifies this
      ensures Snapshot() == Connect(inp)
    {
      if !HeaderSafe(keys.transcription) {
        assert Validate(inp) == Refused(TranscriberRejected);
        SessionProperties.ConnectRefusedWithAgent(inp, TranscriberRejected);
        RefuseSetup();
        return;
      }
      creds := Some(keys);
      transcriber := Some(Connecting);
      trace := trace + [OpenTranscriber(keys.transcription)];
      attached := true;
      assert Validate(inp) == Ready(inp.agent.value, keys);
      SessionProperties.ConnectReady(inp, inp.agent.value, keys);
    }

    /** `ws.close(); return;` on a failed setup check. */
    method RefuseSetup()
      modifies this
      ensures Snapshot() == old(Snapshot()).(inbound := SocketClosing, trace := old(trace) + [CloseInbound])
    {
      inbound := SocketClosing;
      trace := trace + [CloseInbound];
    }

    /**
     * `speakText(text)` (lines 214-265): create the link that becomes current, unless the
     * constructor refuses the URL and the `catch` leaves everything as it was.
     */
    method SpeakText(text: string)
      modifies this
      ensures Snapshot() == SessionSpec.Speak(old(Snapshot()), text)
    {
      var voiceId := VoiceFor(profile);
      if !LinkCreatable(voiceId) {
        return;
      }
      trace := trace + [Synthesize(|synthesis|, voiceId, text)];
      synthesis := synthesis + [SynthesisLink(Connecting, text)];
    }

    /** `generateAndStreamResponse()` up to its first `await` (lines 180-196). */
    method BeginResponse()
      requires attached && creds.Some?
      modifies this
      ensures Snapshot() == SessionSpec.BeginGeneration(old(Snapshot()))
    {
      speaking := true;
      inFlight := inFlight + 1;
      trace := trace + [RequestReply(creds.value.generation, context)];
    }

    /** `cleanup()` (lines 267-274). */
    method Cleanup()
      modifies this
      ensures Snapshot() == SessionSpec.Cleanup(old(Snapshot()))
    {
      if transcriber == Some(Open) {
        transcriber := Some(Closed);
        trace := trace + [CloseTranscriber];
      }
      if |synthesis| > 0 && synthesis[|synthesis| - 1].state == Open {
        var k := |synthesis| - 1;
        synthesis := synthesis[k := synthesis[k].(state := Closed)];
        trace := trace + [CloseSynthesizer(k)];
      }
    }

    /** The `start` branch of the inbound handler (lines 138-145). */
    method HandleStart(sid: Option<string>)
      requires Valid() && attached
      modifies this
      ensures Valid() && Snapshot() == OnInbound(old(Snapshot()), Start(sid))
    {
      ghost var before := Snapshot();
      streamSid := sid;
      var greeting := GreetingOf(profile);
      if greeting.Some? {
        context := context + [Entry(Assistant, greeting.value)];
        SpeakText(greeting.value);
      }
      SessionProperties.InboundPreservesInv(before, Start(sid));
    }

    /** The `media` branch of the inbound handler (lines 146-150). */
    method HandleMedia(payload: Option<seq<Byte>>)
      requires Valid() && attached
      modifies this
      ensures Valid() && Snapshot() == OnInbound(old(Snapshot()), Media(payload))
    {
      ghost var before := Snapshot();
      if transcriber == Some(Open) {
        trace := trace + [ToTranscriber(KeepAlive)];
        if payload.Some? {
          trace := trace + [ToTranscriber(Audio(payload.value))];
        }
      }
      SessionProperties.InboundPreservesInv(before, Media(payload));
    }

    /** The inbound `message` handler (lines 134-158). */
    method HandleInbound(msg: InboundMessage)
      requires Valid() && attached && inbound == SocketOpen
      modifies this
      ensures Valid() && Snapshot() == OnInbound(old(Snapshot()), msg)
    {
      match msg
      case Start(sid) => HandleStart(sid);
      case Media(payload) => HandleMedia(payload);
      case Stop =>
        ghost var before := Snapshot();
        Cleanup();
        SessionProperties.CleanupPreservesInv(before);
      case Unrecognized =>
    }

    /** The transcriber `message` handler up to its `await` (lines 103-116). */
    method HandleTranscript(ev: TranscriptEvent)
      requires Valid() && attached && transcriber.Some? && transcriber.value != Connecting
      modifies this
      ensures Valid() && Snapshot() == OnTranscript(old(Snapshot()), ev)
    {
      if ev.Transcription? && Truthy(ev.transcript) {
        var transcript := ev.transcript.value;
        if !IsBlank(transcript) {
          currentTranscript := transcript;
          if ev.isFinal && !speaking {
            context := context + [Entry(User, transcript)];
            BeginResponse();
          }
        }
      }
      SessionProperties.TranscriptPreservesInv(old(Snapshot()), ev);
    }

    /**
     * The generation request has finished: the rest of `generateAndStreamResponse`
     * (lines 198-211) and the reset after its `await` (line 117).
     */
    method CompleteResponse(outcome: GenerationOutcome)
      requires Valid() && attached && inFlight > 0
      modifies this
      ensures Valid() && Snapshot() == OnGenerationDone(old(Snapshot()), outcome)
      ensures !speaking
    {
      var reply := ReplyText(outcome);
      if reply.Some? {
        context := context + [Entry(Assistant, reply.value)];
        SpeakText(reply.value);
      }
      speaking := false;
      inFlight := inFlight - 1;
      currentTranscript := "";
      SessionProperties.GenerationDonePreservesInv(old(Snapshot()), outcome);
    }

    /**
     * The `open` handler of synthesis link `i` (lines 223-234); a `send` on a link that is
     * still connecting throws before anything is sent.
     */
    method HandleSynthesisOpen(i: nat)
      requires Valid() && attached && i < |synthesis| && synthesis[i].state == Connecting
      modifies this
      ensures Valid() && Snapshot() == OnSynthesisOpen(old(Snapshot()), i)
    {
      var text := synthesis[i].text;
      synthesis := synthesis[i := synthesis[i].(state := Open)];
      var current := |synthesis| - 1;
      if synthesis[current].state != Connecting {
        trace := trace + [ToSynthesizer(current, TextFrame(text, creds.value.synthesis))];
        trace := trace + [ToSynthesizer(current, EndOfText)];
      }
      SessionProperties.SynthesisOpenPreservesInv(old(Snapshot()), i);
    }

    /** The `message` handler of synthesis link `i` (lines 236-253). */
    method HandleSynthesisMessage(i: nat, reply: SynthesisReply)
      requires Valid() && attached && i < |synthesis| && synthesis[i].state != Connecting
      modifies this
      ensures Valid() && Snapshot() == OnSynthesisReply(old(Snapshot()), reply)
    {
      if reply.AudioChunk? && Truthy(reply.audio) {
        if inbound == SocketOpen && Truthy(streamSid) {
          trace := trace + [ToCaller(streamSid.value, reply.audio.value)];
        }
      }
      SessionProperties.StepPreservesInv(old(Snapshot()), SynthesisMessage(i, reply));
    }

    /** Synthesis link `i` was closed by its peer. */
    method HandleSynthesisClose(i: nat)
      requires Valid() && attached && i < |synthesis| && synthesis[i].state != Closed
      modifies this
      ensures Valid() && Snapshot() == Step(old(Snapshot()), SynthesisClosed(i))
    {
      synthesis := synthesis[i := synthesis[i].(state := Closed)];
      SessionProperties.StepPreservesInv(old(Snapshot()), SynthesisClosed(i));
    }

    /** The transcriber finished connecting (line 99). */
    method HandleTranscriberOpen()
      requires Valid() && attached && transcriber == Some(Connecting)
      modifies this
      ensures Valid() && Snapshot() == Step(old(Snapshot()), TranscriberOpened)
    {
      transcriber := Some(Open);
      SessionProperties.StepPreservesInv(old(Snapshot()), TranscriberOpened);
    }

    /** The transcriber was closed by its peer (line 130). */
    method HandleTranscriberClose()
      requires Valid() && attached && transcriber.Some? && transcriber.value != Closed
      modifies this
      ensures Valid() && Snapshot() == Step(old(Snapshot()), TranscriberClosed)
    {
      transcriber := Some(Closed);
      SessionProperties.StepPreservesInv(old(Snapshot()), TranscriberClosed);
    }

    /** The inbound `error` handler (lines 160-163); `ws` has already begun closing the socket. */
    method HandleInboundError()
      requires Valid() && attached && inbound == SocketOpen
      modifies this
      ensures Valid() && Snapshot() == Step(old(Snapshot()), InboundError)
    {
      inbound := SocketClosing;
      Cleanup();
      SessionProperties.StepPreservesInv(old(Snapshot()), InboundError);
    }

    /** The inbound `close` handler (lines 165-168). */
    method HandleInboundClose()
      requires Valid() && attached && inbound != SocketClosed
      modifies this
      ensures Valid() && Snapshot() == Step(old(Snapshot()), InboundClosed)
    {
      inbound := SocketClosed;
      Cleanup();
      SessionProperties.StepPreservesInv(old(Snapshot()), InboundClosed);
    }
  }
}
