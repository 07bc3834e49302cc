# Voice-agent call session, modelled in Dafny

This project models the per-call session of a telephony voice agent. One inbound telephony
WebSocket carries a phone call. Its audio is streamed to a speech-to-text transcriber (Deepgram).
Each final user utterance goes to a chat-completion model (OpenAI). The reply is spoken back
through a text-to-speech link (ElevenLabs), whose audio chunks are relayed to the caller.

In `server.js` the whole session lives in the closure of the `connection` handler
(lines 22-279). The model keeps that shape:

- `SessionSpec.State` holds the closure variables: the agent profile, the three keys, the
  conversation context, `isSpeaking`, `streamSid`, `currentTranscript`, the inbound socket's
  `readyState`, the transcriber handle and every synthesis link created so far (the last one is current).
  It also holds a `trace` of the side effects performed. The effects are frames sent to the
  transcriber, the synthesizer and the caller, plus generation requests, synthesis invocations and
  link closes.
- Each callback of the source is one transition function in `SessionSpec`. `Step` and `Run` apply
  a sequence of events, and `Enabled` says when the environment can deliver an event.
- `Session.CallSession` is the same session as a class. Its fields are the closure variables, and
  it has one method per callback. Each method's `ensures` ties the new state to the matching
  transition function and keeps the invariant `Valid()`.
- `generateAndStreamResponse` is split at its `await`. The synchronous part (the user turn is
  appended, `isSpeaking := true`, the request is sent) happens inside the transcript event. The rest
  is the `GenerationDone` event, which also runs the `currentTranscript = ''` that follows the
  `await` on line 117.
- Provider replies are event arguments. The LLM result is a `GenerationOutcome`, the provider
  messages are already-parsed datatypes, and a payload that fails to parse is an "ignored"
  constructor.
- Key selection (lines 82-84) and the setup checks (lines 33-97) are pure functions in `Setup`.
  The last one is implicit in the code. `new WebSocket` for the transcriber (line 94) sends the key
  in an `Authorization` header. Node refuses a header value with a character other than tab,
  0x20-0x7E or 0x80-0xFF, so the constructor throws. The outer `catch` (275-277) then closes the
  inbound socket. `HeaderSafe` states this condition.

Link handles have the states `Connecting`, `Open` and `Closed`; `Closed` also covers the
WebSocket CLOSING state. The transcriber handle is absent (`None`) until setup opens it. The
inbound socket has the states OPEN, CLOSING and CLOSED. A refused setup calls `ws.close()` and
leaves it CLOSING. The `ws` library also moves it to CLOSING before it emits `error`, so after an
inbound `error` no further message arrives and the relay guard at line 240 fails. The `close` event
leaves it CLOSED.

The transition functions and the callbacks they model:

- `Connect`: the setup of lines 28-101.
- `OnInbound`: the inbound `message` handler (134-158), with its `start`, `media` and `stop` branches.
- `OnTranscript` and `BeginGeneration`: the transcriber handler (103-116) and the synchronous part
  of `generateAndStreamResponse` (180-196).
- `OnGenerationDone`: the rest of `generateAndStreamResponse` (198-211) and line 117.
- `Speak`: `speakText` (214-265). When `new WebSocket` throws, the `catch` leaves `elevenLabsWs`
  as it was. The `ws` constructor throws on a URL with a fragment identifier, so the predicate
  `LinkCreatable` says that the voice id holds no `#`.
- `OnSynthesisOpen` and `OnSynthesisReply`: a synthesis link's `open` handler (223-234) and its
  `message` handler (236-253).
- `Cleanup`: `cleanup()` (267-274).
- `Step`: the `error` handler (160-163) and the `close` handler (165-168) of the inbound socket, the
  handlers of the transcriber's `open` (99) and `close` (130-132), and the `close` of a synthesis
  link (259-261).

The lemmas in the table below state what each of them does.

`Enabled` states what is assumed of the outside world:
- events reach only a session whose setup succeeded;
- inbound messages and the inbound `error` arrive only while the socket is OPEN, and its `close`
  arrives once;
- transcripts arrive only once the transcriber is past CONNECTING, and synthesis messages only on a
  link past CONNECTING;
- a link's `open` arrives only while it is connecting;
- a generation reply arrives only while its request is in flight.

The `error` handlers of the transcriber and of the synthesis links (126-128, 255-257) only log.
`ws` moves a link past OPEN before it emits `error`, so the checks at lines 146, 268 and 271 skip
it afterwards. In the model this is the same state change as that link's `close` event, so an
error is delivered as that event.

Where the code departs from what a reader might expect of such a session, the model follows the code:

- `media` frames are forwarded only while the transcriber's `readyState` is OPEN, not
  unconditionally (line 146).
- Teardown does not discard a generation reply that arrives after it. `cleanup` sets no flag, so
  the reply is still appended and spoken (`ReplyAfterTeardownStillSpoken`).
- The greeting does not set `isSpeaking`, so a final transcript that arrives while the greeting is
  being synthesized is accepted.
- The turn is released when generation completes, not when synthesis completes.

A detail of the code that the model keeps: the `open` handler of a synthesis link sends on
whatever link the shared `elevenLabsWs` variable holds at that moment. So a superseded link that
opens late submits its own text on the newest link (`SupersededLinkOpenSendsOnNewest`). If the
newest link is still CONNECTING at that moment, the first `send` throws and neither frame goes out.

## Model

| member | source | states |
|---|---|---|
| Setup.FindIndex | server.js:82-84 | the index found is the first row whose `service_name` matches; none is found only when no row matches |
| Setup.KeyFor | server.js:82-84 | the key is the `api_key` of the first matching row when that is truthy, and missing otherwise; missing rows or no matching row give no key; a key found is never empty |
| Setup.FirstRowDecides | server.js:82-84 | a first matching row with an empty key makes the key missing, even when a later row for the same service has a usable key |
| Setup.Validate | server.js:33-97 | setup succeeds exactly when the store is configured, `agent_id` is truthy, the agent exists, its `clients` owner can be read, all three keys are present and the transcription key is a valid header value; it then carries the agent and the three selected keys; each refusal reason occurs exactly under its check, in source order |
| SessionBehaviour.SetupFailureClosesInbound | server.js:33-97 | when any setup check fails, the only effect is closing the inbound socket, which is left CLOSING; no transcriber is opened, no synthesis link exists, and no event can reach the session |
| SessionBehaviour.SetupSuccessSeedsSession | server.js:73-97 | when every check passes and the transcription key is a valid header value, after setup the context is exactly the system prompt, the keys are those chosen by `KeyFor`, the session is listening and the only effect is opening the transcriber with its key |
| SessionBehaviour.BlankTranscriptIgnored | server.js:106-110 | a transcriber event with missing, empty or whitespace-only text changes no state |
| SessionBehaviour.InterimTranscriptRecorded | server.js:110-113 | a non-final transcript with text only sets `currentTranscript` |
| SessionBehaviour.FinalWhileListeningAccepted | server.js:113-116 | a final transcript while listening appends one user entry, sets speaking, starts exactly one generation request carrying the updated context and records it as current; nothing else changes |
| SessionBehaviour.FinalWhileSpeakingDropped | server.js:110-116 | a final transcript while speaking only updates `currentTranscript`; the context and the trace stay unchanged and nothing is generated |
| SessionBehaviour.OnlyFirstOfTwoFinalsAccepted | server.js:113-116 | of two consecutive finals received while listening, only the first becomes a user entry and a generation request |
| SessionBehaviour.TranscriptsWhileSpeakingDropped | server.js:103-124 | any sequence of transcriber events received while speaking leaves the context, the trace and the turn unchanged |
| SessionBehaviour.TranscriptBurstAcceptsAtMostOne | server.js:103-124 | any sequence of transcriber events adds at most one entry to the context and at most one effect, at the end only |
| SessionBehaviour.GenerationReleasesTurn | server.js:198-265 | generation completion always leaves the session listening and clears `currentTranscript`; only a non-empty reply is appended as an assistant entry; it is spoken by exactly one new synthesis link when the voice's URL is accepted, and by none when the constructor refuses it; an absent or empty reply or a failed request changes neither context nor trace |
| SessionBehaviour.StartRecordsStreamAndGreets | server.js:138-145 | `start` records the stream id; with a truthy greeting it appends exactly one assistant entry and creates one synthesis link for the greeting, or none when the voice's URL is refused; without a greeting only the stream id changes; nothing else changes in any case |
| SessionBehaviour.GreetingBeforeUserInput | server.js:74-145 | right after setup, `start` for an agent with a greeting leaves the context at the system prompt and the greeting, and the trace at the transcriber open and, when the voice's URL is accepted, one synthesis of the greeting |
| SessionBehaviour.MediaForwardedWhenOpen | server.js:146-150 | `media` sends a keep-alive and then exactly that frame's audio when the transcriber is open; otherwise nothing changes; only the trace ever changes |
| SessionBehaviour.MediaStreamForwardedInOrder | server.js:146-150 | while the transcriber is open, any stream of audio frames is forwarded once each, in order, each after its keep-alive, and nothing else changes |
| SessionBehaviour.CurrentLinkOpenSubmitsText | server.js:223-234 | when the current synthesis link opens, it receives its text with the synthesis key and then the empty-text end marker |
| SessionBehaviour.SupersededLinkOpenSendsOnNewest | server.js:219-234 | when an older synthesis link opens, it becomes open and its text and end marker are sent on the newest link, whose state is left unchanged; when the newest link is still connecting, the first `send` throws and nothing is sent |
| SessionBehaviour.AudioRelayedInOrder | server.js:236-249 | synthesis audio chunks reach the caller tagged with the stream id, in arrival order and skipping empty chunks, only when the inbound socket is open and the stream id is set; otherwise nothing is sent |
| SessionBehaviour.CleanupIdempotent | server.js:267-274 | a second cleanup has no further effect |
| SessionBehaviour.CleanupClosesOnlyCurrentLinks | server.js:267-274 | cleanup closes the transcriber and the newest synthesis link only if each is open and adds exactly those closes to the trace; every other part of the state, older synthesis links included, is unchanged |
| SessionBehaviour.TeardownPaths | server.js:151-167 | `stop`, the inbound `error` and the inbound `close` all run the same cleanup; the error leaves the socket CLOSING and the close leaves it CLOSED |
| SessionBehaviour.NothingRelayedAfterInboundError | server.js:160-167 | after an inbound `error`, no inbound message or second error can arrive, no synthesis audio is relayed to the caller (line 240), and the `close` that follows only marks the socket CLOSED |
| SessionBehaviour.ReplyAfterTeardownStillSpoken | server.js:198-205 | a non-empty reply arriving after `stop` is still appended and, when the voice's URL is accepted, handed to a new synthesis link (there is no teardown guard) |
| SessionBehaviour.RunUsesOneVoice | server.js:214-221 | over any run of events, every synthesis invocation uses the session's one voice, and that voice's URL is accepted by the constructor |
| SessionBehaviour.SpeechUsesAgentVoice | server.js:218-221 | every synthesis invocation of a connection uses `VoiceFor(agent)`: the agent's truthy `elevenlabs_voice_id`, or the default voice `21m00Tcm4TlvDq8ikWAM` |
| SessionBehaviour.RunExtends | server.js:103-212 | over any run of events the context and the trace only grow at their end |
| SessionProperties.StepPreservesInv | server.js:103-274 | every enabled event keeps the session invariant: the system prompt stays first, a generation is in flight exactly while speaking, a link whose close is in the trace is closed, and no link is closed twice |
| SessionProperties.RunPreservesInv | server.js:103-274 | any admissible run of events keeps the session invariant |
| SessionProperties.CleanupPreservesInv | server.js:267-274 | cleanup keeps the invariant, so it never closes a link a second time |
| SessionProperties.ReachableSessionsAreSound | server.js:178-211 | in every state reachable from setup, at most one generation is in flight, speaking holds exactly while one is, no link was closed twice, and an attached session keeps the agent's system prompt as its first entry |
| Session.CallSession.constructor | server.js:22-101 | the new session is the setup state `Connect(inp)`, refused when the transcriber's constructor throws, and satisfies the invariant |
| Session.CallSession.RunSetup | server.js:33-74 | runs the setup checks on a fresh connection and ends in `Connect(inp)` |
| Session.CallSession.LoadKeys | server.js:76-90 | runs the owner and key checks after the agent is loaded, refusing as the source does, and ends in `Connect(inp)` |
| Session.CallSession.StartTranscriber | server.js:94-97 | opens the transcriber with the selected keys only when the transcription key is a valid header value; otherwise it refuses the call as the outer `catch` does; it ends in `Connect(inp)` |
| Session.CallSession.HandleInbound | server.js:134-158 | the new state is `OnInbound` of the old state and the message; the invariant is kept |
| Session.CallSession.HandleStart | server.js:138-145 | the new state is `OnInbound` of the old state and the `start` message |
| Session.CallSession.HandleMedia | server.js:146-150 | the new state is `OnInbound` of the old state and the `media` message |
| Session.CallSession.HandleTranscript | server.js:103-124 | the new state is `OnTranscript` of the old state and the event; the invariant is kept |
| Session.CallSession.CompleteResponse | server.js:198-211 | the new state is `OnGenerationDone` of the old state and the outcome; the session is listening afterwards |
| Session.CallSession.RefuseSetup | server.js:33-90 | a refused setup closes the inbound socket, leaving it CLOSING, and changes nothing else |
| Session.CallSession.SpeakText | server.js:214-265 | the new state is `Speak` of the old state: a new connecting synthesis link with the text becomes current and the invocation is recorded with the chosen voice, unless the constructor refuses the URL and nothing changes |
| Session.CallSession.BeginResponse | server.js:178-196 | sets speaking and sends one generation request carrying the current context |
| Session.CallSession.Cleanup | server.js:267-274 | the new state is `Cleanup` of the old state |
| Session.CallSession.HandleSynthesisOpen | server.js:223-234 | the new state is `OnSynthesisOpen` of the old state and the link |
| Session.CallSession.HandleSynthesisMessage | server.js:236-253 | the new state is `OnSynthesisReply` of the old state and the reply |
| Session.CallSession.HandleSynthesisClose | server.js:259-261 | the link is marked closed and nothing else changes |
| Session.CallSession.HandleTranscriberOpen | server.js:99-101 | the transcriber becomes open and nothing else changes |
| Session.CallSession.HandleTranscriberClose | server.js:130-132 | the transcriber becomes closed and nothing else changes |
| Session.CallSession.HandleInboundError | server.js:160-163 | the inbound socket becomes CLOSING and cleanup runs |
| Session.CallSession.HandleInboundClose | server.js:165-168 | the inbound socket becomes CLOSED and cleanup runs |

## Left out

- The HTTP and WebSocket server bootstrap, the listener and all logging (server.js lines 1-20, 281-283 and the `console` calls) are plumbing.
- The Supabase client and its queries are not modelled. The store-configured flag, the agent row and the key rows are given as setup inputs.
- The fire-and-forget call-log update on inbound close (lines 169-175) is I/O that teardown does not await.
- WebSocket transport, URLs, headers, `fetch`, `JSON.parse`, `JSON.stringify` and base64 decoding are left out. Events arrive already parsed, and a payload that does not parse is an "ignored" constructor.
- The model name `gpt-4o-mini` and the numeric request parameters (`max_tokens`, `temperature`, `stability`, `similarity_boost`) are opaque constants and floats, so they are not modelled.
- Real concurrency is not modelled: events are delivered one at a time, as the JavaScript event loop does. Events that arrive before setup has registered the handlers are not modelled.
- Which link a frame physically reaches is not modelled: a send on a CLOSING or CLOSED link is recorded although `ws` drops it.
- When the `open` handler of a superseded link runs while the newest link is still CONNECTING, `send` at line 225 throws. The handler stops before line 233, and the model sends nothing. The exception escapes the listener, and `server.js` installs no handler for uncaught exceptions, so Node ends the process. The model does not capture the process ending.
- The `error` handlers of the transcriber and synthesis links (lines 126-128, 255-257) only log. Their state change is the one of the link's close event, as described above.
- Constructor failures in `speakText`: the only one modelled is a `#` in the voice id. The rest of that URL is fixed and always parses, and other exceptions in the `ws` constructor are not modelled.
- The caught exceptions inside individual handlers are folded into the parsed datatypes: a `start` without `start`, a `media` without `media`, and a transcript that is not a string.
- A discarded generation result after teardown is not claimed, because the source has no such guard.
