/**
 * Session setup: choosing each provider key from the key rows of the agent's owner,
 * and the checks that decide whether the session starts or the inbound socket is
 * closed (server.js lines 28-97).
 */
module Setup {
  import opened Wrappers
  import opened Messages

  const SynthesisService := "elevenlabs"
  const GenerationService := "openai"
  const TranscriptionService := "deepgram"

  /** Row `i` is the first row whose service name is `service`. */
  predicate IsFirstMatch(rows: seq<KeyRecord>, service: string, i: nat)
  {
    i < |rows| && rows[i].serviceName == service
    && forall j :: 0 <= j < i ==> rows[j].serviceName != service
  }

  /** The index `Array.prototype.find` stops at: the first row offering `service`. */
  function FindIndex(rows: seq<KeyRecord>, service: string): (r: Option<nat>)
    ensures r.Some? ==> IsFirstMatch(rows, service, r.value)
    ensures r.None? ==> forall j :: 0 <= j < |rows| ==> rows[j].serviceName != service
  {
    if rows == [] then None
    else if rows[0].serviceName == service then Some(0)
    else match FindIndex(rows[1..], service)
      case None => None
      case Some(k) => Some(k + 1)
  }

  /**
   * `rows?.find(k => k.service_name === service)?.api_key || null`: the key of the
   * first row for the service; a falsy key there counts as missing, and later rows
   * for the same service are never consulted.
   */
  function KeyFor(rows: Option<seq<KeyRecord>>, service: string): (r: Option<string>)
    ensures r.Some? ==> r.value != ""
    ensures forall i: nat :: rows.Some? && IsFirstMatch(rows.value, service, i) ==>
      r == (if Truthy(rows.value[i].apiKey) then rows.value[i].apiKey else None)
    ensures (rows.None? || forall j :: 0 <= j < |rows.value| ==> rows.value[j].serviceName != service)
      ==> r.None?
  {
    match rows
    case None => None
    case Some(rs) =>
      match FindIndex(rs, service)
      case None => None
      case Some(i) => if Truthy(rs[i].apiKey) then rs[i].apiKey else None
  }

  /**
   * Whether Node accepts `Token ${key}` as an HTTP header value: every character is a
   * tab, printable ASCII (0x20-0x7E) or in 0x80-0xFF. Otherwise building the
   * transcriber's handshake request throws ERR_INVALID_CHAR inside `new WebSocket`.
   */
  predicate HeaderSafe(key: string)
  {
    key == [] || (HeaderChar(key[0]) && HeaderSafe(key[1..]))
  }

  predicate HeaderChar(c: char)
  {
    c == '\t' || (' ' <= c <= '~') || ('\U{80}' <= c <= '\U{FF}')
  }

  datatype SetupError =
    | StoreNotConfigured  // SUPABASE_URL or SUPABASE_ANON_KEY unset (lines 33-38)
    | MissingAgentId      // no truthy `agent_id` query parameter (lines 55-59)
    | AgentNotFound       // the agent query returned no row (lines 67-71)
    | OwnerLookupFailed   // `agent.clients` is null, reading `owner_id` throws (lines 79, 275-277)
    | MissingKeys         // some provider key is missing or falsy (lines 86-90)
    | TranscriberRejected // `new WebSocket` at 94-97 throws on the key's header value (275-277)

  /**
   * What setup reads: whether the profile store is configured, the `agent_id` query
   * parameter, the agent row found for it, and the key rows found for its owner.
   */
  datatype SetupInputs = SetupInputs(
    storeConfigured: bool,
    agentId: Option<string>,
    agent: Option<Agent>,
    keyRows: Option<seq<KeyRecord>>)

  datatype SetupOutcome = Ready(agent: Agent, creds: Credentials) | Refused(error: SetupError)

  /** Setup succeeds exactly when every check passes, and then carries the chosen keys. */
  function Validate(inp: SetupInputs): (r: SetupOutcome)
    ensures r.Ready? <==>
      inp.storeConfigured && Truthy(inp.agentId) && inp.agent.Some? && inp.agent.value.owner.Some?
      && KeyFor(inp.keyRows, SynthesisService).Some?
      && KeyFor(inp.keyRows, GenerationService).Some?
      && KeyFor(inp.keyRows, TranscriptionService).Some?
      && HeaderSafe(KeyFor(inp.keyRows, TranscriptionService).value)
    ensures r.Ready? ==> r.agent == inp.agent.value
    ensures r.Ready? ==>
      && Some(r.creds.synthesis) == KeyFor(inp.keyRows, SynthesisService)
      && Some(r.creds.generation) == KeyFor(inp.keyRows, GenerationService)
      && Some(r.creds.transcription) == KeyFor(inp.keyRows, TranscriptionService)
    ensures r == Refused(StoreNotConfigured) <==> !inp.storeConfigured
    ensures r == Refused(MissingAgentId) <==> inp.storeConfigured && !Truthy(inp.agentId)
    ensures r == Refused(AgentNotFound) <==>
      inp.storeConfigured && Truthy(inp.agentId) && inp.agent.None?
    ensures r == Refused(OwnerLookupFailed) <==>
      inp.storeConfigured && Truthy(inp.agentId) && inp.agent.Some? && inp.agent.value.owner.None?
    ensures r == Refused(MissingKeys) <==>
      inp.storeConfigured && Truthy(inp.agentId) && inp.agent.Some? && inp.agent.value.owner.Some?
      && (|| KeyFor(inp.keyRows, SynthesisService).None?
          || KeyFor(inp.keyRows, GenerationService).None?
          || KeyFor(inp.keyRows, TranscriptionService).None?)
    ensures r == Refused(TranscriberRejected) <==>
      inp.storeConfigured && Truthy(inp.agentId) && inp.agent.Some? && inp.agent.value.owner.Some?
      && KeyFor(inp.keyRows, SynthesisService).Some? && KeyFor(inp.keyRows, GenerationService).Some?
      && KeyFor(inp.keyRows, TranscriptionService).Some?
      && !HeaderSafe(KeyFor(inp.keyRows, TranscriptionService).value)
  {
    if !inp.storeConfigured then Refused(StoreNotConfigured)
    else if !Truthy(inp.agentId) then Refused(MissingAgentId)
    else if inp.agent.None? then Refused(AgentNotFound)
    else if inp.agent.value.owner.None? then Refused(OwnerLookupFailed)
    else
      var synthesis := KeyFor(inp.keyRows, SynthesisService);
      var generation := KeyFor(inp.keyRows, GenerationService);
      var transcription := KeyFor(inp.keyRows, TranscriptionService);
      if synthesis.None? || generation.None? || transcription.None? then Refused(MissingKeys)
      else if !HeaderSafe(transcription.value) then Refused(TranscriberRejected)
      else Ready(inp.agent.value, Credentials(synthesis.value, generation.value, transcription.value))
  }

  /** A first row with an empty key hides a usable key in a later row for the same service. */
  lemma FirstRowDecides(rows: seq<KeyRecord>, service: string, i: nat, j: nat)
    requires IsFirstMatch(rows, service, i) && !Truthy(rows[i].apiKey)
    requires i < j < |rows| && rows[j].serviceName == service && Truthy(rows[j].apiKey)
    ensures KeyFor(Some(rows), service).None?
  {
  }
}
