/**
 * The agent server: the request validation of `get_pipeline`, the agent's
 * configuration rules, the conversation flow's transcript handling, and the
 * `active_sessions` table that `join_agent`, `server_operations` and `leave_agent`
 * share.
 */
module Server {
  import opened Wrappers
  import opened Text

  /** The speech-to-text providers of a cascading pipeline, each standing for its configured plugin. */
  datatype SttProvider = DeepgramStt | OpenAIStt | GoogleStt | SarvamStt
  datatype LlmProvider = OpenAILlm | GoogleLlm | SarvamLlm
  datatype TtsProvider = OpenAITts | ElevenLabsTts | GoogleTts | SarvamTts
  /** The realtime models of the three single-model pipelines. */
  datatype RealtimeModel = OpenAIRealtime | GeminiRealtime | NovaSonicRealtime

  datatype Pipeline =
    | RealTimePipeline(model: RealtimeModel)
    | CascadingPipeline(stt: SttProvider, llm: LlmProvider, tts: TtsProvider, withDetection: bool)

  /**
   * The body of `/join-agent`. A field the client leaves out is `None`, except
   * `detection`, which then takes its default `Some(true)`.
   */
  datatype MeetingReq = MeetingReq(
    meetingId: string, token: string, pipelineType: string,
    stt: Option<string>, tts: Option<string>, llm: Option<string>,
    personality: string, systemPrompt: string,
    detection: Option<bool>, mcpUrl: Option<string>)

  const PipelineTypes: set<string> := {"openai", "google", "aws", "cascading"}

  /** The key under which each provider sits in its lookup table. */
  function SttName(p: SttProvider): string
  {
    match p
    case DeepgramStt => "deepgram"
    case OpenAIStt => "openai"
    case GoogleStt => "google"
    case SarvamStt => "sarvam"
  }

  function LlmName(p: LlmProvider): string
  {
    match p
    case OpenAILlm => "openai"
    case GoogleLlm => "google"
    case SarvamLlm => "sarvam"
  }

  function TtsName(p: TtsProvider): string
  {
    match p
    case OpenAITts => "openai"
    case ElevenLabsTts => "elevenlabs"
    case GoogleTts => "google"
    case SarvamTts => "sarvam"
  }

  /** `stt_map.get(name)`: found exactly for a provider's key; a missing name finds nothing. */
  function SttFor(name: Option<string>): (p: Option<SttProvider>)
    ensures p.Some? <==> name.Some? && name.value in {"deepgram", "openai", "google", "sarvam"}
    ensures p.Some? ==> name == Some(SttName(p.value))
  {
    match name
    case None => None
    case Some(n) =>
      if n == "deepgram" then Some(DeepgramStt)
      else if n == "openai" then Some(OpenAIStt)
      else if n == "google" then Some(GoogleStt)
      else if n == "sarvam" then Some(SarvamStt)
      else None
  }

  function LlmFor(name: Option<string>): (p: Option<LlmProvider>)
    ensures p.Some? <==> name.Some? && name.value in {"openai", "google", "sarvam"}
    ensures p.Some? ==> name == Some(LlmName(p.value))
  {
    match name
    case None => None
    case Some(n) =>
      if n == "openai" then Some(OpenAILlm)
      else if n == "google" then Some(GoogleLlm)
      else if n == "sarvam" then Some(SarvamLlm)
      else None
  }

  function TtsFor(name: Option<string>): (p: Option<TtsProvider>)
    ensures p.Some? <==> name.Some? && name.value in {"openai", "elevenlabs", "google", "sarvam"}
    ensures p.Some? ==> name == Some(TtsName(p.value))
  {
    match name
    case None => None
    case Some(n) =>
      if n == "openai" then Some(OpenAITts)
      else if n == "elevenlabs" then Some(ElevenLabsTts)
      else if n == "google" then Some(GoogleTts)
      else if n == "sarvam" then Some(SarvamTts)
      else None
  }

  /** Looking a provider up by its own key finds that provider, so the keys are distinct. */
  lemma ProviderKeysRoundTrip(s: SttProvider, l: LlmProvider, t: TtsProvider)
    ensures SttFor(Some(SttName(s))) == Some(s)
    ensures LlmFor(Some(LlmName(l))) == Some(l)
    ensures TtsFor(Some(TtsName(t))) == Some(t)
  {
  }

  /** How Python formats an optional name in an f-string. */
  function ShowName(name: Option<string>): (s: string)
    ensures name.Some? ==> s == name.value
    ensures name.None? ==> s == "None"
  {
    match name
    case None => "None"
    case Some(n) => n
  }

  /**
   * The error message cannot tell a missing provider name from the name "None"; any
   * other two names print differently.
   */
  lemma ShowNameConflates(a: Option<string>, b: Option<string>)
    ensures ShowName(a) == ShowName(b) <==>
              a == b || (a == None && b == Some("None")) || (a == Some("None") && b == None)
  {
  }

  /**
   * `get_pipeline`: a realtime pipeline for "openai", "google" and "aws"; for
   * "cascading" the STT, LLM and TTS names are checked in that order and the first
   * unknown one is the error; any other type is an error naming it. VAD and turn
   * detection are attached exactly when `detection` is true.
   */
  function GetPipeline(req: MeetingReq): (r: Result<Pipeline>)
    ensures r.Ok? ==> req.pipelineType in PipelineTypes
    ensures req.pipelineType !in PipelineTypes ==> r == Err("Unknown pipeline_type: " + req.pipelineType)
    ensures req.pipelineType in PipelineTypes - {"cascading"} <==> r.Ok? && r.value.RealTimePipeline?
    ensures req.pipelineType == "openai" ==> r == Ok(RealTimePipeline(OpenAIRealtime))
    ensures req.pipelineType == "google" ==> r == Ok(RealTimePipeline(GeminiRealtime))
    ensures req.pipelineType == "aws" ==> r == Ok(RealTimePipeline(NovaSonicRealtime))
    ensures req.pipelineType == "cascading" ==>
              && (SttFor(req.stt).None? ==> r == Err("Unknown STT provider: " + ShowName(req.stt)))
              && (SttFor(req.stt).Some? && LlmFor(req.llm).None? ==>
                    r == Err("Unknown LLM provider: " + ShowName(req.llm)))
              && (SttFor(req.stt).Some? && LlmFor(req.llm).Some? && TtsFor(req.tts).None? ==>
                    r == Err("Unknown TTS provider: " + ShowName(req.tts)))
              && (r.Ok? <==> SttFor(req.stt).Some? && LlmFor(req.llm).Some? && TtsFor(req.tts).Some?)
    ensures r.Ok? && r.value.CascadingPipeline? ==>
              && req.pipelineType == "cascading"
              && req.stt == Some(SttName(r.value.stt))
              && req.llm == Some(LlmName(r.value.llm))
              && req.tts == Some(TtsName(r.value.tts))
              && (r.value.withDetection <==> req.detection == Some(true))
  {
    if req.pipelineType == "openai" then Ok(RealTimePipeline(OpenAIRealtime))
    else if req.pipelineType == "google" then Ok(RealTimePipeline(GeminiRealtime))
    else if req.pipelineType == "aws" then Ok(RealTimePipeline(NovaSonicRealtime))
    else if req.pipelineType == "cascading" then
      var stt := SttFor(req.stt);
      if stt.None? then Err("Unknown STT provider: " + ShowName(req.stt))
      else
        var llm := LlmFor(req.llm);
        if llm.None? then Err("Unknown LLM provider: " + ShowName(req.llm))
        else
          var tts := TtsFor(req.tts);
          if tts.None? then Err("Unknown TTS provider: " + ShowName(req.tts))
          else Ok(CascadingPipeline(stt.value, llm.value, tts.value, req.detection == Some(true)))
    else Err("Unknown pipeline_type: " + req.pipelineType)
  }

  /** A cascading pipeline is built from exactly the providers that the request names, for every choice of them. */
  lemma CascadingAcceptsEveryProviderChoice(req: MeetingReq, s: SttProvider, l: LlmProvider, t: TtsProvider)
    requires req.pipelineType == "cascading"
    requires req.stt == Some(SttName(s)) && req.llm == Some(LlmName(l)) && req.tts == Some(TtsName(t))
    ensures GetPipeline(req) == Ok(CascadingPipeline(s, l, t, req.detection == Some(true)))
  {
    ProviderKeysRoundTrip(s, l, t);
  }

  /** The MCP server the agent gets when a URL is given. */
  datatype McpServer = McpServerHttp(url: string, clientSessionTimeoutSeconds: nat)

  /** What `MyVoiceAgent.__init__` passes to the agent and keeps. */
  datatype AgentConfig = AgentConfig(instructions: string, mcpServers: Option<seq<McpServer>>, personality: string)

  const McpTimeoutSeconds: nat := 30

  /** The agent runs on the system prompt, and gets one HTTP MCP server exactly when the URL is non-empty. */
  function MakeAgent(systemPrompt: string, personality: string, mcpUrl: Option<string>): (a: AgentConfig)
    ensures a.instructions == systemPrompt && a.personality == personality
    ensures a.mcpServers.Some? <==> mcpUrl.Some? && mcpUrl.value != ""
    ensures a.mcpServers.Some? ==> a.mcpServers.value == [McpServerHttp(mcpUrl.value, McpTimeoutSeconds)]
  {
    var servers := if mcpUrl.Some? && mcpUrl.value != "" then Some([McpServerHttp(mcpUrl.value, 30)]) else None;
    AgentConfig(systemPrompt, servers, personality)
  }

  /** What the agent says before leaving. */
  const Farewell: string := "Goodbye!"

  /** Calls the agent makes on its session. */
  datatype SessionAction = Say(text: string) | SleepSeconds(n: nat) | LeaveSession

  /**
   * The `end_call` tool: with a live session it says goodbye, waits a second and
   * leaves, in that order; with no session it does nothing.
   */
  function EndCall(sessionPresent: bool): (acts: seq<SessionAction>)
    ensures LeaveSession in acts <==> sessionPresent
    ensures !sessionPresent ==> acts == []
    ensures sessionPresent ==> acts == [Say(Farewell), SleepSeconds(1), LeaveSession]
  {
    if sessionPresent then [Say(Farewell), SleepSeconds(1), LeaveSession] else []
  }

  /** The transcript as the conversation flow records it: `transcript.lower().strip()`. */
  function Normalize(transcript: string): (s: string)
    ensures s == Lower(Strip(transcript))
    ensures |s| <= |transcript|
    ensures forall i :: 0 <= i < |s| ==> !IsUpper(s[i])
    ensures s != [] ==> !IsSpace(s[0]) && !IsSpace(s[|s| - 1])
  {
    LowerStripCommute(transcript);
    StripIsTrimmedSlice(Lower(transcript));
    Strip(Lower(transcript))
  }

  /** Normalizing a normalized transcript changes nothing. */
  lemma NormalizeIdempotent(transcript: string)
    ensures Normalize(Normalize(transcript)) == Normalize(transcript)
  {
    var l := Lower(transcript);
    LowerStripCommute(l);
    LowerIdempotent(transcript);
    StripIdempotent(l);
  }

  datatype ChatRole = UserRole | AssistantRole
  datatype ChatMessage = ChatMessage(role: ChatRole, content: string)

  /**
   * `MyConversationFlow`: one user turn at a time, recorded in the agent's chat context.
   * The context belongs to the agent, which seeds it from its instructions; the flow
   * is given it as it stands.
   */
  class ConversationFlow {
    var isTurnActive: bool
    var chatContext: seq<ChatMessage>

    constructor (agentContext: seq<ChatMessage>)
      ensures !isTurnActive && chatContext == agentContext
    {
      isTurnActive, chatContext := false, agentContext;
    }

    method OnTurnStart(transcript: string)
      modifies this`isTurnActive
      ensures isTurnActive
    {
      isTurnActive := true;
    }

    method OnTurnEnd()
      modifies this`isTurnActive
      ensures !isTurnActive
    {
      isTurnActive := false;
    }

    /**
     * `run`: starts the turn, records the normalized transcript as a user message,
     * passes on every chunk the LLM produces, in order, and ends the turn.
     */
    method Run(transcript: string, llmChunks: seq<string>) returns (yielded: seq<string>)
      modifies this`isTurnActive, this`chatContext
      ensures chatContext == old(chatContext) + [ChatMessage(UserRole, Normalize(transcript))]
      ensures yielded == llmChunks
      ensures !isTurnActive
    {
      OnTurnStart(transcript);
      chatContext := chatContext + [ChatMessage(UserRole, Normalize(transcript))];
      yielded := [];
      var i := 0;
      while i < |llmChunks|
        invariant 0 <= i <= |llmChunks|
        invariant yielded == llmChunks[..i]
        invariant isTurnActive
      {
        yielded := yielded + [llmChunks[i]];
        i := i + 1;
      }
      OnTurnEnd();
    }
  }

  /** How `session.leave` goes when `leave_agent` finds a session. */
  datatype LeaveBehaviour = NotFullyInitialized | LeaveReturns | LeaveRaises(error: string)

  /** The JSON body `leave_agent` returns. */
  datatype LeaveResponse = LeaveResponse(status: string, meetingId: string, message: string)

  /**
   * The module-level `active_sessions` table together with the background tasks that
   * use it. A stored entry `{session, cancel_event}` is named by the id of the
   * `server_operations` task that created it.
   */
  class SessionTable {
    /** `active_sessions`: meeting id to the task whose entry is stored. */
    var sessions: map<string, nat>
    /** Tasks whose cancel event is set. */
    var cancelled: set<nat>
    /** `server_operations` calls added as background tasks and not yet started. */
    var queued: seq<MeetingReq>
    /** Started tasks that have stored their entry and not yet finished, with their meeting id. */
    var running: map<nat, string>
    var nextTask: nat

    /** Every stored entry belongs to a running task of that meeting, and task ids are never reused. */
    ghost predicate Valid()
      reads this
    {
      && (forall m :: m in sessions ==> sessions[m] in running && running[sessions[m]] == m)
      && (forall t :: t in running ==> t < nextTask)
    }

    constructor ()
      ensures Valid()
      ensures sessions == map[] && cancelled == {} && queued == [] && running == map[] && nextTask == 0
    {
      sessions, cancelled, queued, running, nextTask := map[], {}, [], map[], 0;
    }

    /** `join_agent`: only queues a `server_operations` task, even when the meeting already has an entry. */
    method JoinAgent(req: MeetingReq) returns (message: string)
      requires Valid()
      modifies this`queued
      ensures Valid()
      ensures queued == old(queued) + [req]
      ensures message == "AI agent joining process initiated for meeting " + req.meetingId
    {
      queued := queued + [req];
      message := "AI agent joining process initiated for meeting " + req.meetingId;
    }

    /**
     * Queued task `i` starts `server_operations`. When its pipeline is rejected the
     * `finally` pops the meeting's entry at once, whichever task stored it; otherwise
     * the new entry replaces any entry of the same meeting.
     */
    method StartServerOperations(i: nat) returns (task: nat, stored: bool)
      requires Valid() && i < |queued|
      modifies this`queued, this`sessions, this`running, this`nextTask
      ensures Valid()
      ensures queued == old(queued[..i] + queued[i + 1..])
      ensures task == old(nextTask) && nextTask == task + 1
      ensures stored <==> old(GetPipeline(queued[i])).Ok?
      ensures stored ==> && sessions == old(sessions)[old(queued[i]).meetingId := task]
                         && running == old(running)[task := old(queued[i]).meetingId]
      ensures !stored ==> sessions == old(sessions) - {old(queued[i]).meetingId} && running == old(running)
    {
      var req := queued[i];
      queued := queued[..i] + queued[i + 1..];
      task := nextTask;
      nextTask := nextTask + 1;
      var pipeline := GetPipeline(req);
      if pipeline.Err? {
        sessions := sessions - {req.meetingId};
        stored := false;
        return;
      }
      sessions := sessions[req.meetingId := task];
      running := running[task := req.meetingId];
      stored := true;
    }

    /**
     * Running task `task` finishes, because `session.start()` ended, raised, or lost
     * the race to its cancel event: the `finally` pops its meeting's entry even when a
     * newer task stored it.
     */
    method FinishServerOperations(task: nat)
      requires Valid() && task in running
      modifies this`sessions, this`running
      ensures Valid()
      ensures sessions == old(sessions) - {old(running)[task]}
      ensures running == old(running) - {task}
    {
      sessions := sessions - {running[task]};
      running := running - {task};
    }

    /**
     * `leave_agent`: pops the meeting's entry on every path and touches no other key.
     * It answers "not_found" exactly when there was no entry; otherwise it sets that
     * entry's cancel event and answers "success", or "error" when `session.leave` raises.
     */
    method LeaveAgent(meetingId: string, behaviour: LeaveBehaviour) returns (res: LeaveResponse)
      requires Valid()
      modifies this`sessions, this`cancelled
      ensures Valid()
      ensures sessions == old(sessions) - {meetingId}
      ensures res.meetingId == meetingId
      ensures res.status == "not_found" <==> meetingId !in old(sessions)
      ensures meetingId !in old(sessions) ==>
                && cancelled == old(cancelled)
                && res.message == "No active session found for meeting " + meetingId + "."
      ensures meetingId in old(sessions) ==>
                && cancelled == old(cancelled) + {old(sessions)[meetingId]}
                && res.status == (if behaviour.LeaveRaises? then "error" else "success")
      ensures meetingId in old(sessions) && behaviour.LeaveRaises? ==>
                res.message == "An error occurred during agent leave process: " + behaviour.error
      ensures meetingId in old(sessions) && !behaviour.LeaveRaises? ==>
                res.message == "Agent termination process initiated for meeting " + meetingId + "."
    {
      if meetingId !in sessions {
        return LeaveResponse("not_found", meetingId, "No active session found for meeting " + meetingId + ".");
      }
      var task := sessions[meetingId];
      sessions := sessions - {meetingId};
      cancelled := cancelled + {task};
      match behaviour
      case LeaveRaises(e) =>
        res := LeaveResponse("error", meetingId, "An error occurred during agent leave process: " + e);
      case _ =>
        res := LeaveResponse("success", meetingId, "Agent termination process initiated for meeting " + meetingId + ".");
    }
  }

  function Request(meetingId: string, pipelineType: string): (req: MeetingReq)
    ensures req.meetingId == meetingId && req.pipelineType == pipelineType
  {
    MeetingReq(meetingId, "token", pipelineType, None, None, None, "Custom", "prompt", Some(true), None)
  }

  /**
   * Two agents are started for one meeting; the first one's `finally` then drops the
   * second one's entry, so a later leave request finds nothing while the second agent
   * still runs and its cancel event is never set.
   */
  method StaleCleanupOrphansNewerAgent() returns (status: string, orphanRunning: bool, orphanCancelled: bool)
    ensures status == "not_found" && orphanRunning && !orphanCancelled
  {
    var t := new SessionTable();
    var _ := t.JoinAgent(Request("m", "openai"));
    var _ := t.JoinAgent(Request("m", "google"));
    var first, _ := t.StartServerOperations(0);
    var second, _ := t.StartServerOperations(0);
    t.FinishServerOperations(first);
    var res := t.LeaveAgent("m", LeaveReturns);
    status, orphanRunning, orphanCancelled := res.status, second in t.running, second in t.cancelled;
  }

  /** A request with an unknown pipeline type removes the running agent's entry for the same meeting. */
  method RejectedRequestDropsLiveEntry() returns (stored: bool, entryKept: bool, agentRunning: bool)
    ensures !stored && !entryKept && agentRunning
  {
    var t := new SessionTable();
    var _ := t.JoinAgent(Request("m", "aws"));
    var agent, _ := t.StartServerOperations(0);
    var _ := t.JoinAgent(Request("m", "gpt"));
    var _, s := t.StartServerOperations(0);
    stored, entryKept, agentRunning := s, "m" in t.sessions, agent in t.running;
  }

  /** The ordinary path: the agent is stored, a leave request signals it, and its task then cleans up. */
  method JoinThenLeave() returns (status: string, signalled: bool, tableEmpty: bool)
    ensures status == "success" && signalled && tableEmpty
  {
    var t := new SessionTable();
    var _ := t.JoinAgent(Request("m", "openai"));
    var agent, _ := t.StartServerOperations(0);
    var res := t.LeaveAgent("m", NotFullyInitialized);
    signalled := agent in t.cancelled;
    t.FinishServerOperations(agent);
    status, tableEmpty := res.status, t.sessions == map[] && t.running == map[];
  }
}
