/**
 * The meeting screen's session state machine: the meeting SDK's callbacks, the
 * timer continuations of the join/retry procedure, the automatic agent invite, the
 * disconnect path through the agent-removal endpoint, and the agent's audio
 * sampling loop.
 *
 * React state and refs are modelled as fields updated synchronously. Each pending
 * `setTimeout` or outstanding `fetch` is a counter (or flag) that a `Fire…` or
 * `Complete…` method consumes; the environment decides when they run and passes in
 * what the SDK or the server answered. Calls into the SDK and the HTTP endpoints are
 * appended to the `calls` log.
 */
module MeetingInterface {
  import opened Wrappers
  import opened Text
  import opened AudioLevel

  const MaxRetries: nat := 3

  const OverloadMessage: string := "Server is currently overloaded. Please try again in a few minutes."
  const MaxRetriesMessage: string := "Maximum retry attempts reached. Please try creating a new meeting."
  const JoinFailedMessage: string := "Failed to join meeting"
  const ConnectionFailedMessage: string := "Connection failed"
  const OverloadMarker: string := "Insufficient resources"

  /** The fixed fields of the join-agent request body. */
  const InvitePipelineType: string := "gemini-live-2.5-flash-preview"
  const InvitePersonality: string := "Custom"

  /** A participant as the SDK reports it; `displayName` may be missing. */
  datatype Participant = Participant(id: string, displayName: Option<string>)

  /** The JSON body posted to the join-agent endpoint; a prompt missing from the map is omitted. */
  datatype InviteBody = InviteBody(meetingId: string, token: string, pipelineType: string,
                                   personality: string, systemPrompt: Option<string>)

  /** The calls the screen makes into the SDK, the HTTP endpoints and its parent. */
  datatype Call =
    | Join | Leave | End | ToggleMic
    | OnDisconnect
    | PostJoinAgent(body: InviteBody)
    | PostLeaveAgent(meetingId: string)

  /** What `join()` did: returned, or threw synchronously. */
  datatype JoinOutcome = JoinReturned | JoinThrew

  /** How the join-agent `fetch` settled. */
  datatype InviteOutcome = InviteOk | InviteNotOk | InviteThrew

  /** How the leave-agent `fetch` settled: an ok response with its `status` field, a non-ok response, or a throw. */
  datatype LeaveOutcome = LeaveOkStatus(status: string) | LeaveNotOk | LeaveThrew

  /** The agent-presence heuristic: the display name contains "Agent" or "Haley". */
  predicate IsAgentName(displayName: Option<string>)
  {
    displayName.Some? && (Contains(displayName.value, "Agent") || Contains(displayName.value, "Haley"))
  }

  /** The heuristic is plain substring search on the name. */
  lemma AgentNameIffSubstring(name: string)
    ensures IsAgentName(Some(name)) <==>
              (exists i :: OccursAt("Agent", name, i)) || (exists i :: OccursAt("Haley", name, i))
    ensures !IsAgentName(None)
  {
    ContainsIffOccurs(name, "Agent");
    ContainsIffOccurs(name, "Haley");
  }

  /** "Haley-Agent" is recognised, "User" is not, and neither is a participant without a name. */
  lemma AgentNameExamples()
    ensures IsAgentName(Some("Haley-Agent"))
    ensures !IsAgentName(Some("User"))
    ensures !IsAgentName(None)
  {
  }

  /** An SDK error is a capacity error when its message contains "Insufficient resources". */
  predicate IsOverload(message: Option<string>): (b: bool)
    ensures b <==> message.Some? && exists i :: OccursAt(OverloadMarker, message.value, i)
  {
    if message.Some? then ContainsIffOccurs(message.value, OverloadMarker); Contains(message.value, OverloadMarker)
    else false
  }

  /** `error.message || "Connection failed"`: a missing or empty message falls back. */
  function ErrorText(message: Option<string>): (text: string)
    ensures text != ""
    ensures message.Some? && message.value != "" ==> text == message.value
    ensures message.None? || message.value == "" ==> text == ConnectionFailedMessage
  {
    if message.Some? && message.value != "" then message.value else ConnectionFailedMessage
  }

  /** The leave-agent outcomes after which the meeting is ended locally. */
  predicate EndsMeeting(outcome: LeaveOutcome)
  {
    match outcome
    case LeaveOkStatus(status) => status == "removed" || status == "not_found"
    case LeaveNotOk => true
    case LeaveThrew => true
  }

  /** Only an ok response whose status is neither "removed" nor "not_found" skips `end()`; "success" is such a status. */
  lemma EndsMeetingExactly(outcome: LeaveOutcome)
    ensures !EndsMeeting(outcome) <==>
              outcome.LeaveOkStatus? && outcome.status != "removed" && outcome.status != "not_found"
    ensures !EndsMeeting(LeaveOkStatus("success"))
  {
  }

  /** The status line under the avatar. */
  function StatusText(isJoined: bool, isRetrying: bool, agentInvited: bool, agentJoined: bool,
                      agentIsSpeaking: bool): (text: string)
    ensures text == "connecting..." <==> !isJoined || isRetrying || (agentInvited && !agentJoined)
    ensures text == "speaking..." <==> isJoined && !isRetrying && agentJoined && agentIsSpeaking
    ensures text == "listening..." <==> isJoined && !isRetrying && agentJoined && !agentIsSpeaking
    ensures text == "connected..." <==> isJoined && !isRetrying && !agentInvited && !agentJoined
    ensures text != ""
  {
    var isConnecting := !isJoined || isRetrying || (agentInvited && !agentJoined);
    if isConnecting then "connecting..."
    else if isJoined && agentJoined then (if agentIsSpeaking then "speaking..." else "listening...")
    else if isJoined then "connected..."
    else ""
  }

  /** The status line when the agent's speaking flag comes from a sampled spectrum. */
  lemma StatusFromSpectrum(isJoined: bool, isRetrying: bool, agentInvited: bool, agentJoined: bool, bins: Spectrum)
    requires isJoined && !isRetrying && agentJoined
    ensures StatusText(isJoined, isRetrying, agentInvited, agentJoined, IsSpeaking(Level(bins))) ==
              if 10 * Sum(bins) > 128 * BinCount then "speaking..." else "listening..."
  {
    SpeakingIffSumAbove(bins);
  }

  class Meeting {
    const meetingId: string
    const token: string
    const personality: string
    /** The personality-to-prompt table, whose contents are not part of this model. */
    const prompts: map<string, string>

    var isJoined: bool
    var connectionError: Option<string>
    var retryAttempts: nat
    var isRetrying: bool
    var agentInvited: bool
    var agentJoined: bool
    var agentParticipantId: Option<string>
    var micEnabled: bool
    var agentIsSpeaking: bool
    /** The `joinAttempted` and `agentInviteAttempted` refs. */
    var joinAttempted: bool
    var agentInviteAttempted: bool
    /** The 2000 ms initial-join timer of the join effect. */
    var joinTimerPending: bool
    /** Pending 5000 ms retry timers and 1000 ms re-join continuations. */
    var pendingRetries: nat
    var pendingRejoins: nat
    /** Outstanding join-agent and leave-agent requests. */
    var pendingInvites: nat
    var pendingLeaves: nat
    /** `analyserRef.current !== null`, `animationFrameRef.current` (0 when unset) and the frame callbacks still queued. */
    var analyserSet: bool
    var frameRef: nat
    var scheduledFrames: set<nat>
    /** Whether the mic-stream effect has run, so that React runs its cleanup before the next run. */
    var micEffectRan: bool
    var calls: seq<Call>

    /** The body this screen posts to the join-agent endpoint. */
    function InviteRequest(): (body: InviteBody)
      reads this
      ensures body.meetingId == meetingId && body.token == token
      ensures body.pipelineType == InvitePipelineType && body.personality == InvitePersonality
      ensures body.systemPrompt == if personality in prompts then Some(prompts[personality]) else None
    {
      InviteBody(meetingId, token, InvitePipelineType, InvitePersonality,
                 if personality in prompts then Some(prompts[personality]) else None)
    }

    /**
     * The invariant every handler keeps: the retry counter never exceeds the maximum,
     * the agent flag and the agent's id are set together, the invited flag is only ever
     * set after an invite was posted, a pending removal means the agent was invited, and
     * frame handles are positive.
     */
    ghost predicate Valid()
      reads this
    {
      && retryAttempts <= MaxRetries
      && (agentJoined <==> agentParticipantId.Some?)
      && ((agentInvited || pendingInvites > 0) ==> PostJoinAgent(InviteRequest()) in calls)
      && (pendingLeaves > 0 ==> agentInvited)
      && 0 !in scheduledFrames
    }

    /** The status line for the current state. */
    function Status(): (text: string)
      reads this
      ensures text == "connecting..." <==> !isJoined || isRetrying || (agentInvited && !agentJoined)
    {
      StatusText(isJoined, isRetrying, agentInvited, agentJoined, agentIsSpeaking)
    }

    /** The manual Retry button is shown for a non-empty error while not retrying and below the maximum. */
    predicate ShowsRetryButton()
      reads this
    {
      connectionError.Some? && connectionError.value != "" && !isRetrying && retryAttempts < MaxRetries
    }

    /** Mount: nothing is joined; the join effect schedules the 2000 ms initial join. */
    constructor (meetingId: string, token: string, personality: string, prompts: map<string, string>)
      ensures Valid()
      ensures this.meetingId == meetingId && this.token == token
      ensures this.personality == personality && this.prompts == prompts
      ensures !isJoined && connectionError.None? && retryAttempts == 0 && !isRetrying
      ensures !agentInvited && !agentJoined && agentParticipantId.None? && micEnabled && !agentIsSpeaking
      ensures !joinAttempted && !agentInviteAttempted && joinTimerPending
      ensures pendingRetries == 0 && pendingRejoins == 0 && pendingInvites == 0 && pendingLeaves == 0
      ensures !analyserSet && frameRef == 0 && scheduledFrames == {} && !micEffectRan && calls == []
    {
      this.meetingId := meetingId;
      this.token := token;
      this.personality := personality;
      this.prompts := prompts;
      isJoined, connectionError, retryAttempts, isRetrying := false, None, 0, false;
      agentInvited, agentJoined, agentParticipantId := false, false, None;
      micEnabled, agentIsSpeaking := true, false;
      joinAttempted, agentInviteAttempted := false, false;
      joinTimerPending := true;
      pendingRetries, pendingRejoins, pendingInvites, pendingLeaves := 0, 0, 0, 0;
      analyserSet, frameRef, scheduledFrames, micEffectRan := false, 0, {}, false;
      calls := [];
    }

    // ---------------------------------------------------------------- SDK callbacks

    /** `onMeetingJoined`. */
    method OnMeetingJoined()
      requires Valid()
      modifies this`isJoined, this`connectionError, this`retryAttempts, this`isRetrying, this`joinAttempted
      ensures Valid()
      ensures isJoined && connectionError.None? && retryAttempts == 0 && !isRetrying && joinAttempted
    {
      isJoined := true;
      connectionError := None;
      retryAttempts := 0;
      isRetrying := false;
      joinAttempted := true;
    }

    /** `onMeetingLeft`: resets the counter and both guards and notifies the parent once. */
    method OnMeetingLeft()
      requires Valid()
      modifies this`isJoined, this`retryAttempts, this`isRetrying, this`joinAttempted,
               this`agentInviteAttempted, this`calls
      ensures Valid()
      ensures !isJoined && retryAttempts == 0 && !isRetrying && !joinAttempted && !agentInviteAttempted
      ensures calls == old(calls) + [OnDisconnect]
    {
      isJoined := false;
      retryAttempts := 0;
      isRetrying := false;
      joinAttempted := false;
      agentInviteAttempted := false;
      calls := calls + [OnDisconnect];
    }

    /** `onParticipantJoined`: an agent-named participant becomes the tracked agent. */
    method OnParticipantJoined(p: Participant)
      requires Valid()
      modifies this`agentJoined, this`agentParticipantId
      ensures Valid()
      ensures IsAgentName(p.displayName) ==> agentJoined && agentParticipantId == Some(p.id)
      ensures !IsAgentName(p.displayName) ==>
                agentJoined == old(agentJoined) && agentParticipantId == old(agentParticipantId)
    {
      if IsAgentName(p.displayName) {
        agentJoined := true;
        agentParticipantId := Some(p.id);
      }
    }

    /** `onParticipantLeft`: any agent-named participant leaving clears the tracked agent. */
    method OnParticipantLeft(p: Participant)
      requires Valid()
      modifies this`agentJoined, this`agentParticipantId
      ensures Valid()
      ensures IsAgentName(p.displayName) ==> !agentJoined && agentParticipantId.None?
      ensures !IsAgentName(p.displayName) ==>
                agentJoined == old(agentJoined) && agentParticipantId == old(agentParticipantId)
    {
      if IsAgentName(p.displayName) {
        agentJoined := false;
        agentParticipantId := None;
      }
    }

    /**
     * `onError`: a capacity error shows the overload message and schedules one retry
     * timer when below the maximum and not already retrying; any other error shows its
     * message and schedules nothing.
     */
    method OnError(message: Option<string>)
      requires Valid()
      modifies this`connectionError, this`isRetrying, this`pendingRetries
      ensures Valid()
      ensures connectionError == Some(if IsOverload(message) then OverloadMessage else ErrorText(message))
      ensures var schedules := IsOverload(message) && old(retryAttempts) < MaxRetries && !old(isRetrying);
              && isRetrying == (schedules || old(isRetrying))
              && pendingRetries == old(pendingRetries) + (if schedules then 1 else 0)
    {
      if IsOverload(message) {
        connectionError := Some(OverloadMessage);
        if retryAttempts < MaxRetries && !isRetrying {
          isRetrying := true;
          pendingRetries := pendingRetries + 1;
        }
      } else {
        connectionError := Some(ErrorText(message));
      }
    }

    // ---------------------------------------------------------------- join and retry

    /**
     * The join effect, run on mount and whenever `join`, `meetingId` or `isRetrying`
     * changes: its cleanup clears the previous 2000 ms timer, and a new one is
     * scheduled only when no join was attempted and no retry is in progress.
     */
    method RunJoinEffect()
      requires Valid()
      modifies this`joinTimerPending
      ensures Valid()
      ensures joinTimerPending == (!joinAttempted && !isRetrying)
    {
      joinTimerPending := !joinAttempted && !isRetrying;
    }

    /** The 2000 ms initial-join timer: joins only when not joined and not attempted; a throwing `join` shows an error. */
    method FireJoinTimer(outcome: JoinOutcome)
      requires Valid() && joinTimerPending
      modifies this`joinTimerPending, this`calls, this`connectionError, this`joinAttempted
      ensures Valid()
      ensures !joinTimerPending
      ensures var joins := !isJoined && !old(joinAttempted);
              && calls == old(calls) + (if joins then [Join] else [])
              && joinAttempted == (old(joinAttempted) || (joins && outcome == JoinReturned))
              && connectionError == (if joins && outcome == JoinThrew then Some(JoinFailedMessage)
                                     else old(connectionError))
    {
      joinTimerPending := false;
      if !isJoined && !joinAttempted {
        calls := calls + [Join];
        if outcome == JoinThrew {
          connectionError := Some(JoinFailedMessage);
        } else {
          joinAttempted := true;
        }
      }
    }

    /**
     * `handleRetryConnection`: at the maximum it stops retrying and shows the terminal
     * error; below it, it counts one more attempt, clears the error and the join guard,
     * and schedules the 1000 ms re-join.
     */
    method HandleRetryConnection()
      requires Valid()
      modifies this`isRetrying, this`connectionError, this`retryAttempts, this`joinAttempted, this`pendingRejoins
      ensures Valid()
      ensures old(retryAttempts) >= MaxRetries ==>
                && !isRetrying && connectionError == Some(MaxRetriesMessage)
                && retryAttempts == old(retryAttempts) && joinAttempted == old(joinAttempted)
                && pendingRejoins == old(pendingRejoins)
      ensures old(retryAttempts) < MaxRetries ==>
                && isRetrying == old(isRetrying) && connectionError.None?
                && retryAttempts == old(retryAttempts) + 1 && !joinAttempted
                && pendingRejoins == old(pendingRejoins) + 1
    {
      if retryAttempts >= MaxRetries {
        isRetrying := false;
        connectionError := Some(MaxRetriesMessage);
        return;
      }
      retryAttempts := retryAttempts + 1;
      connectionError := None;
      joinAttempted := false;
      pendingRejoins := pendingRejoins + 1;
    }

    /** A 5000 ms retry timer fires and runs the retry procedure. */
    method FireRetryTimer()
      requires Valid() && pendingRetries > 0
      modifies this`pendingRetries, this`isRetrying, this`connectionError, this`retryAttempts,
               this`joinAttempted, this`pendingRejoins
      ensures Valid()
      ensures pendingRetries == old(pendingRetries) - 1
      ensures old(retryAttempts) >= MaxRetries ==>
                && !isRetrying && connectionError == Some(MaxRetriesMessage)
                && retryAttempts == old(retryAttempts) && joinAttempted == old(joinAttempted)
                && pendingRejoins == old(pendingRejoins)
      ensures old(retryAttempts) < MaxRetries ==>
                && isRetrying == old(isRetrying) && connectionError.None?
                && retryAttempts == old(retryAttempts) + 1 && !joinAttempted
                && pendingRejoins == old(pendingRejoins) + 1
    {
      pendingRetries := pendingRetries - 1;
      HandleRetryConnection();
    }

    /**
     * A 1000 ms re-join continuation: joins only when not joined and not attempted, then
     * ends the retry. A `join` that throws escapes the timer callback, so `isRetrying`
     * stays set.
     */
    method FireRejoinTimer(outcome: JoinOutcome)
      requires Valid() && pendingRejoins > 0
      modifies this`pendingRejoins, this`calls, this`joinAttempted, this`isRetrying
      ensures Valid()
      ensures pendingRejoins == old(pendingRejoins) - 1
      ensures var joins := !isJoined && !old(joinAttempted);
              && calls == old(calls) + (if joins then [Join] else [])
              && joinAttempted == (old(joinAttempted) || (joins && outcome == JoinReturned))
              && isRetrying == (joins && outcome == JoinThrew && old(isRetrying))
    {
      pendingRejoins := pendingRejoins - 1;
      if !isJoined && !joinAttempted {
        calls := calls + [Join];
        if outcome == JoinThrew {
          return;
        }
        joinAttempted := true;
      }
      isRetrying := false;
    }

    /** `handleManualRetry`: ignored while retrying; otherwise restarts the counter and runs the retry procedure. */
    method HandleManualRetry()
      requires Valid()
      modifies this`isRetrying, this`connectionError, this`retryAttempts, this`joinAttempted, this`pendingRejoins
      ensures Valid()
      ensures old(isRetrying) ==>
                && isRetrying && connectionError == old(connectionError) && retryAttempts == old(retryAttempts)
                && joinAttempted == old(joinAttempted) && pendingRejoins == old(pendingRejoins)
      ensures !old(isRetrying) ==>
                && !isRetrying && connectionError.None? && retryAttempts == 1 && !joinAttempted
                && pendingRejoins == old(pendingRejoins) + 1
    {
      if isRetrying {
        return;
      }
      retryAttempts := 0;
      connectionError := None;
      joinAttempted := false;
      HandleRetryConnection();
    }

    /** `handleToggleMic`: only while joined. */
    method HandleToggleMic()
      requires Valid()
      modifies this`micEnabled, this`calls
      ensures Valid()
      ensures micEnabled == (if isJoined then !old(micEnabled) else old(micEnabled))
      ensures calls == old(calls) + (if isJoined then [ToggleMic] else [])
    {
      if isJoined {
        calls := calls + [ToggleMic];
        micEnabled := !micEnabled;
      }
    }

    // ---------------------------------------------------------------- agent invite

    /** `inviteAgent` up to its `await`: posts the invite body. */
    method InviteAgent()
      requires Valid()
      modifies this`calls, this`pendingInvites
      ensures Valid()
      ensures calls == old(calls) + [PostJoinAgent(InviteRequest())]
      ensures pendingInvites == old(pendingInvites) + 1
    {
      calls := calls + [PostJoinAgent(InviteRequest())];
      pendingInvites := pendingInvites + 1;
    }

    /** The invite effect, run when `isJoined` changes: invites once per join, setting the guard first. */
    method RunInviteEffect()
      requires Valid()
      modifies this`agentInviteAttempted, this`calls, this`pendingInvites
      ensures Valid()
      ensures var fires := isJoined && !agentInvited && !old(agentInviteAttempted);
              && agentInviteAttempted == (old(agentInviteAttempted) || fires)
              && calls == old(calls) + (if fires then [PostJoinAgent(InviteRequest())] else [])
              && pendingInvites == old(pendingInvites) + (if fires then 1 else 0)
    {
      if isJoined && !agentInvited && !agentInviteAttempted {
        agentInviteAttempted := true;
        InviteAgent();
      }
    }

    /** `handleInviteAgent`: an invite while joined and not yet invited, without the guard. */
    method HandleInviteAgent()
      requires Valid()
      modifies this`calls, this`pendingInvites
      ensures Valid()
      ensures var fires := isJoined && !agentInvited;
              && calls == old(calls) + (if fires then [PostJoinAgent(InviteRequest())] else [])
              && pendingInvites == old(pendingInvites) + (if fires then 1 else 0)
    {
      if !agentInvited && isJoined {
        InviteAgent();
      }
    }

    /** The invite request settles: only an ok response sets `agentInvited`; a failure re-arms the guard. */
    method CompleteInvite(outcome: InviteOutcome)
      requires Valid() && pendingInvites > 0
      modifies this`pendingInvites, this`agentInvited, this`agentInviteAttempted
      ensures Valid()
      ensures pendingInvites == old(pendingInvites) - 1
      ensures agentInvited == (old(agentInvited) || outcome == InviteOk)
      ensures agentInviteAttempted == (old(agentInviteAttempted) && outcome == InviteOk)
    {
      pendingInvites := pendingInvites - 1;
      if outcome == InviteOk {
        agentInvited := true;
      } else {
        agentInviteAttempted := false;
      }
    }

    // ---------------------------------------------------------------- disconnect

    /** `handleDisconnect`: asks the removal endpoint when an agent was invited, otherwise leaves directly. */
    method HandleDisconnect()
      requires Valid()
      modifies this`calls, this`pendingLeaves
      ensures Valid()
      ensures calls == old(calls) + [if agentInvited then PostLeaveAgent(meetingId) else Leave]
      ensures pendingLeaves == old(pendingLeaves) + (if agentInvited then 1 else 0)
    {
      if agentInvited {
        calls := calls + [PostLeaveAgent(meetingId)];
        pendingLeaves := pendingLeaves + 1;
      } else {
        calls := calls + [Leave];
      }
    }

    /**
     * The rest of `leaveAgent`: `end()` exactly once for "removed", "not_found", a non-ok
     * response or a throw; nothing at all for an ok response with any other status.
     */
    method CompleteLeaveAgent(outcome: LeaveOutcome)
      requires Valid() && pendingLeaves > 0
      modifies this`pendingLeaves, this`calls
      ensures Valid()
      ensures pendingLeaves == old(pendingLeaves) - 1
      ensures calls == old(calls) + (if EndsMeeting(outcome) then [End] else [])
    {
      pendingLeaves := pendingLeaves - 1;
      match outcome {
        case LeaveOkStatus(status) =>
          if status == "removed" {
            calls := calls + [End];
          } else if status == "not_found" {
            calls := calls + [End];
          }
        case LeaveNotOk =>
          calls := calls + [End];
        case LeaveThrew =>
          calls := calls + [End];
      }
    }

    // ---------------------------------------------------------------- agent audio

    /** One run of `updateAudioLevel`: samples while the analyser is attached, and always queues the next frame. */
    method UpdateAudioLevel(bins: Spectrum, next: nat)
      requires Valid() && next > 0
      modifies this`agentIsSpeaking, this`scheduledFrames, this`frameRef
      ensures Valid()
      ensures agentIsSpeaking == if analyserSet then IsSpeaking(Level(bins)) else old(agentIsSpeaking)
      ensures scheduledFrames == old(scheduledFrames) + {next} && frameRef == next
    {
      if analyserSet {
        agentIsSpeaking := IsSpeaking(Level(bins));
      }
      scheduledFrames := scheduledFrames + {next};
      frameRef := next;
    }

    /**
     * `setupAudioAnalysis`: without an AudioContext class the construction throws and is
     * caught, and nothing changes; otherwise the analyser is attached and the first
     * sample is taken at once, queueing frame `handle`.
     */
    method SetupAudioAnalysis(contextAvailable: bool, bins: Spectrum, handle: nat)
      requires Valid() && handle > 0
      modifies this`analyserSet, this`agentIsSpeaking, this`scheduledFrames, this`frameRef
      ensures Valid()
      ensures !contextAvailable ==>
                && analyserSet == old(analyserSet) && agentIsSpeaking == old(agentIsSpeaking)
                && scheduledFrames == old(scheduledFrames) && frameRef == old(frameRef)
      ensures contextAvailable ==>
                && analyserSet && agentIsSpeaking == IsSpeaking(Level(bins))
                && scheduledFrames == old(scheduledFrames) + {handle} && frameRef == handle
    {
      if !contextAvailable {
        return;
      }
      analyserSet := true;
      UpdateAudioLevel(bins, handle);
    }

    /** The browser runs queued frame `handle`, which queues frame `next`. */
    method FireFrame(handle: nat, bins: Spectrum, next: nat)
      requires Valid() && handle in scheduledFrames && next > 0
      modifies this`agentIsSpeaking, this`scheduledFrames, this`frameRef
      ensures Valid()
      ensures agentIsSpeaking == if analyserSet then IsSpeaking(Level(bins)) else old(agentIsSpeaking)
      ensures scheduledFrames == old(scheduledFrames) - {handle} + {next} && frameRef == next
    {
      scheduledFrames := scheduledFrames - {handle};
      UpdateAudioLevel(bins, next);
    }

    /** `cleanupAudioAnalysis`: cancels the frame the ref names (if any), clears the flag and detaches the analyser. */
    method CleanupAudioAnalysis()
      requires Valid()
      modifies this`scheduledFrames, this`agentIsSpeaking, this`analyserSet
      ensures Valid()
      ensures scheduledFrames == if frameRef != 0 then old(scheduledFrames) - {frameRef} else old(scheduledFrames)
      ensures !agentIsSpeaking && !analyserSet
    {
      if frameRef != 0 {
        scheduledFrames := scheduledFrames - {frameRef};
      }
      agentIsSpeaking := false;
      analyserSet := false;
    }

    /** The agent's `onStreamEnabled`: an audio stream starts the analysis. */
    method OnStreamEnabled(isAudio: bool, contextAvailable: bool, bins: Spectrum, handle: nat)
      requires Valid() && handle > 0
      modifies this`analyserSet, this`agentIsSpeaking, this`scheduledFrames, this`frameRef
      ensures Valid()
      ensures !(isAudio && contextAvailable) ==>
                && analyserSet == old(analyserSet) && agentIsSpeaking == old(agentIsSpeaking)
                && scheduledFrames == old(scheduledFrames) && frameRef == old(frameRef)
      ensures isAudio && contextAvailable ==>
                && analyserSet && agentIsSpeaking == IsSpeaking(Level(bins))
                && scheduledFrames == old(scheduledFrames) + {handle} && frameRef == handle
    {
      if isAudio {
        SetupAudioAnalysis(contextAvailable, bins, handle);
      }
    }

    /** The agent's `onStreamDisabled`: an audio stream stops the analysis. */
    method OnStreamDisabled(isAudio: bool)
      requires Valid()
      modifies this`scheduledFrames, this`agentIsSpeaking, this`analyserSet
      ensures Valid()
      ensures !isAudio ==>
                scheduledFrames == old(scheduledFrames) && agentIsSpeaking == old(agentIsSpeaking)
                && analyserSet == old(analyserSet)
      ensures isAudio ==>
                && scheduledFrames == (if frameRef != 0 then old(scheduledFrames) - {frameRef} else old(scheduledFrames))
                && !agentIsSpeaking && !analyserSet
    {
      if isAudio {
        CleanupAudioAnalysis();
      }
    }

    /**
     * A run of the effect on the agent's mic stream. React first runs the previous
     * run's cleanup, `cleanupAudioAnalysis`; the effect then starts the analysis when a
     * stream is present and cleans up again when it is not.
     */
    method RunMicStreamEffect(hasMicStream: bool, contextAvailable: bool, bins: Spectrum, handle: nat)
      requires Valid() && handle > 0
      modifies this`analyserSet, this`agentIsSpeaking, this`scheduledFrames, this`frameRef, this`micEffectRan
      ensures Valid()
      ensures micEffectRan
      ensures var cleaned := if old(micEffectRan) && old(frameRef) != 0 then old(scheduledFrames) - {old(frameRef)}
                             else old(scheduledFrames);
              && (hasMicStream && !contextAvailable ==>
                    && analyserSet == (old(analyserSet) && !old(micEffectRan))
                    && agentIsSpeaking == (old(agentIsSpeaking) && !old(micEffectRan))
                    && scheduledFrames == cleaned && frameRef == old(frameRef))
              && (hasMicStream && contextAvailable ==>
                    && analyserSet && agentIsSpeaking == IsSpeaking(Level(bins))
                    && scheduledFrames == cleaned + {handle} && frameRef == handle)
      ensures !hasMicStream ==>
                && scheduledFrames == (if frameRef != 0 then old(scheduledFrames) - {frameRef} else old(scheduledFrames))
                && !agentIsSpeaking && !analyserSet && frameRef == old(frameRef)
    {
      if micEffectRan {
        CleanupAudioAnalysis();
      }
      micEffectRan := true;
      if hasMicStream {
        SetupAudioAnalysis(contextAvailable, bins, handle);
      } else {
        CleanupAudioAnalysis();
      }
    }
  }

  // ------------------------------------------------------------------ scenarios

  /** The spectrum of silence: every bin is zero. */
  function Silence(): (s: Spectrum)
    ensures !IsSpeaking(Level(s))
  {
    SilenceIsNotSpeaking(seq(BinCount, _ => 0));
    seq(BinCount, _ => 0)
  }

  /** One round of a capacity error, its 5000 ms retry timer and its 1000 ms re-join. */
  method RetryRound(m: Meeting, overload: Option<string>)
    requires m.Valid() && IsOverload(overload)
    requires !m.isJoined && !m.isRetrying && m.joinAttempted && m.retryAttempts < MaxRetries
    requires m.pendingRetries == 0 && m.pendingRejoins == 0
    modifies m
    ensures m.Valid()
    ensures !m.isJoined && !m.isRetrying && m.joinAttempted && m.retryAttempts == old(m.retryAttempts) + 1
    ensures m.pendingRetries == 0 && m.pendingRejoins == 0
    ensures m.calls == old(m.calls) + [Join]
  {
    m.OnError(overload);
    m.FireRetryTimer();
    m.FireRejoinTimer(JoinReturned);
  }

  /** A message containing "Insufficient resources" is recognised as a capacity error. */
  lemma CapacityErrorExample()
    ensures IsOverload(Some("Insufficient resources to join"))
  {
    assert OccursAt(OverloadMarker, "Insufficient resources to join", 0);
  }

  /** A screen that joined once and then went through three rounds of capacity error, retry timer and re-join. */
  method ExhaustRetries(overload: Option<string>) returns (m: Meeting)
    requires IsOverload(overload)
    ensures fresh(m) && m.Valid()
    ensures !m.isJoined && !m.isRetrying && m.retryAttempts == MaxRetries
    ensures m.pendingRetries == 0
    ensures m.calls == [Join, Join, Join, Join]
  {
    m := new Meeting("room-1", "token", "Tutor", map[]);
    m.FireJoinTimer(JoinReturned);
    RetryRound(m, overload);
    RetryRound(m, overload);
    RetryRound(m, overload);
  }

  /**
   * Three capacity errors, each followed by its retry timer and re-join, use up the
   * three retries; a fourth such error only shows the overload message and schedules
   * nothing, and the manual Retry button stays hidden. The terminal "Maximum retry
   * attempts" message is not produced on this path.
   */
  method OverloadRetriesRunOut() returns (joins: seq<Call>, attempts: nat, error: Option<string>,
                                          retryTimers: nat, retrying: bool, button: bool)
    ensures joins == [Join, Join, Join, Join]
    ensures attempts == MaxRetries
    ensures error == Some(OverloadMessage)
    ensures retryTimers == 0 && !retrying
    ensures !button
  {
    var overload := Some("Insufficient resources to join");
    CapacityErrorExample();
    var m := ExhaustRetries(overload);
    m.OnError(overload);
    joins, attempts, error, retryTimers, retrying := m.calls, m.retryAttempts, m.connectionError,
                                                     m.pendingRetries, m.isRetrying;
    button := m.ShowsRetryButton();
  }

  /**
   * An error without a message is shown as "Connection failed" with the manual Retry
   * button, and schedules nothing; the
   * button's handler counts one attempt and its re-join joins again.
   */
  method PlainErrorOffersRetry() returns (error: Option<string>, button: bool, retryTimers: nat, joins: seq<Call>, attempts: nat,
                                          retrying: bool)
    ensures error == Some(ConnectionFailedMessage) && button && retryTimers == 0
    ensures joins == [Join, Join] && attempts == 1 && !retrying
  {
    var m := new Meeting("room-1", "token", "Tutor", map[]);
    m.FireJoinTimer(JoinReturned);
    m.OnError(None);
    error, button, retryTimers := m.connectionError, m.ShowsRetryButton(), m.pendingRetries;
    m.HandleManualRetry();
    m.FireRejoinTimer(JoinReturned);
    joins, attempts, retrying := m.calls, m.retryAttempts, m.isRetrying;
  }

  /** A screen for "room-1" after the initial join and an accepted invite. */
  method JoinedWithInvitedAgent() returns (m: Meeting)
    ensures fresh(m) && m.Valid() && m.meetingId == "room-1"
    ensures m.isJoined && !m.isRetrying && m.agentInvited && !m.agentJoined && !m.agentIsSpeaking
    ensures m.pendingLeaves == 0
    ensures m.calls == [Join, PostJoinAgent(InviteBody("room-1", "token", InvitePipelineType, InvitePersonality, None))]
  {
    m := new Meeting("room-1", "token", "Tutor", map[]);
    m.FireJoinTimer(JoinReturned);
    m.OnMeetingJoined();
    m.RunInviteEffect();
    m.CompleteInvite(InviteOk);
  }

  /**
   * Join, invite (accepted), the agent arrives, the user disconnects, the removal
   * endpoint answers "not_found": the meeting is still ended exactly once, and the
   * SDK's left callback notifies the parent.
   */
  method NotFoundStillEnds() returns (log: seq<Call>, joined: bool)
    ensures log == [Join, PostJoinAgent(InviteBody("room-1", "token", InvitePipelineType, InvitePersonality, None)),
                    PostLeaveAgent("room-1"), End, OnDisconnect]
    ensures !joined
  {
    var m := JoinedWithInvitedAgent();
    m.OnParticipantJoined(Participant("agent-1", Some("Haley-Agent")));
    assert m.Status() == "listening...";
    m.HandleDisconnect();
    m.CompleteLeaveAgent(LeaveOkStatus("not_found"));
    m.OnMeetingLeft();
    log, joined := m.calls, m.isJoined;
  }

  /**
   * The same path when the removal endpoint answers "success": neither `end()` nor
   * `leave()` is called, so the meeting stays joined.
   */
  method SuccessStatusKeepsMeeting() returns (log: seq<Call>, joined: bool)
    ensures log == [Join, PostJoinAgent(InviteBody("room-1", "token", InvitePipelineType, InvitePersonality, None)),
                    PostLeaveAgent("room-1")]
    ensures joined
  {
    var m := JoinedWithInvitedAgent();
    m.HandleDisconnect();
    m.CompleteLeaveAgent(LeaveOkStatus("success"));
    log, joined := m.calls, m.isJoined;
  }

  /** A join whose invite fails, followed by a leave: the guards are reset and the parent is notified. */
  method FailedInviteThenLeave() returns (m: Meeting)
    ensures fresh(m) && m.Valid()
    ensures m.meetingId == "room-1" && m.token == "token" && m.personality == "Tutor" && m.prompts == map[]
    ensures !m.isJoined && !m.isRetrying && !m.joinAttempted && !m.agentInvited && !m.agentInviteAttempted
    ensures m.pendingInvites == 0
    ensures m.calls == [Join, PostJoinAgent(InviteBody("room-1", "token", InvitePipelineType, InvitePersonality, None)),
                        OnDisconnect]
  {
    m := new Meeting("room-1", "token", "Tutor", map[]);
    m.FireJoinTimer(JoinReturned);
    m.OnMeetingJoined();
    m.RunInviteEffect();
    m.CompleteInvite(InviteNotOk);
    m.OnMeetingLeft();
  }

  /**
   * A failed invite is not sent again while the user stays joined: the invite effect
   * re-runs only when `isJoined` changes. After a leave (which notifies the parent) and
   * a rejoin, the effect invites again, and the accepted second invite sets
   * `agentInvited`. The rejoin applies to the screen used on its own: mounted by the
   * app shell, the leave's `onDisconnect` clears the meeting id and unmounts the
   * screen. Here the join effect re-runs (one of its dependencies changes) and its
   * timer joins again.
   */
  method FailedInviteRetriedOnRejoin() returns (log: seq<Call>, invited: bool)
    ensures log == [Join, PostJoinAgent(InviteBody("room-1", "token", InvitePipelineType, InvitePersonality, None)),
                    OnDisconnect,
                    Join, PostJoinAgent(InviteBody("room-1", "token", InvitePipelineType, InvitePersonality, None))]
    ensures invited
  {
    var m := FailedInviteThenLeave();
    m.RunInviteEffect();
    m.RunJoinEffect();
    m.FireJoinTimer(JoinReturned);
    m.OnMeetingJoined();
    m.RunInviteEffect();
    m.CompleteInvite(InviteOk);
    log, invited := m.calls, m.agentInvited;
  }

  /**
   * The mic-stream effect (after the cleanup of its mount run) and then the
   * stream-enabled callback both start the analysis. The ref then names only the
   * second loop, so disabling the stream leaves the first loop queued, and that loop
   * keeps queueing frames with no analyser attached. It runs until the mic effect's
   * next cleanup (removing the stream re-runs that effect), which cancels whichever
   * frame the ref names at that moment.
   */
  method DoubleSetupLeavesLoop() returns (queued: set<nat>, later: set<nat>, analysing: bool)
    ensures queued == {1} && later == {3} && !analysing
  {
    var m := new Meeting("room-1", "token", "Tutor", map[]);
    m.RunMicStreamEffect(false, true, Silence(), 1);
    m.RunMicStreamEffect(true, true, Silence(), 1);
    m.OnStreamEnabled(true, true, Silence(), 2);
    m.OnStreamDisabled(true);
    queued := m.scheduledFrames;
    m.FireFrame(1, Silence(), 3);
    later, analysing := m.scheduledFrames, m.analyserSet;
  }
}
