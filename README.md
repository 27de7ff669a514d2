# Voice-agent meeting app: a Dafny model

The Dafny model covers the voice-agent meeting app's client and its agent server.

On the client side the model covers:
- `AgentMeeting`: the shell that creates a VideoSDK room and then shows the meeting screen.
- `MeetingInterface`: the meeting screen. It handles the join and retry procedure for "Insufficient resources" capacity errors and the automatic agent invite. It also covers disconnecting through the agent-removal endpoint, tracking the agent participant by display name, the status line, and sampling the agent's audio level.
- The two avatars, `BlueGradientAvatar` and `AnimatedFluidAvatar`: they sample a mic stream's spectrum into an audio level and a speaking flag, and draw scales from them.

On the server side (`server.py`) it covers:
- the request validation of `get_pipeline`;
- the agent configuration rules;
- the conversation flow's transcript normalization and turn flag;
- the `active_sessions` table that `join_agent`, `server_operations` and `leave_agent` share.

Modules:
- `Wrappers`: `Option` and `Result`.
- `Text`: JavaScript's `includes`, and Python's `lower` and `strip`.
- `AudioLevel`: the level computed from one frame of analyser bytes.
- `MeetingInterface`, `AgentMeeting`, `AvatarAudio`, `BlueGradientAvatar`, `AnimatedFluidAvatar` and `Server`.
- `Integration`: the screen's agent invite as `server.py` receives it, when the join-agent endpoint is that server.

Components that hold state are classes:
- The classes are `Meeting`, `Shell`, `LevelEffect`, `ConversationFlow` and `SessionTable`.
- React state and refs are fields, and the event handlers are methods with field-level `modifies` frames.
- Each pending `setTimeout`, `requestAnimationFrame` or outstanding `fetch` is a counter or set. A `Fire…` or `Complete…` method consumes it, and the environment passes in how the call settled.
- Calls into the SDK and the HTTP endpoints are added to a `calls` log.
- Top-level scenario methods run whole sequences of handlers and state the resulting log and state exactly.

The pure parts are functions with lemmas:
- the status line;
- the agent-name test;
- the level and speaking threshold;
- the display scales;
- pipeline validation;
- the transcript normalization.

Three behaviours of the code that the model states outright:
- `onError` at three attempts shows the overload message and schedules nothing. The terminal "Maximum retry attempts reached" message appears only when `handleRetryConnection` itself runs at the maximum (`MeetingInterface.OverloadRetriesRunOut`).
- `server.py` answers "success" when it finds the session. (The screen itself posts its leave-agent request to the fixed host `https://aiendpoint.tryvideosdk.live/leave-agent`, not to the configured API URL; the statement is about that endpoint answering as `server.py` does.) The screen ends the meeting only for "removed" and "not_found", so on "success" it neither ends nor leaves (`MeetingInterface.SuccessStatusKeepsMeeting`).
- The screen posts the fixed pipeline type "gemini-live-2.5-flash-preview", which `get_pipeline` in `server.py` does not accept. Against that server the invite is refused when the personality has no prompt and acknowledged otherwise; either way no agent starts (`Integration.ClientInviteNeverStartsAgent`).

## Model

| member | source | states |
|---|---|---|
| Text.ContainsIffOccurs | client/src/components/agent-meeting/MeetingInterface.tsx:66-69 | `includes` holds exactly when the pattern occurs at some index of the string |
| Text.StripSlice | server.py:94 | `strip` keeps exactly the slice between the leading and the trailing whitespace |
| Text.StripIsTrimmedSlice | server.py:94 | `strip` keeps a contiguous slice, cuts only whitespace at either end, and leaves no whitespace at its ends |
| Text.LowerStripCommute | server.py:94 | lower-casing and stripping can be applied in either order |
| Text.StripIdempotent | server.py:94 | stripping twice is stripping once |
| Text.LowerIdempotent | server.py:94 | lower-casing twice is lower-casing once |
| AudioLevel.SumBounds | client/src/components/agent-meeting/MeetingInterface.tsx:142-144 | the byte sum of a frame lies between 0 and 255 per bin |
| AudioLevel.Level | client/src/components/agent-meeting/MeetingInterface.tsx:142-147 | the normalized level of a non-empty frame lies in [0, 1] |
| AudioLevel.LevelValue | client/src/components/agent-meeting/BlueGradientAvatar.tsx:57-60 | below saturation the level is sum/(128·bins); it is 1 exactly when the average reaches 128 |
| AudioLevel.SpeakingIffSumAbove | client/src/components/agent-meeting/BlueGradientAvatar.tsx:60-63 | the speaking flag (level > 0.1) holds exactly when 10·sum > 128·bins |
| AudioLevel.SilenceIsNotSpeaking | client/src/components/agent-meeting/MeetingInterface.tsx:142-148 | an all-zero frame has level 0 and is not speaking |
| MeetingInterface.AgentNameIffSubstring | client/src/components/agent-meeting/MeetingInterface.tsx:64-83 | a participant counts as the agent exactly when its name contains "Agent" or "Haley"; one without a name never does |
| MeetingInterface.AgentNameExamples | client/src/components/agent-meeting/MeetingInterface.tsx:64-72 | "Haley-Agent" is recognized; "User" and a missing name are not |
| MeetingInterface.IsOverload | client/src/components/agent-meeting/MeetingInterface.tsx:87 | an error is a capacity error exactly when its message contains "Insufficient resources" at some index; a missing message never is |
| MeetingInterface.CapacityErrorExample | client/src/components/agent-meeting/MeetingInterface.tsx:87 | a message containing "Insufficient resources" ("Insufficient resources to join") is a capacity error |
| MeetingInterface.ErrorText | client/src/components/agent-meeting/MeetingInterface.tsx:99 | a missing or empty message falls back to "Connection failed"; any other message is shown as is |
| MeetingInterface.EndsMeetingExactly | client/src/components/agent-meeting/MeetingInterface.tsx:243-295 | only an ok response with a status other than "removed" and "not_found" skips `end()`; "success" is such a status |
| MeetingInterface.StatusText | client/src/components/agent-meeting/MeetingInterface.tsx:376-387 | each of the four status texts appears exactly under its condition, and the text is never empty |
| MeetingInterface.StatusFromSpectrum | client/src/components/agent-meeting/MeetingInterface.tsx:139-150 | with the agent present, the status is "speaking..." exactly when the sampled frame's sum passes the threshold, else "listening..." |
| Integration.ClientInviteNeverStartsAgent | client/src/components/agent-meeting/MeetingInterface.tsx:319-340 | for every meeting, token and personality, the invite body is refused by `server.py` without a prompt for the personality, and otherwise its pipeline type is rejected by `get_pipeline` |
| MeetingInterface.Meeting.Status | client/src/components/agent-meeting/MeetingInterface.tsx:376-387 | the screen shows "connecting..." exactly while not joined, retrying, or invited with no agent present |
| MeetingInterface.Meeting.constructor | client/src/components/agent-meeting/MeetingInterface.tsx:27-45 | the initial state: nothing joined or invited, mic on, the 2000 ms join timer scheduled |
| MeetingInterface.Meeting.OnMeetingJoined | client/src/components/agent-meeting/MeetingInterface.tsx:47-54 | joining clears the error, the counter and the retry flag, and sets the join guard |
| MeetingInterface.Meeting.OnMeetingLeft | client/src/components/agent-meeting/MeetingInterface.tsx:55-63 | leaving resets the counter and both guards and notifies the parent once |
| MeetingInterface.Meeting.OnParticipantJoined | client/src/components/agent-meeting/MeetingInterface.tsx:64-73 | an agent-named participant becomes the tracked agent; others change nothing |
| MeetingInterface.Meeting.OnParticipantLeft | client/src/components/agent-meeting/MeetingInterface.tsx:74-83 | an agent-named participant leaving clears the tracked agent; others change nothing |
| MeetingInterface.Meeting.OnError | client/src/components/agent-meeting/MeetingInterface.tsx:84-101 | a capacity error shows the overload message and schedules one retry exactly when below three attempts and not retrying; other errors show their text |
| MeetingInterface.Meeting.RunJoinEffect | client/src/components/agent-meeting/MeetingInterface.tsx:216-234 | the 2000 ms join timer is pending exactly when no join was attempted and no retry runs |
| MeetingInterface.Meeting.FireJoinTimer | client/src/components/agent-meeting/MeetingInterface.tsx:219-231 | joins only when not joined and not attempted; a throwing join shows "Failed to join meeting" and leaves the guard unset |
| MeetingInterface.Meeting.HandleRetryConnection | client/src/components/agent-meeting/MeetingInterface.tsx:187-214 | at the maximum it stops retrying with the terminal message; below it, it counts an attempt, clears the error and guard and schedules the re-join |
| MeetingInterface.Meeting.FireRetryTimer | client/src/components/agent-meeting/MeetingInterface.tsx:93-96 | the 5000 ms timer runs the retry procedure once |
| MeetingInterface.Meeting.FireRejoinTimer | client/src/components/agent-meeting/MeetingInterface.tsx:203-212 | the re-join joins only when not joined and not attempted, then ends the retry; a throwing join leaves the retry flag set |
| MeetingInterface.Meeting.HandleManualRetry | client/src/components/agent-meeting/MeetingInterface.tsx:310-317 | ignored while retrying; otherwise the counter restarts and one attempt is counted |
| MeetingInterface.Meeting.HandleToggleMic | client/src/components/agent-meeting/MeetingInterface.tsx:236-241 | the mic toggles, and the SDK is called, only while joined |
| MeetingInterface.Meeting.InviteAgent | client/src/components/agent-meeting/MeetingInterface.tsx:319-340 | posts the invite body once |
| MeetingInterface.Meeting.RunInviteEffect | client/src/components/agent-meeting/MeetingInterface.tsx:179-185 | invites once per join: only when joined, not invited and not yet attempted, setting the guard |
| MeetingInterface.Meeting.HandleInviteAgent | client/src/components/agent-meeting/MeetingInterface.tsx:351-355 | invites when joined and not invited, without the guard |
| MeetingInterface.Meeting.CompleteInvite | client/src/components/agent-meeting/MeetingInterface.tsx:341-349 | only an ok response sets `agentInvited`; a failure re-arms the guard |
| MeetingInterface.Meeting.HandleDisconnect | client/src/components/agent-meeting/MeetingInterface.tsx:297-308 | with an invited agent it asks the removal endpoint, otherwise it leaves directly |
| MeetingInterface.Meeting.CompleteLeaveAgent | client/src/components/agent-meeting/MeetingInterface.tsx:243-295 | `end()` is called once exactly for the outcomes that end the meeting, and nothing else |
| MeetingInterface.Meeting.UpdateAudioLevel | client/src/components/agent-meeting/MeetingInterface.tsx:139-150 | while the analyser is attached the speaking flag is the threshold test of the sampled level; the next frame is always queued |
| MeetingInterface.Meeting.SetupAudioAnalysis | client/src/components/agent-meeting/MeetingInterface.tsx:122-156 | without an AudioContext nothing changes; otherwise the analyser is attached and the first sample taken |
| MeetingInterface.Meeting.FireFrame | client/src/components/agent-meeting/MeetingInterface.tsx:149 | a queued frame runs one sample and queues the next |
| MeetingInterface.Meeting.CleanupAudioAnalysis | client/src/components/agent-meeting/MeetingInterface.tsx:158-164 | cancels only the frame the ref names, clears the flag and detaches the analyser |
| MeetingInterface.Meeting.OnStreamEnabled | client/src/components/agent-meeting/MeetingInterface.tsx:106-113 | an audio stream starts the analysis |
| MeetingInterface.Meeting.OnStreamDisabled | client/src/components/agent-meeting/MeetingInterface.tsx:114-119 | an audio stream stops the analysis |
| MeetingInterface.Meeting.RunMicStreamEffect | client/src/components/agent-meeting/MeetingInterface.tsx:166-177 | the previous run's cleanup runs first; then a present stream starts the analysis and a missing one cleans up |
| MeetingInterface.Silence | client/src/components/agent-meeting/MeetingInterface.tsx:142-148 | the silent frame is not speaking |
| MeetingInterface.OverloadRetriesRunOut | client/src/components/agent-meeting/MeetingInterface.tsx:84-101 | three capacity errors use up the retries with four joins in all; a fourth only shows the overload message, and the Retry button stays hidden |
| MeetingInterface.PlainErrorOffersRetry | client/src/components/agent-meeting/MeetingInterface.tsx:310-317 | an error without a message shows "Connection failed" and the Retry button; the button's retry counts one attempt and joins again |
| MeetingInterface.NotFoundStillEnds | client/src/components/agent-meeting/MeetingInterface.tsx:243-308 | a "not_found" removal still ends the meeting exactly once, then the parent is notified |
| MeetingInterface.SuccessStatusKeepsMeeting | client/src/components/agent-meeting/MeetingInterface.tsx:260-277 | a "success" removal neither ends nor leaves, so the meeting stays joined |
| MeetingInterface.FailedInviteThenLeave | client/src/components/agent-meeting/MeetingInterface.tsx:55-63 | after a join, a failed invite and a leave, both guards are unset, nothing is invited, and the log holds the join, the invite and one `onDisconnect` |
| MeetingInterface.FailedInviteRetriedOnRejoin | client/src/components/agent-meeting/MeetingInterface.tsx:179-185 | a failed invite is not repeated while the user stays joined; after a leave and a rejoin through the join timer the invite effect posts it again, and the accepted second invite sets `agentInvited`. The rejoin is possible only for the screen used on its own: in the app shell the leave unmounts it |
| MeetingInterface.DoubleSetupLeavesLoop | client/src/components/agent-meeting/MeetingInterface.tsx:106-177 | when the mic effect and then the stream callback both start the analysis, disabling the stream leaves the first loop queued, and it keeps queueing frames until the mic effect's next cleanup |
| AgentMeeting.Decimal | client/src/components/AgentMeeting.tsx:51 | a status prints as decimal digits with no leading zero that denote that status |
| AgentMeeting.DecimalInjective | client/src/components/AgentMeeting.tsx:51 | different statuses print differently |
| AgentMeeting.CreateMeeting | client/src/components/AgentMeeting.tsx:23-57 | success yields the room id; a non-ok status yields "API Error: status - text"; a thrown error is passed on |
| AgentMeeting.Shell.constructor | client/src/components/AgentMeeting.tsx:9-11 | the shell starts with no room id, not connecting and not connected |
| AgentMeeting.Shell.Render | client/src/components/AgentMeeting.tsx:79-109 | the meeting screen is shown exactly for a non-empty room id while connected, else the landing container |
| AgentMeeting.Shell.HandleConnect | client/src/components/AgentMeeting.tsx:59-70 | a second click while connecting is ignored; otherwise one room request is made |
| AgentMeeting.Shell.CompleteCreateMeeting | client/src/components/AgentMeeting.tsx:59-70 | success stores the id and connects; failure only resets connecting |
| AgentMeeting.Shell.HandleDisconnect | client/src/components/AgentMeeting.tsx:72-76 | back to the initial state |
| AgentMeeting.ConnectAndDisconnect | client/src/components/AgentMeeting.tsx:59-109 | a double click makes one request; the meeting is shown and afterwards the container |
| AgentMeeting.FailedCreateAllowsRetry | client/src/components/AgentMeeting.tsx:59-70 | after a failed request the container is shown and the next click requests again |
| AvatarAudio.LevelEffect.Blue | client/src/components/agent-meeting/BlueGradientAvatar.tsx:17-20 | the orb starts silent, with no analyser, no frame and no context |
| AvatarAudio.LevelEffect.Fluid | client/src/components/agent-meeting/AnimatedFluidAvatar.tsx:17-20 | the fluid avatar starts silent, with no analyser, no frame and no context |
| AvatarAudio.LevelEffect.UpdateAudioLevel | client/src/components/agent-meeting/BlueGradientAvatar.tsx:55-66 | the level is the sampled level and the flag its threshold test while attached; the next frame is queued |
| AvatarAudio.LevelEffect.FireFrame | client/src/components/agent-meeting/AnimatedFluidAvatar.tsx:65-76 | a queued frame samples once and queues the next |
| AvatarAudio.LevelEffect.TeardownCalls | client/src/components/agent-meeting/BlueGradientAvatar.tsx:70-77 | the cleanup cancels the frame exactly when one is set, and closes the context unless the blue orb sees it closed |
| AvatarAudio.LevelEffect.Teardown | client/src/components/agent-meeting/AnimatedFluidAvatar.tsx:80-85 | after the cleanup no frame is queued and the context is closed |
| AvatarAudio.LevelEffect.RunEffect | client/src/components/agent-meeting/BlueGradientAvatar.tsx:24-78 | cleanup first; then no stream resets to silence, no AudioContext class starts nothing, otherwise the first sample is taken |
| AvatarAudio.LevelEffect.Unmount | client/src/components/agent-meeting/AnimatedFluidAvatar.tsx:80-86 | unmounting leaves no frame queued and no context running |
| AvatarAudio.SampleThenUnmount | client/src/components/agent-meeting/BlueGradientAvatar.tsx:24-78 | after two frames and an unmount only the last frame is cancelled and the context closed once |
| AvatarAudio.StreamRemovedStopsLoop | client/src/components/agent-meeting/AnimatedFluidAvatar.tsx:35-86 | removing the stream cancels the loop, closes the context and drops the level to 0 |
| BlueGradientAvatar.WaveIntensity | client/src/components/agent-meeting/BlueGradientAvatar.tsx:88 | the wave is at most the level and positive only while speaking |
| BlueGradientAvatar.OrbScale | client/src/components/agent-meeting/BlueGradientAvatar.tsx:168 | the orb scales within [1, 1.03] |
| BlueGradientAvatar.RingScale | client/src/components/agent-meeting/BlueGradientAvatar.tsx:110 | the glow rings scale within [1, 1.1] |
| BlueGradientAvatar.WaveFromSpectrum | client/src/components/agent-meeting/BlueGradientAvatar.tsx:57-88 | from a frame the wave is 0 or in (0.1, 1]; it and the orb's growth are positive exactly when the sum passes the threshold |
| AnimatedFluidAvatar.SizePx | client/src/components/agent-meeting/AnimatedFluidAvatar.tsx:26-33 | every avatar is between 80 and 200 pixels, in steps of 40 |
| AnimatedFluidAvatar.SizeOrderPreserved | client/src/components/agent-meeting/AnimatedFluidAvatar.tsx:26-33 | a larger named size is always a larger avatar, and no two sizes share a pixel size |
| AnimatedFluidAvatar.WaveIntensity | client/src/components/agent-meeting/AnimatedFluidAvatar.tsx:88 | the wave lies in [0, 100] and is positive only while speaking |
| AnimatedFluidAvatar.Scale | client/src/components/agent-meeting/AnimatedFluidAvatar.tsx:89 | the layers scale within [1, 1.3] |
| AnimatedFluidAvatar.RingScale | client/src/components/agent-meeting/AnimatedFluidAvatar.tsx:109 | rings 1 to 4 scale within [0.8, 1.3] |
| AnimatedFluidAvatar.WaveFromSpectrum | client/src/components/agent-meeting/AnimatedFluidAvatar.tsx:67-89 | from a frame the wave is 0 or in (10, 100], positive exactly when the sum passes the threshold; the scale reaches 1.3 exactly at saturation |
| Server.SttFor | server.py:136-138 | an STT provider is found exactly for its four keys, and a missing name finds none |
| Server.LlmFor | server.py:140-142 | an LLM provider is found exactly for its three keys |
| Server.TtsFor | server.py:144-146 | a TTS provider is found exactly for its four keys |
| Server.ProviderKeysRoundTrip | server.py:136-146 | each provider is found under its own key |
| Server.ShowNameConflates | server.py:138 | the error message cannot tell a missing provider name from the name "None"; any two other names print differently |
| Server.GetPipeline | server.py:119-157 | only the four pipeline types are accepted, and the others are rejected by name; "openai", "google" and "aws" give the OpenAI, Gemini and Nova Sonic realtime models; for "cascading" the first unknown of STT, LLM, TTS is the error; VAD and turn detection are attached exactly when `detection` is true |
| Server.CascadingAcceptsEveryProviderChoice | server.py:134-155 | every choice of known providers builds the cascading pipeline from exactly those providers |
| Server.MakeAgent | server.py:42-63 | the agent runs on the system prompt and gets one 30-second HTTP MCP server exactly when the URL is non-empty |
| Server.EndCall | server.py:71-85 | with a session the tool says goodbye, waits a second and leaves; without one it does nothing |
| Server.Normalize | server.py:94 | the recorded transcript has no upper-case letter and no whitespace at its ends, and equals the stripped-then-lowered transcript |
| Server.NormalizeIdempotent | server.py:94 | normalizing twice is normalizing once |
| Server.ConversationFlow.constructor | server.py:88-90 | a new flow starts with the turn flag false and works on the agent's chat context as it is handed over |
| Server.ConversationFlow.OnTurnStart | server.py:100-101 | the turn is active |
| Server.ConversationFlow.OnTurnEnd | server.py:103-104 | the turn is over |
| Server.ConversationFlow.Run | server.py:92-98 | exactly one user message with the normalized transcript is added, every LLM chunk is passed on in order, and the turn ends |
| Server.SessionTable.constructor | server.py:38 | the table starts empty, with no task queued or running |
| Server.SessionTable.JoinAgent | server.py:205-210 | only a task is queued, even for a meeting with an entry; the table is unchanged |
| Server.SessionTable.StartServerOperations | server.py:162-203 | a rejected pipeline pops the meeting's entry at once; otherwise the new entry replaces the meeting's entry |
| Server.SessionTable.FinishServerOperations | server.py:200-203 | the finishing task pops its meeting's entry, whichever task stored it |
| Server.SessionTable.LeaveAgent | server.py:212-236 | the meeting's entry is popped and no other key changes; "not_found" exactly without an entry; otherwise the cancel event is set and the answer is "success", or "error" when leaving raises |
| Server.StaleCleanupOrphansNewerAgent | server.py:185-210 | after two starts for one meeting, the first one's cleanup drops the second one's entry, so leaving finds nothing and the second agent is never signalled |
| Server.RejectedRequestDropsLiveEntry | server.py:181-203 | a request with an unknown pipeline type drops the running agent's entry for the same meeting |
| Server.JoinThenLeave | server.py:185-236 | the stored agent is signalled by the leave request and its task then empties the table |
| Integration.ServerRequest | server.py:106-116 | a body without a system prompt is refused; otherwise the request carries the body's fields and the defaults for the rest, with detection on |
| Integration.AcceptedInviteStoresNoSession | server.py:205-210 | the screen's invite with a prompt is acknowledged, stores no session, and a later leave request answers "not_found" |

## Left out

- HTTP, the VideoSDK SDK and the agent framework are not modelled. Their answers are parameters: how `join()`, `fetch` and `session.leave` settle, the frames an analyser returns, and the LLM's chunks.
- React's batched asynchronous `setState` and stale closures are not modelled. State is updated synchronously, so for example `onError` sees the current `retryAttempts` rather than the render-time one.
- Timers and animation frames are queues that the environment fires in any order.
- The Web Audio graph (sources, `fftSize`, smoothing) is not modelled. One frame is a sequence of 128 bytes.
- `Date.now()` and `Math.random()` overlays, JSX, styling, shadows, the blue orb's size classes, and the buttons are not modelled.
- The contents of `PROMPTS` are not part of this model; the personality's prompt table is a parameter.
- Text handling covers ASCII only. `Text.Lower` lower-cases only A–Z, and `Text.Strip` removes only the ASCII characters `str.isspace` accepts (9–13, 28–32). Python also lower-cases and strips non-ASCII characters.
- JavaScript numbers are modelled as exact `real`s. The level and the 0.1 threshold compare exactly as in doubles, since the level is a multiple of 1/16384. The scale expressions (`BlueGradientAvatar.OrbScale`, `BlueGradientAvatar.RingScale`, `AnimatedFluidAvatar.Scale`, `AnimatedFluidAvatar.RingScale`) leave out floating-point rounding.
- The timer delays (2000 ms initial join, 5000 ms retry, 1000 ms re-join) are not modelled; a pending timer fires whenever the environment chooses.
- The room-creation request's body (auto-close on session end, 300 seconds) and its authorization header are not modelled.
- Server.SessionTable.StartServerOperations: does not model the asyncio race between `session.start()` and the cancel event, or exceptions from the agent and session constructors. Any way the task ends is `FinishServerOperations`.
- Server.ConversationFlow.Run: does not model a consumer that stops iterating early.
- Server.ConversationFlow.constructor: the agent's initial chat context (built by the SDK's `Agent` from its instructions) and the initial `is_turn_active` of the SDK's base class are not part of this model; the context is a constructor parameter and the flag is taken to start false.
- Server.GetPipeline: the provider constructors and the API keys they read from the environment are opaque tokens. The model names do not appear.
- `on_enter` and `on_exit` only say fixed greetings and are not modelled.
- FastAPI routing and CORS, uvicorn, `pre_download_model`, `load_dotenv` and logging are not modelled.
- MeetingInterface.Meeting.HandleDisconnect: exceptions thrown by the SDK's `end()` and `leave()` are not modelled.
