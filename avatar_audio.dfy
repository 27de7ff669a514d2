/**
 * The audio-level effect both avatars run on a participant's mic stream: it builds an
 * analyser, samples it on every animation frame into `audioLevel` and
 * `isActiveSpeaker`, and its cleanup cancels the pending frame and closes the audio
 * context. The two avatars differ only in the cleanup: the blue orb closes the
 * context only when it is not already closed, the fluid avatar closes it
 * unconditionally.
 *
 * React runs an effect's cleanup before running the effect again and on unmount;
 * `RunEffect` and `Unmount` model exactly that.
 */
module AvatarAudio {
  import opened AudioLevel

  /** The state of the audio context the current effect run created. */
  datatype ContextState = NoContext | Running | Closed

  /** Calls into the browser that the cleanup makes. */
  datatype AudioCall = CancelFrame(handle: nat) | CloseContext

  class LevelEffect {
    /** True for the blue orb, whose cleanup checks the context's state before closing it. */
    const closesOnlyIfOpen: bool

    var audioLevel: real
    var isActiveSpeaker: bool
    /** `analyserRef.current !== null`, and `animationFrameRef.current` (0 when unset). */
    var analyserSet: bool
    var frameRef: nat
    /** Frame callbacks queued and not cancelled. */
    var scheduled: set<nat>
    var context: ContextState
    /** Whether the last effect run returned a cleanup function. */
    var cleanupRegistered: bool
    var calls: seq<AudioCall>

    /**
     * The level stays in [0, 1], the speaker flag is the threshold test of the level,
     * at most the frame the ref names is queued, and a queued frame or a running
     * context always has a cleanup that will stop it.
     */
    ghost predicate Valid()
      reads this
    {
      && 0.0 <= audioLevel <= 1.0
      && isActiveSpeaker == IsSpeaking(audioLevel)
      && scheduled <= {frameRef}
      && 0 !in scheduled
      && (scheduled != {} || context == Running ==> cleanupRegistered)
      && (cleanupRegistered ==> context == Running)
    }

    /** The blue-gradient orb. */
    constructor Blue()
      ensures Valid() && closesOnlyIfOpen
      ensures audioLevel == 0.0 && !isActiveSpeaker && !analyserSet && frameRef == 0
      ensures scheduled == {} && context == NoContext && !cleanupRegistered && calls == []
    {
      closesOnlyIfOpen := true;
      audioLevel, isActiveSpeaker, analyserSet, frameRef := 0.0, false, false, 0;
      scheduled, context, cleanupRegistered, calls := {}, NoContext, false, [];
    }

    /** The animated fluid avatar. */
    constructor Fluid()
      ensures Valid() && !closesOnlyIfOpen
      ensures audioLevel == 0.0 && !isActiveSpeaker && !analyserSet && frameRef == 0
      ensures scheduled == {} && context == NoContext && !cleanupRegistered && calls == []
    {
      closesOnlyIfOpen := false;
      audioLevel, isActiveSpeaker, analyserSet, frameRef := 0.0, false, false, 0;
      scheduled, context, cleanupRegistered, calls := {}, NoContext, false, [];
    }

    /** One run of `updateAudioLevel`: samples while the analyser is attached, and always queues the next frame. */
    method UpdateAudioLevel(bins: Spectrum, next: nat)
      requires Valid() && next > 0 && cleanupRegistered && scheduled == {}
      modifies this`audioLevel, this`isActiveSpeaker, this`scheduled, this`frameRef
      ensures Valid()
      ensures audioLevel == (if analyserSet then Level(bins) else old(audioLevel))
      ensures isActiveSpeaker == IsSpeaking(audioLevel)
      ensures scheduled == {next} && frameRef == next
    {
      if analyserSet {
        audioLevel := Level(bins);
        isActiveSpeaker := audioLevel > SpeakingThreshold;
      }
      scheduled := {next};
      frameRef := next;
    }

    /** The browser runs queued frame `handle`, whose callback queues frame `next`. */
    method FireFrame(handle: nat, bins: Spectrum, next: nat)
      requires Valid() && handle in scheduled && next > 0
      modifies this`audioLevel, this`isActiveSpeaker, this`scheduled, this`frameRef
      ensures Valid()
      ensures audioLevel == (if analyserSet then Level(bins) else old(audioLevel))
      ensures scheduled == {next} && frameRef == next
    {
      scheduled := scheduled - {handle};
      UpdateAudioLevel(bins, next);
    }

    /** What the cleanup calls: cancel the frame the ref names (if set), then close the context (blue: only if not closed). */
    function TeardownCalls(frameRef: nat, context: ContextState): (cs: seq<AudioCall>)
      ensures CloseContext in cs <==> !closesOnlyIfOpen || context != Closed
      ensures frameRef != 0 <==> CancelFrame(frameRef) in cs
      ensures |cs| <= 2
    {
      (if frameRef != 0 then [CancelFrame(frameRef)] else [])
      + (if !closesOnlyIfOpen || context != Closed then [CloseContext] else [])
    }

    /** The effect's cleanup: cancels the frame the ref names, then closes the context (blue: only if not closed). */
    method Teardown()
      requires Valid() && cleanupRegistered
      modifies this`scheduled, this`context, this`cleanupRegistered, this`calls
      ensures Valid()
      ensures scheduled == {} && context == Closed && !cleanupRegistered
      ensures calls == old(calls) + TeardownCalls(frameRef, old(context))
    {
      if frameRef != 0 {
        calls := calls + [CancelFrame(frameRef)];
        scheduled := scheduled - {frameRef};
      }
      if !closesOnlyIfOpen || context != Closed {
        calls := calls + [CloseContext];
        context := Closed;
      }
      cleanupRegistered := false;
    }

    /**
     * One run of the effect after the previous run's cleanup. Without a participant id
     * or a mic stream the level and flag are reset and nothing starts; without an
     * AudioContext class nothing starts; otherwise a fresh context and analyser are
     * built and the first sample is taken at once.
     */
    method RunEffect(hasParticipantId: bool, hasMicStream: bool, contextClassAvailable: bool,
                     bins: Spectrum, handle: nat)
      requires Valid() && handle > 0
      modifies this`audioLevel, this`isActiveSpeaker, this`analyserSet, this`frameRef, this`scheduled,
               this`context, this`cleanupRegistered, this`calls
      ensures Valid()
      ensures calls == old(calls) + if old(cleanupRegistered) then TeardownCalls(old(frameRef), old(context)) else []
      ensures !hasParticipantId || !hasMicStream ==>
                audioLevel == 0.0 && !isActiveSpeaker && scheduled == {} && !cleanupRegistered
      ensures hasParticipantId && hasMicStream && !contextClassAvailable ==>
                audioLevel == old(audioLevel) && isActiveSpeaker == old(isActiveSpeaker)
                && scheduled == {} && !cleanupRegistered
      ensures !hasParticipantId || !hasMicStream || !contextClassAvailable ==>
                && frameRef == old(frameRef) && analyserSet == old(analyserSet)
                && context == (if old(cleanupRegistered) then Closed else old(context))
      ensures hasParticipantId && hasMicStream && contextClassAvailable ==>
                && analyserSet && context == Running && cleanupRegistered
                && audioLevel == Level(bins) && scheduled == {handle} && frameRef == handle
    {
      if cleanupRegistered {
        Teardown();
      }
      if !hasParticipantId || !hasMicStream {
        audioLevel := 0.0;
        isActiveSpeaker := false;
        return;
      }
      if !contextClassAvailable {
        return;
      }
      context := Running;
      analyserSet := true;
      cleanupRegistered := true;
      UpdateAudioLevel(bins, handle);
    }

    /** Unmounting runs the last cleanup, if any: no frame stays queued and no context stays open. */
    method Unmount()
      requires Valid()
      modifies this`scheduled, this`context, this`cleanupRegistered, this`calls
      ensures Valid()
      ensures scheduled == {} && context != Running && !cleanupRegistered
      ensures calls == old(calls) + if old(cleanupRegistered) then TeardownCalls(frameRef, old(context)) else []
    {
      if cleanupRegistered {
        Teardown();
      }
    }
  }

  /** Start sampling, run two frames, then unmount: the loop is cancelled and the context closed exactly once. */
  method SampleThenUnmount(bins: Spectrum) returns (queued: set<nat>, log: seq<AudioCall>, speaking: bool)
    ensures queued == {}
    ensures log == [CancelFrame(3), CloseContext]
    ensures speaking == IsSpeaking(Level(bins))
  {
    var e := new LevelEffect.Blue();
    e.RunEffect(true, true, true, bins, 1);
    e.FireFrame(1, bins, 2);
    e.FireFrame(2, bins, 3);
    speaking := e.isActiveSpeaker;
    e.Unmount();
    queued, log := e.scheduled, e.calls;
  }

  /** The mic stream goes away: the effect re-runs, its cleanup stops the loop, and the level drops to 0. */
  method StreamRemovedStopsLoop(bins: Spectrum) returns (queued: set<nat>, level: real, log: seq<AudioCall>)
    ensures queued == {} && level == 0.0
    ensures log == [CancelFrame(1), CloseContext]
  {
    var e := new LevelEffect.Fluid();
    e.RunEffect(true, true, true, bins, 1);
    e.RunEffect(true, false, true, bins, 2);
    queued, level, log := e.scheduled, e.audioLevel, e.calls;
  }
}
