/**
 * The top-level connect/disconnect shell: it creates a room through the rooms
 * endpoint, then renders the meeting screen for that room until the screen reports
 * that the meeting was left.
 */
module AgentMeeting {
  import opened Wrappers

  /** How the room-creation `fetch` settled: created with an id, a non-ok status with its text, or a throw. */
  datatype RoomOutcome = RoomCreated(roomId: string) | RoomNotOk(status: nat, text: string) | RoomFetchThrew(reason: string)

  /** What the shell renders. */
  datatype View = MeetingView(meetingId: string) | ContainerView(isConnecting: bool)

  /** The number a string of decimal digits denotes. */
  function DigitsValue(s: string): nat
    requires forall i :: 0 <= i < |s| ==> '0' <= s[i] <= '9'
  {
    if s == [] then 0 else DigitsValue(s[..|s| - 1]) * 10 + (s[|s| - 1] as int - '0' as int)
  }

  /** `${n}`: the decimal digits of `n`, with no leading zero, that denote `n`. */
  function Decimal(n: nat): (s: string)
    ensures |s| > 0
    ensures forall i :: 0 <= i < |s| ==> '0' <= s[i] <= '9'
    ensures DigitsValue(s) == n
    ensures s[0] == '0' ==> n == 0
    decreases n
  {
    var d := ['0' + (n % 10) as char];
    if n < 10 then d
    else
      var prefix := Decimal(n / 10);
      assert (prefix + d)[..|prefix + d| - 1] == prefix;
      prefix + d
  }

  /** Different statuses print differently, so the error message names the status. */
  lemma DecimalInjective(m: nat, n: nat)
    ensures Decimal(m) == Decimal(n) ==> m == n
  {
  }

  /** `createMeeting`: the room id, or the error it throws (a throw from `fetch` itself is rethrown unchanged). */
  function CreateMeeting(outcome: RoomOutcome): (r: Result<string>)
    ensures r.Ok? <==> outcome.RoomCreated?
    ensures outcome.RoomCreated? ==> r.value == outcome.roomId
    ensures outcome.RoomNotOk? ==> r.message == "API Error: " + Decimal(outcome.status) + " - " + outcome.text
    ensures outcome.RoomFetchThrew? ==> r.message == outcome.reason
  {
    match outcome
    case RoomCreated(id) => Ok(id)
    case RoomNotOk(status, text) => Err("API Error: " + Decimal(status) + " - " + text)
    case RoomFetchThrew(reason) => Err(reason)
  }

  class Shell {
    var meetingId: Option<string>
    var isConnecting: bool
    var isConnected: bool
    /** Room-creation requests still outstanding. */
    var pendingCreates: nat

    /** Connected implies a room id was stored. */
    ghost predicate Valid()
      reads this
    {
      isConnected ==> meetingId.Some?
    }

    constructor ()
      ensures Valid()
      ensures meetingId.None? && !isConnecting && !isConnected && pendingCreates == 0
    {
      meetingId, isConnecting, isConnected, pendingCreates := None, false, false, 0;
    }

    /** The render choice: the meeting screen for a non-empty room id while connected, else the landing container. */
    function Render(): (v: View)
      reads this
      ensures v.MeetingView? <==> meetingId.Some? && meetingId.value != "" && isConnected
      ensures v.MeetingView? ==> Some(v.meetingId) == meetingId
      ensures v.ContainerView? ==> v.isConnecting == isConnecting
    {
      if meetingId.Some? && meetingId.value != "" && isConnected then MeetingView(meetingId.value)
      else ContainerView(isConnecting)
    }

    /** `handleConnect` up to its `await`: a no-op while connecting, otherwise marks connecting and requests a room. */
    method HandleConnect()
      requires Valid()
      modifies this`isConnecting, this`pendingCreates
      ensures Valid()
      ensures old(isConnecting) ==> isConnecting && pendingCreates == old(pendingCreates)
      ensures !old(isConnecting) ==> isConnecting && pendingCreates == old(pendingCreates) + 1
    {
      if isConnecting {
        return;
      }
      isConnecting := true;
      pendingCreates := pendingCreates + 1;
    }

    /**
     * The room request settles: on success the room id is stored and the shell is
     * connected (still marked connecting); on failure connecting is reset and nothing
     * else changes.
     */
    method CompleteCreateMeeting(outcome: RoomOutcome)
      requires Valid() && pendingCreates > 0
      modifies this`meetingId, this`isConnecting, this`isConnected, this`pendingCreates
      ensures Valid()
      ensures pendingCreates == old(pendingCreates) - 1
      ensures CreateMeeting(outcome).Ok? ==>
                meetingId == Some(CreateMeeting(outcome).value) && isConnected && isConnecting == old(isConnecting)
      ensures CreateMeeting(outcome).Err? ==>
                meetingId == old(meetingId) && isConnected == old(isConnected) && !isConnecting
    {
      pendingCreates := pendingCreates - 1;
      var r := CreateMeeting(outcome);
      if r.Ok? {
        meetingId := Some(r.value);
        isConnected := true;
      } else {
        isConnecting := false;
      }
    }

    /** `handleDisconnect`, the meeting screen's `onDisconnect`: back to the initial state. */
    method HandleDisconnect()
      requires Valid()
      modifies this`meetingId, this`isConnecting, this`isConnected
      ensures Valid()
      ensures !isConnected && !isConnecting && meetingId.None?
    {
      isConnected := false;
      isConnecting := false;
      meetingId := None;
    }
  }

  /** Connect, a second click while connecting, the room is created, then the meeting is left. */
  method ConnectAndDisconnect() returns (requests: nat, during: View, after: View)
    ensures requests == 1
    ensures during == MeetingView("room-9")
    ensures after == ContainerView(false)
  {
    var shell := new Shell();
    shell.HandleConnect();
    shell.HandleConnect();
    requests := shell.pendingCreates;
    shell.CompleteCreateMeeting(RoomCreated("room-9"));
    during := shell.Render();
    shell.HandleDisconnect();
    after := shell.Render();
  }

  /** A failed room request leaves the landing container, ready for another click. */
  method FailedCreateAllowsRetry() returns (view: View, retried: nat)
    ensures view == ContainerView(false)
    ensures retried == 1
  {
    var shell := new Shell();
    shell.HandleConnect();
    shell.CompleteCreateMeeting(RoomNotOk(401, "unauthorized"));
    view := shell.Render();
    shell.HandleConnect();
    retried := shell.pendingCreates;
  }
}
