/**
 * The room provider (frontend/components/provider.tsx): one effect, re-run whenever the
 * connection details change, that connects a disconnected room with a buffered microphone
 * and attaches the room's error handlers; its cleanup detaches them and disconnects.
 * Unlike the page shell, a failed connection always shows a toast, even after cleanup.
 */
module RoomProvider {
  import opened Common

  /** The effect's guard: a disconnected room and details at hand. */
  predicate ShouldConnect(room: RoomState, details: Option<ConnectionDetails>) {
    room == RoomDisconnected && details.Some?
  }

  class Provider {
    var room: RoomState
    var details: Option<ConnectionDetails>
    var mounted: bool
    /** The handlers of the live effect run are attached. */
    var handlersAttached: bool
    /** The `preConnectBuffer` option of every microphone request. */
    var micRequests: seq<bool>
    /** Every `room.connect` call, with the details it used. */
    var connectRequests: seq<ConnectionDetails>
    /** Connection attempts whose combined promise is still open. */
    var openAttempts: nat
    var disconnectRequests: nat
    var toasts: seq<Toast>
    var warnings: seq<ErrorInfo>

    /**
     * The handlers are attached exactly while mounted; every attempt issued a connect and a
     * microphone request, and every microphone request asks for the pre-connect buffer.
     */
    predicate Valid()
      reads this
    {
      && (handlersAttached <==> mounted)
      && (forall i :: 0 <= i < |micRequests| ==> micRequests[i])
      && openAttempts <= |connectRequests|
      && |micRequests| == |connectRequests|
    }

    /** The effect's body: connect if the guard holds, then attach the handlers. */
    method RunEffect()
      requires !handlersAttached && |micRequests| == |connectRequests| && openAttempts <= |connectRequests|
      requires forall i :: 0 <= i < |micRequests| ==> micRequests[i]
      modifies this
      ensures handlersAttached && mounted == old(mounted)
      ensures ShouldConnect(room, details) ==>
        && micRequests == old(micRequests) + [true]
        && connectRequests == old(connectRequests) + [details.value]
        && openAttempts == old(openAttempts) + 1
      ensures !ShouldConnect(room, details) ==>
        micRequests == old(micRequests) && connectRequests == old(connectRequests) && openAttempts == old(openAttempts)
      ensures |micRequests| == |connectRequests| && openAttempts <= |connectRequests|
      ensures forall i :: 0 <= i < |micRequests| ==> micRequests[i]
      ensures room == old(room) && details == old(details) && disconnectRequests == old(disconnectRequests)
      ensures toasts == old(toasts) && warnings == old(warnings)
    {
      if ShouldConnect(room, details) {
        micRequests := micRequests + [true];
        connectRequests := connectRequests + [details.value];
        openAttempts := openAttempts + 1;
      }
      handlersAttached := true;
    }

    /** Mounting runs the effect once. */
    constructor(room: RoomState, details: Option<ConnectionDetails>)
      ensures Valid() && mounted && this.room == room && this.details == details
      ensures ShouldConnect(room, details) ==>
        micRequests == [true] && connectRequests == [details.value] && openAttempts == 1
      ensures !ShouldConnect(room, details) ==> micRequests == [] && connectRequests == [] && openAttempts == 0
      ensures disconnectRequests == 0 && toasts == [] && warnings == []
    {
      this.room := room;
      this.details := details;
      mounted := true;
      handlersAttached := false;
      micRequests := [];
      connectRequests := [];
      openAttempts := 0;
      disconnectRequests := 0;
      toasts := [];
      warnings := [];
      new;
      RunEffect();
    }

    /** New connection details: the effect is cleaned up (disconnect) and runs again. */
    method DetailsChanged(d: Option<ConnectionDetails>)
      requires Valid() && mounted
      modifies this
      ensures Valid() && mounted && details == d
      ensures d == old(details) ==> connectRequests == old(connectRequests) && disconnectRequests == old(disconnectRequests)
      ensures d != old(details) ==> disconnectRequests == old(disconnectRequests) + 1
      ensures d != old(details) && ShouldConnect(room, d) ==> connectRequests == old(connectRequests) + [d.value]
      ensures d != old(details) && !ShouldConnect(room, d) ==> connectRequests == old(connectRequests)
      ensures room == old(room) && toasts == old(toasts) && warnings == old(warnings)
    {
      if d != details {
        handlersAttached := false;
        disconnectRequests := disconnectRequests + 1;
        details := d;
        RunEffect();
      }
    }

    /** The room reports a state change; the effect does not depend on it. */
    method RoomStateChanged(s: RoomState)
      requires Valid()
      modifies this
      ensures Valid() && room == s && details == old(details) && mounted == old(mounted)
      ensures connectRequests == old(connectRequests) && micRequests == old(micRequests)
      ensures openAttempts == old(openAttempts) && disconnectRequests == old(disconnectRequests)
      ensures toasts == old(toasts) && warnings == old(warnings)
    {
      room := s;
    }

    /** An open attempt resolves. */
    method AttemptSucceeded()
      requires Valid() && openAttempts > 0
      modifies this
      ensures Valid() && openAttempts == old(openAttempts) - 1
      ensures room == old(room) && details == old(details) && mounted == old(mounted)
      ensures connectRequests == old(connectRequests) && micRequests == old(micRequests)
      ensures disconnectRequests == old(disconnectRequests) && toasts == old(toasts) && warnings == old(warnings)
    {
      openAttempts := openAttempts - 1;
    }

    /** An open attempt rejects: always a toast, whether or not its run was cleaned up. */
    method AttemptFailed(e: ErrorInfo)
      requires Valid() && openAttempts > 0
      modifies this
      ensures Valid() && openAttempts == old(openAttempts) - 1
      ensures toasts == old(toasts) + [Toast(CONNECT_ERROR_TITLE, Describe(e))]
      ensures room == old(room) && details == old(details) && mounted == old(mounted)
      ensures connectRequests == old(connectRequests) && micRequests == old(micRequests)
      ensures disconnectRequests == old(disconnectRequests) && warnings == old(warnings)
    {
      openAttempts := openAttempts - 1;
      toasts := toasts + [Toast(CONNECT_ERROR_TITLE, Describe(e))];
    }

    /** The room's `mediaDevicesError` event: a toast while the handlers are attached. */
    method MediaDevicesError(e: ErrorInfo)
      requires Valid()
      modifies this
      ensures Valid()
      ensures toasts == old(toasts) + (if handlersAttached then [Toast(MEDIA_ERROR_TITLE, Describe(e))] else [])
      ensures room == old(room) && details == old(details) && mounted == old(mounted)
      ensures connectRequests == old(connectRequests) && micRequests == old(micRequests)
      ensures openAttempts == old(openAttempts) && disconnectRequests == old(disconnectRequests)
      ensures warnings == old(warnings)
    {
      if handlersAttached {
        toasts := toasts + [Toast(MEDIA_ERROR_TITLE, Describe(e))];
      }
    }

    /** The room's `encryptionError` event: a console warning while the handlers are attached. */
    method EncryptionError(e: ErrorInfo)
      requires Valid()
      modifies this
      ensures Valid()
      ensures warnings == old(warnings) + (if handlersAttached then [e] else [])
      ensures room == old(room) && details == old(details) && mounted == old(mounted)
      ensures connectRequests == old(connectRequests) && micRequests == old(micRequests)
      ensures openAttempts == old(openAttempts) && disconnectRequests == old(disconnectRequests)
      ensures toasts == old(toasts)
    {
      if handlersAttached {
        warnings := warnings + [e];
      }
    }

    /** Unmounting: the handlers are detached and the room is asked to disconnect. */
    method Unmount()
      requires Valid() && mounted
      modifies this
      ensures Valid() && !mounted && !handlersAttached
      ensures disconnectRequests == old(disconnectRequests) + 1
      ensures room == old(room) && details == old(details)
      ensures connectRequests == old(connectRequests) && micRequests == old(micRequests)
      ensures openAttempts == old(openAttempts) && toasts == old(toasts) && warnings == old(warnings)
    {
      handlersAttached := false;
      mounted := false;
      disconnectRequests := disconnectRequests + 1;
    }
  }
}
