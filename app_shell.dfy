/**
 * The top-level page (frontend/components/app.tsx): the room's event handlers, the effect
 * that connects the room when a session starts, and the buttons that start and close it.
 * React effect runs become entries of `runs`; a run's cleanup marks it aborted and asks
 * the room to disconnect. The promises a run starts complete through event methods.
 */
module AppShell {
  import opened Common

  /** How far one promise of a run has got. */
  datatype Progress = Idle | Pending | Resolved | Rejected

  /**
   * One run of the connect effect: the microphone promise, the credentials promise, the
   * `room.connect` promise chained after the credentials, and whether the run was cleaned up.
   */
  datatype EffectRun = EffectRun(mic: Progress, credentials: Progress, connect: Progress, aborted: bool)

  /** The guard held and the microphone and the credentials were requested. */
  predicate Attempted(run: EffectRun) {
    run.mic != Idle
  }

  /**
   * `Promise.all` has settled: one of its promises rejected, or both the microphone and
   * the credentials-then-connect chain resolved. Its `catch` runs at most once, at the first rejection.
   */
  predicate Settled(run: EffectRun) {
    run.mic == Rejected || run.credentials == Rejected || run.connect == Rejected
    || (run.mic == Resolved && run.connect == Resolved)
  }

  /**
   * The shapes a run can take: both promises are started together, and `room.connect` is
   * called exactly once the credentials have resolved.
   */
  predicate WellFormed(run: EffectRun) {
    && (run.mic == Idle <==> run.credentials == Idle)
    && (run.connect != Idle <==> run.credentials == Resolved)
  }

  /** The connect effect's guard. */
  predicate ShouldConnect(sessionStarted: bool, room: RoomState) {
    sessionStarted && room == RoomDisconnected
  }

  /** A fresh run for the given state: it starts work exactly when the guard holds. */
  function StartRun(sessionStarted: bool, room: RoomState): (run: EffectRun)
    ensures Attempted(run) <==> ShouldConnect(sessionStarted, room)
    ensures WellFormed(run) && !Settled(run) && !run.aborted && run.connect == Idle
  {
    var p := if ShouldConnect(sessionStarted, room) then Pending else Idle;
    EffectRun(p, p, Idle, false)
  }

  /**
   * What a failed run shows: nothing once it has been cleaned up (its error is then most
   * likely caused by its own cleanup's disconnect), otherwise the connect-error toast.
   */
  function ConnectFailureToast(aborted: bool, e: ErrorInfo): (t: Option<Toast>)
    ensures t.None? <==> aborted
    ensures t.Some? ==> t.value.title == CONNECT_ERROR_TITLE && t.value.description == Describe(e)
  {
    if aborted then None else Some(Toast(CONNECT_ERROR_TITLE, Describe(e)))
  }

  /**
   * The toasts one rejection inside `run` adds: the `catch` handler's toast when this is the
   * first rejection of the run's `Promise.all`, nothing otherwise.
   */
  function RejectionToasts(run: EffectRun, e: ErrorInfo): (ts: seq<Toast>)
    ensures |ts| <= 1
    ensures ts != [] <==> !Settled(run) && !run.aborted
    ensures ts != [] ==> ts[0] == Toast(CONNECT_ERROR_TITLE, Describe(e))
  {
    var t := ConnectFailureToast(run.aborted, e);
    if Settled(run) || t.None? then [] else [t.value]
  }

  class App {
    const preConnectBuffer: bool
    var sessionStarted: bool
    var room: RoomState
    var mounted: bool
    var runs: seq<EffectRun>
    /** The `preConnectBuffer` option of every microphone request. */
    var micRequests: seq<bool>
    /** Every `room.connect` call, with the details it used. */
    var connectRequests: seq<ConnectionDetails>
    var disconnectRequests: nat
    var refreshRequests: nat
    var toasts: seq<Toast>
    var warnings: seq<ErrorInfo>

    /**
     * Every run is well formed and every run but the last has been cleaned up; the last is
     * live exactly while mounted, and it started work only if the session is started.
     */
    predicate Valid()
      reads this
    {
      && |runs| > 0
      && (forall i :: 0 <= i < |runs| ==> WellFormed(runs[i]))
      && (forall i :: 0 <= i < |runs| - 1 ==> runs[i].aborted)
      && (Last(runs).aborted <==> !mounted)
      && (Attempted(Last(runs)) ==> sessionStarted)
    }

    /** Mounting: the handlers are attached and the connect effect runs once. */
    constructor(preConnectBuffer: bool, room: RoomState)
      ensures Valid() && mounted
      ensures this.preConnectBuffer == preConnectBuffer && this.room == room && !sessionStarted
      ensures runs == [StartRun(false, room)] && micRequests == [] && connectRequests == []
      ensures disconnectRequests == 0 && refreshRequests == 0 && toasts == [] && warnings == []
    {
      this.preConnectBuffer := preConnectBuffer;
      this.room := room;
      sessionStarted := false;
      mounted := true;
      runs := [StartRun(false, room)];
      micRequests := [];
      connectRequests := [];
      disconnectRequests := 0;
      refreshRequests := 0;
      toasts := [];
      warnings := [];
    }

    /**
     * `setSessionStarted`: a change re-runs the connect effect (cleanup of the live run,
     * then a new run); setting the same value changes nothing.
     */
    method SetSessionStarted(started: bool)
      requires Valid() && mounted
      modifies this
      ensures Valid() && mounted && sessionStarted == started
      ensures started == old(sessionStarted) ==> runs == old(runs) && disconnectRequests == old(disconnectRequests)
      ensures started == old(sessionStarted) ==> micRequests == old(micRequests)
      ensures started != old(sessionStarted) ==>
        && runs == old(runs)[|old(runs)| - 1 := Last(old(runs)).(aborted := true)] + [StartRun(started, room)]
        && disconnectRequests == old(disconnectRequests) + 1
        && micRequests == old(micRequests) + (if ShouldConnect(started, room) then [preConnectBuffer] else [])
      ensures room == old(room) && connectRequests == old(connectRequests) && refreshRequests == old(refreshRequests)
      ensures toasts == old(toasts) && warnings == old(warnings)
    {
      if started != sessionStarted {
        sessionStarted := started;
        // the cleanup of the live run, then the new run
        var n := |runs|;
        runs := runs[n - 1 := runs[n - 1].(aborted := true)] + [StartRun(started, room)];
        disconnectRequests := disconnectRequests + 1;
        if ShouldConnect(started, room) {
          micRequests := micRequests + [preConnectBuffer];
        }
      }
    }

    /** The start buttons (welcome screen and floating call button): `setSessionStarted(true)`. */
    method PressStart()
      requires Valid() && mounted
      modifies this
      ensures Valid() && mounted && sessionStarted
      ensures old(sessionStarted) ==>
        runs == old(runs) && disconnectRequests == old(disconnectRequests) && micRequests == old(micRequests)
      ensures !old(sessionStarted) ==>
        && runs == old(runs)[|old(runs)| - 1 := Last(old(runs)).(aborted := true)] + [StartRun(true, room)]
        && disconnectRequests == old(disconnectRequests) + 1
        && micRequests == old(micRequests) + (if room == RoomDisconnected then [preConnectBuffer] else [])
      ensures room == old(room) && connectRequests == old(connectRequests) && refreshRequests == old(refreshRequests)
      ensures toasts == old(toasts) && warnings == old(warnings)
    {
      SetSessionStarted(true);
    }

    /** The overlay's close button: `setSessionStarted(false)`; the new run requests nothing. */
    method PressClose()
      requires Valid() && mounted
      modifies this
      ensures Valid() && mounted && !sessionStarted && !Attempted(Last(runs))
      ensures !old(sessionStarted) ==> runs == old(runs) && disconnectRequests == old(disconnectRequests)
      ensures old(sessionStarted) ==>
        && runs == old(runs)[|old(runs)| - 1 := Last(old(runs)).(aborted := true)] + [StartRun(false, room)]
        && disconnectRequests == old(disconnectRequests) + 1
      ensures micRequests == old(micRequests)
      ensures room == old(room) && connectRequests == old(connectRequests) && refreshRequests == old(refreshRequests)
      ensures toasts == old(toasts) && warnings == old(warnings)
    {
      SetSessionStarted(false);
    }

    /** Run `i`'s microphone is enabled. */
    method MicrophoneResolved(i: nat)
      requires Valid() && i < |runs| && runs[i].mic == Pending
      modifies this
      ensures Valid()
      ensures runs == old(runs)[i := old(runs)[i].(mic := Resolved)]
      ensures sessionStarted == old(sessionStarted) && room == old(room) && mounted == old(mounted)
      ensures micRequests == old(micRequests) && connectRequests == old(connectRequests)
      ensures disconnectRequests == old(disconnectRequests) && refreshRequests == old(refreshRequests)
      ensures toasts == old(toasts) && warnings == old(warnings)
    {
      runs := runs[i := runs[i].(mic := Resolved)];
    }

    /**
     * Run `i`'s microphone request rejects: the run settles, with a toast if this is its first
     * rejection and it was not cleaned up. The credentials-then-connect chain goes on.
     */
    method MicrophoneRejected(i: nat, e: ErrorInfo)
      requires Valid() && i < |runs| && runs[i].mic == Pending
      modifies this
      ensures Valid()
      ensures runs == old(runs)[i := old(runs)[i].(mic := Rejected)] && Settled(runs[i])
      ensures toasts == old(toasts) + RejectionToasts(old(runs)[i], e)
      ensures sessionStarted == old(sessionStarted) && room == old(room) && mounted == old(mounted)
      ensures micRequests == old(micRequests) && connectRequests == old(connectRequests)
      ensures disconnectRequests == old(disconnectRequests) && refreshRequests == old(refreshRequests)
      ensures warnings == old(warnings)
    {
      toasts := toasts + RejectionToasts(runs[i], e);
      runs := runs[i := runs[i].(mic := Rejected)];
    }

    /**
     * Run `i`'s credentials arrive: `room.connect` is called with them, even if the run was
     * cleaned up or its microphone request already rejected.
     */
    method CredentialsResolved(i: nat, details: ConnectionDetails)
      requires Valid() && i < |runs| && runs[i].credentials == Pending
      modifies this
      ensures Valid()
      ensures runs == old(runs)[i := old(runs)[i].(credentials := Resolved, connect := Pending)]
      ensures connectRequests == old(connectRequests) + [details]
      ensures sessionStarted == old(sessionStarted) && room == old(room) && mounted == old(mounted)
      ensures micRequests == old(micRequests) && disconnectRequests == old(disconnectRequests)
      ensures refreshRequests == old(refreshRequests) && toasts == old(toasts) && warnings == old(warnings)
    {
      runs := runs[i := runs[i].(credentials := Resolved, connect := Pending)];
      connectRequests := connectRequests + [details];
    }

    /** Run `i`'s credentials request rejects: no connect; the run settles, as for the microphone. */
    method CredentialsRejected(i: nat, e: ErrorInfo)
      requires Valid() && i < |runs| && runs[i].credentials == Pending
      modifies this
      ensures Valid()
      ensures runs == old(runs)[i := old(runs)[i].(credentials := Rejected)] && Settled(runs[i])
      ensures toasts == old(toasts) + RejectionToasts(old(runs)[i], e)
      ensures sessionStarted == old(sessionStarted) && room == old(room) && mounted == old(mounted)
      ensures micRequests == old(micRequests) && connectRequests == old(connectRequests)
      ensures disconnectRequests == old(disconnectRequests) && refreshRequests == old(refreshRequests)
      ensures warnings == old(warnings)
    {
      toasts := toasts + RejectionToasts(runs[i], e);
      runs := runs[i := runs[i].(credentials := Rejected)];
    }

    /** Run `i`'s `room.connect` resolves. */
    method ConnectResolved(i: nat)
      requires Valid() && i < |runs| && runs[i].connect == Pending
      modifies this
      ensures Valid()
      ensures runs == old(runs)[i := old(runs)[i].(connect := Resolved)]
      ensures sessionStarted == old(sessionStarted) && room == old(room) && mounted == old(mounted)
      ensures micRequests == old(micRequests) && connectRequests == old(connectRequests)
      ensures disconnectRequests == old(disconnectRequests) && refreshRequests == old(refreshRequests)
      ensures toasts == old(toasts) && warnings == old(warnings)
    {
      runs := runs[i := runs[i].(connect := Resolved)];
    }

    /** Run `i`'s `room.connect` rejects: the run settles, as for the microphone. */
    method ConnectRejected(i: nat, e: ErrorInfo)
      requires Valid() && i < |runs| && runs[i].connect == Pending
      modifies this
      ensures Valid()
      ensures runs == old(runs)[i := old(runs)[i].(connect := Rejected)] && Settled(runs[i])
      ensures toasts == old(toasts) + RejectionToasts(old(runs)[i], e)
      ensures sessionStarted == old(sessionStarted) && room == old(room) && mounted == old(mounted)
      ensures micRequests == old(micRequests) && connectRequests == old(connectRequests)
      ensures disconnectRequests == old(disconnectRequests) && refreshRequests == old(refreshRequests)
      ensures warnings == old(warnings)
    {
      toasts := toasts + RejectionToasts(runs[i], e);
      runs := runs[i := runs[i].(connect := Rejected)];
    }

    /** The room reports a state change; the effect does not depend on it and does not re-run. */
    method RoomStateChanged(s: RoomState)
      requires Valid()
      modifies this
      ensures Valid() && room == s
      ensures runs == old(runs) && sessionStarted == old(sessionStarted) && mounted == old(mounted)
      ensures micRequests == old(micRequests) && connectRequests == old(connectRequests)
      ensures disconnectRequests == old(disconnectRequests) && refreshRequests == old(refreshRequests)
      ensures toasts == old(toasts) && warnings == old(warnings)
    {
      room := s;
    }

    /**
     * The room's `disconnected` event: the session ends and fresh connection details are
     * requested. Ending the session re-runs the connect effect, which connects nothing.
     */
    method Disconnected()
      requires Valid() && mounted
      modifies this
      ensures Valid() && mounted && !sessionStarted && room == RoomDisconnected && !Attempted(Last(runs))
      ensures refreshRequests == old(refreshRequests) + 1
      ensures !old(sessionStarted) ==> runs == old(runs) && disconnectRequests == old(disconnectRequests)
      ensures old(sessionStarted) ==>
        && runs == old(runs)[|old(runs)| - 1 := Last(old(runs)).(aborted := true)] + [StartRun(false, RoomDisconnected)]
        && disconnectRequests == old(disconnectRequests) + 1
      ensures connectRequests == old(connectRequests) && micRequests == old(micRequests)
      ensures toasts == old(toasts) && warnings == old(warnings)
    {
      room := RoomDisconnected;
      refreshRequests := refreshRequests + 1;
      SetSessionStarted(false);
    }

    /** The room's `mediaDevicesError` event: a toast while the handlers are attached. */
    method MediaDevicesError(e: ErrorInfo)
      requires Valid()
      modifies this
      ensures Valid()
      ensures toasts == old(toasts) + (if mounted then [Toast(MEDIA_ERROR_TITLE, Describe(e))] else [])
      ensures runs == old(runs) && sessionStarted == old(sessionStarted) && room == old(room) && mounted == old(mounted)
      ensures micRequests == old(micRequests) && connectRequests == old(connectRequests)
      ensures disconnectRequests == old(disconnectRequests) && refreshRequests == old(refreshRequests)
      ensures warnings == old(warnings)
    {
      if mounted {
        toasts := toasts + [Toast(MEDIA_ERROR_TITLE, Describe(e))];
      }
    }

    /** The room's `encryptionError` event: a console warning while the handlers are attached. */
    method EncryptionError(e: ErrorInfo)
      requires Valid()
      modifies this
      ensures Valid()
      ensures warnings == old(warnings) + (if mounted then [e] else [])
      ensures runs == old(runs) && sessionStarted == old(sessionStarted) && room == old(room) && mounted == old(mounted)
      ensures micRequests == old(micRequests) && connectRequests == old(connectRequests)
      ensures disconnectRequests == old(disconnectRequests) && refreshRequests == old(refreshRequests)
      ensures toasts == old(toasts)
    {
      if mounted {
        warnings := warnings + [e];
      }
    }

    /** Unmounting: the handlers are detached and the live run is cleaned up. */
    method Unmount()
      requires Valid() && mounted
      modifies this
      ensures Valid() && !mounted
      ensures runs == old(runs)[|old(runs)| - 1 := Last(old(runs)).(aborted := true)]
      ensures disconnectRequests == old(disconnectRequests) + 1
      ensures sessionStarted == old(sessionStarted) && room == old(room)
      ensures micRequests == old(micRequests) && connectRequests == old(connectRequests)
      ensures refreshRequests == old(refreshRequests) && toasts == old(toasts) && warnings == old(warnings)
    {
      var n := |runs|;
      runs := runs[n - 1 := runs[n - 1].(aborted := true)];
      disconnectRequests := disconnectRequests + 1;
      mounted := false;
    }
  }
}
