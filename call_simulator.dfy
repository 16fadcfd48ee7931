/**
 * The stand-alone call screen of the travel assistant (frontend/travel-voice-assistant-app.tsx):
 * a simulated connection, microphone and camera toggles, and a scripted conversation.
 * Each timer the screen sets becomes a pending entry and an event method that fires it;
 * each random choice becomes an index the caller supplies.
 */
module CallSimulator {
  import opened Common

  datatype Connection = Disconnected | Connecting | Connected | Reconnecting

  datatype Activity = Initializing | Listening | Thinking | Speaking

  datatype Speaker = SystemSpeaker | UserSpeaker | AgentSpeaker

  /** One entry of the on-screen transcript. */
  datatype Line = Line(speaker: Speaker, content: string)

  const CONNECTING_TEXT: string := "Connecting to travel assistant..."
  const CONNECTED_TEXT: string := "Connected successfully!"
  const GREETING: string := "Hi! I'm your travel assistant. How can I help you plan your trip today?"
  const CALL_ENDED_TEXT: string := "Call ended"

  /** The four sentences the user can be simulated to say. */
  const USER_MESSAGES: seq<string> := [
    "I want to visit Paris next month",
    "What's the weather like in Tokyo?",
    "Can you recommend hotels in New York?",
    "I need a flight to London"]

  /** The four canned agent answers. */
  const AGENT_RESPONSES: seq<string> := [
    "I'd be happy to help you with that! Let me find the best options for you.",
    "Great choice! I have some excellent recommendations based on your preferences.",
    "I found several amazing destinations that match what you're looking for.",
    "Let me check the latest availability and prices for you."]

  /** The line announcing a microphone toggle, from the state before the toggle. */
  function MicrophoneNotice(wasEnabled: bool): (notice: string)
    ensures notice == "Microphone enabled" <==> !wasEnabled
    ensures notice == "Microphone muted" <==> wasEnabled
  {
    "Microphone " + (if !wasEnabled then "enabled" else "muted")
  }

  /** The `<video>` element is rendered only while video is on during a call. */
  predicate VideoElementMounted(isVideoEnabled: bool, isCallActive: bool) {
    isVideoEnabled && isCallActive
  }

  /**
   * `startVideoStream` as written: the camera is requested only when the `<video>`
   * element is already mounted and the browser has media devices.
   */
  predicate StartVideoStreamRequests(isVideoEnabled: bool, isCallActive: bool, hasMediaDevices: bool) {
    VideoElementMounted(isVideoEnabled, isCallActive) && hasMediaDevices
  }

  /**
   * At both call sites the element is not mounted yet: the connect timer fires while the
   * screen is still connecting, so the call is not active, and the toggle calls it while
   * video is still off. So, as written, the camera is never requested, although the
   * intended rule requests it when the timer's captured video flag is on.
   */
  lemma StartVideoStreamNeverRequests(s: Screen, hasMediaDevices: bool)
    requires s.Valid()
    ensures s.connectTimer.Some? ==> !StartVideoStreamRequests(s.isVideoEnabled, s.isCallActive, hasMediaDevices)
    ensures s.connectTimer == Some(true) && hasMediaDevices ==> VideoStreamWanted(s.connectTimer.value, true, hasMediaDevices)
    ensures !s.isVideoEnabled ==> !StartVideoStreamRequests(s.isVideoEnabled, s.isCallActive, hasMediaDevices)
  {
  }

  /**
   * The intended rule: request the camera whenever video is being turned on during a call,
   * for the element about to be rendered, if the browser has media devices.
   */
  predicate VideoStreamWanted(videoOnAfter: bool, callActiveAfter: bool, hasMediaDevices: bool)
  {
    VideoElementMounted(videoOnAfter, callActiveAfter) && hasMediaDevices
  }

  class Screen {
    var connection: Connection
    var agent: Activity
    var isCallActive: bool
    var isMicEnabled: bool
    var isVideoEnabled: bool
    var messages: seq<Line>
    /** The pending connect timer, holding the video flag its closure captured. */
    var connectTimer: Option<bool>
    /** Pending 1.5 s timers after which the agent answers. */
    var replyTimers: nat
    /** Pending 2 s timers after which the agent listens again. */
    var listenTimers: nat
    /** Camera requests not yet granted or refused. */
    var cameraRequests: nat
    /** A camera stream is attached to the mounted `<video>` element. */
    var attached: bool

    /** No connection in progress or established without the matching flags; a stream needs the element. */
    predicate Valid()
      reads this
    {
      && connection != Reconnecting
      && (isCallActive <==> connection == Connected)
      && (connectTimer.Some? <==> connection == Connecting)
      && (attached ==> VideoElementMounted(isVideoEnabled, isCallActive))
    }

    constructor()
      ensures Valid()
      ensures connection == Disconnected && agent == Initializing && !isCallActive
      ensures isMicEnabled && !isVideoEnabled && messages == []
      ensures connectTimer == None && replyTimers == 0 && listenTimers == 0
      ensures cameraRequests == 0 && !attached
    {
      connection := Disconnected;
      agent := Initializing;
      isCallActive := false;
      isMicEnabled := true;
      isVideoEnabled := false;
      messages := [];
      connectTimer := None;
      replyTimers := 0;
      listenTimers := 0;
      cameraRequests := 0;
      attached := false;
    }

    /** The call button is disabled while connecting. */
    predicate CallButtonEnabled()
      reads this
    {
      connection != Connecting
    }

    /** `handleStartCall`: starts connecting, replaces the transcript and arms the connect timer. */
    method StartCall()
      requires Valid() && !isCallActive && CallButtonEnabled()
      modifies this
      ensures Valid()
      ensures connection == Connecting && messages == [Line(SystemSpeaker, CONNECTING_TEXT)]
      ensures connectTimer == Some(old(isVideoEnabled))
      ensures agent == old(agent) && isCallActive == old(isCallActive) && isMicEnabled == old(isMicEnabled)
      ensures isVideoEnabled == old(isVideoEnabled) && replyTimers == old(replyTimers)
      ensures listenTimers == old(listenTimers) && cameraRequests == old(cameraRequests) && attached == old(attached)
    {
      connection := Connecting;
      messages := [Line(SystemSpeaker, CONNECTING_TEXT)];
      connectTimer := Some(isVideoEnabled);
    }

    /**
     * The connect timer fires: the call is up, the agent listens and greets, and, when the
     * video flag the closure captured was on, the camera is requested (the intended behaviour).
     */
    method ConnectTimerFires(hasMediaDevices: bool)
      requires Valid() && connectTimer.Some?
      modifies this
      ensures Valid()
      ensures connection == Connected && isCallActive && agent == Listening && connectTimer == None
      ensures messages == old(messages) + [Line(SystemSpeaker, CONNECTED_TEXT), Line(AgentSpeaker, GREETING)]
      ensures cameraRequests == old(cameraRequests) +
        (if VideoStreamWanted(old(connectTimer).value, true, hasMediaDevices) then 1 else 0)
      ensures !StartVideoStreamRequests(old(isVideoEnabled), old(isCallActive), hasMediaDevices)
      ensures isMicEnabled == old(isMicEnabled) && isVideoEnabled == old(isVideoEnabled)
      ensures replyTimers == old(replyTimers) && listenTimers == old(listenTimers) && attached == old(attached)
    {
      var videoWasOn := connectTimer.value;
      connection := Connected;
      isCallActive := true;
      agent := Listening;
      messages := messages + [Line(SystemSpeaker, CONNECTED_TEXT), Line(AgentSpeaker, GREETING)];
      connectTimer := None;
      if VideoStreamWanted(videoWasOn, true, hasMediaDevices) {
        cameraRequests := cameraRequests + 1;
      }
    }

    /** `handleEndCall`: disconnects, resets the agent, logs the end and stops the stream. */
    method EndCall()
      requires Valid() && isCallActive
      modifies this
      ensures Valid()
      ensures connection == Disconnected && !isCallActive && agent == Initializing && !attached
      ensures messages == old(messages) + [Line(SystemSpeaker, CALL_ENDED_TEXT)]
      ensures isMicEnabled == old(isMicEnabled) && isVideoEnabled == old(isVideoEnabled)
      ensures connectTimer == old(connectTimer) && replyTimers == old(replyTimers)
      ensures listenTimers == old(listenTimers) && cameraRequests == old(cameraRequests)
    {
      connection := Disconnected;
      isCallActive := false;
      agent := Initializing;
      messages := messages + [Line(SystemSpeaker, CALL_ENDED_TEXT)];
      attached := false;
    }

    /**
     * `toggleVideo`: turning video on during a call requests the camera (the intended
     * behaviour); turning it off stops the stream.
     */
    method ToggleVideo(hasMediaDevices: bool)
      requires Valid()
      modifies this
      ensures Valid()
      ensures isVideoEnabled == !old(isVideoEnabled)
      ensures cameraRequests == old(cameraRequests) +
        (if !old(isVideoEnabled) && VideoStreamWanted(true, isCallActive, hasMediaDevices) then 1 else 0)
      ensures !old(isVideoEnabled) ==> !StartVideoStreamRequests(old(isVideoEnabled), old(isCallActive), hasMediaDevices)
      ensures attached == (old(attached) && !old(isVideoEnabled))
      ensures connection == old(connection) && agent == old(agent) && isCallActive == old(isCallActive)
      ensures isMicEnabled == old(isMicEnabled) && messages == old(messages) && connectTimer == old(connectTimer)
      ensures replyTimers == old(replyTimers) && listenTimers == old(listenTimers)
    {
      if !isVideoEnabled {
        isVideoEnabled := true;
        if VideoStreamWanted(true, isCallActive, hasMediaDevices) {
          cameraRequests := cameraRequests + 1;
        }
      } else {
        isVideoEnabled := false;
        attached := false;
      }
    }

    /** `toggleMic`: flips the microphone and, during a call, logs the change. */
    method ToggleMic()
      requires Valid()
      modifies this
      ensures Valid()
      ensures isMicEnabled == !old(isMicEnabled)
      ensures messages == old(messages) +
        (if isCallActive then [Line(SystemSpeaker, MicrophoneNotice(old(isMicEnabled)))] else [])
      ensures connection == old(connection) && agent == old(agent) && isCallActive == old(isCallActive)
      ensures isVideoEnabled == old(isVideoEnabled) && connectTimer == old(connectTimer)
      ensures replyTimers == old(replyTimers) && listenTimers == old(listenTimers)
      ensures cameraRequests == old(cameraRequests) && attached == old(attached)
    {
      var notice := MicrophoneNotice(isMicEnabled);
      isMicEnabled := !isMicEnabled;
      if isCallActive {
        messages := messages + [Line(SystemSpeaker, notice)];
      }
    }

    /** `simulateUserMessage`: the user says sentence `choice`; the agent thinks and arms a reply timer. */
    method SimulateUserMessage(choice: nat)
      requires Valid() && choice < |USER_MESSAGES|
      modifies this
      ensures Valid()
      ensures messages == old(messages) + [Line(UserSpeaker, USER_MESSAGES[choice])]
      ensures agent == Thinking && replyTimers == old(replyTimers) + 1
      ensures connection == old(connection) && isCallActive == old(isCallActive)
      ensures isMicEnabled == old(isMicEnabled) && isVideoEnabled == old(isVideoEnabled)
      ensures connectTimer == old(connectTimer) && listenTimers == old(listenTimers)
      ensures cameraRequests == old(cameraRequests) && attached == old(attached)
    {
      messages := messages + [Line(UserSpeaker, USER_MESSAGES[choice])];
      agent := Thinking;
      replyTimers := replyTimers + 1;
    }

    /** A reply timer fires: the agent speaks answer `choice` and arms a listen timer. */
    method ReplyTimerFires(choice: nat)
      requires Valid() && replyTimers > 0 && choice < |AGENT_RESPONSES|
      modifies this
      ensures Valid()
      ensures agent == Speaking && messages == old(messages) + [Line(AgentSpeaker, AGENT_RESPONSES[choice])]
      ensures replyTimers == old(replyTimers) - 1 && listenTimers == old(listenTimers) + 1
      ensures connection == old(connection) && isCallActive == old(isCallActive)
      ensures isMicEnabled == old(isMicEnabled) && isVideoEnabled == old(isVideoEnabled)
      ensures connectTimer == old(connectTimer) && cameraRequests == old(cameraRequests) && attached == old(attached)
    {
      agent := Speaking;
      messages := messages + [Line(AgentSpeaker, AGENT_RESPONSES[choice])];
      replyTimers := replyTimers - 1;
      listenTimers := listenTimers + 1;
    }

    /** A listen timer fires: the agent listens again. */
    method ListenTimerFires()
      requires Valid() && listenTimers > 0
      modifies this
      ensures Valid()
      ensures agent == Listening && listenTimers == old(listenTimers) - 1
      ensures connection == old(connection) && isCallActive == old(isCallActive) && messages == old(messages)
      ensures isMicEnabled == old(isMicEnabled) && isVideoEnabled == old(isVideoEnabled)
      ensures connectTimer == old(connectTimer) && replyTimers == old(replyTimers)
      ensures cameraRequests == old(cameraRequests) && attached == old(attached)
    {
      agent := Listening;
      listenTimers := listenTimers - 1;
    }

    /** The browser grants a camera request: the stream goes to the element if it is mounted now. */
    method CameraGranted()
      requires Valid() && cameraRequests > 0
      modifies this
      ensures Valid()
      ensures cameraRequests == old(cameraRequests) - 1
      ensures attached == (old(attached) || VideoElementMounted(isVideoEnabled, isCallActive))
      ensures connection == old(connection) && agent == old(agent) && isCallActive == old(isCallActive)
      ensures isMicEnabled == old(isMicEnabled) && isVideoEnabled == old(isVideoEnabled) && messages == old(messages)
      ensures connectTimer == old(connectTimer) && replyTimers == old(replyTimers) && listenTimers == old(listenTimers)
    {
      cameraRequests := cameraRequests - 1;
      if VideoElementMounted(isVideoEnabled, isCallActive) {
        attached := true;
      }
    }

    /** The browser refuses a camera request: video is switched off. */
    method CameraDenied()
      requires Valid() && cameraRequests > 0
      modifies this
      ensures Valid()
      ensures cameraRequests == old(cameraRequests) - 1 && !isVideoEnabled && !attached
      ensures connection == old(connection) && agent == old(agent) && isCallActive == old(isCallActive)
      ensures isMicEnabled == old(isMicEnabled) && messages == old(messages)
      ensures connectTimer == old(connectTimer) && replyTimers == old(replyTimers) && listenTimers == old(listenTimers)
    {
      cameraRequests := cameraRequests - 1;
      isVideoEnabled := false;
      attached := false;
    }

    /** The call button: ends an active call, otherwise starts one; does nothing while disabled. */
    method PressCallButton()
      requires Valid()
      modifies this
      ensures Valid()
      ensures old(connection) == Connecting ==> unchanged(this)
      ensures old(connection) == Connected ==>
        && connection == Disconnected && !isCallActive && agent == Initializing && !attached
        && messages == old(messages) + [Line(SystemSpeaker, CALL_ENDED_TEXT)]
        && isMicEnabled == old(isMicEnabled) && isVideoEnabled == old(isVideoEnabled)
        && connectTimer == old(connectTimer) && replyTimers == old(replyTimers)
        && listenTimers == old(listenTimers) && cameraRequests == old(cameraRequests)
      ensures old(connection) == Disconnected ==>
        && connection == Connecting && messages == [Line(SystemSpeaker, CONNECTING_TEXT)]
        && connectTimer == Some(old(isVideoEnabled))
        && agent == old(agent) && isCallActive == old(isCallActive) && isMicEnabled == old(isMicEnabled)
        && isVideoEnabled == old(isVideoEnabled) && replyTimers == old(replyTimers)
        && listenTimers == old(listenTimers) && cameraRequests == old(cameraRequests) && attached == old(attached)
    {
      if CallButtonEnabled() {
        if isCallActive {
          EndCall();
        } else {
          StartCall();
        }
      }
    }

    /** The microphone button, disabled outside a call. */
    method PressMicButton()
      requires Valid()
      modifies this
      ensures Valid()
      ensures !old(isCallActive) ==> unchanged(this)
      ensures old(isCallActive) ==>
        && isMicEnabled == !old(isMicEnabled)
        && messages == old(messages) + [Line(SystemSpeaker, MicrophoneNotice(old(isMicEnabled)))]
        && connection == old(connection) && agent == old(agent) && isCallActive == old(isCallActive)
        && isVideoEnabled == old(isVideoEnabled) && connectTimer == old(connectTimer)
        && replyTimers == old(replyTimers) && listenTimers == old(listenTimers)
        && cameraRequests == old(cameraRequests) && attached == old(attached)
    {
      if isCallActive {
        ToggleMic();
      }
    }

    /** The video button, disabled outside a call. */
    method PressVideoButton(hasMediaDevices: bool)
      requires Valid()
      modifies this
      ensures Valid()
      ensures !old(isCallActive) ==> unchanged(this)
      ensures old(isCallActive) ==>
        && isVideoEnabled == !old(isVideoEnabled)
        && cameraRequests == old(cameraRequests) + (if !old(isVideoEnabled) && hasMediaDevices then 1 else 0)
        && attached == (old(attached) && !old(isVideoEnabled))
        && connection == old(connection) && agent == old(agent) && isCallActive == old(isCallActive)
        && isMicEnabled == old(isMicEnabled) && messages == old(messages) && connectTimer == old(connectTimer)
        && replyTimers == old(replyTimers) && listenTimers == old(listenTimers)
    {
      if isCallActive {
        ToggleVideo(hasMediaDevices);
      }
    }

    /** The "simulate user speech" button, rendered only during a call. */
    method PressSimulateButton(choice: nat)
      requires Valid() && choice < |USER_MESSAGES|
      modifies this
      ensures Valid()
      ensures !old(isCallActive) ==> unchanged(this)
      ensures old(isCallActive) ==>
        && messages == old(messages) + [Line(UserSpeaker, USER_MESSAGES[choice])]
        && agent == Thinking && replyTimers == old(replyTimers) + 1
        && connection == old(connection) && isCallActive == old(isCallActive)
        && isMicEnabled == old(isMicEnabled) && isVideoEnabled == old(isVideoEnabled)
        && connectTimer == old(connectTimer) && listenTimers == old(listenTimers)
        && cameraRequests == old(cameraRequests) && attached == old(attached)
    {
      if isCallActive {
        SimulateUserMessage(choice);
      }
    }
  }
}
