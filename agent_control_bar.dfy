/**
 * The in-call control bar (frontend/components/livekit/agent-control-bar/agent-control-bar.tsx):
 * agent availability, which controls are shown and when they are disabled, the busy flags
 * kept around the awaited send and leave calls, and the tagging of device errors.
 */
module AgentControlBar {
  import opened Common
  import TrackToggle

  /** A remote participant of the room, reduced to whether it is an agent. */
  datatype Participant = Participant(identity: string, isAgent: bool)

  /** `participants.some((p) => p.isAgent)`. */
  function AnyAgent(participants: seq<Participant>): (available: bool)
    ensures available <==> exists i :: 0 <= i < |participants| && participants[i].isAgent
  {
    if participants == [] then false
    else participants[0].isAgent || AnyAgent(participants[1..])
  }

  /** The chat input is disabled while chat is closed, without an agent, or while a send is in flight. */
  function InputDisabled(chatOpen: bool, participants: seq<Participant>, isSendingMessage: bool): (disabled: bool)
    ensures !disabled <==>
      chatOpen && !isSendingMessage && exists i :: 0 <= i < |participants| && participants[i].isAgent
  {
    !chatOpen || !AnyAgent(participants) || isSendingMessage
  }

  /** The capabilities the app configuration grants. */
  datatype Capabilities = Capabilities(supportsChatInput: bool, supportsVideoInput: bool, supportsScreenShare: bool)

  /** Which controls the control-bar hook asks to show. */
  datatype VisibleControls = VisibleControls(leave: bool, camera: bool, microphone: bool, screenShare: bool, chat: bool)

  /** Which controls the bar renders. */
  datatype ShownControls = ShownControls(chatInput: bool, microphone: bool, camera: bool, screenShare: bool, chatToggle: bool, leave: bool)

  /** The bar shows a control only when both the capability (if one applies) and the hook allow it. */
  function Shown(caps: Capabilities, visible: VisibleControls): (shown: ShownControls)
    ensures shown.chatInput <==> caps.supportsChatInput
    ensures shown.camera <==> caps.supportsVideoInput && visible.camera
    ensures shown.screenShare <==> caps.supportsScreenShare && visible.screenShare
    ensures shown.microphone <==> visible.microphone
    ensures shown.chatToggle <==> visible.chat
    ensures shown.leave <==> visible.leave
  {
    ShownControls(
      caps.supportsChatInput,
      visible.microphone,
      caps.supportsVideoInput && visible.camera,
      caps.supportsScreenShare && visible.screenShare,
      visible.chat,
      visible.leave)
  }

  /** The state of one track toggle as the control-bar hook reports it. */
  datatype ToggleState = ToggleState(enabled: bool, pending: bool)

  /** Which controls are disabled. */
  datatype DisabledControls = DisabledControls(microphone: bool, camera: bool, screenShare: bool, chatToggle: bool, leave: bool)

  /** Each track toggle is disabled while pending; the chat toggle without an agent; leave while disconnecting. */
  function Disabled(mic: ToggleState, camera: ToggleState, screen: ToggleState,
                    participants: seq<Participant>, isDisconnecting: bool): (d: DisabledControls)
    ensures d.microphone == mic.pending && d.camera == camera.pending && d.screenShare == screen.pending
    ensures d.chatToggle <==> forall i :: 0 <= i < |participants| ==> !participants[i].isAgent
    ensures d.leave == isDisconnecting
  {
    DisabledControls(mic.pending, camera.pending, screen.pending, !AnyAgent(participants), isDisconnecting)
  }

  /**
   * The icons the three track toggles show. Only the camera toggle passes its `pending`
   * state on; the microphone and screen-share toggles pass `pressed` alone.
   */
  function ToggleIcons(mic: ToggleState, camera: ToggleState, screen: ToggleState): (icons: (TrackToggle.Icon, TrackToggle.Icon, TrackToggle.Icon))
  {
    (TrackToggle.ToggleIcon(TrackToggle.Microphone, Some(mic.enabled), None),
     TrackToggle.ToggleIcon(TrackToggle.Camera, Some(camera.enabled), Some(camera.pending)),
     TrackToggle.ToggleIcon(TrackToggle.ScreenShare, Some(screen.enabled), None))
  }

  /**
   * Only the camera toggle spins while pending; the microphone shows its on/off icon
   * and screen share its monitor icon even while their toggles are pending and disabled.
   */
  lemma OnlyCameraSpins(mic: ToggleState, camera: ToggleState, screen: ToggleState)
    ensures var icons := ToggleIcons(mic, camera, screen);
      && icons.0 == (if mic.enabled then TrackToggle.MicrophoneIcon else TrackToggle.MicrophoneSlash)
      && (icons.1 == TrackToggle.Spinner <==> camera.pending)
      && icons.2 == TrackToggle.MonitorArrowUp
  {
    TrackToggle.IconDepictsTrack(TrackToggle.Microphone, mic.enabled);
    TrackToggle.IconDepictsTrack(TrackToggle.ScreenShare, screen.enabled);
  }

  /** A device-select error as forwarded to `onDeviceError`, tagged with its track source. */
  datatype DeviceError = DeviceError(source: TrackToggle.Source, error: ErrorInfo)

  /** The two device selects and the source each one tags its errors with. */
  datatype DeviceKind = AudioInput | VideoInput

  function TagDeviceError(kind: DeviceKind, e: ErrorInfo): (tagged: DeviceError)
    ensures tagged.error == e
    ensures tagged.source == TrackToggle.Microphone <==> kind == AudioInput
    ensures tagged.source == TrackToggle.Camera <==> kind == VideoInput
  {
    DeviceError(if kind == AudioInput then TrackToggle.Microphone else TrackToggle.Camera, e)
  }

  /**
   * The bar's own state and what it hands to its callbacks. Awaited calls are split into
   * the call and its completion; `sendsInFlight` and `leaveInFlight` count what is awaited.
   */
  class ControlBar {
    var chatOpen: bool
    var isSendingMessage: bool
    var isDisconnecting: bool
    var sendsInFlight: nat
    var leaveInFlight: bool
    /** Messages passed to `onSendMessage`. */
    var sent: seq<string>
    var disconnectCalls: nat
    /** Calls of `onDisconnect`, made only once a disconnect has completed. */
    var onDisconnectCalls: nat
    /** What `onChatOpenChange` received, in order. */
    var chatOpenNotices: seq<bool>
    var deviceErrors: seq<DeviceError>

    /** A completed disconnect precedes every `onDisconnect` call; the sending flag implies a send was started. */
    predicate Valid()
      reads this
    {
      && onDisconnectCalls + (if leaveInFlight then 1 else 0) <= disconnectCalls
      && (leaveInFlight ==> isDisconnecting)
      && (isSendingMessage ==> |sent| > 0)
      && |chatOpenNotices| > 0 && Last(chatOpenNotices) == chatOpen
    }

    /** Mounting: everything off; the chat-open effect reports the closed chat once. */
    constructor()
      ensures Valid()
      ensures !chatOpen && !isSendingMessage && !isDisconnecting && sendsInFlight == 0 && !leaveInFlight
      ensures sent == [] && disconnectCalls == 0 && onDisconnectCalls == 0
      ensures chatOpenNotices == [false] && deviceErrors == []
    {
      chatOpen := false;
      isSendingMessage := false;
      isDisconnecting := false;
      sendsInFlight := 0;
      leaveInFlight := false;
      sent := [];
      disconnectCalls := 0;
      onDisconnectCalls := 0;
      chatOpenNotices := [false];
      deviceErrors := [];
    }

    /** The chat toggle: a change is reported to `onChatOpenChange`. */
    method SetChatOpen(open: bool)
      requires Valid()
      modifies this
      ensures Valid() && chatOpen == open
      ensures chatOpenNotices == old(chatOpenNotices) + (if open != old(chatOpen) then [open] else [])
      ensures isSendingMessage == old(isSendingMessage) && isDisconnecting == old(isDisconnecting)
      ensures sendsInFlight == old(sendsInFlight) && leaveInFlight == old(leaveInFlight) && sent == old(sent)
      ensures disconnectCalls == old(disconnectCalls) && onDisconnectCalls == old(onDisconnectCalls)
      ensures deviceErrors == old(deviceErrors)
    {
      if open != chatOpen {
        chatOpen := open;
        chatOpenNotices := chatOpenNotices + [open];
      }
    }

    /** `handleSendMessage`, up to the await: marks a send in flight and passes the message on. */
    method SendMessage(message: string)
      requires Valid()
      modifies this
      ensures Valid() && isSendingMessage
      ensures sent == old(sent) + [message] && sendsInFlight == old(sendsInFlight) + 1
      ensures chatOpen == old(chatOpen) && isDisconnecting == old(isDisconnecting) && leaveInFlight == old(leaveInFlight)
      ensures disconnectCalls == old(disconnectCalls) && onDisconnectCalls == old(onDisconnectCalls)
      ensures chatOpenNotices == old(chatOpenNotices) && deviceErrors == old(deviceErrors)
    {
      isSendingMessage := true;
      sent := sent + [message];
      sendsInFlight := sendsInFlight + 1;
    }

    /**
     * An awaited send settles, resolved or thrown: the `finally` clears the flag either way
     * (even if another send is still in flight).
     */
    method SendSettled(threw: bool)
      requires Valid() && sendsInFlight > 0
      modifies this
      ensures Valid() && !isSendingMessage && sendsInFlight == old(sendsInFlight) - 1
      ensures sent == old(sent) && chatOpen == old(chatOpen) && isDisconnecting == old(isDisconnecting)
      ensures leaveInFlight == old(leaveInFlight) && disconnectCalls == old(disconnectCalls)
      ensures onDisconnectCalls == old(onDisconnectCalls) && chatOpenNotices == old(chatOpenNotices)
      ensures deviceErrors == old(deviceErrors)
    {
      isSendingMessage := false;
      sendsInFlight := sendsInFlight - 1;
    }

    /**
     * The leave button, enabled only while not disconnecting; `onLeave`, up to the await, marks
     * the bar disconnecting and asks the room to disconnect.
     */
    method Leave()
      requires Valid() && !isDisconnecting
      modifies this
      ensures Valid() && isDisconnecting && leaveInFlight
      ensures disconnectCalls == old(disconnectCalls) + 1 && onDisconnectCalls == old(onDisconnectCalls)
      ensures chatOpen == old(chatOpen) && isSendingMessage == old(isSendingMessage)
      ensures sendsInFlight == old(sendsInFlight) && sent == old(sent)
      ensures chatOpenNotices == old(chatOpenNotices) && deviceErrors == old(deviceErrors)
    {
      isDisconnecting := true;
      leaveInFlight := true;
      disconnectCalls := disconnectCalls + 1;
    }

    /** The disconnect completes: the flag is cleared, and only then `onDisconnect` runs. */
    method LeaveCompleted()
      requires Valid() && leaveInFlight
      modifies this
      ensures Valid() && !isDisconnecting && !leaveInFlight
      ensures onDisconnectCalls == old(onDisconnectCalls) + 1 && disconnectCalls == old(disconnectCalls)
      ensures chatOpen == old(chatOpen) && isSendingMessage == old(isSendingMessage)
      ensures sendsInFlight == old(sendsInFlight) && sent == old(sent)
      ensures chatOpenNotices == old(chatOpenNotices) && deviceErrors == old(deviceErrors)
    {
      isDisconnecting := false;
      leaveInFlight := false;
      onDisconnectCalls := onDisconnectCalls + 1;
    }

    /**
     * The disconnect throws: with no `finally`, the bar stays disconnecting (its leave
     * button stays disabled) and `onDisconnect` is never called.
     */
    method LeaveFailed()
      requires Valid() && leaveInFlight
      modifies this
      ensures Valid() && isDisconnecting && !leaveInFlight
      ensures onDisconnectCalls == old(onDisconnectCalls) && disconnectCalls == old(disconnectCalls)
      ensures chatOpen == old(chatOpen) && isSendingMessage == old(isSendingMessage)
      ensures sendsInFlight == old(sendsInFlight) && sent == old(sent)
      ensures chatOpenNotices == old(chatOpenNotices) && deviceErrors == old(deviceErrors)
    {
      leaveInFlight := false;
    }

    /** A device select reports an error: it is forwarded tagged with its source, if a handler is given. */
    method DeviceSelectError(kind: DeviceKind, e: ErrorInfo, hasHandler: bool)
      requires Valid()
      modifies this
      ensures Valid()
      ensures deviceErrors == old(deviceErrors) + (if hasHandler then [TagDeviceError(kind, e)] else [])
      ensures chatOpen == old(chatOpen) && isSendingMessage == old(isSendingMessage)
      ensures isDisconnecting == old(isDisconnecting) && sendsInFlight == old(sendsInFlight)
      ensures leaveInFlight == old(leaveInFlight) && sent == old(sent) && disconnectCalls == old(disconnectCalls)
      ensures onDisconnectCalls == old(onDisconnectCalls) && chatOpenNotices == old(chatOpenNotices)
    {
      if hasHandler {
        deviceErrors := deviceErrors + [TagDeviceError(kind, e)];
      }
    }
  }
}
