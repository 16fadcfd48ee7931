/** The icon a media-track toggle button shows (frontend/components/livekit/track-toggle.tsx). */
module TrackToggle {
  import opened Common

  /** `Track.Source` of the media library. */
  datatype Source = Microphone | Camera | ScreenShare | ScreenShareAudio | Unknown

  /** The icon components the toggle can render; `Fragment` renders nothing. */
  datatype Icon =
    | Spinner
    | MicrophoneIcon | MicrophoneSlash
    | VideoCamera | VideoCameraSlash
    | MonitorArrowUp
    | Fragment

  /** `getSourceIcon(source, enabled, pending)`. */
  function GetSourceIcon(source: Source, enabled: bool, pending: bool): (icon: Icon)
    ensures icon == Spinner <==> pending
  {
    if pending then Spinner
    else match source
      case Microphone => if enabled then MicrophoneIcon else MicrophoneSlash
      case Camera => if enabled then VideoCamera else VideoCameraSlash
      case ScreenShare => MonitorArrowUp
      case _ => Fragment
  }

  /** The track an icon depicts, if any: an independent reading of the icon set. */
  function DepictedSource(icon: Icon): Option<Source> {
    match icon
    case MicrophoneIcon | MicrophoneSlash => Some(Microphone)
    case VideoCamera | VideoCameraSlash => Some(Camera)
    case MonitorArrowUp => Some(ScreenShare)
    case _ => None
  }

  /** The on/off state an icon depicts, if it depicts one. */
  function DepictedEnabled(icon: Icon): Option<bool> {
    match icon
    case MicrophoneIcon | VideoCamera => Some(true)
    case MicrophoneSlash | VideoCameraSlash => Some(false)
    case _ => None
  }

  /**
   * When nothing is pending, the icon shows the right track and, for the microphone
   * and the camera, the right on/off state; screen share shows no state, and every
   * other source shows nothing.
   */
  lemma IconDepictsTrack(source: Source, enabled: bool)
    ensures var icon := GetSourceIcon(source, enabled, false);
      && (source in {Microphone, Camera} ==>
            DepictedSource(icon) == Some(source) && DepictedEnabled(icon) == Some(enabled))
      && (source == ScreenShare ==> icon == MonitorArrowUp && DepictedEnabled(icon) == None)
      && (source !in {Microphone, Camera, ScreenShare} ==> icon == Fragment)
  {
  }

  /** The icon a `TrackToggle` renders: an absent `pressed` or `pending` counts as false. */
  function ToggleIcon(source: Source, pressed: Option<bool>, pending: Option<bool>): (icon: Icon)
    ensures icon == Spinner <==> pending == Some(true)
    ensures pending != Some(true) ==> icon == GetSourceIcon(source, pressed == Some(true), false)
  {
    GetSourceIcon(source, pressed.GetOr(false), pending.GetOr(false))
  }

  /** The class list of the icon: the spin animation is added only while pending. */
  function IconClasses(pending: Option<bool>): (classes: seq<string>)
    ensures "w-5 h-5" in classes
    ensures "animate-spin" in classes <==> pending == Some(true)
  {
    ["w-5 h-5"] + (if pending == Some(true) then ["animate-spin"] else [])
  }
}
