/** Types shared by the models of the front end and the agent back end. */
module Common {

  /** A value that may be absent (`undefined`/`null` in TypeScript, `None` in Python). */
  datatype Option<+T> = None | Some(value: T) {
    function GetOr(default: T): T {
      match this
      case Some(v) => v
      case None => default
    }
  }

  /** A JavaScript `Error`, reduced to the two fields the notifications print. */
  datatype ErrorInfo = ErrorInfo(name: string, message: string)

  /** A user-visible notification raised through `toastAlert`. */
  datatype Toast = Toast(title: string, description: string)

  /** The description every error toast uses: `${error.name}: ${error.message}`. */
  function Describe(e: ErrorInfo): string {
    e.name + ": " + e.message
  }

  function Last<T>(s: seq<T>): T
    requires |s| > 0
  {
    s[|s| - 1]
  }

  /** The LiveKit room's connection state, as `room.state` reports it. */
  datatype RoomState = RoomDisconnected | RoomConnecting | RoomConnected | RoomReconnecting

  /** What the connection-details endpoint returns: the server to join and the token to join with. */
  datatype ConnectionDetails = ConnectionDetails(serverUrl: string, participantToken: string)

  const CONNECT_ERROR_TITLE: string := "There was an error connecting to the agent"
  const MEDIA_ERROR_TITLE: string := "Encountered an error with your media devices"
}
