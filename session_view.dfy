/**
 * The in-call view (frontend/components/session-view.tsx): the agent-availability rule,
 * the readiness watchdog that ends a session whose agent never becomes available, the
 * transcript export on leave, and the pre-connect hint.
 */
module SessionView {
  import opened Common

  /** The agent's state as the voice-assistant hook reports it. */
  datatype AgentState =
    | Disconnected | Connecting | PreConnectBuffering | Failed
    | Initializing | Listening | Thinking | Speaking

  /** `isAgentAvailable`. */
  predicate IsAgentAvailable(s: AgentState) {
    s == Listening || s == Thinking || s == Speaking
  }

  /** The agent is available exactly once it has finished joining and initializing. */
  lemma AvailabilityByState(s: AgentState)
    ensures IsAgentAvailable(s) <==> !(s.Disconnected? || s.Connecting? || s.PreConnectBuffering? || s.Failed? || s.Initializing?)
  {
  }

  const WATCHDOG_MS: nat := 20000
  const SESSION_ENDED_TITLE: string := "Session ended"
  const NOT_JOINED_REASON: string := "Agent did not join the room. "
  const NOT_INITIALIZED_REASON: string := "Agent connected but did not complete initializing. "
  /** The rendered text after the reason: the quickstart link and a full stop. */
  const QUICKSTART_TAIL: string := "See quickstart guide."

  /** The reason the watchdog gives: the agent never joined, or joined and never finished initializing. */
  function WatchdogReason(s: AgentState): (reason: string)
    ensures reason == NOT_JOINED_REASON <==> s == Connecting
    ensures reason == NOT_JOINED_REASON || reason == NOT_INITIALIZED_REASON
  {
    if s == Connecting then NOT_JOINED_REASON else NOT_INITIALIZED_REASON
  }

  /** The watchdog's notification for an agent stuck in `s`. */
  function WatchdogToast(s: AgentState): (t: Toast)
    ensures t.title == SESSION_ENDED_TITLE
    ensures t.description == WatchdogReason(s) + QUICKSTART_TAIL
  {
    Toast(SESSION_ENDED_TITLE, WatchdogReason(s) + QUICKSTART_TAIL)
  }

  /**
   * The watchdog effect. Its dependencies are the agent state and `sessionStarted`: any
   * change clears the pending timer and, while the session is started, arms a new one.
   * Time passes through `Elapse`.
   */
  class Watchdog {
    var agentState: AgentState
    var sessionStarted: bool
    var now: nat
    /** When the effect last ran. */
    var armedAt: nat
    /** The pending timer's deadline. */
    var deadline: Option<nat>
    var toasts: seq<Toast>
    var disconnectRequests: nat

    /** A timer is pending exactly while the session is started and it has not fired yet. */
    predicate Valid()
      reads this
    {
      && armedAt <= now
      && (deadline.Some? ==> sessionStarted && deadline.value == armedAt + WATCHDOG_MS && now < deadline.value)
    }

    constructor(agentState: AgentState, sessionStarted: bool, now: nat)
      ensures Valid() && this.agentState == agentState && this.sessionStarted == sessionStarted
      ensures this.now == now && armedAt == now
      ensures deadline == (if sessionStarted then Some(now + WATCHDOG_MS) else None)
      ensures toasts == [] && disconnectRequests == 0
    {
      this.agentState := agentState;
      this.sessionStarted := sessionStarted;
      this.now := now;
      armedAt := now;
      deadline := if sessionStarted then Some(now + WATCHDOG_MS) else None;
      toasts := [];
      disconnectRequests := 0;
    }

    /** A render with new inputs: if either changed, the effect clears its timer and runs again. */
    method Update(s: AgentState, started: bool)
      requires Valid()
      modifies this
      ensures Valid() && agentState == s && sessionStarted == started && now == old(now)
      ensures (s, started) == (old(agentState), old(sessionStarted)) ==>
        deadline == old(deadline) && armedAt == old(armedAt)
      ensures (s, started) != (old(agentState), old(sessionStarted)) ==>
        armedAt == now && deadline == (if started then Some(now + WATCHDOG_MS) else None)
      ensures toasts == old(toasts) && disconnectRequests == old(disconnectRequests)
    {
      if (s, started) != (agentState, sessionStarted) {
        agentState := s;
        sessionStarted := started;
        armedAt := now;
        deadline := if started then Some(now + WATCHDOG_MS) else None;
      }
    }

    /**
     * `ms` milliseconds pass. If the pending timer expires, it ends the session (a toast and
     * a disconnect) when the agent is unavailable, and does nothing otherwise.
     */
    method Elapse(ms: nat)
      requires Valid()
      modifies this
      ensures Valid() && now == old(now) + ms
      ensures agentState == old(agentState) && sessionStarted == old(sessionStarted) && armedAt == old(armedAt)
      ensures var fires := old(deadline).Some? && old(deadline).value <= now;
        && (fires ==> deadline == None)
        && (!fires ==> deadline == old(deadline))
        && (fires && !IsAgentAvailable(agentState) ==>
              toasts == old(toasts) + [WatchdogToast(agentState)] && disconnectRequests == old(disconnectRequests) + 1)
        && (!(fires && !IsAgentAvailable(agentState)) ==>
              toasts == old(toasts) && disconnectRequests == old(disconnectRequests))
    {
      now := now + ms;
      if deadline.Some? && deadline.value <= now {
        deadline := None;
        if !IsAgentAvailable(agentState) {
          toasts := toasts + [WatchdogToast(agentState)];
          disconnectRequests := disconnectRequests + 1;
        }
      }
    }
  }

  /**
   * Only an uninterrupted stretch ends a session: when the pending timer expires within the
   * next `ms` milliseconds, the session is started and neither input has changed for at
   * least 20 seconds by then (every change re-arms the timer and moves `armedAt`).
   */
  lemma WatchdogFiresOnlyAfterQuietPeriod(w: Watchdog, ms: nat)
    requires w.Valid() && w.deadline.Some? && w.deadline.value <= w.now + ms
    ensures w.sessionStarted && w.now + ms - w.armedAt >= WATCHDOG_MS
    ensures ms > 0
  {
  }

  // ----------------------------------------------------------- transcript export

  /** A chat or transcription entry as the chat hook returns it. */
  datatype ChatMessage = ChatMessage(id: string, timestamp: int, text: string)

  const WEBHOOK_PLACEHOLDER: string := "YOUR_N8N_WEBHOOK_URL"
  const WEBHOOK_SKIPPED_TEXT: string := "Webhook URL not configured, skipping transcript send"

  /** The webhook request: a JSON POST whose body holds the transcript. */
  datatype WebhookRequest = WebhookRequest(url: string, httpMethod: string, contentType: string, transcript: seq<ChatMessage>)

  /** How the request went: a response (ok or not), or a thrown error. */
  datatype FetchOutcome = Response(ok: bool, status: int, statusText: string) | Threw(error: string)

  /** One console line the handler writes. */
  datatype LogLine = ConsoleLog(text: string) | ConsoleError(text: string, detail: string)

  /** What leaving does with the transcript: the request sent, if any, and the console lines. */
  datatype ExportReport = ExportReport(request: Option<WebhookRequest>, logs: seq<LogLine>)

  /** The webhook URL is usable: set, non-empty, and not the placeholder. */
  predicate WebhookConfigured(url: Option<string>) {
    url.Some? && url.value != "" && url.value != WEBHOOK_PLACEHOLDER
  }

  /** The console lines for each outcome of the POST. */
  function ExportLogs(outcome: FetchOutcome): (logs: seq<LogLine>)
    ensures |logs| == 1
    ensures logs[0].ConsoleLog? <==> outcome.Response? && outcome.ok
  {
    match outcome
    case Response(ok, status, statusText) =>
      if ok then [ConsoleLog("Transcript successfully sent to webhook")]
      else [ConsoleError("Failed to send transcript to webhook:", statusText)]
    case Threw(e) => [ConsoleError("Error sending transcript to webhook:", e)]
  }

  /**
   * The `onDisconnect` handler: with messages and a configured URL, POST the transcript as
   * JSON and log the outcome; with messages and no usable URL, log that it is skipped;
   * without messages, do nothing. It always completes: no outcome is propagated.
   */
  function ExportTranscript(messages: seq<ChatMessage>, url: Option<string>, fetch: WebhookRequest -> FetchOutcome): (r: ExportReport)
    ensures r.request.Some? <==> |messages| > 0 && WebhookConfigured(url)
    ensures r.request.Some? ==> r.request.value == WebhookRequest(url.value, "POST", "application/json", messages)
    ensures r.request.Some? ==> r.logs == ExportLogs(fetch(r.request.value))
    ensures messages == [] ==> r.logs == []
    ensures |messages| > 0 && !WebhookConfigured(url) ==> r.logs == [ConsoleLog(WEBHOOK_SKIPPED_TEXT)]
  {
    if |messages| == 0 then ExportReport(None, [])
    else if WebhookConfigured(url) then
      var request := WebhookRequest(url.value, "POST", "application/json", messages);
      ExportReport(Some(request), ExportLogs(fetch(request)))
    else ExportReport(None, [ConsoleLog(WEBHOOK_SKIPPED_TEXT)])
  }

  /** The placeholder URL and the empty URL never receive a transcript, whatever the messages. */
  lemma PlaceholderNeverPosted(messages: seq<ChatMessage>, fetch: WebhookRequest -> FetchOutcome)
    ensures ExportTranscript(messages, Some(WEBHOOK_PLACEHOLDER), fetch).request == None
    ensures ExportTranscript(messages, Some(""), fetch).request == None
    ensures ExportTranscript(messages, None, fetch).request == None
  {
  }

  // ---------------------------------------------------------------- debug mode

  /**
   * The debug-mode switch as written: it tests an environment variable named `NODE_END`,
   * which is not the build's mode variable, so it is on in a production build.
   */
  function DebugModeAsWritten(env: map<string, string>): bool {
    !("NODE_END" in env && env["NODE_END"] == "production")
  }

  /** A production build (`NODE_ENV` set to "production", no `NODE_END`) still turns debug mode on. */
  lemma DebugModeOnInProduction()
    ensures DebugModeAsWritten(map["NODE_ENV" := "production"])
  {
  }

  /** The intended switch: debug mode off exactly in a production build. */
  function DebugMode(env: map<string, string>): (enabled: bool)
    ensures !enabled <==> "NODE_ENV" in env && env["NODE_ENV"] == "production"
  {
    !("NODE_ENV" in env && env["NODE_ENV"] == "production")
  }

  /** The intended switch turns debug mode off for a production build, unlike the one written. */
  lemma DebugModeOffInProduction()
    ensures !DebugMode(map["NODE_ENV" := "production"])
    ensures DebugModeAsWritten(map["NODE_ENV" := "production"]) != DebugMode(map["NODE_ENV" := "production"])
  {
  }
}
