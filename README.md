# Travel voice assistant: a verified model of its decision logic

This project models the decision logic of a LiveKit travel voice assistant.
- **Backend.** A LangGraph agent (`agent.py`) loops between a chat model and two SerpAPI search tools (`flights_finder`, `hotels_finder`). The agent answers chat messages that arrive in a LiveKit room.
- **Frontend.** A Next.js app:
  - connects the room when a session starts;
  - watches that the agent joins;
  - exports the transcript when the user leaves;
  - offers a control bar with microphone, camera, screen-share and chat controls, a chat box, a device picker and a theme switch.
- **Stand-alone page.** It simulates a whole call with timers.

The model is Dafny. Pure code (icon choice, device filtering, request building, routing, guards) becomes functions with contracts and lemmas. Code that updates state step by step becomes classes whose methods carry `modifies` clauses and state the complete new state. This covers React components with their state and effects, the simulated call and the tool loop.

Whatever the code cannot see becomes a parameter:
- the chat model;
- the tool invocation;
- the search call;
- `fetch`;
- the media query;
- the browser's answers to camera requests.

Timers, promise completions and effect re-runs become explicit event methods, such as `ConnectTimerFires`, `MicrophoneRejected` and `Elapse`.

JavaScript string handling is modelled exactly where a property depends on it:
- `trim` uses the ECMAScript white-space set;
- `replace(/\n/g, '')`;
- `replace(/\s+/g, ' ')`.

Python slicing (`[:5]`), the truthiness of an environment variable and `' '.join` are modelled the same way.

Two facts about the code shape the model:
- The connection lifecycle is the connect effect in `app.tsx` with its `aborted` flag. The code has no separate credential-acquisition states and no coalescing of credential requests.
- The transcript is exported from the control bar's leave path only. It is not exported on every room disconnect.

## Model

| member | source | states |
|---|---|---|
| JsStrings.LeadingWhitespace | frontend/components/theme-toggle.tsx:25 | The count covers exactly the white space that opens the string: every counted character is white space, and the next one is not. |
| JsStrings.TrailingWhitespace | frontend/components/theme-toggle.tsx:25 | The mirror image: exactly the white-space run that closes the string. |
| JsStrings.TrimStart | frontend/components/theme-toggle.tsx:25 | The result is a suffix of the input. It starts with a non-white-space character or is empty. Everything dropped is white space. |
| JsStrings.TrimEnd | frontend/components/theme-toggle.tsx:25 | The mirror image of `TrimStart`: a prefix, ending in non-white-space or empty, with only white space dropped. |
| JsStrings.Trim | frontend/components/theme-toggle.tsx:25 | `String.prototype.trim`: the leading white-space run removed, then the trailing one. TrimmedEnds, TrimEmptyIff and TrimKeepsVisible state what it keeps. |
| JsStrings.TrimEmptyIff | frontend/components/livekit/chat/chat-input.tsx:18 | `trim()` gives the empty string exactly when every character is white space. |
| JsStrings.TrimStartKeepsVisible | frontend/components/theme-toggle.tsx:25 | Dropping leading white space keeps every non-white-space character, in order. |
| JsStrings.TrimEndKeepsVisible | frontend/components/theme-toggle.tsx:25 | Dropping trailing white space keeps every non-white-space character, in order. |
| JsStrings.TrimKeepsVisible | frontend/components/theme-toggle.tsx:25 | Trimming keeps every non-white-space character, in order. |
| JsStrings.RemoveNewlines | frontend/components/theme-toggle.tsx:26 | No line feed is left. A single character is dropped exactly when it is a line feed. The visible characters are unchanged, and the first and last characters are kept when they are not line feeds. |
| JsStrings.RemoveNewlinesKeepsPlainText | frontend/components/theme-toggle.tsx:26 | Text without line feeds is returned unchanged. |
| JsStrings.RemoveNewlinesAppend | frontend/components/theme-toggle.tsx:26 | Removing line feeds works piecewise over concatenation. With the single-character case this pins the result: every character other than a line feed is kept, in order. |
| JsStrings.CollapseWhitespace | frontend/components/theme-toggle.tsx:27 | The only white space left is single spaces, never two in a row. Emptiness and white space at either end are preserved. |
| JsStrings.CollapseKeepsVisible | frontend/components/theme-toggle.tsx:27 | Collapsing white space keeps every non-white-space character, in order. |
| JsStrings.LayoutOfLeadingRun | frontend/components/theme-toggle.tsx:27 | A leading white-space run counts as one gap, whatever its length. |
| JsStrings.CollapseKeepsLayout | frontend/components/theme-toggle.tsx:27 | Collapsing keeps the layout: the same visible characters, with a gap between two of them exactly where the input had white space. |
| JsStrings.CollapsedLayoutDetermines | frontend/components/theme-toggle.tsx:27 | Two strings whose white space is single spaces, never adjacent, are equal when their layouts are. |
| JsStrings.CollapseIsUniqueCollapsedLayout | frontend/components/theme-toggle.tsx:27 | The result is the one collapsed string with the input's layout: exactly one space between visible characters that white space separated, none between those it did not. |
| TrackToggle.GetSourceIcon | frontend/components/livekit/track-toggle.tsx:22-37 | The spinner appears exactly when pending. |
| TrackToggle.IconDepictsTrack | frontend/components/livekit/track-toggle.tsx:27-36 | When not pending, a microphone or camera icon shows its source and on/off state (a round trip). Screen share always shows the monitor icon; any other source shows nothing. |
| TrackToggle.ToggleIcon | frontend/components/livekit/track-toggle.tsx:40 | An absent `pressed` counts as off. The spinner shows exactly when `pending` is true. |
| TrackToggle.IconClasses | frontend/components/livekit/track-toggle.tsx:59-62 | The spin class is present exactly when `pending` is true. |
| DeviceSelect.ListedItems | frontend/components/livekit/device-select.tsx:99-104 | The items are exactly the devices with a non-empty id. Key and value both equal the id. |
| DeviceSelect.ListedItemsAppend | frontend/components/livekit/device-select.tsx:99-100 | Filtering distributes over concatenation, so the devices' relative order is kept. |
| DeviceSelect.EffectiveSize | frontend/components/livekit/device-select.tsx:61 | The size defaults to `default`. |
| DeviceSelect.ShowsValueLabel | frontend/components/livekit/device-select.tsx:92 | The value label is shown exactly when the size is not `sm`. |
| DeviceSelect.DeviceSelectState.constructor | frontend/components/livekit/device-select.tsx:64 | The permission flag starts at the prop, which may be undefined. |
| DeviceSelect.DeviceSelectState.SetOpen | frontend/components/livekit/device-select.tsx:77-81 | Opening latches the permission flag to true. Closing never resets it. |
| ChatInput.HasText | frontend/components/livekit/chat/chat-input.tsx:18 | The trimmed text is non-empty exactly when some character is not white space. |
| ChatInput.SendDisabled | frontend/components/livekit/chat/chat-input.tsx:24 | The send button is disabled exactly when the box is disabled or all white space. |
| ChatInput.ChatInputState.constructor | frontend/components/livekit/chat/chat-input.tsx:13 | The box starts empty. |
| ChatInput.ChatInputState.Edit | frontend/components/livekit/chat/chat-input.tsx:51 | Typing replaces the text verbatim. |
| ChatInput.ChatInputState.Submit | frontend/components/livekit/chat/chat-input.tsx:15-22 | `onSubmit` runs on every submit. Non-blank text is sent untrimmed and the box is cleared. Blank text sends nothing and the box is left as it was. |
| ThemeToggle.ResolvedClass | frontend/components/theme-toggle.tsx:35-43 | The result is `dark` or `light`. `system` gives `dark` exactly when the media query matches; any other theme gives its own name. |
| ThemeToggle.ThemeDocument.constructor | frontend/components/theme-toggle.tsx:55 | The toggle starts with no theme and the document as given. |
| ThemeToggle.ThemeDocument.RunThemeScript | frontend/components/theme-toggle.tsx:8-27 | The inline script as shipped adds the class of the stored theme (default `system`) and removes nothing. It leaves `data-theme-loaded` as it was, because the `setAttribute` call sits inside the preceding `//` comment once line feeds are removed. |
| ThemeToggle.ThemeDocument.RunIntendedThemeScript | frontend/components/theme-toggle.tsx:22-23 | The script as intended: the same class, and the loaded flag set. |
| ThemeToggle.ThemeDocument.ApplyTheme | frontend/components/theme-toggle.tsx:29-44 | Afterwards exactly one of `dark`/`light` is present and every other class is kept. The theme is stored verbatim. |
| ThemeToggle.ThemeDocument.Mount | frontend/components/theme-toggle.tsx:57-68 | The stored theme (default `system`) is re-applied, and written to storage, exactly when the loaded flag is unset. It then becomes the toggle's state. |
| ThemeToggle.ThemeDocument.LoadPage | frontend/components/theme-toggle.tsx:8-68 | A page load as shipped (the script, then the mount) on a page without the flag always re-applies the theme: exactly one of `dark`/`light` remains, and the theme (default `system`) is stored. |
| ThemeToggle.ThemeDocument.LoadPageIntended | frontend/components/theme-toggle.tsx:8-68 | With the intended script, the script alone applies the theme and sets the flag. The mount leaves the classes and the storage as the script left them, and records the stored theme. |
| ThemeToggle.ThemeDocument.HandleThemeChange | frontend/components/theme-toggle.tsx:70-73 | It applies and records the same theme, leaving exactly one of `dark`/`light`. |
| ThemeToggle.NormalizeScript | frontend/components/theme-toggle.tsx:24-27 | The script text's normalisation: trimmed, then line feeds removed, then white-space runs collapsed, in that order. The Normalized lemmas state its properties. |
| ThemeToggle.NormalizedScriptIsOneLine | frontend/components/theme-toggle.tsx:24-27 | The normalised script has no line feed, no run of white space and no white space at either end. It keeps every non-white-space character in order. |
| ThemeToggle.NormalizedHasNoNewline | frontend/components/theme-toggle.tsx:24-27 | No line feed is left in the normalised script. |
| ThemeToggle.NormalizedEnds | frontend/components/theme-toggle.tsx:24-27 | The normalised script neither starts nor ends with white space. |
| ThemeToggle.NormalizedKeepsVisible | frontend/components/theme-toggle.tsx:24-27 | Normalising keeps every non-white-space character of the template, in order. |
| ThemeToggle.NormalizedKeepsLayout | frontend/components/theme-toggle.tsx:24-27 | The normalised script has the layout of the trimmed text without line feeds: one space exactly where that text had white space between visible characters. |
| ThemeToggle.NormalizedHasNoLineTerminator | frontend/components/theme-toggle.tsx:24-27 | No JavaScript line terminator is left, so a `//` comment in the normalised script runs to its end. |
| ThemeToggle.NewlineRemovalJoinsCommentToNextLine | frontend/components/theme-toggle.tsx:22-26 | Removing line feeds puts the line after a `//` comment on the comment's line, right after the comment text. |
| ThemeToggle.TrimmedEnds | frontend/components/theme-toggle.tsx:25 | The trimmed text neither starts nor ends with white space. |
| SerpApi.Guard | backend/livekit-voice-agent/tools/flights_finder.py:42-46 | The missing library is reported before the missing API key. An empty key counts as missing. The guard passes exactly when both are present. |
| FlightsFinder.FlightSearchParams | backend/livekit-voice-agent/tools/flights_finder.py:48-63 | The request has exactly the fourteen keys, and the API key is the environment's. |
| FlightsFinder.FlightSearchFixedValues | backend/livekit-voice-agent/tools/flights_finder.py:48-63 | Engine, language, country, currency and stops take their fixed values for every input. |
| FlightsFinder.FlightSearchCopiesInput | backend/livekit-voice-agent/tools/flights_finder.py:53-62 | Airports, dates and passenger counts can be read back unchanged from the request (a round trip). |
| FlightsFinder.FlightDefaults | backend/livekit-voice-agent/tools/flights_finder.py:24-27 | Omitted counts default to 1 adult, 0 children and 0 infants of each kind. |
| FlightsFinder.FindFlights | backend/livekit-voice-agent/tools/flights_finder.py:42-73 | A failed guard returns its error. A listing happens exactly after a successful search, and it is then `best_flights` under the key `flights`, or empty when that key is absent. A search exception becomes the error text. |
| FlightsFinder.FlightGuardsSkipSearch | backend/livekit-voice-agent/tools/flights_finder.py:42-46 | With a failed guard the result does not depend on the search. |
| HotelsFinder.HotelSearchParams | backend/livekit-voice-agent/tools/hotels_finder.py:49-63 | The request has exactly the thirteen keys, and the API key is the environment's. |
| HotelsFinder.HotelSearchFixedValues | backend/livekit-voice-agent/tools/hotels_finder.py:49-63 | Engine, language, country and currency take their fixed values for every input. |
| HotelsFinder.HotelSearchCopiesInput | backend/livekit-voice-agent/tools/hotels_finder.py:54-62 | Location, dates, counts, sort order and hotel class can be read back unchanged from the request. |
| HotelsFinder.HotelDefaults | backend/livekit-voice-agent/tools/hotels_finder.py:24-26 | Omitted counts default to 1 adult, 0 children and 1 room. |
| HotelsFinder.TopHotels | backend/livekit-voice-agent/tools/hotels_finder.py:69 | `[:5]` returns the prefix of length min(5, n). |
| HotelsFinder.FindHotels | backend/livekit-voice-agent/tools/hotels_finder.py:43-73 | A failed guard returns its error. A listing happens exactly after a successful search, and it is then the first five `properties` under the key `hotels`. A search exception becomes the error text. |
| HotelsFinder.HotelListingIsShortPrefix | backend/livekit-voice-agent/tools/hotels_finder.py:65-69 | Any listing is a prefix of the search's properties, at most five long, and empty when the key is missing. |
| HotelsFinder.HotelGuardsSkipSearch | backend/livekit-voice-agent/tools/hotels_finder.py:43-47 | With a failed guard the result does not depend on the search. |
| TravelAgent.ExistsAction | backend/livekit-voice-agent/agent.py:133-142 | The route is `more_tools` exactly when the last message is an AI message with at least one tool call. |
| TravelAgent.ToolMessageFor | backend/livekit-voice-agent/agent.py:184 | The answer is a tool message carrying the call's id and name. |
| TravelAgent.ToolAnswerContent | backend/livekit-voice-agent/agent.py:166-184 | An unknown name is answered "bad tool name, retry". A tool that raises is answered "Error invoking tool: " followed by its message. Otherwise the answer is the tool's result. |
| TravelAgent.Answers | backend/livekit-voice-agent/agent.py:163-186 | There is one answer per call, and every answer is a tool message. |
| TravelAgent.AnswersInCallOrder | backend/livekit-voice-agent/agent.py:164-184 | The i-th answer answers the i-th call. |
| TravelAgent.AnswersAppend | backend/livekit-voice-agent/agent.py:164-184 | Answering one more call appends exactly that call's answer. |
| TravelAgent.ToolResults | backend/livekit-voice-agent/agent.py:155-186 | The tool node gives one answer per pending call. |
| TravelAgent.RegisteredCalls | backend/livekit-voice-agent/agent.py:166-176 | The calls that reach a tool are at most all the calls. |
| TravelAgent.RegisteredCallsMembers | backend/livekit-voice-agent/agent.py:166-168 | A call reaches a tool exactly when it names a registered tool, so an unknown name invokes nothing. |
| TravelAgent.AnswerCall | backend/livekit-voice-agent/agent.py:166-184 | One iteration answers the call with its tool message. It reaches a tool exactly when the name is registered. |
| TravelAgent.AnswerAll | backend/livekit-voice-agent/agent.py:163-186 | The loop's output is the answers to all calls, in order. The invoked tools are exactly the registered calls, and an exception in one call does not stop the rest. |
| TravelAgent.InvokeTools | backend/livekit-voice-agent/agent.py:155-186 | The node's output equals `ToolResults`: nothing unless the last message is an AI message, otherwise the answers to its calls. The invoked tools are exactly its registered calls. |
| TravelAgent.RouteMatchesToolNode | backend/livekit-voice-agent/agent.py:155-160 | The tool node answers something exactly when the router chooses it. When the last message is not an AI message it answers nothing. |
| TravelAgent.LlmInput | backend/livekit-voice-agent/agent.py:149-153 | The model receives the system prompt followed by the whole history. |
| TravelAgent.FormatResponseNode | backend/livekit-voice-agent/agent.py:144-147 | The node appends one bare value: the last message's content, or the fixed text for an empty history. |
| TravelAgent.Round | backend/livekit-voice-agent/agent.py:121-129 | One pass through the LLM node. A model failure fails the run. A reply that asks for tools goes to the tool node and loops back. Any other reply goes to `format_response` and ends the run. |
| TravelAgent.RoundAppendsOnly | backend/livekit-voice-agent/agent.py:127-129 | One round only appends to the state and adds no system message. A looping round adds exactly the model's reply and then the tool node's answers to the state ending in that reply. An ending round adds a reply without tool calls, then that reply's content. |
| TravelAgent.RunGraph | backend/livekit-voice-agent/agent.py:121-131 | The compiled graph from its entry node `call_tools_llm`: rounds until one ends the run or fails, or the recursion limit (the fuel) is reached. |
| TravelAgent.RunGraphAppendsOnly | backend/livekit-voice-agent/agent.py:121-131 | A finished run extends its input history (`operator.add`) by at least two entries and adds no system message. |
| TravelAgent.RunGraphEndsWithAnswer | backend/livekit-voice-agent/agent.py:121-131 | A finished run ends with a final AI reply that has no tool calls, followed by that reply's content. |
| TravelAgent.FlattenContent | backend/livekit-voice-agent/agent.py:211-220 | String content as is; list content as its parts joined with single spaces. SplitUndoesJoin reads the parts back. |
| TravelAgent.SplitUndoesJoin | backend/livekit-voice-agent/agent.py:211-220 | Splitting on spaces undoes `' '.join` of parts without spaces, so flattening keeps the parts apart. |
| TravelAgent.OnChatReceived | backend/livekit-voice-agent/agent.py:203-250 | Something is published exactly when the room exists. |
| TravelAgent.ChatInput | backend/livekit-voice-agent/agent.py:222-224 | The graph's input: the checkpointed history followed by one human message holding the flattened text. |
| TravelAgent.ResponseText | backend/livekit-voice-agent/agent.py:232-238 | The published text of the final value: a string as is, a list as its `str()`, which is a parameter. |
| TravelAgent.Publish | backend/livekit-voice-agent/agent.py:232-250 | Something is published exactly when the room exists. |
| TravelAgent.ChatReplyIsLastAnswer | backend/livekit-voice-agent/agent.py:232-244 | With a room, a finished run publishes the content of the model's final reply: its text, or the `str()` of its list of parts. |
| TravelAgent.ChatFailureIsApology | backend/livekit-voice-agent/agent.py:246-250 | With a room, a run that raises publishes the apology carrying the error message. |
| CallSimulator.MicrophoneNotice | frontend/travel-voice-assistant-app.tsx:116 | The notice says "enabled" exactly when the microphone was off before the toggle, and "muted" otherwise. |
| CallSimulator.StartVideoStreamRequests | frontend/travel-voice-assistant-app.tsx:78-80 | The guard of `startVideoStream` as written: the camera is requested only when the `<video>` element is mounted and the browser has media devices. |
| CallSimulator.StartVideoStreamNeverRequests | frontend/travel-voice-assistant-app.tsx:78-91 | In every reachable screen, `startVideoStream` as written requests nothing at either call site: while the connect timer is pending the call is not active, and at the toggle video is still off. The intended rule would request the camera when the timer's captured flag is on. |
| CallSimulator.Screen.constructor | frontend/travel-voice-assistant-app.tsx:20-31 | The initial state: disconnected, initializing, microphone on, video off, no messages. |
| CallSimulator.Screen.StartCall | frontend/travel-voice-assistant-app.tsx:51-54 | Connecting replaces the transcript with the connecting line and arms the timer. The timer captures the current video flag. |
| CallSimulator.Screen.ConnectTimerFires | frontend/travel-voice-assistant-app.tsx:55-67 | Connected and active, the agent listening, the connected line and greeting appended. The camera request follows the corrected rule: it is made when the captured flag was on, where `startVideoStream` as written would request nothing. |
| CallSimulator.Screen.EndCall | frontend/travel-voice-assistant-app.tsx:70-76 | Disconnected and inactive, the agent back to initializing, "Call ended" appended, the stream stopped. |
| CallSimulator.Screen.ToggleVideo | frontend/travel-voice-assistant-app.tsx:101-109 | The flag flips. The camera request follows the corrected rule: turning video on during a call requests it, where `startVideoStream` as written would request nothing. Turning it off stops the stream. |
| CallSimulator.Screen.ToggleMic | frontend/travel-voice-assistant-app.tsx:111-120 | The flag flips. During a call the notice is appended. |
| CallSimulator.Screen.SimulateUserMessage | frontend/travel-voice-assistant-app.tsx:123-137 | One of the four fixed sentences is appended. The agent thinks and a reply timer is armed. |
| CallSimulator.Screen.ReplyTimerFires | frontend/travel-voice-assistant-app.tsx:138-148 | The agent speaks one of the four fixed answers, and a listen timer is armed. |
| CallSimulator.Screen.ListenTimerFires | frontend/travel-voice-assistant-app.tsx:149-151 | The agent listens again. |
| CallSimulator.Screen.CameraGranted | frontend/travel-voice-assistant-app.tsx:81-85 | The stream is attached only if the video element is mounted when it arrives. |
| CallSimulator.Screen.CameraDenied | frontend/travel-voice-assistant-app.tsx:86-89 | A refusal switches video off. |
| CallSimulator.Screen.PressCallButton | frontend/travel-voice-assistant-app.tsx:340-342 | While connecting nothing changes. When connected, the complete state of ending the call; when disconnected, the complete state of starting one. |
| CallSimulator.Screen.PressMicButton | frontend/travel-voice-assistant-app.tsx:328-329 | Outside a call nothing changes. During a call the microphone flips and the enabled or muted notice is appended, all else unchanged. |
| CallSimulator.Screen.PressVideoButton | frontend/travel-voice-assistant-app.tsx:359-360 | Outside a call nothing changes. During a call video flips. Turning it on requests the camera exactly when media devices exist; turning it off stops the stream. All else is unchanged. |
| CallSimulator.Screen.PressSimulateButton | frontend/travel-voice-assistant-app.tsx:376-378 | Outside a call nothing changes. During a call the chosen sentence is appended, the agent thinks and one reply timer is armed, all else unchanged. |
| AppShell.ShouldConnect | frontend/components/app.tsx:57 | The connect effect's guard: the session is started and the room is disconnected. |
| AppShell.StartRun | frontend/components/app.tsx:57-64 | A run requests the microphone and the credentials (then connect) exactly when the session is started and the room is disconnected. |
| AppShell.ConnectFailureToast | frontend/components/app.tsx:65-79 | A failure of a cleaned-up run is dropped. Any other failure becomes the connect-error toast with `name: message`. |
| AppShell.RejectionToasts | frontend/components/app.tsx:58-79 | A rejection shows the connect-error toast exactly when it is the first rejection of the run's `Promise.all` and the run was not cleaned up. |
| AppShell.App.constructor | frontend/components/app.tsx:29-85 | Mounting attaches the handlers and runs the connect effect once, with the session not started. |
| AppShell.App.SetSessionStarted | frontend/components/app.tsx:55-85 | A change aborts the live run, disconnects, and starts a new run (microphone with the configured buffer flag only if the guard holds). Setting the same value changes nothing. Every run but the last stays aborted. |
| AppShell.App.PressStart | frontend/components/app.tsx:94 | The session becomes started. If it was not, the live run is aborted and disconnected, and a new run requests the microphone exactly when the room is disconnected. Otherwise nothing changes. |
| AppShell.App.PressClose | frontend/components/app.tsx:108 | The session ends. If it was started, the live run is aborted and disconnected, and the new run requests nothing. Otherwise nothing changes. |
| AppShell.App.MicrophoneResolved | frontend/components/app.tsx:58-61 | The run's microphone promise resolves and nothing else changes. |
| AppShell.App.MicrophoneRejected | frontend/components/app.tsx:58-79 | The run settles, with a toast only on its first rejection and only if not aborted. The credentials-then-connect chain is left running. |
| AppShell.App.CredentialsResolved | frontend/components/app.tsx:62-64 | `room.connect` is called with the resolved details, even for an aborted run or one whose microphone request already rejected. |
| AppShell.App.CredentialsRejected | frontend/components/app.tsx:62-79 | No connect is made. The run settles, with a toast only on its first rejection and only if not aborted. |
| AppShell.App.ConnectResolved | frontend/components/app.tsx:62-64 | The run's connect promise resolves and nothing else changes. |
| AppShell.App.ConnectRejected | frontend/components/app.tsx:62-79 | The run settles, with a toast only on its first rejection and only if not aborted. |
| AppShell.App.RoomStateChanged | frontend/components/app.tsx:57 | The room state is not an effect dependency, so a change re-runs nothing. |
| AppShell.App.Disconnected | frontend/components/app.tsx:30-33 | The room is disconnected, the session ends and one refresh of the connection details is requested. If the session was started, the live run is aborted and disconnected and the new run requests nothing. Earlier runs are kept. |
| AppShell.App.MediaDevicesError | frontend/components/app.tsx:34-39 | While mounted, the media-error toast with `name: message`. |
| AppShell.App.EncryptionError | frontend/components/app.tsx:40-43 | While mounted, a console warning only; no toast. |
| AppShell.App.Unmount | frontend/components/app.tsx:48-52 | The handlers are detached, and the live run is aborted and disconnected. |
| RoomProvider.ShouldConnect | frontend/components/provider.tsx:21 | The provider effect's guard: the room is disconnected and connection details are at hand. |
| RoomProvider.Provider.RunEffect | frontend/components/provider.tsx:20-46 | With a disconnected room and details, the microphone (always with the pre-connect buffer) and a connect with those details. Then the handlers are attached. |
| RoomProvider.Provider.constructor | frontend/components/provider.tsx:17-53 | Mounting runs the effect once. |
| RoomProvider.Provider.DetailsChanged | frontend/components/provider.tsx:48-53 | New details disconnect and re-run the effect. The same details change nothing. |
| RoomProvider.Provider.RoomStateChanged | frontend/components/provider.tsx:21 | The room state is not an effect dependency. |
| RoomProvider.Provider.AttemptSucceeded | frontend/components/provider.tsx:22-26 | The attempt closes with no other effect. |
| RoomProvider.Provider.AttemptFailed | frontend/components/provider.tsx:27-32 | Every failure becomes the connect-error toast. There is no abort check. |
| RoomProvider.Provider.MediaDevicesError | frontend/components/provider.tsx:35-40 | While the handlers are attached, the media-error toast. |
| RoomProvider.Provider.EncryptionError | frontend/components/provider.tsx:41-44 | While the handlers are attached, a console warning only. |
| RoomProvider.Provider.Unmount | frontend/components/provider.tsx:48-52 | The handlers are detached and the room is disconnected. |
| SessionView.IsAgentAvailable | frontend/components/session-view.tsx:21-23 | The agent is available when it is listening, thinking or speaking. |
| SessionView.AvailabilityByState | frontend/components/session-view.tsx:21-23 | The agent is available exactly when listening, thinking or speaking. |
| SessionView.WatchdogReason | frontend/components/session-view.tsx:54-57 | "did not join" exactly when connecting; otherwise "did not complete initializing". |
| SessionView.WatchdogToast | frontend/components/session-view.tsx:59-75 | The toast is titled "Session ended" and gives the reason before the quickstart link. |
| SessionView.Watchdog.constructor | frontend/components/session-view.tsx:50-52 | A timer is armed 20000 ms ahead exactly when the session is started. |
| SessionView.Watchdog.Update | frontend/components/session-view.tsx:80-82 | Any change of agent state or session flag clears the timer and re-arms it only if the session is started. No change keeps the timer. |
| SessionView.Watchdog.Elapse | frontend/components/session-view.tsx:52-78 | A timer that expires ends the session (toast and disconnect) exactly when the agent is unavailable. It fires once. |
| SessionView.WatchdogFiresOnlyAfterQuietPeriod | frontend/components/session-view.tsx:50-82 | The timer expires only in a started session whose inputs have not changed for at least 20 s. |
| SessionView.ExportLogs | frontend/components/session-view.tsx:185-192 | A single success line exactly for an ok response. A non-ok response or a thrown error gives an error line. |
| SessionView.ExportTranscript | frontend/components/session-view.tsx:171-197 | The POST happens exactly when there are messages and the URL is set, non-empty and not the placeholder. It is a JSON POST of the transcript, whose outcome is only logged. With messages and no usable URL, the only log line is the skip notice. Without messages, nothing is logged. |
| SessionView.PlaceholderNeverPosted | frontend/components/session-view.tsx:177 | The placeholder, empty and missing URLs never receive the transcript. |
| SessionView.DebugModeAsWritten | frontend/components/session-view.tsx:43 | The debug switch as written: on unless `NODE_END` equals "production". |
| SessionView.DebugModeOnInProduction | frontend/components/session-view.tsx:42-44 | As written, a production build still enables debug mode. |
| SessionView.DebugMode | frontend/components/session-view.tsx:43 | The intended switch is off exactly in a production build. |
| SessionView.DebugModeOffInProduction | frontend/components/session-view.tsx:43 | The intended switch differs from the written one on a production build. |
| AgentControlBar.AnyAgent | frontend/components/livekit/agent-control-bar/agent-control-bar.tsx:45 | The agent is available exactly when some remote participant is an agent. |
| AgentControlBar.InputDisabled | frontend/components/livekit/agent-control-bar/agent-control-bar.tsx:46 | The input is enabled exactly when chat is open, no send is in flight and an agent is present. |
| AgentControlBar.Shown | frontend/components/livekit/agent-control-bar/agent-control-bar.tsx:110-225 | Chat input needs its capability. Camera and screen share need both capability and visibility. Microphone, chat toggle and leave follow visibility alone. |
| AgentControlBar.Disabled | frontend/components/livekit/agent-control-bar/agent-control-bar.tsx:133-229 | Each track toggle is disabled while pending. The chat toggle is disabled exactly when no participant is an agent, and leave while disconnecting. |
| AgentControlBar.OnlyCameraSpins | frontend/components/livekit/agent-control-bar/agent-control-bar.tsx:129-208 | Only the camera toggle passes `pending`, so only it spins. The microphone shows its on/off icon and screen share its monitor icon. |
| AgentControlBar.TagDeviceError | frontend/components/livekit/agent-control-bar/agent-control-bar.tsx:84-95 | The error is forwarded unchanged, tagged Microphone for the audio picker and Camera for the video picker. |
| AgentControlBar.ControlBar.constructor | frontend/components/livekit/agent-control-bar/agent-control-bar.tsx:42-48 | All flags start off. The chat-open effect reports `false` once. |
| AgentControlBar.ControlBar.SetChatOpen | frontend/components/livekit/agent-control-bar/agent-control-bar.tsx:80-82 | A change of `chatOpen` is reported to `onChatOpenChange`. |
| AgentControlBar.ControlBar.SendMessage | frontend/components/livekit/agent-control-bar/agent-control-bar.tsx:64-67 | The sending flag is set and the message passed on. |
| AgentControlBar.ControlBar.SendSettled | frontend/components/livekit/agent-control-bar/agent-control-bar.tsx:68-70 | The `finally` clears the sending flag whether the send resolved or threw. |
| AgentControlBar.ControlBar.Leave | frontend/components/livekit/agent-control-bar/agent-control-bar.tsx:73-75 | Pressable only while not disconnecting (line 229). The bar is marked disconnecting and the disconnect is called. |
| AgentControlBar.ControlBar.LeaveCompleted | frontend/components/livekit/agent-control-bar/agent-control-bar.tsx:76-77 | The flag is cleared, then `onDisconnect` is called once. `onDisconnect` never runs before a disconnect has completed. |
| AgentControlBar.ControlBar.LeaveFailed | frontend/components/livekit/agent-control-bar/agent-control-bar.tsx:73-78 | A thrown disconnect leaves the bar disconnecting. `onDisconnect` is not called. |
| AgentControlBar.ControlBar.DeviceSelectError | frontend/components/livekit/agent-control-bar/agent-control-bar.tsx:84-95 | The tagged error is forwarded when a handler is given. |

## Left out

- **External systems.** The LiveKit room internals, the chat model, speech-to-text, text-to-speech, voice-activity detection, SerpAPI's network call, `fetch`, `localStorage`, `matchMedia`, `getUserMedia` and the console. Each is a parameter, a nondeterministic event, or a recorded list of calls.
- **Hooks whose source is not part of this model.** `useConnectionDetails`, `useChatAndTranscription`, `useAgentControlBar`, `useVoiceAssistant`, `useRemoteParticipants`, `useMediaDeviceSelect` and `useDebugMode`. Their results are inputs.
- **Presentation.** Markup and class strings other than those stated above, animation parameters, auto-scroll, and the settings and expand panels of the stand-alone page. This includes the session view's "Agent is listening" hint, whose opacity follows the session flag and the message count. The audio level and visualizer bars are random floating-point visuals.
- **Random choices.** `Math.random` picks of the simulated sentences and answers are an index supplied by the caller.
- **Prompt texts.** The agent's system prompt and its dated instructions are opaque: a parameter.
- **Backend plumbing.** The agent session entrypoint, and the HTTP plumbing that forwards to the tools.
- **Tool-argument normalisation.** The conversion of a Pydantic model or other object into a dictionary is not modelled. Arguments are a dictionary.
- **Unreachable branches.** In both tools, the branch returning "SerpAPI is not available." inside the `try` cannot run once the first guard has passed. It is not modelled.
- **Tool registry.** The set of registered tool names is part of the runtime, so the tool node is proved for any registry. The chat hook requires the agent's own registry, `TOOL_NAMES`: the two search tools.
- TravelAgent.RunGraph: the graph's recursion limit is a `fuel` bound on LLM rounds. Reaching it fails with an error the caller supplies.
- TravelAgent.OnChatReceived: the checkpointed history of thread "1" is a parameter. What the checkpoint holds after a run that raised is not modelled.
- TravelAgent.ResponseText: the `str()` of a list-valued final answer is a parameter.
- SessionView.ExportLogs: the error line for a non-ok response keeps the status text but not the numeric status.
- SessionView.ExportTranscript: the JSON serialisation of the body is not modelled. The request carries the message list itself.
- **Camera tracks.** In the simulated call, stream tracks are not modelled: the tracks a stream keeps running after its video element unmounts, or after a late grant finds no element.
- **Overlapping sends.** A rejected send's error reaching the chat box, where it is not awaited, is not modelled.
- ThemeToggle.ThemeDocument.Mount: a stored value other than the three theme names is not modelled. The source casts it unchecked.
- ThemeToggle.ThemeDocument.RunThemeScript: the stored theme is one of the three names. The inline script adds any stored string as a class: a stored "foo" adds the class `foo`, and an empty string makes `classList.add` throw. Neither is modelled.
- AppShell.App: the handler effect's dependencies (the room and the refresh function) are taken as stable. The handlers are attached once, at mount.
- RoomProvider.Provider.DetailsChanged: connection details are compared by value. React compares the effect dependency by reference, so a refreshed details object with equal contents re-runs the effect in the source (a disconnect, then a new connect) but changes nothing in the model.
- **Reconnecting states.** The simulated `reconnecting` connection state is never set by the code and is not reachable in the model. The room's `reconnecting` state only feeds the connect guard.

## Findings

| source | as written | input that shows it | evidently intended | confidence | as-written member | corrected member |
|---|---|---|---|---|---|---|
| frontend/components/theme-toggle.tsx:22-26 | The template's comment line `// Prevent hydration issues …` is followed by the line that sets `data-theme-loaded`. Line 26 removes the line feeds, so that call becomes part of the comment and never runs. The mount's check at line 60 therefore always passes, and every page load re-applies the theme and writes it to storage. | Load any page with the theme toggle: after load the root element has no `data-theme-loaded` attribute, and storage holds `system` even if nothing was stored. | The script marks the theme as loaded, so the mount keeps what the script applied and does not write storage. | high; not executed | ThemeToggle.ThemeDocument.LoadPage | ThemeToggle.ThemeDocument.LoadPageIntended |
| frontend/travel-voice-assistant-app.tsx:79 | `startVideoStream` requests the camera only if the `<video>` element is mounted. The element is rendered only while video is on during a call (line 259). The toggle calls it while video is still off (line 104), and the connect timer while the call is not yet active (line 65). So the camera is never requested and the video panel stays empty. | Start a call, wait for the connection, press the video button. | Turning video on during a call, or connecting with video on, requests the camera and shows its stream. | high; not executed | CallSimulator.StartVideoStreamNeverRequests | CallSimulator.Screen.PressVideoButton |
| frontend/components/session-view.tsx:43 | Debug mode is enabled unless the `NODE_END` variable equals "production". That variable is not the build mode, so debug mode is always on. | A production build: `NODE_ENV` set to "production", no `NODE_END`. | Debug mode is off exactly in a production build, keyed on `NODE_ENV`. | high; not executed | SessionView.DebugModeOnInProduction | SessionView.DebugModeOffInProduction |
